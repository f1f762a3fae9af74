/**
  The object tables on both ends of the connection.

  The server numbers the driver's objects in the order in which it first sees them. The client keeps
  one handle per number, in a table of its own that it only ever indexes by the numbers it receives.
 */
module Tables {
  import opened Options

  /** A driver object; 0 is the null pointer. */
  type Obj = nat

  /** The number of values of an ID, which is a 16-bit integer. */
  const ID_RANGE: nat := 0x1_0000

  // ---- the server's side ----

  /** The first place of `x`, or the length when it is absent. */
  function Find(table: seq<Obj>, x: Obj): (i: nat)
    ensures i <= |table|
    ensures i < |table| ==> table[i] == x
    ensures forall j :: 0 <= j < i ==> table[j] != x
  {
    if table == [] then 0
    else if table[0] == x then 0
    else
      var i := Find(table[1..], x);
      assert forall j :: 0 < j < 1 + i ==> table[j] == table[1..][j - 1];
      1 + i
  }

  /** Finds or inserts. */
  function Intern(table: seq<Obj>, x: Obj): (r: (nat, seq<Obj>))
    ensures r.0 < |r.1| && r.1[r.0] == x && table <= r.1
    ensures r.1 == table || r.1 == table + [x]
    ensures r.1 == table <==> x in table
  {
    var i := Find(table, x);
    if i < |table| then (i, table) else (i, table + [x])
  }

  function GetObj(table: seq<Obj>, id: nat): Obj {
    if id < |table| then table[id] else 0
  }

  ghost predicate NoDuplicates(table: seq<Obj>) {
    forall i, j :: 0 <= i < j < |table| ==> table[i] != table[j]
  }

  /** Interning keeps the table free of duplicates and never changes an ID that was given out. */
  lemma InternKeeps(table: seq<Obj>, x: Obj)
    requires NoDuplicates(table)
    ensures NoDuplicates(Intern(table, x).1)
    ensures forall y :: y in table ==> Intern(Intern(table, x).1, y).0 == Intern(table, y).0
    ensures forall i :: 0 <= i < |table| ==> GetObj(Intern(table, x).1, i) == GetObj(table, i)
  {
    forall y | y in table ensures Intern(Intern(table, x).1, y).0 == Intern(table, y).0 {
      FindUnique(table, y, Find(table, y));
      FindUnique(Intern(table, x).1, y, Find(table, y));
    }
  }

  lemma FindUnique(table: seq<Obj>, x: Obj, i: nat)
    requires i < |table| && table[i] == x && forall j :: 0 <= j < i ==> table[j] != x
    ensures Find(table, x) == i
  {
  }

  /** IDs and objects are in one-to-one correspondence. */
  lemma IdsAndObjects(table: seq<Obj>, x: Obj, i: nat)
    requires NoDuplicates(table)
    ensures var (id, after) := Intern(table, x); GetObj(after, id) == x && Intern(after, x) == (id, after)
    ensures i < |table| ==> Intern(table, GetObj(table, i)) == (i, table)
  {
    var (id, after) := Intern(table, x);
    InternKeeps(table, x);
    FindUnique(after, x, id);
    if i < |table| { FindUnique(table, table[i], i); }
  }

  /** One number per object, in order. */
  function InternAll(table: seq<Obj>, xs: seq<Obj>): (r: (seq<nat>, seq<Obj>))
    ensures |r.0| == |xs| && table <= r.1
    ensures forall i :: 0 <= i < |xs| ==> r.0[i] < |r.1| && r.1[r.0[i]] == xs[i]
  {
    if xs == [] then ([], table) else
    var (ids, t) := InternAll(table, xs[..|xs| - 1]);
    var (id, t') := Intern(t, xs[|xs| - 1]);
    (ids + [id], t')
  }

  /** The server's table, as an object that its handlers update. */
  class ServerTable {
    var objects: seq<Obj>

    constructor ()
      ensures objects == []
    {
      objects := [];
    }

    /**
      The scan for an ID. Its counter is a 16-bit integer that wraps around, so the scan never
      ends (`hangs`) exactly when the object is absent from a table of 65536 entries or more.
     */
    method GetIdFor(x: Obj) returns (id: nat, hangs: bool)
      modifies this
      ensures hangs <==> ID_RANGE <= |old(objects)| && x !in old(objects)[..ID_RANGE]
      ensures hangs ==> objects == old(objects)
      ensures !hangs ==> (id, objects) == Intern(old(objects), x) && id < ID_RANGE
    {
      id, hangs := 0, false;
      while id < |objects|
        invariant id < ID_RANGE && id <= |objects|
        invariant forall j :: 0 <= j < id ==> objects[j] != x
      {
        if objects[id] == x {
          FindUnique(objects, x, id);
          return;
        }
        if id + 1 == ID_RANGE {
          // The counter wraps to 0 and the scan starts over, on the same table.
          return id, true;
        }
        id := id + 1;
      }
      assert Find(objects, x) == |objects|;
      objects := objects + [x];
    }

    method GetObject(id: nat) returns (x: Obj)
      ensures x == GetObj(objects, id)
    {
      if id >= |objects| {
        return 0;
      }
      return objects[id];
    }
  }

  // ---- the client's side ----

  /** A client object. `serial` tells apart objects that successively occupy the same slot. */
  datatype Handle = Handle(serial: nat, id: nat)

  datatype Slots = Slots(slots: seq<Option<Handle>>, made: nat) {
    function Grown(n: nat): (s: seq<Option<Handle>>)
      ensures |s| == if |slots| < n then n else |slots|
      ensures slots <= s && forall i :: |slots| <= i < |s| ==> s[i] == None
    {
      slots + seq(if |slots| < n then n - |slots| else 0, i => None)
    }

    /** `registerID`: a new client object, in place of any previous one with this ID. */
    function Register(id: nat): (Handle, Slots) {
      var h := Handle(made, id);
      (h, Slots(Grown(id + 1)[id := Some(h)], made + 1))
    }

    /** `getOrInsertObject`; a slot that was skipped holds a null pointer, given here as `None`. */
    function GetOrInsert(id: nat): (Option<Handle>, Slots) {
      if id < |slots| then (slots[id], this) else (Some(Register(id).0), Register(id).1)
    }

    predicate Live(h: Handle) {
      h.id < |slots| && slots[h.id] == Some(h)
    }
  }

  /** Both tables have one entry per object, and every entry of the client's is in its own slot. */
  ghost predicate Agree(c: Slots, table: seq<Obj>) {
    && |c.slots| == |table|
    && forall i :: 0 <= i < |table| ==> c.slots[i].Some? && c.slots[i].value.id == i
  }

  /**
    The number that the server gives to an object, once the client has received it, keeps the tables
    in agreement, whether the client registers a new object for it or looks for an old one first.
   */
  lemma ReceivedIdKeepsAgreement(c: Slots, table: seq<Obj>, x: Obj)
    requires Agree(c, table)
    ensures var (id, table') := Intern(table, x);
      && Agree(c.Register(id).1, table')
      && Agree(c.GetOrInsert(id).1, table')
      && c.Register(id).1.Live(c.Register(id).0)
      && c.GetOrInsert(id).0.Some? && c.GetOrInsert(id).1.Live(c.GetOrInsert(id).0.value)
  {
    var (id, table') := Intern(table, x);
    assert id == |table| || table' == table;
  }

  /**
    A client object is destroyed exactly when its ID is registered anew, which happens exactly when
    the driver returns an object that the server already knows.
   */
  lemma RegisterDestroysIffKnown(c: Slots, table: seq<Obj>, x: Obj, h: Handle)
    requires Agree(c, table) && NoDuplicates(table) && c.Live(h) && h.serial < c.made
    ensures var (id, _) := Intern(table, x);
      !c.Register(id).1.Live(h) <==> x == table[h.id]
    ensures c.GetOrInsert(Intern(table, x).0).1.Live(h)
  {
    FindUnique(table, table[h.id], h.id);
  }

  /**
    A call that makes the server number an object, but looks up the number without inserting it, finds
    a client object exactly if the server knew the driver's object before.
   */
  lemma LookupFindsIffKnown(c: Slots, table: seq<Obj>, x: Obj)
    requires Agree(c, table)
    ensures var (id, table') := Intern(table, x);
      && (id < |c.slots| && c.slots[id].Some? <==> x in table)
      && (Agree(c, table') <==> x in table)
  {
  }

  /**
    An ID that the client never takes up leaves a hole behind the next registration, and the object is
    a null pointer when the client is told of it again.
   */
  lemma UnclaimedIdLeavesHole(c: Slots, table: seq<Obj>, x: Obj, y: Obj)
    requires Agree(c, table) && x !in table && y !in table && x != y
    ensures var (id, table') := Intern(table, x);
      var (id', table'') := Intern(table', y);
      var c' := c.Register(id').1;
      && |c'.slots| == |table''| && !Agree(c', table'')
      && Intern(table'', x).0 == id && c'.GetOrInsert(id).0 == None
  {
    var (id, table') := Intern(table, x);
    var (id', table'') := Intern(table', y);
    assert id == |table| && table' == table + [x] && id' == |table| + 1 && table'' == table' + [y];
    FindUnique(table'', x, id);
    var c' := c.Register(id').1;
    assert |c'.slots| == id' + 1 && c'.slots[id] == None;
  }

  /** The client's table, as an object that its calls update under the lock. */
  class ClientTable {
    var slots: seq<Option<Handle>>
    var made: nat

    function Value(): Slots
      reads this
    {
      Slots(slots, made)
    }

    constructor ()
      ensures Value() == Slots([], 0)
    {
      slots, made := [], 0;
    }

    method RegisterId(id: nat) returns (h: Handle)
      modifies this
      ensures (h, Value()) == old(Value()).Register(id)
    {
      h := Handle(made, id);
      made := made + 1;
      if |slots| <= id {
        slots := slots + seq(id + 1 - |slots|, i => None);
      }
      assert slots == old(Value()).Grown(id + 1);
      slots := slots[id := Some(h)];
    }

    method GetOrInsertObject(id: nat) returns (h: Option<Handle>)
      modifies this
      ensures (h, Value()) == old(Value()).GetOrInsert(id)
    {
      if id < |slots| {
        return slots[id];
      }
      var created := RegisterId(id);
      return Some(created);
    }
  }
}
