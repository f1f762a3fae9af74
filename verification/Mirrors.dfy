/**
  The object tables over whole sessions: the client's objects keep standing for the driver's objects
  they were made for.
 */
module Mirrors {
  import opened Options
  import opened Bytes
  import opened Codec
  import opened Wire
  import opened Tables
  import opened Contexts
  import opened Protocol
  import opened Effects
  import opened Sessions
  import opened Arguments

  // ---- what a call hands out ----

  /** The driver's objects that a call returns to its caller. */
  function Handed(o: Oracle, s: Srv, call: Call): seq<Obj> {
    var a, b := Next(o, s), o(|s.log| + 1);
    match call
    case GetPlatformIds => if a.err != 0 then [] else b.objs
    case CreateContext(_, _) => if a.err != 0 then [] else [a.obj]
    case CreateKernel(_, _) => if a.err != 0 then [] else [a.obj]
    case CreateUserEvent(_) => if a.err != 0 then [] else [a.obj]
    case CreateBuffer(_, _, _, _) => if a.err != 0 then [] else [a.obj]
    case MemObjectInfo(_, param) => if a.err == 0 && IsObjectParam(param) then [a.obj] else []
    case ReadBuffer(_, _, _, _, _, _, want) => if a.err == 0 && want then [a.event] else []
    case WriteBuffer(_, _, _, _, _, _, want) => if a.err == 0 && want then [a.event] else []
    case FillBuffer(_, _, _, _, _, _, want) => if a.err == 0 && want then [a.event] else []
    case EnqueueKernel(_, _, _, _, _, _, _, want) => if a.err == 0 && want then [a.event] else []
    case CreateImage(_, flags, _, _) =>
      if a.err != 0 then []
      else if !CopiesHost(Word(flags)) then [a.obj]
      else if b.err == 0 && o(|s.log| + 3).err == 0 then [o(|s.log| + 3).obj]
      else []
    case ReadImage(_, _, _, _, _, _, _, want) => if a.err == 0 && b.err == 0 && want then [b.event] else []
    case WriteImage(_, _, _, _, _, _, _, _, want) => if a.err == 0 && b.err == 0 && want then [b.event] else []
    case CreateKernels(_, count) => if a.err == 0 && Word(count) != 0 then a.objs else []
    case CreateProgram(_, _, _) => if a.err != 0 then [] else [a.obj]
    case _ => []
  }

  /** The call makes a new client object for each of them, even for one that it knows already. */
  predicate Registers(call: Call) {
    !(call.GetPlatformIds? || call.CreateBuffer? || call.MemObjectInfo? || call.CreateImage?)
  }

  lemma OneHanded(table: seq<Obj>, slots: Slots, x: Obj, registers: bool)
    ensures InternAll(table, [x]) == ([Intern(table, x).0], Intern(table, x).1)
    ensures var (h, s') := Pick(slots, Intern(table, x).0, registers);
      PickAll(slots, [Intern(table, x).0], registers) == ([h], s')
  {
    var xs, ids := [x], [Intern(table, x).0];
    assert xs[..|xs| - 1] == [] && ids[..|ids| - 1] == [];
    assert InternAll(table, xs[..|xs| - 1]) == ([], table);
    assert PickAll(slots, ids[..|ids| - 1], registers) == ([], slots);
    var (h, s') := Pick(slots, ids[0], registers);
    assert [] + [h] == [h] && [] + [Intern(table, x).0] == ids;
  }

  /** The reply that was given last. */
  function Last(c: Cli): Reply { if c.out == [] then NOTHING else c.out[|c.out| - 1] }

  /** What a call does to the tables and which handles it returns. */
  ghost predicate HandsOut(c: Cli, s: Srv, w: World, xs: seq<Obj>, registers: bool) {
    var (ids, table) := InternAll(s.table, xs);
    var (hs, slots) := PickAll(c.slots, ids, registers);
    && w.srv.table == table && w.cli.slots == slots
    && |w.cli.out| == |c.out| + 1 && w.cli.out[..|c.out|] == c.out && w.cli.out[|c.out|].handles == hs
  }

  /** Only the replies of the client have changed, by one reply without handles. */
  ghost predicate Barren(c: Cli, s: Srv, w: World) {
    && w.srv.table == s.table && w.cli.slots == c.slots
    && w.cli.out == c.out + [Last(w.cli)] && Last(w.cli).handles == []
  }

  lemma NothingHandedOut(c: Cli, s: Srv, w: World, registers: bool)
    requires Barren(c, s, w)
    ensures HandsOut(c, s, w, [], registers)
  {
    assert w.cli.out[..|c.out|] == c.out;
  }

  lemma OneHandedOut(c: Cli, s: Srv, s1: Srv, x: Obj, registers: bool, data: seq<byte>)
    requires s1.table == s.table
    ensures HandsOut(c, s, Hands(c, s1, x, registers, data), [x], registers)
  {
    OneHanded(s.table, c.slots, x, registers);
  }

  lemma AllHandedOut(c: Cli, s: Srv, s1: Srv, xs: seq<Obj>, registers: bool)
    requires s1.table == s.table
    ensures HandsOut(c, s, HandsAll(c, s1, xs, registers), xs, registers)
  {
  }

  predicate IsImageCall(call: Call) { call.CreateImage? || call.ReadImage? || call.WriteImage? }

  lemma BarrenImage(o: Oracle, c: Cli, s: Srv, call: Call)
    requires call.CreateImage? && Handed(o, s, call) == []
    ensures Barren(c, s, Effect(o, c, s, call))
  {
  }

  lemma BarrenRegion(o: Oracle, c: Cli, s: Srv, call: Call)
    requires (call.ReadImage? || call.WriteImage?) && Handed(o, s, call) == []
    ensures Barren(c, s, Effect(o, c, s, call))
  {
  }

  /** A call that hands out nothing leaves both tables alone. */
  lemma BarrenCall(o: Oracle, c: Cli, s: Srv, call: Call)
    requires !call.GetPlatformIds? && !call.CreateKernels? && !IsImageCall(call) && Handed(o, s, call) == []
    ensures Barren(c, s, Effect(o, c, s, call))
  {
  }

  lemma HandingImage(o: Oracle, c: Cli, s: Srv, call: Call) returns (s1: Srv, data: seq<byte>)
    requires call.CreateImage? && Handed(o, s, call) != []
    ensures Effect(o, c, s, call) == Hands(c, s1, Handed(o, s, call)[0], false, data)
    ensures |Handed(o, s, call)| == 1 && s1.table == s.table
  {
    s1 := Effect(o, c, s, call).srv.(table := s.table);
    data := [];
  }

  lemma HandingRegion(o: Oracle, c: Cli, s: Srv, call: Call) returns (s1: Srv, data: seq<byte>)
    requires (call.ReadImage? || call.WriteImage?) && Handed(o, s, call) != []
    ensures Effect(o, c, s, call) == Hands(c, s1, Handed(o, s, call)[0], true, data)
    ensures |Handed(o, s, call)| == 1 && s1.table == s.table
  {
    s1 := Effect(o, c, s, call).srv.(table := s.table);
    data := Last(Effect(o, c, s, call).cli).data;
  }

  /** A call that hands out something ends in `Hands`. */
  lemma HandingCall(o: Oracle, c: Cli, s: Srv, call: Call) returns (s1: Srv, data: seq<byte>)
    requires !call.GetPlatformIds? && !call.CreateKernels? && !IsImageCall(call) && Handed(o, s, call) != []
    ensures Effect(o, c, s, call) == Hands(c, s1, Handed(o, s, call)[0], Registers(call), data)
    ensures |Handed(o, s, call)| == 1 && s1.table == s.table
  {
    s1 := Effect(o, c, s, call).srv.(table := s.table);
    data := Last(Effect(o, c, s, call).cli).data;
  }

  lemma PlatformCall(o: Oracle, c: Cli, s: Srv)
    ensures HandsOut(c, s, Effect(o, c, s, GetPlatformIds), Handed(o, s, GetPlatformIds), false)
  {
    var a, s1 := Next(o, s), s.Called(DriverCall(PlatformCountFn, [], [], [], []));
    if a.err != 0 {
      NothingHandedOut(c, s, Failed(c, s1, a.err), false);
    } else {
      AllHandedOut(c, s, s1.Called(DriverCall(PlatformsFn, [], [a.num], [], [])), Next(o, s1).objs, false);
    }
  }

  lemma KernelCount(c: Cli, s: Srv, s0: Srv, a: Answer)
    requires s0.table == s.table
    ensures HandsOut(c, s, if a.err != 0 then Failed(c, s0, a.err) else Done(c, s0, [], Word(a.num)), [], true)
  {
    if a.err != 0 {
      NothingHandedOut(c, s, Failed(c, s0, a.err), true);
    } else {
      NothingHandedOut(c, s, Done(c, s0, [], Word(a.num)), true);
    }
  }

  lemma CountCall(o: Oracle, c: Cli, s: Srv, call: Call)
    requires call.CreateKernels? && Word(call.count) == 0
    ensures HandsOut(c, s, Effect(o, c, s, call), [], true) && Handed(o, s, call) == []
  {
    KernelCount(c, s, s.Called(DriverCall(CountKernelsFn, [s.Object(call.program)], [], [], [])), Next(o, s));
  }

  lemma KernelsCall(o: Oracle, c: Cli, s: Srv, call: Call)
    requires call.CreateKernels? && Word(call.count) != 0
    ensures HandsOut(c, s, Effect(o, c, s, call), Handed(o, s, call), true)
  {
    var a := Next(o, s);
    var s1 := s.Called(DriverCall(CreateKernelsFn, [s.Object(call.program)], [Word(call.count)], [], []));
    if a.err != 0 {
      NothingHandedOut(c, s, Failed(c, s1, a.err), true);
    } else {
      AllHandedOut(c, s, s1, a.objs, true);
    }
  }

  lemma SingleCall(o: Oracle, c: Cli, s: Srv, call: Call)
    requires !call.GetPlatformIds? && !call.CreateKernels?
    ensures HandsOut(c, s, Effect(o, c, s, call), Handed(o, s, call), Registers(call))
  {
    var xs := Handed(o, s, call);
    if xs == [] {
      if call.CreateImage? { BarrenImage(o, c, s, call); }
      else if IsImageCall(call) { BarrenRegion(o, c, s, call); }
      else { BarrenCall(o, c, s, call); }
      NothingHandedOut(c, s, Effect(o, c, s, call), Registers(call));
    } else {
      var s1, data;
      if call.CreateImage? {
        s1, data := HandingImage(o, c, s, call);
      } else if IsImageCall(call) {
        s1, data := HandingRegion(o, c, s, call);
      } else {
        s1, data := HandingCall(o, c, s, call);
      }
      assert xs == [xs[0]];
      OneHandedOut(c, s, s1, xs[0], Registers(call), data);
    }
  }

  lemma CallHandsOut(o: Oracle, c: Cli, s: Srv, call: Call)
    ensures HandsOut(c, s, Effect(o, c, s, call), Handed(o, s, call), Registers(call))
  {
    if call.GetPlatformIds? {
      PlatformCall(o, c, s);
    } else if call.CreateKernels? {
      if Word(call.count) == 0 { CountCall(o, c, s, call); } else { KernelsCall(o, c, s, call); }
    } else {
      SingleCall(o, c, s, call);
    }
  }

  // ---- the two tables ----

  /** The tables agree, and objects made later have higher serials. */
  ghost predicate Mirrored(c: Slots, table: seq<Obj>) {
    && Agree(c, table) && NoDuplicates(table)
    && forall i :: 0 <= i < |c.slots| ==> c.slots[i].value.serial < c.made
  }

  lemma PickKeeps(c: Slots, table: seq<Obj>, x: Obj, registers: bool)
    requires Mirrored(c, table)
    ensures var (id, table') := Intern(table, x);
      var (h, c') := Pick(c, id, registers);
      Mirrored(c', table') && h.Some? && h.value.id == id && c.made <= c'.made
  {
    InternKeeps(table, x);
    ReceivedIdKeepsAgreement(c, table, x);
  }

  /** A list of IDs, received in the order in which the server gave them. */
  lemma {:induction false} PickAllKeeps(c: Slots, table: seq<Obj>, xs: seq<Obj>, registers: bool)
    requires Mirrored(c, table)
    ensures var (ids, table') := InternAll(table, xs);
      var (hs, c') := PickAll(c, ids, registers);
      && Mirrored(c', table') && |hs| == |xs| && c.made <= c'.made
      && forall i :: 0 <= i < |xs| ==> hs[i].Some? && hs[i].value.id == ids[i]
  {
    if xs != [] {
      var n := |xs| - 1;
      var (ids, table') := InternAll(table, xs[..n]);
      var (hs, c') := PickAll(c, ids, registers);
      PickAllKeeps(c, table, xs[..n], registers);
      PickKeeps(c', table', xs[n], registers);
      var id := Intern(table', xs[n]).0;
      assert (ids + [id])[..n] == ids && (ids + [id])[n] == id;
      assert PickAll(c, ids + [id], registers) == (hs + [Pick(c', id, registers).0], Pick(c', id, registers).1);
    }
  }

  /** An object, once destroyed, never comes back; the others are destroyed only by a new registration. */
  lemma PickLives(c: Slots, table: seq<Obj>, x: Obj, registers: bool, h: Handle, y: Obj)
    requires Mirrored(c, table) && h.serial < c.made && h.id < |table| && table[h.id] == y
    ensures Pick(c, Intern(table, x).0, registers).1.Live(h) <==> c.Live(h) && !(registers && x == y)
  {
    if c.Live(h) { RegisterDestroysIffKnown(c, table, x, h); }
  }

  lemma {:induction false} PickAllLives(c: Slots, table: seq<Obj>, xs: seq<Obj>, registers: bool, h: Handle, y: Obj)
    requires Mirrored(c, table) && h.serial < c.made && h.id < |table| && table[h.id] == y
    ensures PickAll(c, InternAll(table, xs).0, registers).1.Live(h) <==> c.Live(h) && !(registers && y in xs)
  {
    if xs != [] {
      var n := |xs| - 1;
      var (ids, table') := InternAll(table, xs[..n]);
      var (_, c') := PickAll(c, ids, registers);
      PickAllKeeps(c, table, xs[..n], registers);
      PickAllLives(c, table, xs[..n], registers, h, y);
      PickLives(c', table', xs[n], registers, h, y);
      var all := InternAll(table, xs).0;
      assert all[..|all| - 1] == ids;
      assert y in xs <==> y in xs[..n] || y == xs[n];
    }
  }

  /**
    The server numbers all of `xs`, and the client takes up only the first `k` numbers. The tables agree
    afterwards exactly if the server knew all the others.
   */
  lemma UnclaimedIds(c: Slots, table: seq<Obj>, xs: seq<Obj>, k: nat)
    requires Mirrored(c, table) && k <= |xs|
    ensures Agree(PickAll(c, InternAll(table, xs[..k]).0, false).1, InternAll(table, xs).1)
      <==> KnownFrom(table, xs, k)
    ensures InternAll(table, xs[..k]).0 <= InternAll(table, xs).0
  {
    var t, t' := InternAll(table, xs[..k]).1, InternAll(table, xs).1;
    InternAllPrefix(table, xs, k);
    PickAllKeeps(c, table, xs[..k], false);
    KnownIffUnchanged(table, xs, k);
    assert |t'| == |t| ==> t' == t;
  }

  /** The server knows the objects from the k-th on, once it has numbered those before. */
  ghost predicate KnownFrom(table: seq<Obj>, xs: seq<Obj>, k: nat)
    requires k <= |xs|
  {
    forall i :: k <= i < |xs| ==> xs[i] in InternAll(table, xs[..k]).1
  }

  lemma KnownIffUnchanged(table: seq<Obj>, xs: seq<Obj>, k: nat)
    requires k <= |xs|
    ensures KnownFrom(table, xs, k) <==> InternAll(table, xs).1 == InternAll(table, xs[..k]).1
  {
    if KnownFrom(table, xs, k) {
      KnownAdds(table, xs, k);
    } else {
      var i :| k <= i < |xs| && xs[i] !in InternAll(table, xs[..k]).1;
      assert xs[i] in InternAll(table, xs).1 by {
        assert InternAll(table, xs).1[InternAll(table, xs).0[i]] == xs[i];
      }
    }
  }

  lemma {:induction false} InternAllPrefix(table: seq<Obj>, xs: seq<Obj>, k: nat)
    requires k <= |xs|
    ensures InternAll(table, xs[..k]).0 <= InternAll(table, xs).0
    ensures InternAll(table, xs[..k]).1 <= InternAll(table, xs).1
  {
    if k == |xs| {
      assert xs[..k] == xs;
    } else {
      InternAllPrefix(table, xs[..|xs| - 1], k);
      assert xs[..|xs| - 1][..k] == xs[..k];
    }
  }

  lemma {:induction false} KnownAdds(table: seq<Obj>, xs: seq<Obj>, k: nat)
    requires k <= |xs| && forall i :: k <= i < |xs| ==> xs[i] in InternAll(table, xs[..k]).1
    ensures InternAll(table, xs).1 == InternAll(table, xs[..k]).1
  {
    if k == |xs| {
      assert xs[..k] == xs;
    } else {
      assert xs[..|xs| - 1][..k] == xs[..k];
      KnownAdds(table, xs[..|xs| - 1], k);
    }
  }

  // ---- over whole sessions ----

  lemma Snoc(o: Oracle, w: World, calls: seq<Call>) returns (v: World)
    requires calls != []
    ensures var n := |calls| - 1;
      v == Local(o, w, calls[..n]) && Local(o, w, calls) == Effect(o, v.cli, v.srv, calls[n])
    ensures HandsOut(v.cli, v.srv, Local(o, w, calls), Handed(o, v.srv, calls[|calls| - 1]),
                     Registers(calls[|calls| - 1]))
  {
    v := Local(o, w, calls[..|calls| - 1]);
    CallHandsOut(o, v.cli, v.srv, calls[|calls| - 1]);
  }

  /**
    After any calls the tables have equal length, the client's has no empty slot, the server's has no
    duplicates, and no entry of the server's has changed.
   */
  lemma {:induction false} TablesMirrored(o: Oracle, w: World, calls: seq<Call>)
    requires Mirrored(w.cli.slots, w.srv.table)
    ensures var v := Local(o, w, calls);
      Mirrored(v.cli.slots, v.srv.table) && w.srv.table <= v.srv.table && w.cli.slots.made <= v.cli.slots.made
    ensures var v := Local(o, w, calls); |v.cli.out| == |w.cli.out| + |calls| && w.cli.out <= v.cli.out
  {
    if calls != [] {
      var n := |calls| - 1;
      var v := Snoc(o, w, calls);
      TablesMirrored(o, w, calls[..n]);
      PickAllKeeps(v.cli.slots, v.srv.table, Handed(o, v.srv, calls[n]), Registers(calls[n]));
    }
  }

  /** The state before the i-th call, after it, and at the end. */
  ghost predicate Moments(w: World, v: World, v': World, w': World, i: nat, xs: seq<Obj>, registers: bool) {
    && Mirrored(v.cli.slots, v.srv.table) && HandsOut(v.cli, v.srv, v', xs, registers)
    && |v.cli.out| == |w.cli.out| + i && v'.cli.out <= w'.cli.out && v'.srv.table <= w'.srv.table
  }

  lemma MomentsOf(o: Oracle, w: World, calls: seq<Call>, i: nat) returns (v': World)
    requires Mirrored(w.cli.slots, w.srv.table) && i < |calls|
    ensures var v := Local(o, w, calls[..i]);
      Moments(w, v, v', Local(o, w, calls), i, Handed(o, v.srv, calls[i]), Registers(calls[i]))
  {
    assert calls[..i + 1][..i] == calls[..i] && calls[..i + 1][i] == calls[i];
    var v := Snoc(o, w, calls[..i + 1]);
    v' := Local(o, w, calls[..i + 1]);
    TablesMirrored(o, w, calls[..i]);
    TablesMirrored(o, w, calls[..i + 1]);
    FoldSplit(Performs(o), w, calls, i + 1);
    TablesMirrored(o, v', calls[i + 1..]);
  }

  lemma HandsOutResolves(v: World, v': World, xs: seq<Obj>, registers: bool, j: nat)
    requires Mirrored(v.cli.slots, v.srv.table) && HandsOut(v.cli, v.srv, v', xs, registers) && j < |xs|
    ensures |v.cli.out| < |v'.cli.out|
    ensures var hs := v'.cli.out[|v.cli.out|].handles;
      j < |hs| && hs[j].Some? && hs[j].value.id < |v'.srv.table| && v'.srv.table[hs[j].value.id] == xs[j]
  {
    PickAllKeeps(v.cli.slots, v.srv.table, xs, registers);
  }

  lemma MomentsResolve(w: World, v: World, v': World, w': World, i: nat, xs: seq<Obj>, registers: bool, j: nat)
    requires Moments(w, v, v', w', i, xs, registers) && j < |xs|
    ensures |w.cli.out| + i < |w'.cli.out|
    ensures var hs := w'.cli.out[|w.cli.out| + i].handles;
      j < |hs| && hs[j].Some? && w'.srv.Object(hs[j].value.id) == xs[j]
  {
    HandsOutResolves(v, v', xs, registers, j);
    assert w'.cli.out[|v.cli.out|] == v'.cli.out[|v.cli.out|];
  }

  /**
    The j-th handle returned by the i-th call has an ID that the server resolves, then and ever after,
    to the driver's object for which it was made.
   */
  lemma HandlesResolve(o: Oracle, w: World, calls: seq<Call>, i: nat, j: nat)
    requires Mirrored(w.cli.slots, w.srv.table) && i < |calls|
    requires var s := Local(o, w, calls[..i]).srv; j < |Handed(o, s, calls[i])|
    ensures var v, s := Local(o, w, calls), Local(o, w, calls[..i]).srv;
      && |w.cli.out| + i < |v.cli.out|
      && var hs := v.cli.out[|w.cli.out| + i].handles;
         j < |hs| && hs[j].Some? && v.srv.Object(hs[j].value.id) == Handed(o, s, calls[i])[j]
  {
    var v := Local(o, w, calls[..i]);
    var v' := MomentsOf(o, w, calls, i);
    MomentsResolve(w, v, v', Local(o, w, calls), i, Handed(o, v.srv, calls[i]), Registers(calls[i]), j);
  }

  /** A call that makes a new client object for `y`, although there may be one already. */
  ghost predicate Renews(o: Oracle, w: World, calls: seq<Call>, i: nat, y: Obj)
    requires i < |calls|
  {
    Registers(calls[i]) && y in Handed(o, Local(o, w, calls[..i]).srv, calls[i])
  }

  ghost predicate NeverRenewed(o: Oracle, w: World, calls: seq<Call>, y: Obj) {
    forall i :: 0 <= i < |calls| ==> !Renews(o, w, calls, i, y)
  }

  lemma NeverRenewedSnoc(o: Oracle, w: World, calls: seq<Call>, y: Obj)
    requires calls != []
    ensures var n := |calls| - 1;
      NeverRenewed(o, w, calls, y) <==> NeverRenewed(o, w, calls[..n], y) && !Renews(o, w, calls, n, y)
  {
    var n := |calls| - 1;
    forall i | 0 <= i < n ensures Renews(o, w, calls[..n], i, y) <==> Renews(o, w, calls, i, y) {
      assert calls[..n][..i] == calls[..i];
    }
  }

  /**
    A client object lives on as long as no call receives the same driver object again, which is to
    say, if the driver does not recycle its handles; and no longer.
   */
  lemma {:induction false} HandleLives(o: Oracle, w: World, calls: seq<Call>, h: Handle)
    requires Mirrored(w.cli.slots, w.srv.table) && w.cli.slots.Live(h)
    ensures Local(o, w, calls).cli.slots.Live(h) <==> NeverRenewed(o, w, calls, w.srv.table[h.id])
  {
    if calls != [] {
      var n, y := |calls| - 1, w.srv.table[h.id];
      var v := Snoc(o, w, calls);
      TablesMirrored(o, w, calls[..n]);
      HandleLives(o, w, calls[..n], h);
      PickAllLives(v.cli.slots, v.srv.table, Handed(o, v.srv, calls[n]), Registers(calls[n]), h, y);
      NeverRenewedSnoc(o, w, calls, y);
    }
  }

  /** A connection begins with nothing on either side, which is where all this may start from. */
  lemma ConnectionStarts(o: Oracle)
    ensures var w := World(Cli([], NOTHING, Slots([], 0), []), Srv(Ready, [], []));
      Started(o, w) && Mirrored(w.cli.slots, w.srv.table)
  {
  }

  /** The same of a session over the connection, whenever no call is in progress. */
  lemma SessionMirrored(o: Oracle, z: Framing, w: World, ls: seq<Label<Call>>, b: Sys<Cli, Srv, Call>)
    requires Lossless(z) && Started(o, w) && Mirrored(w.cli.slots, w.srv.table)
    requires Exec(TheWiring(o, z), Fresh(w.cli, w.srv), ls) == Some(b)
    requires AllValid(b.log) && AllKeep(o, w, b.log) && AtBoundary(TheWiring(o, z), b)
    ensures Mirrored(b.client.slots, b.server.table)
  {
    SessionIsLocal(o, z, w, ls, b);
    TablesMirrored(o, w, b.log);
  }

  /**
    A kernel argument reaches the driver as the caller gave it: for a global (0x119B) or constant (0x119D)
    one the object that the caller's handle stands for, for a local one (0x119C) the size, and for any
    other the bytes.
   */
  lemma KernelArgIsCallers(o: Oracle, c: Cli, s: Srv, call: Call, h: Handle)
    requires Mirrored(c.slots, s.table) && c.slots.Live(h)
    requires call.SetKernelArg? && call.arg.mem == h.id && call.index < 0x1_0000_0000
    requires call.arg.size == |call.arg.bytes| < 0x1_0000_0000
    requires o(|s.log|).err == 0 && Keeps(o, s, call)
    ensures var q, k := o(|s.log|).num, s.Object(call.kernel);
      var log := Effect(o, c, s, call).srv.log;
      |log| == |s.log| + 2 && log[|s.log| + 1] ==
        if q == 0x119B || q == 0x119D then
          DriverCall(SetArgMemFn, [k, s.table[h.id]], [call.index, call.arg.size], [], [])
        else if q == 0x119C then
          DriverCall(SetArgLocalFn, [k], [call.index, call.arg.size], [], [])
        else
          DriverCall(SetArgBytesFn, [k], [call.index, call.arg.size], [call.arg.bytes], [])
  {
    ArgumentByAddressSpace(o, c, s, call);
    assert call.arg.bytes[..call.arg.size] == call.arg.bytes;
  }

  /**
    The context properties that reach the driver are the caller's, word for word, with the server's
    platform objects in place of the platform handles.
   */
  lemma PropertiesReachDriver(o: Oracle, c: Cli, s: Srv, idOf: nat -> nat, pairs: seq<(nat, nat)>, devices: seq<nat>)
    requires forall v :: idOf(v) < ID_RANGE
    ensures var log := Effect(o, c, s, CreateContext(Flatten(idOf, pairs), devices)).srv.log;
      && |log| == |s.log| + 1
      && log[|s.log|] == DriverCall(CreateContextFn, s.Objects(devices),
                                    Terminated(Translated(s.table, idOf, pairs)), [], [])
  {
    PropertiesRebuilt(s.table, idOf, pairs);
  }

  // ---- room in the server's table ----

  /** As long as the driver has at most 65536 different objects, each of them can be numbered. */
  lemma RoomWhenFew(s: Srv, objects: set<Obj>, x: Obj)
    requires NoDuplicates(s.table) && |objects| <= ID_RANGE && x in objects
    requires forall i :: 0 <= i < |s.table| ==> s.table[i] in objects
    ensures Room(s, x)
  {
    var seen := set i | 0 <= i < |s.table| :: s.table[i];
    Distinct(s.table, seen);
    if x in seen { SubsetSize(seen, objects); } else { SubsetSize(seen + {x}, objects); }
  }

  lemma {:induction false} Distinct(table: seq<Obj>, seen: set<Obj>)
    requires NoDuplicates(table) && forall x :: x in seen <==> x in table
    ensures |seen| == |table|
  {
    if table == [] {
      assert seen == {};
    } else {
      var n := |table| - 1;
      assert table == table[..n] + [table[n]];
      Distinct(table[..n], seen - {table[n]});
    }
  }

  lemma {:induction false} SubsetSize(a: set<Obj>, b: set<Obj>)
    requires a <= b
    ensures |a| <= |b|
  {
    if a != {} {
      var x :| x in a;
      SubsetSize(a - {x}, b - {x});
    }
  }
}
