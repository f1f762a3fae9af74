/**
  Context properties: a zero-terminated list of pairs, flattened by the client with the platform
  replaced by its ID, and rebuilt by the server with the ID replaced by its own platform object.
 */
module Contexts {
  import opened Tables

  /** CL_CONTEXT_PLATFORM, section 4.4 of OpenCL 1.2. */
  const CL_CONTEXT_PLATFORM: nat := 0x1084

  /** What the client sends for the pairs before the terminator. */
  function Flatten(idOf: nat -> nat, pairs: seq<(nat, nat)>): (words: seq<nat>)
    ensures |words| == 2 * |pairs|
  {
    if pairs == [] then [] else
    var (key, value) := pairs[0];
    [key, if key == CL_CONTEXT_PLATFORM then idOf(value) else value] + Flatten(idOf, pairs[1..])
  }

  /** The value of one pair on the server. */
  function Meant(table: seq<Obj>, key: nat, word: nat): nat {
    if key == CL_CONTEXT_PLATFORM then GetObj(table, word % ID_RANGE) else word
  }

  /** What the server makes of the words it received, without the terminator. */
  function Rebuild(table: seq<Obj>, words: seq<nat>): seq<nat> {
    if |words| < 2 then [] else [words[0], Meant(table, words[0], words[1])] + Rebuild(table, words[2..])
  }

  /** The list handed to the driver; empty stands for the null pointer. */
  function Terminated(words: seq<nat>): seq<nat> {
    if words == [] then [] else words + [0]
  }

  /** The pairs as the caller meant them, with the server's platform object in place of the handle. */
  function Translated(table: seq<Obj>, idOf: nat -> nat, pairs: seq<(nat, nat)>): seq<nat> {
    if pairs == [] then [] else
    var (key, value) := pairs[0];
    [key, if key == CL_CONTEXT_PLATFORM then GetObj(table, idOf(value)) else value]
      + Translated(table, idOf, pairs[1..])
  }

  lemma RebuildPair(table: seq<Obj>, key: nat, word: nat, words: seq<nat>)
    ensures Rebuild(table, [key, word] + words) == [key, Meant(table, key, word)] + Rebuild(table, words)
  {
    var all := [key, word] + words;
    assert all[0] == key && all[1] == word && all[2..] == words;
  }

  /** The server rebuilds the caller's list, word for word, except for the platform handles. */
  lemma {:induction false} PropertiesRebuilt(table: seq<Obj>, idOf: nat -> nat, pairs: seq<(nat, nat)>)
    requires forall v :: idOf(v) < ID_RANGE
    ensures Rebuild(table, Flatten(idOf, pairs)) == Translated(table, idOf, pairs)
  {
    if pairs != [] {
      var (key, value) := pairs[0];
      var word := if key == CL_CONTEXT_PLATFORM then idOf(value) else value;
      PropertiesRebuilt(table, idOf, pairs[1..]);
      RebuildPair(table, key, word, Flatten(idOf, pairs[1..]));
    }
  }

  // ---- the loops ----

  /** The caller's array: pairs, then a zero key. */
  ghost predicate Terminates(properties: seq<nat>, n: nat) {
    && 2 * n < |properties| && properties[2 * n] == 0
    && forall i :: 0 <= i < n ==> properties[2 * i] != 0
  }

  ghost function Pairs(properties: seq<nat>, n: nat): (r: seq<(nat, nat)>)
    requires 2 * n <= |properties|
    ensures |r| == n && forall i :: 0 <= i < n ==> r[i] == (properties[2 * i], properties[2 * i + 1])
  {
    seq(n, i requires 0 <= i < n => (properties[2 * i], properties[2 * i + 1]))
  }

  lemma {:induction false} FlattenSnoc(idOf: nat -> nat, pairs: seq<(nat, nat)>, p: (nat, nat))
    ensures Flatten(idOf, pairs + [p])
      == Flatten(idOf, pairs) + [p.0, if p.0 == CL_CONTEXT_PLATFORM then idOf(p.1) else p.1]
  {
    if pairs == [] {
      assert Flatten(idOf, [p]) == [p.0, if p.0 == CL_CONTEXT_PLATFORM then idOf(p.1) else p.1] + Flatten(idOf, []);
    } else {
      assert (pairs + [p])[1..] == pairs[1..] + [p];
      FlattenSnoc(idOf, pairs[1..], p);
    }
  }

  /** The client's loop over the caller's array. */
  method FlattenProperties(properties: array<nat>, idOf: nat -> nat, ghost n: nat) returns (words: seq<nat>)
    requires Terminates(properties[..], n)
    ensures words == Flatten(idOf, Pairs(properties[..], n))
  {
    words := [];
    var i := 0;
    while properties[2 * i] != 0
      invariant i <= n
      invariant words == Flatten(idOf, Pairs(properties[..], i))
      decreases n - i
    {
      assert properties[..][2 * n] == 0;
      var key, value := properties[2 * i], properties[2 * i + 1];
      FlattenSnoc(idOf, Pairs(properties[..], i), (key, value));
      assert Pairs(properties[..], i + 1) == Pairs(properties[..], i) + [(key, value)];
      words := words + [key];
      if key == CL_CONTEXT_PLATFORM {
        words := words + [idOf(value)];
      } else {
        words := words + [value];
      }
      i := i + 1;
    }
    assert properties[..][2 * i] == 0;
  }

  lemma RebuildStep(table: seq<Obj>, words: seq<nat>, i: nat)
    requires i + 1 < |words|
    ensures Rebuild(table, words[i..]) == [words[i], Meant(table, words[i], words[i + 1])]
      + Rebuild(table, words[i + 2..])
  {
    assert words[i..][2..] == words[i + 2..];
  }

  /** The server's loop over the words of the packet. */
  method RebuildProperties(table: ServerTable, words: seq<nat>) returns (properties: seq<nat>)
    requires |words| % 2 == 0
    ensures properties == Terminated(Rebuild(table.objects, words))
  {
    properties := [];
    var i := 0;
    while i < |words|
      invariant i <= |words| && i % 2 == 0
      invariant properties + Rebuild(table.objects, words[i..]) == Rebuild(table.objects, words)
    {
      RebuildStep(table.objects, words, i);
      ghost var before := properties;
      properties := properties + [words[i]];
      if words[i] == CL_CONTEXT_PLATFORM {
        var platform := table.GetObject(words[i + 1] % ID_RANGE);
        properties := properties + [platform];
      } else {
        properties := properties + [words[i + 1]];
      }
      assert properties == before + [words[i], Meant(table.objects, words[i], words[i + 1])];
      i := i + 2;
    }
    if properties != [] {
      properties := properties + [0];
    }
  }
}
