/** Client threads that make API calls: `Threads`, for the calls and handlers of `Protocol`. */
module Concurrency {
  import opened Options
  import opened Codec
  import opened Wire
  import opened Protocol
  import opened Effects
  import opened Sessions
  import opened Mirrors
  import opened Threads

  function ApiPrograms(next: (nat, seq<Reply>) -> Option<Call>): Programs<Cli, Call, Reply> {
    Programs(next, (c: Cli) => Last(c))
  }

  /** Every call adds one reply. */
  lemma {:induction false} OneReplyEach(o: Oracle, w: World, calls: seq<Call>)
    ensures var v := Local(o, w, calls); w.cli.out <= v.cli.out && |v.cli.out| == |w.cli.out| + |calls|
  {
    if calls != [] {
      var v := Snoc(o, w, calls);
      OneReplyEach(o, w, calls[..|calls| - 1]);
    }
  }

  lemma SerialClient(o: Oracle, z: Framing, w: World, calls: seq<Call>)
    requires Started(o, w) && AllValid(calls) && AllKeep(o, w, calls)
    ensures Serial(TheWiring(o, z), Still(w.cli, w.srv), calls).Some?
    ensures Serial(TheWiring(o, z), Still(w.cli, w.srv), calls).value.client == Local(o, w, calls).cli
  {
    SerialIsLocal(o, z, w, calls);
  }

  lemma NewOnly<R>(before: seq<R>, after: seq<R>, k: nat)
    requires k <= |before| && |after| == |before| + 1 && after[..|before|] == before
    ensures after[k..] == before[k..] + [after[|before|]]
  {
  }

  lemma LastIsNew(o: Oracle, w: World, calls: seq<Call>)
    requires calls != []
    ensures var n, v, v' := |calls| - 1, Local(o, w, calls), Local(o, w, calls[..|calls| - 1]);
      |w.cli.out| <= |v'.cli.out| && |w.cli.out| <= |v.cli.out|
      && v.cli.out[|w.cli.out|..] == v'.cli.out[|w.cli.out|..] + [Last(v.cli)]
  {
    OneReplyEach(o, w, calls);
    OneReplyEach(o, w, calls[..|calls| - 1]);
    var v' := Snoc(o, w, calls);
    NewOnly(v'.cli.out, Local(o, w, calls).cli.out, |w.cli.out|);
  }

  lemma {:induction false} RepliesAreLocal(o: Oracle, z: Framing, w: World, next: (nat, seq<Reply>) -> Option<Call>,
                                           calls: seq<Call>)
    requires Started(o, w) && AllValid(calls) && AllKeep(o, w, calls)
    requires Serial(TheWiring(o, z), Still(w.cli, w.srv), calls).Some?
    ensures |w.cli.out| <= |Local(o, w, calls).cli.out|
    ensures RepliesTo(TheWiring(o, z), Still(w.cli, w.srv), ApiPrograms(next), calls)
      == Local(o, w, calls).cli.out[|w.cli.out|..]
    decreases |calls|
  {
    if calls != [] {
      AllHoldSnoc(Performs(o), Keeping(o), w, calls);
      SerialClient(o, z, w, calls[..|calls| - 1]);
      SerialClient(o, z, w, calls);
      RepliesAreLocal(o, z, w, next, calls[..|calls| - 1]);
      LastIsNew(o, w, calls);
    }
  }

  /**
    For any number of threads, whatever each decides to call next, and under any interleaving: when
    the lock is free, every thread has got exactly the replies to its own calls, as if all the calls
    had been performed where the driver is, in the order in which they took the lock.
   */
  lemma ThreadsGetTheirOwnReplies(o: Oracle, z: Framing, w: World, next: (nat, seq<Reply>) -> Option<Call>,
                                  threads: nat, ms: seq<Move<Call>>, st: State<Cli, Srv, Call, Reply>, t: nat)
    requires Lossless(z) && Started(o, w)
    requires Moved(TheWiring(o, z), ApiPrograms(next), Initial(w.cli, w.srv, threads), ms) == Some(st)
    requires AllValid(st.sys.log) && AllKeep(o, w, st.sys.log) && st.holder == None && t < threads
    ensures |w.cli.out| <= |Local(o, w, st.sys.log).cli.out| && |st.got| == threads
    ensures var replies := Local(o, w, st.sys.log).cli.out[|w.cli.out|..];
      |replies| == |st.order| && st.got[t] == Share(replies, st.order, t)
  {
    WiringSound(o, z);
    SerialClient(o, z, w, st.sys.log);
    RepliesAreLocal(o, z, w, next, st.sys.log);
    OwnReplies(TheWiring(o, z), w.cli, w.srv, ApiPrograms(next), threads, ms, st, t);
  }

  /** And the threads are never all stuck: one that holds the lock moves on, a free lock can be taken. */
  lemma SomeCallMoves(o: Oracle, z: Framing, w: World, next: (nat, seq<Reply>) -> Option<Call>, threads: nat,
                        ms: seq<Move<Call>>, st: State<Cli, Srv, Call, Reply>, t: nat) returns (m: Move<Call>)
    requires Lossless(z) && Started(o, w)
    requires Moved(TheWiring(o, z), ApiPrograms(next), Initial(w.cli, w.srv, threads), ms) == Some(st)
    requires AllValid(st.sys.log) && AllKeep(o, w, st.sys.log)
    requires st.holder == None ==> Calls(ApiPrograms(next), st.got, t)
    ensures MoveOf(TheWiring(o, z), ApiPrograms(next), st, m).Some?
    ensures (st.holder == None ==> m == Acquires(t)) && (m.Moves? ==> !Spills(m.step))
  {
    WiringSound(o, z);
    SerialClient(o, z, w, st.sys.log);
    m := SomeThreadMoves(TheWiring(o, z), w.cli, w.srv, ApiPrograms(next), threads, ms, st, t);
  }
}
