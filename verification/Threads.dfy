/**
  Any number of client threads that share the connection.

  A thread that makes an API call takes the lock on the connection, performs the call, and releases
  the lock when it has its reply. What a thread calls next may depend on everything it has received.
 */
module Threads {
  import opened Options
  import opened Packets
  import opened Lockstep
  import opened Wire

  /**
    The next call of a thread, given the replies to its calls so far (`None` when it has finished),
    and where a client that has just completed a call keeps the reply.
   */
  datatype Programs<!C, !I, !R> = Programs(next: (nat, seq<R>) -> Option<I>, reply: C -> R)

  /** `order` lists the threads in the order in which they took the lock. */
  datatype State<+C, +S, +I, +R> = State(sys: Sys<C, S, I>, holder: Option<nat>, order: seq<nat>, got: seq<seq<R>>)

  datatype Move<+I> = Acquires(thread: nat) | Moves(step: Label<I>) | Releases

  /** The thread has another call to make. */
  predicate Calls<C, I, R>(p: Programs<C, I, R>, got: seq<seq<R>>, t: nat) {
    t < |got| && p.next(t, got[t]).Some?
  }

  function CallOf<C, I, R>(p: Programs<C, I, R>, got: seq<seq<R>>, t: nat): I
    requires Calls(p, got, t)
  {
    p.next(t, got[t]).value
  }

  /** The state after a move; `None` when the move is not possible. */
  ghost function MoveOf<C, S, I, R>(w: Wiring<C, S, I>, p: Programs<C, I, R>, st: State<C, S, I, R>,
                                    m: Move<I>): Option<State<C, S, I, R>> {
    match m
    case Acquires(t) =>
      if st.holder.Some? || !Calls(p, st.got, t) then None else
      (match Step(w, st.sys, Begins(CallOf(p, st.got, t)))
       case None => None
       case Some(b) => Some(State(b, Some(t), st.order + [t], st.got)))
    case Moves(l) =>
      if l.Begins? then None else
      (match Step(w, st.sys, l)
       case None => None
       case Some(b) => Some(st.(sys := b)))
    case Releases =>
      if st.holder == None || st.holder.value >= |st.got| || !AtBoundary(w, st.sys) then None else
      var t := st.holder.value;
      Some(st.(holder := None, got := st.got[t := st.got[t] + [p.reply(st.sys.client)]]))
  }

  ghost function Moved<C, S, I, R>(w: Wiring<C, S, I>, p: Programs<C, I, R>, st: State<C, S, I, R>,
                                   ms: seq<Move<I>>): Option<State<C, S, I, R>> {
    if ms == [] then Some(st) else
    match Moved(w, p, st, ms[..|ms| - 1])
    case None => None
    case Some(st') => MoveOf(w, p, st', ms[|ms| - 1])
  }

  function NoReplies<R>(threads: nat): seq<seq<R>> { seq(threads, i => []) }

  ghost function Initial<C, S, I, R>(c: C, s: S, threads: nat): State<C, S, I, R> {
    State(Fresh(c, s), None, [], NoReplies(threads))
  }

  // ---- the same calls without concurrency ----

  /** The calls so far and the replies that each thread has received. */
  datatype Sequel<+I, +R> = Sequel(log: seq<I>, got: seq<seq<R>>)

  /** The threads perform their calls one at a time, in the given order. */
  ghost function Sequential<C, S, I, R>(w: Wiring<C, S, I>, x0: Net<Packet, C, S>, p: Programs<C, I, R>,
                                        threads: nat, order: seq<nat>): Sequel<I, R>
    requires Quiet(w.ends, x0)
  {
    if order == [] then Sequel([], NoReplies(threads)) else
    var q, t := Sequential(w, x0, p, threads, order[..|order| - 1]), order[|order| - 1];
    if !Calls(p, q.got, t) then q else
    var log := q.log + [CallOf(p, q.got, t)];
    match Serial(w, x0, log)
    case None => q.(log := log)
    case Some(x) => Sequel(log, q.got[t := q.got[t] + [p.reply(x.client)]])
  }

  // ---- every concurrent run is a sequential one ----

  /** While a thread holds the lock its call counts as made, but it has not got the reply. */
  ghost predicate Matches<C, S, I, R>(w: Wiring<C, S, I>, x0: Net<Packet, C, S>, p: Programs<C, I, R>, threads: nat,
                                      st: State<C, S, I, R>)
    requires Quiet(w.ends, x0)
  {
    var n := |st.order|;
    match st.holder
    case None => AtBoundary(w, st.sys) && Sequel(st.sys.log, st.got) == Sequential(w, x0, p, threads, st.order)
    case Some(t) =>
      && n > 0 && st.order[n - 1] == t && Calls(p, st.got, t)
      && st.got == Sequential(w, x0, p, threads, st.order[..n - 1]).got
      && st.sys.log == Sequential(w, x0, p, threads, st.order).log
      && st.sys.log == Sequential(w, x0, p, threads, st.order[..n - 1]).log + [CallOf(p, st.got, t)]
  }

  lemma BeginLogs<C, S, I>(w: Wiring<C, S, I>, b: Sys<C, S, I>, i: I, b': Sys<C, S, I>)
    requires Step(w, b, Begins(i)) == Some(b')
    ensures b'.log == b.log + [i]
  {
  }

  lemma AcquireMatches<C, S, I, R>(
      w: Wiring<C, S, I>, x0: Net<Packet, C, S>, p: Programs<C, I, R>, threads: nat, st: State<C, S, I, R>, t: nat,
      st': State<C, S, I, R>)
    requires Quiet(w.ends, x0) && Matches(w, x0, p, threads, st) && MoveOf(w, p, st, Acquires(t)) == Some(st')
    ensures Matches(w, x0, p, threads, st') && st'.sys.log == st.sys.log + [CallOf(p, st.got, t)]
  {
    BeginLogs(w, st.sys, CallOf(p, st.got, t), st'.sys);
    assert st'.order[..|st'.order| - 1] == st.order;
  }

  lemma BoundaryStays<C, S, I>(w: Wiring<C, S, I>, b: Sys<C, S, I>, l: Label<I>, b': Sys<C, S, I>)
    requires !l.Begins? && Step(w, b, l) == Some(b')
    ensures b'.log == b.log && (AtBoundary(w, b) ==> AtBoundary(w, b'))
  {
  }

  lemma WireMatches<C, S, I, R>(
      w: Wiring<C, S, I>, x0: Net<Packet, C, S>, p: Programs<C, I, R>, threads: nat, st: State<C, S, I, R>,
      l: Label<I>, st': State<C, S, I, R>)
    requires Quiet(w.ends, x0) && Matches(w, x0, p, threads, st) && MoveOf(w, p, st, Moves(l)) == Some(st')
    ensures Matches(w, x0, p, threads, st') && st'.sys.log == st.sys.log
  {
    BoundaryStays(w, st.sys, l, st'.sys);
  }

  lemma ReleaseMatches<C, S, I, R>(
      w: Wiring<C, S, I>, x0: Net<Packet, C, S>, p: Programs<C, I, R>, threads: nat, st: State<C, S, I, R>,
      st': State<C, S, I, R>)
    requires Quiet(w.ends, x0) && Matches(w, x0, p, threads, st) && MoveOf(w, p, st, Releases) == Some(st')
    requires Serial(w, x0, st.sys.log).Some? && st.sys.client == Serial(w, x0, st.sys.log).value.client
    ensures Matches(w, x0, p, threads, st') && st'.sys == st.sys
  {
  }

  /** The steps of the byte system within a move. */
  ghost function StepsOf<C, S, I, R>(p: Programs<C, I, R>, st: State<C, S, I, R>, m: Move<I>): seq<Label<I>> {
    match m
    case Acquires(t) => if Calls(p, st.got, t) then [Begins(CallOf(p, st.got, t))] else []
    case Moves(l) => [l]
    case Releases => []
  }

  lemma MoveSteps<C, S, I, R>(
      w: Wiring<C, S, I>, p: Programs<C, I, R>, st: State<C, S, I, R>, m: Move<I>, st': State<C, S, I, R>,
      c0: C, s0: S, ls: seq<Label<I>>)
    requires Exec(w, Fresh(c0, s0), ls) == Some(st.sys) && MoveOf(w, p, st, m) == Some(st')
    ensures Exec(w, Fresh(c0, s0), ls + StepsOf(p, st, m)) == Some(st'.sys)
  {
    var more := StepsOf(p, st, m);
    if more == [] {
      assert ls + more == ls;
    } else {
      assert (ls + more)[..|ls + more| - 1] == ls;
    }
  }

  /** The calls of a state after a move were in lockstep before it. */
  lemma LogBefore<C, S, I, R>(
      w: Wiring<C, S, I>, x0: Net<Packet, C, S>, p: Programs<C, I, R>, st: State<C, S, I, R>, m: Move<I>,
      st': State<C, S, I, R>)
    requires Quiet(w.ends, x0) && MoveOf(w, p, st, m) == Some(st') && Serial(w, x0, st'.sys.log).Some?
    ensures Serial(w, x0, st.sys.log).Some?
  {
    match m
    case Acquires(t) => LogGrows(w, x0, st.sys, Begins(CallOf(p, st.got, t)), st'.sys);
    case Moves(l) => BoundaryStays(w, st.sys, l, st'.sys);
    case Releases =>
  }

  lemma OneMoreMove<C(!new), S(!new), I(!new), R>(
      w: Wiring<C, S, I>, c0: C, s0: S, p: Programs<C, I, R>, threads: nat, st: State<C, S, I, R>, ls: seq<Label<I>>,
      m: Move<I>, st': State<C, S, I, R>)
    requires Sound(w) && Quiet(w.ends, Still(c0, s0)) && Serial(w, Still(c0, s0), st.sys.log).Some?
    requires Exec(w, Fresh(c0, s0), ls) == Some(st.sys)
    requires Matches(w, Still(c0, s0), p, threads, st) && MoveOf(w, p, st, m) == Some(st')
    ensures Matches(w, Still(c0, s0), p, threads, st')
  {
    match m
    case Acquires(t) => AcquireMatches(w, Still(c0, s0), p, threads, st, t, st');
    case Moves(l) => WireMatches(w, Still(c0, s0), p, threads, st, l, st');
    case Releases =>
      LockstepAtBoundaries(w, c0, s0, ls, st.sys);
      ReleaseMatches(w, Still(c0, s0), p, threads, st, st');
  }

  /**
    Every concurrent run, under every interleaving of the threads, every scheduling of the two ends
    and every splitting of the bytes, gives each thread exactly the replies that it gets when the
    calls are performed one at a time in the order in which the threads took the lock.
   */
  lemma {:induction false} Linearises<C(!new), S(!new), I(!new), R>(
      w: Wiring<C, S, I>, c0: C, s0: S, p: Programs<C, I, R>, threads: nat, ms: seq<Move<I>>, st: State<C, S, I, R>)
      returns (ls: seq<Label<I>>)
    requires Sound(w) && Quiet(w.ends, Still(c0, s0)) && Serial(w, Still(c0, s0), st.sys.log).Some?
    requires Moved(w, p, Initial(c0, s0, threads), ms) == Some(st)
    ensures Exec(w, Fresh(c0, s0), ls) == Some(st.sys)
    ensures Matches(w, Still(c0, s0), p, threads, st)
    decreases |ms|
  {
    if ms == [] {
      ls := [];
    } else {
      var n := |ms| - 1;
      var st1 := Moved(w, p, Initial(c0, s0, threads), ms[..n]).value;
      LogBefore(w, Still(c0, s0), p, st1, ms[n], st);
      ls := Linearises(w, c0, s0, p, threads, ms[..n], st1);
      OneMoreMove(w, c0, s0, p, threads, st1, ls, ms[n], st);
      MoveSteps(w, p, st1, ms[n], st, c0, s0, ls);
      ls := ls + StepsOf(p, st1, ms[n]);
    }
  }

  lemma CanAcquire<C, S, I, R>(w: Wiring<C, S, I>, p: Programs<C, I, R>, st: State<C, S, I, R>, t: nat)
    requires st.holder == None && AtBoundary(w, st.sys) && Calls(p, st.got, t)
    ensures MoveOf(w, p, st, Acquires(t)).Some?
  {
  }

  lemma CanMove<C, S, I, R>(w: Wiring<C, S, I>, p: Programs<C, I, R>, st: State<C, S, I, R>, l: Label<I>)
    requires !l.Begins? && Step(w, st.sys, l).Some?
    ensures MoveOf(w, p, st, Moves(l)).Some?
  {
  }

  lemma CanRelease<C, S, I, R>(w: Wiring<C, S, I>, p: Programs<C, I, R>, st: State<C, S, I, R>)
    requires st.holder.Some? && st.holder.value < |st.got| && AtBoundary(w, st.sys)
    ensures MoveOf(w, p, st, Releases).Some?
  {
  }

  /** A thread that wants the lock gets it when it is free, and a lock that is held becomes free. */
  lemma SomeThreadMoves<C(!new), S(!new), I(!new), R>(
      w: Wiring<C, S, I>, c0: C, s0: S, p: Programs<C, I, R>, threads: nat, ms: seq<Move<I>>, st: State<C, S, I, R>,
      t: nat)
      returns (m: Move<I>)
    requires Sound(w) && Quiet(w.ends, Still(c0, s0)) && Serial(w, Still(c0, s0), st.sys.log).Some?
    requires Moved(w, p, Initial(c0, s0, threads), ms) == Some(st)
    requires st.holder == None ==> Calls(p, st.got, t)
    ensures MoveOf(w, p, st, m).Some?
    ensures st.holder == None ==> m == Acquires(t)
    ensures m.Moves? ==> !Spills(m.step)
  {
    var ls := Linearises(w, c0, s0, p, threads, ms, st);
    if st.holder == None {
      m := Acquires(t);
      CanAcquire(w, p, st, t);
    } else {
      var l := NoDeadlock(w, c0, s0, ls, st.sys);
      if NothingLeft(w, st.sys) {
        m := Releases;
        CanRelease(w, p, st);
      } else {
        m := Moves(l);
        CanMove(w, p, st, l);
      }
    }
  }

  // ---- who gets which reply ----

  /** Of the replies in the order of the calls, those that belong to one thread. */
  function Share<R>(replies: seq<R>, order: seq<nat>, t: nat): seq<R>
    requires |replies| == |order|
  {
    if order == [] then [] else
    var n := |order| - 1;
    Share(replies[..n], order[..n], t) + if order[n] == t then [replies[n]] else []
  }

  /** The replies to the calls performed one at a time. */
  ghost function RepliesTo<C, S, I, R>(w: Wiring<C, S, I>, x0: Net<Packet, C, S>, p: Programs<C, I, R>,
                                       calls: seq<I>): (r: seq<R>)
    requires Quiet(w.ends, x0) && Serial(w, x0, calls).Some?
    ensures |r| == |calls|
  {
    if calls == [] then [] else
    var n := |calls| - 1;
    RepliesTo(w, x0, p, calls[..n]) + [p.reply(Serial(w, x0, calls).value.client)]
  }

  lemma {:induction false} SequentialCounts<C, S, I, R>(w: Wiring<C, S, I>, x0: Net<Packet, C, S>,
                                                        p: Programs<C, I, R>, threads: nat, order: seq<nat>)
    requires Quiet(w.ends, x0)
    ensures var q := Sequential(w, x0, p, threads, order); |q.got| == threads && |q.log| <= |order|
  {
    if order != [] { SequentialCounts(w, x0, p, threads, order[..|order| - 1]); }
  }

  /** One at a time, the i-th reply belongs to the thread that made the i-th call. */
  lemma {:induction false} SequentialShares<C, S, I, R>(
      w: Wiring<C, S, I>, x0: Net<Packet, C, S>, p: Programs<C, I, R>, threads: nat, order: seq<nat>, t: nat)
    requires Quiet(w.ends, x0) && t < threads
    requires var log := Sequential(w, x0, p, threads, order).log; |log| == |order| && Serial(w, x0, log).Some?
    ensures var q := Sequential(w, x0, p, threads, order);
      |q.got| == threads && q.got[t] == Share(RepliesTo(w, x0, p, q.log), order, t)
  {
    SequentialCounts(w, x0, p, threads, order);
    if order != [] {
      var n := |order| - 1;
      var q', q := Sequential(w, x0, p, threads, order[..n]), Sequential(w, x0, p, threads, order);
      SequentialCounts(w, x0, p, threads, order[..n]);
      assert q.log[..n] == q'.log;
      SerialSnoc(w, x0, q'.log, q.log[n]);
      SequentialShares(w, x0, p, threads, order[..n], t);
      var all := RepliesTo(w, x0, p, q.log);
      assert all[..n] == RepliesTo(w, x0, p, q'.log);
    }
  }

  lemma {:induction false} EveryCallIsOrdered<C, S, I, R>(
      w: Wiring<C, S, I>, x0: Net<Packet, C, S>,
      p: Programs<C, I, R>, threads: nat, ms: seq<Move<I>>, st: State<C, S, I, R>)
    requires Moved(w, p, Initial(x0.client, x0.server, threads), ms) == Some(st)
    ensures |st.sys.log| == |st.order|
    decreases |ms|
  {
    if ms != [] {
      var n := |ms| - 1;
      var st1 := Moved(w, p, Initial(x0.client, x0.server, threads), ms[..n]).value;
      EveryCallIsOrdered(w, x0, p, threads, ms[..n], st1);
      match ms[n]
      case Acquires(t) => BeginLogs(w, st1.sys, CallOf(p, st1.got, t), st.sys);
      case Moves(l) => BoundaryStays(w, st1.sys, l, st.sys);
      case Releases =>
    }
  }

  /**
    Each thread gets its own replies: whenever the lock is free, a thread has received exactly the
    replies to the calls it made, and these are the replies of the calls performed one at a time.
   */
  lemma OwnReplies<C(!new), S(!new), I(!new), R>(
      w: Wiring<C, S, I>, c0: C, s0: S, p: Programs<C, I, R>, threads: nat, ms: seq<Move<I>>, st: State<C, S, I, R>,
      t: nat)
    requires Sound(w) && Quiet(w.ends, Still(c0, s0)) && Serial(w, Still(c0, s0), st.sys.log).Some?
    requires Moved(w, p, Initial(c0, s0, threads), ms) == Some(st) && st.holder == None && t < threads
    ensures |st.sys.log| == |st.order| && |st.got| == threads
    ensures st.got[t] == Share(RepliesTo(w, Still(c0, s0), p, st.sys.log), st.order, t)
  {
    var _ := Linearises(w, c0, s0, p, threads, ms, st);
    EveryCallIsOrdered(w, Still(c0, s0), p, threads, ms, st);
    SequentialShares(w, Still(c0, s0), p, threads, st.order, t);
  }
}
