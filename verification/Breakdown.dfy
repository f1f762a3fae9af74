/**
  What becomes of a session that leaves lockstep. `Wire` says that calls which stay in lockstep one at
  a time do so in every run. Here is the converse, for the bytes: any other calls have a run in which a
  call returns with bytes still in flight, an end is sent a packet of a type it does not await, or
  neither end can ever move again.
 */
module Breakdowns {
  import opened Options
  import opened Bytes
  import opened Codec
  import opened Packets
  import opened Lockstep
  import opened Wire

  /** Both ends flush what they send before they read on, and a call makes a bounded number of reads. */
  ghost predicate Disciplined<C(!new), S(!new), I(!new)>(e: Ends<Packet, C, S, I>) {
    && (forall c, i :: e.begin(c, i).send != [] ==> e.begin(c, i).flush)
    && (forall c, p :: e.clientTakes(c, p).Some? ==>
          Flushes(e.clientTakes(c, p).value) && e.left(e.clientTakes(c, p).value.next) < e.left(c))
    && (forall s, p :: e.serverTakes(s, p).Some? ==> Flushes(e.serverTakes(s, p).value))
  }

  ghost predicate Flushes<T>(r: Reaction<Packet, T>) { r.send != [] ==> r.flush }

  /** What is held back is about to be flushed. */
  ghost predicate Tidy<C, S>(x: Net<Packet, C, S>) {
    && (x.outbox != [] || x.upHeld ==> x.flushing)
    && (x.replies != [] || x.downHeld ==> x.replyFlushing)
  }

  /** A run of the byte system, with the packet view of the state it reaches. */
  ghost predicate Reaches<C, S, I>(
      w: Wiring<C, S, I>, c0: C, s0: S, ls: seq<Label<I>>, b: Sys<C, S, I>, x: Net<Packet, C, S>) {
    Exec(w, Fresh(c0, s0), ls) == Some(b) && View(w.ends, Still(c0, s0), ls) == Some(x)
  }

  // ---- how a session breaks down ----

  /** The next packet that the server has sent is of another type than the client awaits. */
  ghost predicate ClientMistyped<C, S, I>(w: Wiring<C, S, I>, b: Sys<C, S, I>, x: Net<Packet, C, S>) {
    ClientBlocks(w, b) && x.down != [] && !Answers(x.down[0], w.clientAwaits(b.client))
  }

  ghost predicate ServerAnswered<C, S, I>(w: Wiring<C, S, I>, s: S, p: Packet) {
    p.format.tag != ERROR && w.serverAwaits(s, p.format.tag).Some? && Answers(p, w.serverAwaits(s, p.format.tag).value)
  }

  ghost predicate ServerMistyped<C, S, I>(w: Wiring<C, S, I>, b: Sys<C, S, I>, x: Net<Packet, C, S>) {
    ServerBlocks(b) && x.up != [] && !ServerAnswered(w, b.server, x.up[0])
  }

  /** Both ends are blocked for ever, although something is left to do. */
  ghost predicate Wedged<C, S, I>(w: Wiring<C, S, I>, b: Sys<C, S, I>) {
    && b.outbox == [] && !b.flushing && ServerBlocks(b) && !NothingLeft(w, b)
    && b.upBuffer == [] && b.downBuffer == []
    && Step(w, b, ClientReads) == None && Step(w, b, ServerReads) == None
  }

  ghost predicate BreaksDown<C, S, I>(w: Wiring<C, S, I>, b: Sys<C, S, I>, x: Net<Packet, C, S>) {
    || (AtBoundary(w, b) && BytesInFlight(b))
    || ClientMistyped(w, b, x) || ServerMistyped(w, b, x) || Wedged(w, b)
  }

  // ---- lockstep excludes a breakdown ----

  lemma NotMistyped<C(!new), S(!new), I(!new)>(w: Wiring<C, S, I>, b: Sys<C, S, I>, x: Net<Packet, C, S>)
    requires Sound(w) && Shows(w, b, x) && Run(w.ends, x).Settled?
    ensures !ClientMistyped(w, b, x) && !ServerMistyped(w, b, x)
  {
    if ClientBlocks(w, b) {
      ClientSees(w, b, x);
    }
    if ServerBlocks(b) {
      ServerSees(w, b, x);
    }
  }

  lemma NoBreakdown<C(!new), S(!new), I(!new)>(
      w: Wiring<C, S, I>, c0: C, s0: S, ls: seq<Label<I>>, b: Sys<C, S, I>, x: Net<Packet, C, S>)
    requires Sound(w) && Quiet(w.ends, Still(c0, s0)) && Reaches(w, c0, s0, ls, b, x)
    requires Serial(w, Still(c0, s0), b.log).Some?
    ensures !BreaksDown(w, b, x)
  {
    var x' := EveryRunFollows(w, c0, s0, ls, b);
    NotMistyped(w, b, x);
    if AtBoundary(w, b) {
      LockstepAtBoundaries(w, c0, s0, ls, b);
    }
    var l := NoDeadlock(w, c0, s0, ls, b);
  }

  // ---- bytes can follow any order of packet steps ----

  lemma Extend<C, S, I>(
      w: Wiring<C, S, I>, c0: C, s0: S, ls: seq<Label<I>>, b: Sys<C, S, I>, x: Net<Packet, C, S>,
      l: Label<I>, b': Sys<C, S, I>, x': Net<Packet, C, S>)
    requires Reaches(w, c0, s0, ls, b, x) && Step(w, b, l) == Some(b') && PacketStep(w.ends, x, l) == Some(x')
    ensures Reaches(w, c0, s0, ls + [l], b', x')
  {
    assert (ls + [l])[..|ls + [l]| - 1] == ls;
  }

  /** Everything the client has written goes onto the wire. */
  lemma SpillUp<C(!new), S(!new), I(!new)>(w: Wiring<C, S, I>, c0: C, s0: S, ls: seq<Label<I>>, b: Sys<C, S, I>,
                                           x: Net<Packet, C, S>)
      returns (l: Label<I>, b': Sys<C, S, I>)
    requires Reaches(w, c0, s0, ls, b, x) && Shows(w, b, x)
    ensures Reaches(w, c0, s0, ls + [l], b', x) && Shows(w, b', x)
    ensures b' == b.(up := b.up + b.upBuffer, upBuffer := [])
  {
    l := ClientSpills(|b.upBuffer|);
    b' := Step(w, b, l).value;
    SpillFollows(w, b, x, l, b');
    Extend(w, c0, s0, ls, b, x, l, b', x);
  }

  lemma SpillDown<C(!new), S(!new), I(!new)>(w: Wiring<C, S, I>, c0: C, s0: S, ls: seq<Label<I>>, b: Sys<C, S, I>,
                                             x: Net<Packet, C, S>)
      returns (l: Label<I>, b': Sys<C, S, I>)
    requires Reaches(w, c0, s0, ls, b, x) && Shows(w, b, x)
    ensures Reaches(w, c0, s0, ls + [l], b', x) && Shows(w, b', x)
    ensures b' == b.(down := b.down + b.downBuffer, downBuffer := [])
  {
    l := ServerSpills(|b.downBuffer|);
    b' := Step(w, b, l).value;
    SpillFollows(w, b, x, l, b');
    Extend(w, c0, s0, ls, b, x, l, b', x);
  }

  /** With all bytes on the wire a client that awaits the next packet reads it. */
  lemma ClientGets<C(!new), S(!new), I(!new)>(w: Wiring<C, S, I>, b: Sys<C, S, I>, x: Net<Packet, C, S>)
    requires Sound(w) && Shows(w, b, x) && b.downBuffer == [] && x.down != []
    requires Answers(x.down[0], w.clientAwaits(b.client))
    ensures ClientReceives(w, b) == Received(x.down[0], EncodeAll(w.framing, x.down[1..]))
  {
    assert b.down + b.downBuffer == b.down;
    ReceiveEncoded(w.framing, w.clientAwaits(b.client), x.down[0], EncodeAll(w.framing, x.down[1..]));
  }

  lemma ServerGets<C(!new), S(!new), I(!new)>(w: Wiring<C, S, I>, b: Sys<C, S, I>, x: Net<Packet, C, S>)
    requires Sound(w) && Shows(w, b, x) && b.upBuffer == [] && x.up != []
    requires ServerAnswered(w, b.server, x.up[0])
    ensures ServerReceives(w, b) == Received(x.up[0], EncodeAll(w.framing, x.up[1..]))
  {
    assert b.up + b.upBuffer == b.up;
    assert b.up[0] == x.up[0].format.tag;
    ReceiveEncoded(w.framing, w.serverAwaits(b.server, b.up[0]).value, x.up[0], EncodeAll(w.framing, x.up[1..]));
  }

  lemma ClientReadRuns<C(!new), S(!new), I(!new)>(w: Wiring<C, S, I>, b: Sys<C, S, I>, x: Net<Packet, C, S>,
                                                  y: Net<Packet, C, S>)
      returns (b': Sys<C, S, I>)
    requires Sound(w) && Shows(w, b, x) && b.downBuffer == []
    requires x.outbox == [] && !x.flushing && ClientStep(w.ends, x) == Some(y)
    ensures Step(w, b, ClientReads) == Some(b') && Shows(w, b', y) && b'.log == b.log
  {
    assert w.ends.clientTakes(x.client, x.down[0]).Some?;
    ClientGets(w, b, x);
    b' := Step(w, b, ClientReads).value;
    MovedWellFormed(x.down, []);
  }

  lemma ServerReadRuns<C(!new), S(!new), I(!new)>(w: Wiring<C, S, I>, b: Sys<C, S, I>, x: Net<Packet, C, S>,
                                                  y: Net<Packet, C, S>)
      returns (b': Sys<C, S, I>)
    requires Sound(w) && Shows(w, b, x) && b.upBuffer == []
    requires x.replies == [] && !x.replyFlushing && ServerStep(w.ends, x) == Some(y)
    ensures Step(w, b, ServerReads) == Some(b') && Shows(w, b', y) && b'.log == b.log
  {
    var r := w.ends.serverTakes(x.server, x.up[0]).value;
    ServerGets(w, b, x);
    var rest := EncodeAll(w.framing, x.up[1..]);
    b' := ServerTakesOff(w, b, x.up[0], rest, r);
    assert rest + b.upBuffer == rest;
    ServerReadShows(w, b, x, r, rest, b', y);
  }

  lemma ServerTakesOff<C, S, I>(w: Wiring<C, S, I>, b: Sys<C, S, I>, p: Packet, rest: seq<byte>, r: Reaction<Packet, S>)
      returns (b': Sys<C, S, I>)
    requires ServerBlocks(b) && ServerReceives(w, b) == Received(p, rest) && w.ends.serverTakes(b.server, p) == Some(r)
    ensures Step(w, b, ServerReads) == Some(b')
    ensures b' == b.(server := r.next, replies := r.send, replyFlushing := r.flush, up := rest)
  {
    b' := Step(w, b, ServerReads).value;
  }

  lemma ServerLeaves<C, S, I>(w: Wiring<C, S, I>, b: Sys<C, S, I>, p: Packet)
    requires ServerReceives(w, b).Received? && ServerReceives(w, b).packet == p
      && w.ends.serverTakes(b.server, p) == None
    ensures Step(w, b, ServerReads) == None
  {
  }

  lemma ClientRuns<C(!new), S(!new), I(!new)>(
      w: Wiring<C, S, I>, c0: C, s0: S, ls: seq<Label<I>>, b: Sys<C, S, I>, x: Net<Packet, C, S>, y: Net<Packet, C, S>)
      returns (ls': seq<Label<I>>, b': Sys<C, S, I>)
    requires Sound(w) && Reaches(w, c0, s0, ls, b, x) && Shows(w, b, x) && ClientStep(w.ends, x) == Some(y)
    ensures Reaches(w, c0, s0, ls', b', y) && Shows(w, b', y) && b'.log == b.log
  {
    if x.outbox != [] {
      b' := Step(w, b, ClientWrites).value;
      var y1 := ClientWriteFollows(w, b, x, b');
      Extend(w, c0, s0, ls, b, x, ClientWrites, b', y);
      ls' := ls + [ClientWrites];
    } else if x.flushing {
      b' := Step(w, b, ClientFlushes).value;
      var y1 := ClientFlushFollows(w, b, x, b');
      Extend(w, c0, s0, ls, b, x, ClientFlushes, b', y);
      ls' := ls + [ClientFlushes];
    } else {
      var spill, b1 := SpillDown(w, c0, s0, ls, b, x);
      b' := ClientReadRuns(w, b1, x, y);
      Extend(w, c0, s0, ls + [spill], b1, x, ClientReads, b', y);
      ls' := ls + [spill] + [ClientReads];
    }
  }

  /** The server writes or flushes. */
  lemma ServerChore<C(!new), S(!new), I(!new)>(w: Wiring<C, S, I>, b: Sys<C, S, I>, x: Net<Packet, C, S>,
                                               y: Net<Packet, C, S>)
      returns (l: Label<I>, b': Sys<C, S, I>)
    requires Shows(w, b, x) && ServerStep(w.ends, x) == Some(y) && (x.replies != [] || x.replyFlushing)
    ensures Step(w, b, l) == Some(b') && PacketStep(w.ends, x, l) == Some(y) && Shows(w, b', y) && b'.log == b.log
  {
    l := if x.replies != [] then ServerWrites else ServerFlushes;
    b' := Step(w, b, l).value;
    var y1;
    if x.replies != [] {
      y1 := ServerWriteFollows(w, b, x, b');
    } else {
      y1 := ServerFlushFollows(w, b, x, b');
    }
  }

  lemma ServerRuns<C(!new), S(!new), I(!new)>(
      w: Wiring<C, S, I>, c0: C, s0: S, ls: seq<Label<I>>, b: Sys<C, S, I>, x: Net<Packet, C, S>, y: Net<Packet, C, S>)
      returns (ls': seq<Label<I>>, b': Sys<C, S, I>)
    requires Sound(w) && Reaches(w, c0, s0, ls, b, x) && Shows(w, b, x) && ServerStep(w.ends, x) == Some(y)
    ensures Reaches(w, c0, s0, ls', b', y) && Shows(w, b', y) && b'.log == b.log
  {
    var l;
    if x.replies != [] || x.replyFlushing {
      l, b' := ServerChore(w, b, x, y);
      Extend(w, c0, s0, ls, b, x, l, b', y);
      ls' := ls + [l];
    } else {
      var spill, b1 := SpillUp(w, c0, s0, ls, b, x);
      b' := ServerReadRuns(w, b1, x, y);
      Extend(w, c0, s0, ls + [spill], b1, x, ServerReads, b', y);
      ls' := ls + [spill] + [ServerReads];
    }
  }

  lemma StaysTidy<C(!new), S(!new), I(!new)>(e: Ends<Packet, C, S, I>, x: Net<Packet, C, S>, y: Net<Packet, C, S>)
    requires Disciplined(e) && Tidy(x) && (ClientStep(e, x) == Some(y) || ServerStep(e, x) == Some(y))
    ensures Tidy(y)
  {
  }

  /** Any order of packet steps can be followed by bytes. */
  lemma {:induction false} OrderRuns<C(!new), S(!new), I(!new)>(
      w: Wiring<C, S, I>, c0: C, s0: S, ls: seq<Label<I>>, b: Sys<C, S, I>, x: Net<Packet, C, S>, order: seq<Party>)
      returns (ls': seq<Label<I>>, b': Sys<C, S, I>, x': Net<Packet, C, S>)
    requires Sound(w) && Disciplined(w.ends) && Reaches(w, c0, s0, ls, b, x) && Shows(w, b, x) && Tidy(x)
    requires Perform(w.ends, x, order).Some?
    ensures Perform(w.ends, x, order) == Some(x') && Tidy(x')
    ensures Reaches(w, c0, s0, ls', b', x') && Shows(w, b', x') && b'.log == b.log
    decreases |order|
  {
    if order == [] {
      ls', b', x' := ls, b, x;
    } else {
      var y := (if order[0].Client? then ClientStep(w.ends, x) else ServerStep(w.ends, x)).value;
      if order[0].Client? {
        ls', b' := ClientRuns(w, c0, s0, ls, b, x, y);
      } else {
        ls', b' := ServerRuns(w, c0, s0, ls, b, x, y);
      }
      StaysTidy(w.ends, x, y);
      ls', b', x' := OrderRuns(w, c0, s0, ls', b', y, order[1..]);
    }
  }

  // ---- a lost session breaks down ----

  lemma ClientIsStuck<C(!new), S(!new), I(!new)>(w: Wiring<C, S, I>, b: Sys<C, S, I>, x: Net<Packet, C, S>)
    requires Sound(w) && Disciplined(w.ends) && Shows(w, b, x) && Tidy(x) && b.downBuffer == []
    requires ClientStep(w.ends, x) == None && !ClientMistyped(w, b, x)
    ensures Step(w, b, ClientReads) == None
  {
    if ClientBlocks(w, b) {
      if x.down == [] {
        assert b.down + b.downBuffer == b.down;
      } else {
        ClientGets(w, b, x);
        assert w.ends.clientTakes(x.client, x.down[0]) == None;
      }
    }
  }

  lemma ServerIsStuck<C(!new), S(!new), I(!new)>(w: Wiring<C, S, I>, b: Sys<C, S, I>, x: Net<Packet, C, S>)
    requires Sound(w) && Disciplined(w.ends) && Shows(w, b, x) && Tidy(x) && b.upBuffer == []
    requires ServerStep(w.ends, x) == None && !ServerMistyped(w, b, x)
    ensures Step(w, b, ServerReads) == None
  {
    if ServerBlocks(b) {
      if x.up == [] {
        assert b.up + b.upBuffer == b.up;
      } else {
        ServerGets(w, b, x);
        ServerLeaves(w, b, x.up[0]);
      }
    }
  }

  lemma BytesOf(z: Framing, ps: seq<Packet>)
    ensures EncodeAll(z, ps) == [] <==> ps == []
  {
  }

  /** Trouble among packets is a breakdown once all bytes are on the wire. */
  lemma TroubleShows<C(!new), S(!new), I(!new)>(w: Wiring<C, S, I>, b: Sys<C, S, I>, x: Net<Packet, C, S>)
    requires Sound(w) && Disciplined(w.ends) && Shows(w, b, x) && Tidy(x) && Trouble(w.ends, x)
    requires b.upBuffer == [] && b.downBuffer == []
    ensures BreaksDown(w, b, x)
  {
    assert b.up + b.upBuffer == b.up && b.down + b.downBuffer == b.down;
    BytesOf(w.framing, x.up);
    BytesOf(w.framing, x.down);
    if ClientStep(w.ends, x) == None && ServerStep(w.ends, x) == None && !BreaksDown(w, b, x) {
      ClientIsStuck(w, b, x);
      ServerIsStuck(w, b, x);
    }
  }

  /** A call that does not stay in lockstep has a run that breaks down. */
  lemma LostBreaksDown<C(!new), S(!new), I(!new)>(
      w: Wiring<C, S, I>, c0: C, s0: S, ls: seq<Label<I>>, b: Sys<C, S, I>, x: Net<Packet, C, S>)
      returns (ls': seq<Label<I>>, b': Sys<C, S, I>, x': Net<Packet, C, S>)
    requires Sound(w) && Disciplined(w.ends) && Reaches(w, c0, s0, ls, b, x) && Shows(w, b, x) && Tidy(x)
    requires Run(w.ends, x) == Lost
    ensures Reaches(w, c0, s0, ls', b', x') && b'.log == b.log && BreaksDown(w, b', x')
  {
    var order := LostInTrouble(w.ends, x);
    ls', b', x' := OrderRuns(w, c0, s0, ls, b, x, order);
    var l;
    l, b' := SpillUp(w, c0, s0, ls', b', x');
    ls' := ls' + [l];
    l, b' := SpillDown(w, c0, s0, ls', b', x');
    ls' := ls' + [l];
    TroubleShows(w, b', x');
  }

  /** When nothing is left of the calls so far, the packet view is the end of their serial run. */
  lemma QuietView<C(!new), S(!new), I(!new)>(
      w: Wiring<C, S, I>, c0: C, s0: S, b: Sys<C, S, I>, x: Net<Packet, C, S>)
    requires Sound(w) && Quiet(w.ends, Still(c0, s0)) && OnTrack(w, Still(c0, s0), b, x) && NothingLeft(w, b)
    ensures Quiet(w.ends, x) && Serial(w, Still(c0, s0), b.log) == Some(x)
  {
    NothingLeftShows(w, b, x);
    NoStepsLeft(w.ends, x);
  }

  lemma BeginIsLost<C(!new), S(!new), I(!new)>(w: Wiring<C, S, I>, x0: Net<Packet, C, S>, calls: seq<I>,
                                               x: Net<Packet, C, S>, i: I)
    requires Quiet(w.ends, x0) && Serial(w, x0, calls) == Some(x) && Serial(w, x0, calls + [i]) == None
    requires AllWellFormed(w.ends.begin(x.client, i).send) && Disciplined(w.ends)
    ensures Run(w.ends, Begin(w.ends, x, i)) == Lost && Tidy(Begin(w.ends, x, i))
  {
    assert (calls + [i])[..|calls|] == calls;
  }

  /** The first call that is lost begins when nothing is left of those before it. */
  lemma LostCallBegins<C(!new), S(!new), I(!new)>(w: Wiring<C, S, I>, c0: C, s0: S, calls: seq<I>, i: I)
      returns (ls: seq<Label<I>>, b: Sys<C, S, I>, x: Net<Packet, C, S>)
    requires Sound(w) && Disciplined(w.ends) && Quiet(w.ends, Still(c0, s0))
    requires Serial(w, Still(c0, s0), calls).Some? && Serial(w, Still(c0, s0), calls + [i]) == None
    requires forall c :: AllWellFormed(w.ends.begin(c, i).send)
    ensures Reaches(w, c0, s0, ls, b, x) && Shows(w, b, x) && Tidy(x) && b.log == calls + [i]
    ensures Run(w.ends, x) == Lost
  {
    var x1;
    ls, b, x1 := EverySessionRuns(w, c0, s0, calls);
    var x0 := EveryRunFollows(w, c0, s0, ls, b);
    QuietView(w, c0, s0, b, x0);
    x := Begin(w.ends, x0, i);
    BeginIsLost(w, Still(c0, s0), calls, x0, i);
    ls, b := BeginRuns(w, c0, s0, ls, b, x0, i);
  }

  lemma BeginRuns<C(!new), S(!new), I(!new)>(
      w: Wiring<C, S, I>, c0: C, s0: S, ls: seq<Label<I>>, b: Sys<C, S, I>, x: Net<Packet, C, S>, i: I)
      returns (ls': seq<Label<I>>, b': Sys<C, S, I>)
    requires Reaches(w, c0, s0, ls, b, x) && Shows(w, b, x) && AtBoundary(w, b)
    requires AllWellFormed(w.ends.begin(x.client, i).send)
    ensures Reaches(w, c0, s0, ls', b', Begin(w.ends, x, i)) && Shows(w, b', Begin(w.ends, x, i))
    ensures b'.log == b.log + [i]
  {
    b' := CanBegin(w, b, i);
    BeginShows(w, b, x, i, b');
    Extend(w, c0, s0, ls, b, x, Begins(i), b', Begin(w.ends, x, i));
    ls' := ls + [Begins(i)];
  }

  /** There is a run in which these calls, or the first of them, break the session down. */
  ghost predicate CanBreakDown<C(!new), S(!new), I(!new)>(w: Wiring<C, S, I>, c0: C, s0: S, calls: seq<I>) {
    exists ls, b, x :: Reaches(w, c0, s0, ls, b, x) && b.log <= calls && BreaksDown(w, b, x)
  }

  /** Some run of the calls breaks the session down exactly if, one at a time, they do not all stay in lockstep. */
  lemma BreaksDownIff<C(!new), S(!new), I(!new)>(w: Wiring<C, S, I>, c0: C, s0: S, calls: seq<I>)
    requires Sound(w) && Disciplined(w.ends) && Quiet(w.ends, Still(c0, s0))
    requires forall c, k :: 0 <= k < |calls| ==> AllWellFormed(w.ends.begin(c, calls[k]).send)
    ensures CanBreakDown(w, c0, s0, calls) <==> Serial(w, Still(c0, s0), calls) == None
  {
    if Serial(w, Still(c0, s0), calls) == None {
      var ls, b, x := SomeRunBreaksDown(w, c0, s0, calls);
    } else if CanBreakDown(w, c0, s0, calls) {
      var ls, b, x :| Reaches(w, c0, s0, ls, b, x) && b.log <= calls && BreaksDown(w, b, x);
      PrefixSettles(w, Still(c0, s0), calls, b.log);
      NoBreakdown(w, c0, s0, ls, b, x);
    }
  }

  lemma {:induction false} SomeRunBreaksDown<C(!new), S(!new), I(!new)>(w: Wiring<C, S, I>, c0: C, s0: S, calls: seq<I>)
      returns (ls: seq<Label<I>>, b: Sys<C, S, I>, x: Net<Packet, C, S>)
    requires Sound(w) && Disciplined(w.ends) && Quiet(w.ends, Still(c0, s0))
    requires forall c, k :: 0 <= k < |calls| ==> AllWellFormed(w.ends.begin(c, calls[k]).send)
    requires Serial(w, Still(c0, s0), calls) == None
    ensures Reaches(w, c0, s0, ls, b, x) && b.log <= calls && BreaksDown(w, b, x)
    decreases |calls|
  {
    var n := |calls| - 1;
    if Serial(w, Still(c0, s0), calls[..n]) == None {
      ls, b, x := SomeRunBreaksDown(w, c0, s0, calls[..n]);
    } else {
      assert calls == calls[..n] + [calls[n]];
      ls, b, x := LostCallBegins(w, c0, s0, calls[..n], calls[n]);
      ls, b, x := LostBreaksDown(w, c0, s0, ls, b, x);
    }
  }

  lemma {:induction false} PrefixSettles<C, S, I>(w: Wiring<C, S, I>, x0: Net<Packet, C, S>, calls: seq<I>, log: seq<I>)
    requires Quiet(w.ends, x0) && Serial(w, x0, calls).Some? && log <= calls
    ensures Serial(w, x0, log).Some?
    decreases |calls|
  {
    if log != calls {
      var n := |calls| - 1;
      assert log == calls[..|log|] == calls[..n][..|log|];
      PrefixSettles(w, x0, calls[..n], log);
    }
  }
}
