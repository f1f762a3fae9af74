/**
  The same two ends at the level of bytes.

  Every end encodes its packets into a write buffer, the buffer goes onto the wire when it is
  flushed, and any part of it may go earlier when the buffer fills up. A read completes once the
  bytes of a whole packet have arrived. Every run of this system, under every interleaving and
  every splitting of the bytes, follows a run of packets (`StepFollows`), so that what `Lockstep`
  says of one schedule holds of all of them.
 */
module Wire {
  import opened Options
  import opened Bytes
  import opened Codec
  import opened Packets
  import opened Lockstep

  /** The formats that each end awaits; the server peeks at the type byte to choose its handler. */
  datatype Wiring<!C, !S, !I> = Wiring(
    ends: Ends<Packet, C, S, I>,
    clientAwaits: C -> Format,
    serverAwaits: (S, byte) -> Option<Format>,
    framing: Framing)

  ghost predicate AllWellFormed(ps: seq<Packet>) {
    forall i :: 0 <= i < |ps| ==> WellFormed(ps[i])
  }

  /** The ends only take what they await, and only send packets whose fields fit. */
  ghost predicate Sound<C(!new), S(!new), I(!new)>(w: Wiring<C, S, I>) {
    && Lossless(w.framing)
    && (forall c, p :: w.ends.clientTakes(c, p).Some? ==>
          Answers(p, w.clientAwaits(c)) && AllWellFormed(w.ends.clientTakes(c, p).value.send))
    && (forall s, p :: w.ends.serverTakes(s, p).Some? ==>
          p.format.tag != ERROR && w.serverAwaits(s, p.format.tag).Some?
          && Answers(p, w.serverAwaits(s, p.format.tag).value)
          && AllWellFormed(w.ends.serverTakes(s, p).value.send))
  }

  /**
    `up` holds the bytes sent by the client and not yet read by the server, `upBuffer` those that
    are still in the client's write buffer. `log` records the calls in the order in which they began.
   */
  datatype Sys<+C, +S, +I> = Sys(
    client: C, outbox: seq<Packet>, flushing: bool, upBuffer: seq<byte>, up: seq<byte>,
    server: S, replies: seq<Packet>, replyFlushing: bool, downBuffer: seq<byte>, down: seq<byte>,
    log: seq<I>)

  datatype Label<+I> =
    | ClientWrites | ClientFlushes | ClientSpills(n: nat) | ClientReads
    | ServerWrites | ServerFlushes | ServerSpills(m: nat) | ServerReads
    | Begins(call: I)

  ghost function ServerReceives<C, S, I>(w: Wiring<C, S, I>, b: Sys<C, S, I>): Received {
    if b.up == [] then Waiting else
    match w.serverAwaits(b.server, b.up[0])
    case None => Mistyped(b.up[0])
    case Some(format) => Receive(w.framing, format, b.up)
  }

  ghost function ClientReceives<C, S, I>(w: Wiring<C, S, I>, b: Sys<C, S, I>): Received {
    Receive(w.framing, w.clientAwaits(b.client), b.down)
  }

  ghost predicate ClientBlocks<C, S, I>(w: Wiring<C, S, I>, b: Sys<C, S, I>) {
    b.outbox == [] && !b.flushing && !w.ends.atRest(b.client)
  }

  ghost predicate ServerBlocks<C, S, I>(b: Sys<C, S, I>) {
    b.replies == [] && !b.replyFlushing
  }

  /** The state after a step; `None` when the step is not possible. */
  ghost function Step<C, S, I>(w: Wiring<C, S, I>, b: Sys<C, S, I>, l: Label<I>): Option<Sys<C, S, I>> {
    match l
    case ClientWrites =>
      if b.outbox == [] then None else
      Some(b.(outbox := b.outbox[1..], upBuffer := b.upBuffer + Encode(w.framing, b.outbox[0])))
    case ClientFlushes =>
      if b.outbox != [] || !b.flushing then None else
      Some(b.(flushing := false, up := b.up + b.upBuffer, upBuffer := []))
    case ClientSpills(n) =>
      if n > |b.upBuffer| then None else
      Some(b.(up := b.up + b.upBuffer[..n], upBuffer := b.upBuffer[n..]))
    case ClientReads =>
      if !ClientBlocks(w, b) then None else
      (match ClientReceives(w, b)
       case Received(p, rest) =>
         (match w.ends.clientTakes(b.client, p)
          case None => None
          case Some(r) => Some(b.(client := r.next, outbox := r.send, flushing := r.flush, down := rest)))
       case _ => None)
    case ServerWrites =>
      if b.replies == [] then None else
      Some(b.(replies := b.replies[1..], downBuffer := b.downBuffer + Encode(w.framing, b.replies[0])))
    case ServerFlushes =>
      if b.replies != [] || !b.replyFlushing then None else
      Some(b.(replyFlushing := false, down := b.down + b.downBuffer, downBuffer := []))
    case ServerSpills(n) =>
      if n > |b.downBuffer| then None else
      Some(b.(down := b.down + b.downBuffer[..n], downBuffer := b.downBuffer[n..]))
    case ServerReads =>
      if !ServerBlocks(b) then None else
      (match ServerReceives(w, b)
       case Received(p, rest) =>
         (match w.ends.serverTakes(b.server, p)
          case None => None
          case Some(r) => Some(b.(server := r.next, replies := r.send, replyFlushing := r.flush, up := rest)))
       case _ => None)
    case Begins(i) =>
      if !(w.ends.atRest(b.client) && b.outbox == [] && !b.flushing) then None else
      var r := w.ends.begin(b.client, i);
      Some(b.(client := r.next, outbox := r.send, flushing := r.flush, log := b.log + [i]))
  }

  // ---- bytes and packets ----

  /** What a step of the byte system is in the packet system; a spill is nothing there. */
  ghost function PacketStep<C, S, I>(e: Ends<Packet, C, S, I>, x: Net<Packet, C, S>,
                                     l: Label<I>): Option<Net<Packet, C, S>> {
    match l
    case ClientWrites => ClientStep(e, x)
    case ClientFlushes => ClientStep(e, x)
    case ClientReads => ClientStep(e, x)
    case ServerWrites => ServerStep(e, x)
    case ServerFlushes => ServerStep(e, x)
    case ServerReads => ServerStep(e, x)
    case ClientSpills(_) => Some(x)
    case ServerSpills(_) => Some(x)
    case Begins(i) => Some(Begin(e, x, i))
  }

  /** The packet view of the state that a run reaches. */
  ghost function View<C, S, I>(e: Ends<Packet, C, S, I>, x: Net<Packet, C, S>,
                               ls: seq<Label<I>>): Option<Net<Packet, C, S>> {
    if ls == [] then Some(x) else
    match View(e, x, ls[..|ls| - 1])
    case None => None
    case Some(x') => PacketStep(e, x', ls[|ls| - 1])
  }

  /** The bytes in flight are the encodings of the packets in flight. */
  ghost predicate Shows<C, S, I>(w: Wiring<C, S, I>, b: Sys<C, S, I>, x: Net<Packet, C, S>) {
    && b.client == x.client && b.outbox == x.outbox && b.flushing == x.flushing
    && b.server == x.server && b.replies == x.replies && b.replyFlushing == x.replyFlushing
    && b.up + b.upBuffer == EncodeAll(w.framing, x.up) && (b.upBuffer != [] ==> x.upHeld)
    && b.down + b.downBuffer == EncodeAll(w.framing, x.down) && (b.downBuffer != [] ==> x.downHeld)
    && AllWellFormed(x.outbox) && AllWellFormed(x.up) && AllWellFormed(x.replies) && AllWellFormed(x.down)
  }

  /** What a blocked client sees of the wire: nothing complete yet, or the packet it awaits. */
  lemma ClientSees<C(!new), S(!new), I(!new)>(w: Wiring<C, S, I>, b: Sys<C, S, I>, x: Net<Packet, C, S>)
    requires Sound(w) && Shows(w, b, x) && Run(w.ends, x).Settled? && ClientBlocks(w, b)
    ensures b.upBuffer == [] && !x.upHeld
    ensures ClientReceives(w, b) == Waiting
      || (x.down != [] && ClientReceives(w, b).Received? && ClientReceives(w, b).packet == x.down[0]
          && ClientReceives(w, b).rest + b.downBuffer == EncodeAll(w.framing, x.down[1..]))
    ensures x.down != [] ==> ClientStep(w.ends, x).Some?
    ensures x.down != [] && b.downBuffer == [] ==> ClientReceives(w, b).Received?
  {
    if x.upHeld { StuckClient(w.ends, x); }
    if x.down != [] {
      if ClientStep(w.ends, x) == None { StuckClient(w.ends, x); }
      var expected, p := w.clientAwaits(b.client), x.down[0];
      assert WellFormed(p) && Answers(p, expected);
      var tail := EncodeAll(w.framing, x.down[1..]);
      ReceiveEncoded(w.framing, expected, p, tail);
      assert b.down + b.downBuffer == Encode(w.framing, p) + tail;
      if b.down != [] {
        ReceiveMonotone(w.framing, expected, b.down, b.downBuffer);
      }
      if b.downBuffer == [] { assert b.down + b.downBuffer == b.down; }
    }
  }

  /** The same for a server in its dispatch loop or in a handler. */
  lemma ServerSees<C(!new), S(!new), I(!new)>(w: Wiring<C, S, I>, b: Sys<C, S, I>, x: Net<Packet, C, S>)
    requires Sound(w) && Shows(w, b, x) && Run(w.ends, x).Settled? && ServerBlocks(b)
    ensures b.downBuffer == [] && !x.downHeld
    ensures ServerReceives(w, b) == Waiting
      || (x.up != [] && ServerReceives(w, b).Received? && ServerReceives(w, b).packet == x.up[0]
          && ServerReceives(w, b).rest + b.upBuffer == EncodeAll(w.framing, x.up[1..]))
    ensures x.up != [] ==> ServerStep(w.ends, x).Some?
    ensures x.up != [] && b.upBuffer == [] ==> ServerReceives(w, b).Received?
  {
    if x.downHeld { StuckServer(w.ends, x); }
    if x.up != [] {
      if ServerStep(w.ends, x) == None { StuckServer(w.ends, x); }
      var p := x.up[0];
      var expected := w.serverAwaits(b.server, p.format.tag).value;
      assert WellFormed(p) && Answers(p, expected);
      var tail := EncodeAll(w.framing, x.up[1..]);
      ReceiveEncoded(w.framing, expected, p, tail);
      assert b.up + b.upBuffer == Encode(w.framing, p) + tail;
      if b.up != [] {
        assert b.up[0] == (b.up + b.upBuffer)[0] == p.format.tag;
        ReceiveMonotone(w.framing, expected, b.up, b.upBuffer);
      }
      if b.upBuffer == [] { assert b.up + b.upBuffer == b.up; }
    }
  }

  predicate Spills<I>(l: Label<I>) {
    l.ClientSpills? || l.ServerSpills?
  }

  /** A packet written into the buffer behind the bytes of others. */
  lemma WriteShows(z: Framing, wire: seq<byte>, buffer: seq<byte>, ps: seq<Packet>, p: Packet)
    requires wire + buffer == EncodeAll(z, ps)
    ensures wire + (buffer + Encode(z, p)) == EncodeAll(z, ps + [p])
  {
    EncodeAllAppend(z, ps, p);
    Regroup(wire, buffer, Encode(z, p));
  }

  lemma MovedWellFormed(from: seq<Packet>, to: seq<Packet>)
    requires from != [] && AllWellFormed(from) && AllWellFormed(to)
    ensures AllWellFormed(from[1..]) && AllWellFormed(to + [from[0]])
  {
  }

  lemma ClientWriteFollows<C(!new), S(!new), I(!new)>(
      w: Wiring<C, S, I>, b: Sys<C, S, I>, x: Net<Packet, C, S>, b': Sys<C, S, I>)
      returns (x': Net<Packet, C, S>)
    requires Shows(w, b, x) && Step(w, b, ClientWrites) == Some(b')
    ensures ClientStep(w.ends, x) == Some(x')
    ensures b'.log == b.log && Shows(w, b', x') && Run(w.ends, x) == Run(w.ends, x').Later()
  {
    x' := ClientStep(w.ends, x).value;
    ClientStepKeeps(w.ends, x, x');
    WriteShows(w.framing, b.up, b.upBuffer, x.up, x.outbox[0]);
    MovedWellFormed(x.outbox, x.up);
  }

  lemma ClientFlushFollows<C(!new), S(!new), I(!new)>(
      w: Wiring<C, S, I>, b: Sys<C, S, I>, x: Net<Packet, C, S>, b': Sys<C, S, I>)
      returns (x': Net<Packet, C, S>)
    requires Shows(w, b, x) && Step(w, b, ClientFlushes) == Some(b')
    ensures ClientStep(w.ends, x) == Some(x')
    ensures b'.log == b.log && Shows(w, b', x') && Run(w.ends, x) == Run(w.ends, x').Later()
  {
    x' := ClientStep(w.ends, x).value;
    ClientStepKeeps(w.ends, x, x');
    assert b.up + b.upBuffer + [] == b.up + b.upBuffer;
  }

  lemma ClientReadFollows<C(!new), S(!new), I(!new)>(
      w: Wiring<C, S, I>, b: Sys<C, S, I>, x: Net<Packet, C, S>, b': Sys<C, S, I>)
      returns (x': Net<Packet, C, S>)
    requires Sound(w) && Shows(w, b, x) && Run(w.ends, x).Settled? && Step(w, b, ClientReads) == Some(b')
    ensures ClientStep(w.ends, x) == Some(x')
    ensures b'.log == b.log && Shows(w, b', x') && Run(w.ends, x) == Run(w.ends, x').Later()
  {
    ClientSees(w, b, x);
    x' := ClientStep(w.ends, x).value;
    ClientStepKeeps(w.ends, x, x');
    MovedWellFormed(x.down, []);
  }

  lemma ServerWriteFollows<C(!new), S(!new), I(!new)>(
      w: Wiring<C, S, I>, b: Sys<C, S, I>, x: Net<Packet, C, S>, b': Sys<C, S, I>)
      returns (x': Net<Packet, C, S>)
    requires Shows(w, b, x) && Step(w, b, ServerWrites) == Some(b')
    ensures ServerStep(w.ends, x) == Some(x')
    ensures b'.log == b.log && Shows(w, b', x') && Run(w.ends, x) == Run(w.ends, x').Later()
  {
    x' := ServerStep(w.ends, x).value;
    ReplyStep(w.ends, x);
    WriteShows(w.framing, b.down, b.downBuffer, x.down, x.replies[0]);
    MovedWellFormed(x.replies, x.down);
  }

  lemma ServerFlushFollows<C(!new), S(!new), I(!new)>(
      w: Wiring<C, S, I>, b: Sys<C, S, I>, x: Net<Packet, C, S>, b': Sys<C, S, I>)
      returns (x': Net<Packet, C, S>)
    requires Shows(w, b, x) && Step(w, b, ServerFlushes) == Some(b')
    ensures ServerStep(w.ends, x) == Some(x')
    ensures b'.log == b.log && Shows(w, b', x') && Run(w.ends, x) == Run(w.ends, x').Later()
  {
    x' := ServerStep(w.ends, x).value;
    ReplyStep(w.ends, x);
    assert b.down + b.downBuffer + [] == b.down + b.downBuffer;
  }

  /** A read of the server that completes. */
  lemma ServerReadStep<C, S, I>(w: Wiring<C, S, I>, b: Sys<C, S, I>, b': Sys<C, S, I>)
      returns (p: Packet, rest: seq<byte>, r: Reaction<Packet, S>)
    requires Step(w, b, ServerReads) == Some(b')
    ensures ServerBlocks(b) && ServerReceives(w, b) == Received(p, rest)
    ensures w.ends.serverTakes(b.server, p) == Some(r)
    ensures b' == b.(server := r.next, replies := r.send, replyFlushing := r.flush, up := rest)
  {
    p, rest := ServerReceives(w, b).packet, ServerReceives(w, b).rest;
    r := w.ends.serverTakes(b.server, p).value;
  }

  lemma ServerReadShows<C, S, I>(
      w: Wiring<C, S, I>, b: Sys<C, S, I>, x: Net<Packet, C, S>, r: Reaction<Packet, S>, rest: seq<byte>,
      b': Sys<C, S, I>, x': Net<Packet, C, S>)
    requires Shows(w, b, x) && x.up != [] && AllWellFormed(r.send)
    requires rest + b.upBuffer == EncodeAll(w.framing, x.up[1..])
    requires b' == b.(server := r.next, replies := r.send, replyFlushing := r.flush, up := rest)
    requires x' == x.(server := r.next, replies := r.send, replyFlushing := r.flush, up := x.up[1..])
    ensures b'.log == b.log && Shows(w, b', x')
  {
    MovedWellFormed(x.up, []);
  }

  /** A read of the server that completes has found the next packet. */
  lemma ServerFinds<C(!new), S(!new), I(!new)>(
      w: Wiring<C, S, I>, b: Sys<C, S, I>, x: Net<Packet, C, S>, b': Sys<C, S, I>)
      returns (r: Reaction<Packet, S>, rest: seq<byte>)
    requires Sound(w) && Shows(w, b, x) && Run(w.ends, x).Settled? && Step(w, b, ServerReads) == Some(b')
    ensures x.up != [] && !x.downHeld && x.replies == [] && !x.replyFlushing
    ensures w.ends.serverTakes(x.server, x.up[0]) == Some(r) && AllWellFormed(r.send)
    ensures rest + b.upBuffer == EncodeAll(w.framing, x.up[1..])
    ensures b' == b.(server := r.next, replies := r.send, replyFlushing := r.flush, up := rest)
  {
    var p;
    p, rest, r := ServerReadStep(w, b, b');
    ServerSees(w, b, x);
    assert w.ends.serverTakes(b.server, p).Some?;
  }

  lemma ServerReadFollows<C(!new), S(!new), I(!new)>(
      w: Wiring<C, S, I>, b: Sys<C, S, I>, x: Net<Packet, C, S>, b': Sys<C, S, I>)
      returns (x': Net<Packet, C, S>)
    requires Sound(w) && Shows(w, b, x) && Run(w.ends, x).Settled? && Step(w, b, ServerReads) == Some(b')
    ensures ServerStep(w.ends, x) == Some(x')
    ensures b'.log == b.log && Shows(w, b', x') && Run(w.ends, x) == Run(w.ends, x').Later()
  {
    var r, rest := ServerFinds(w, b, x, b');
    x' := ServerReadKeeps(w.ends, x, r);
    ServerReadShows(w, b, x, r, rest, b', x');
  }

  lemma ServerReadKeeps<C, S, I>(e: Ends<Packet, C, S, I>, x: Net<Packet, C, S>, r: Reaction<Packet, S>)
      returns (x': Net<Packet, C, S>)
    requires Run(e, x).Settled? && x.up != [] && !x.downHeld && x.replies == [] && !x.replyFlushing
    requires e.serverTakes(x.server, x.up[0]) == Some(r)
    ensures x' == x.(server := r.next, replies := r.send, replyFlushing := r.flush, up := x.up[1..])
    ensures ServerStep(e, x) == Some(x') && Run(e, x) == Run(e, x').Later()
  {
    x' := ServerStep(e, x).value;
    ServerStepKeeps(e, x, x');
  }

  lemma SpillFollows<C(!new), S(!new), I(!new)>(
      w: Wiring<C, S, I>, b: Sys<C, S, I>, x: Net<Packet, C, S>, l: Label<I>, b': Sys<C, S, I>)
    requires Shows(w, b, x) && Step(w, b, l) == Some(b') && Spills(l)
    ensures b'.log == b.log && Shows(w, b', x)
  {
    match l
    case ClientSpills(n) => MoveOn(b.up, b.upBuffer, n);
    case ServerSpills(n) => MoveOn(b.down, b.downBuffer, n);
  }

  /**
    A step of the byte system, other than the beginning of a call, is one step of the packet system,
    or invisible to it when a buffer spills.
   */
  lemma StepFollows<C(!new), S(!new), I(!new)>(
      w: Wiring<C, S, I>, b: Sys<C, S, I>, x: Net<Packet, C, S>, l: Label<I>, b': Sys<C, S, I>)
      returns (x': Net<Packet, C, S>)
    requires Sound(w) && Shows(w, b, x) && Run(w.ends, x).Settled?
    requires Step(w, b, l) == Some(b') && !l.Begins?
    ensures Shows(w, b', x') && b'.log == b.log && PacketStep(w.ends, x, l) == Some(x')
    ensures if Spills(l) then x' == x else Run(w.ends, x) == Run(w.ends, x').Later()
  {
    match l
    case ClientWrites => x' := ClientWriteFollows(w, b, x, b');
    case ClientFlushes => x' := ClientFlushFollows(w, b, x, b');
    case ClientSpills(n) => x' := x; SpillFollows(w, b, x, l, b');
    case ClientReads => x' := ClientReadFollows(w, b, x, b');
    case ServerWrites => x' := ServerWriteFollows(w, b, x, b');
    case ServerFlushes => x' := ServerFlushFollows(w, b, x, b');
    case ServerSpills(n) => x' := x; SpillFollows(w, b, x, l, b');
    case ServerReads => x' := ServerReadFollows(w, b, x, b');
  }

  // ---- whole runs ----

  /** The calls performed one at a time, each run to its end before the next begins. */
  ghost function Serial<C, S, I>(w: Wiring<C, S, I>, x0: Net<Packet, C, S>,
                                 calls: seq<I>): (r: Option<Net<Packet, C, S>>)
    requires Quiet(w.ends, x0)
    ensures r.Some? ==> Quiet(w.ends, r.value)
  {
    if calls == [] then Some(x0) else
    var n := |calls| - 1;
    match Serial(w, x0, calls[..n])
    case None => None
    case Some(x) =>
      if AllWellFormed(w.ends.begin(x.client, calls[n]).send)
      then End(w.ends, Begin(w.ends, x, calls[n]))
      else None
  }

  /** Performs the steps in order; `None` when one of them is not possible. */
  ghost function Exec<C, S, I>(w: Wiring<C, S, I>, b: Sys<C, S, I>, ls: seq<Label<I>>): Option<Sys<C, S, I>> {
    if ls == [] then Some(b) else
    match Exec(w, b, ls[..|ls| - 1])
    case None => None
    case Some(b') => Step(w, b', ls[|ls| - 1])
  }

  /** Both ends at rest and nothing written yet. */
  ghost function Fresh<C, S, I>(c: C, s: S): Sys<C, S, I> {
    Sys(c, [], false, [], [], s, [], false, [], [], [])
  }

  ghost function Still<C, S>(c: C, s: S): Net<Packet, C, S> {
    Net(c, [], false, [], false, s, [], false, [], false)
  }

  /** `x` is a packet view of `b`, and whatever is in progress will end as in the serial run. */
  ghost predicate OnTrack<C(!new), S(!new), I(!new)>(w: Wiring<C, S, I>, x0: Net<Packet, C, S>, b: Sys<C, S, I>,
                                                     x: Net<Packet, C, S>)
    requires Quiet(w.ends, x0)
  {
    Shows(w, b, x) && Serial(w, x0, b.log).Some? && End(w.ends, x) == Serial(w, x0, b.log)
  }

  lemma SerialSnoc<C, S, I>(w: Wiring<C, S, I>, x0: Net<Packet, C, S>, calls: seq<I>, i: I)
    requires Quiet(w.ends, x0) && Serial(w, x0, calls + [i]).Some?
    ensures Serial(w, x0, calls).Some?
    ensures var x := Serial(w, x0, calls).value;
      && Quiet(w.ends, x) && AllWellFormed(w.ends.begin(x.client, i).send)
      && Serial(w, x0, calls + [i]) == End(w.ends, Begin(w.ends, x, i))
  {
    assert (calls + [i])[..|calls|] == calls;
  }

  lemma BeginShows<C, S, I>(w: Wiring<C, S, I>, b: Sys<C, S, I>, x: Net<Packet, C, S>, i: I, b': Sys<C, S, I>)
    requires Shows(w, b, x) && Step(w, b, Begins(i)) == Some(b')
    requires AllWellFormed(w.ends.begin(x.client, i).send)
    ensures b'.log == b.log + [i] && Shows(w, b', Begin(w.ends, x, i)) && Boundary(w.ends, x)
  {
  }

  lemma BeginSerial<C, S, I>(w: Wiring<C, S, I>, x0: Net<Packet, C, S>, calls: seq<I>, x: Net<Packet, C, S>, i: I)
    requires Quiet(w.ends, x0) && Boundary(w.ends, x) && Serial(w, x0, calls + [i]).Some?
    requires End(w.ends, x) == Serial(w, x0, calls)
    ensures AllWellFormed(w.ends.begin(x.client, i).send)
    ensures End(w.ends, Begin(w.ends, x, i)) == Serial(w, x0, calls + [i])
  {
    SerialSnoc(w, x0, calls, i);
    BeginKeeps(w.ends, x, i);
  }

  /** `StepFollows`, for the beginning of a call. */
  lemma BeginFollows<C(!new), S(!new), I(!new)>(
      w: Wiring<C, S, I>, x0: Net<Packet, C, S>, b: Sys<C, S, I>, x: Net<Packet, C, S>, i: I, b': Sys<C, S, I>)
    requires Quiet(w.ends, x0) && OnTrack(w, x0, b, x)
    requires Step(w, b, Begins(i)) == Some(b') && Serial(w, x0, b.log + [i]).Some?
    ensures b'.log == b.log + [i] && OnTrack(w, x0, b', Begin(w.ends, x, i))
  {
    assert Boundary(w.ends, x);
    BeginSerial(w, x0, b.log, x, i);
    BeginShows(w, b, x, i, b');
  }

  lemma OneMoreStep<C(!new), S(!new), I(!new)>(
      w: Wiring<C, S, I>, x0: Net<Packet, C, S>, b: Sys<C, S, I>, x: Net<Packet, C, S>, l: Label<I>, b': Sys<C, S, I>)
      returns (x': Net<Packet, C, S>)
    requires Sound(w) && Quiet(w.ends, x0) && OnTrack(w, x0, b, x)
    requires Step(w, b, l) == Some(b') && Serial(w, x0, b'.log).Some?
    ensures OnTrack(w, x0, b', x') && PacketStep(w.ends, x, l) == Some(x')
  {
    if l.Begins? {
      x' := Begin(w.ends, x, l.call);
      BeginFollows(w, x0, b, x, l.call, b');
    } else {
      x' := StepFollows(w, b, x, l, b');
    }
  }

  /** The log only grows. */
  lemma LogGrows<C, S, I>(w: Wiring<C, S, I>, x0: Net<Packet, C, S>, b: Sys<C, S, I>, l: Label<I>, b': Sys<C, S, I>)
    requires Quiet(w.ends, x0) && Step(w, b, l) == Some(b') && Serial(w, x0, b'.log).Some?
    ensures Serial(w, x0, b.log).Some?
  {
    if l.Begins? { SerialSnoc(w, x0, b.log, l.call); }
  }

  lemma FreshOnTrack<C(!new), S(!new), I(!new)>(w: Wiring<C, S, I>, c0: C, s0: S)
    requires Quiet(w.ends, Still(c0, s0))
    ensures OnTrack(w, Still(c0, s0), Fresh(c0, s0), Still(c0, s0))
  {
  }

  /**
    Every state of every run has a packet view, as long as the same calls, performed one at a time,
    stay in lockstep.
   */
  lemma {:induction false} EveryRunFollows<C(!new), S(!new), I(!new)>(
      w: Wiring<C, S, I>, c0: C, s0: S, ls: seq<Label<I>>, b: Sys<C, S, I>)
      returns (x: Net<Packet, C, S>)
    requires Sound(w) && Quiet(w.ends, Still(c0, s0))
    requires Exec(w, Fresh(c0, s0), ls) == Some(b) && Serial(w, Still(c0, s0), b.log).Some?
    ensures OnTrack(w, Still(c0, s0), b, x) && View(w.ends, Still(c0, s0), ls) == Some(x)
    decreases |ls|
  {
    var x0 := Still(c0, s0);
    if ls == [] {
      x := x0;
      FreshOnTrack(w, c0, s0);
    } else {
      var b1 := Exec(w, Fresh(c0, s0), ls[..|ls| - 1]).value;
      LogGrows(w, x0, b1, ls[|ls| - 1], b);
      var x1 := EveryRunFollows(w, c0, s0, ls[..|ls| - 1], b1);
      x := OneMoreStep(w, x0, b1, x1, ls[|ls| - 1], b);
    }
  }

  ghost predicate BytesInFlight<C, S, I>(b: Sys<C, S, I>) {
    b.up != [] || b.upBuffer != [] || b.down != [] || b.downBuffer != []
  }

  ghost predicate AtBoundary<C, S, I>(w: Wiring<C, S, I>, b: Sys<C, S, I>) {
    w.ends.atRest(b.client) && b.outbox == [] && !b.flushing
  }

  /**
    Lockstep. In every state of every run, whenever no call is in progress there is not a byte in
    any write buffer, on the wire or in any read buffer, and both ends are in the state in which the
    calls so far, performed one at a time, leave them.
   */
  lemma LockstepAtBoundaries<C(!new), S(!new), I(!new)>(
      w: Wiring<C, S, I>, c0: C, s0: S, ls: seq<Label<I>>, b: Sys<C, S, I>)
    requires Sound(w) && Quiet(w.ends, Still(c0, s0))
    requires Exec(w, Fresh(c0, s0), ls) == Some(b) && Serial(w, Still(c0, s0), b.log).Some?
    requires AtBoundary(w, b)
    ensures !BytesInFlight(b)
    ensures b.client == Serial(w, Still(c0, s0), b.log).value.client
    ensures b.server == Serial(w, Still(c0, s0), b.log).value.server
  {
    var x := EveryRunFollows(w, c0, s0, ls, b);
    SettledBoundary(w.ends, x);
  }

  /** The client meets what it awaits or an error. */
  ghost predicate ClientMeetsAwaited<C, S, I>(w: Wiring<C, S, I>, b: Sys<C, S, I>) {
    match ClientReceives(w, b)
    case Waiting => true
    case Received(p, _) => p.format == w.clientAwaits(b.client) || p.format == ERROR_FORMAT
    case _ => false
  }

  /** The server meets what its current handler, or some handler, awaits. */
  ghost predicate ServerMeetsAwaited<C, S, I>(w: Wiring<C, S, I>, b: Sys<C, S, I>) {
    match ServerReceives(w, b)
    case Waiting => true
    case Received(p, _) => w.serverAwaits(b.server, p.format.tag) == Some(p.format)
    case _ => false
  }

  lemma ClientMeets<C(!new), S(!new), I(!new)>(w: Wiring<C, S, I>, b: Sys<C, S, I>, x: Net<Packet, C, S>)
    requires Sound(w) && Shows(w, b, x) && Run(w.ends, x).Settled? && ClientBlocks(w, b)
    ensures b.upBuffer == [] && ClientMeetsAwaited(w, b)
  {
    ClientSees(w, b, x);
  }

  lemma ServerMeets<C(!new), S(!new), I(!new)>(w: Wiring<C, S, I>, b: Sys<C, S, I>, x: Net<Packet, C, S>)
    requires Sound(w) && Shows(w, b, x) && Run(w.ends, x).Settled? && ServerBlocks(b)
    ensures b.downBuffer == [] && ServerMeetsAwaited(w, b)
  {
    ServerSees(w, b, x);
    if x.up != [] {
      assert w.ends.serverTakes(x.server, x.up[0]).Some?;
    }
  }

  /**
    In every state of every run, what an end meets when it blocks in a read is the packet type it
    awaits or, at the client, an error: never another type, and never a packet that no handler of the
    server expects. And it never blocks with a byte left in its own write buffer.
   */
  lemma NeverMistyped<C(!new), S(!new), I(!new)>(
      w: Wiring<C, S, I>, c0: C, s0: S, ls: seq<Label<I>>, b: Sys<C, S, I>)
    requires Sound(w) && Quiet(w.ends, Still(c0, s0))
    requires Exec(w, Fresh(c0, s0), ls) == Some(b) && Serial(w, Still(c0, s0), b.log).Some?
    ensures ClientBlocks(w, b) ==> b.upBuffer == [] && ClientMeetsAwaited(w, b)
    ensures ServerBlocks(b) ==> b.downBuffer == [] && ServerMeetsAwaited(w, b)
  {
    var x := EveryRunShows(w, c0, s0, ls, b);
    if ClientBlocks(w, b) { ClientMeets(w, b, x); }
    if ServerBlocks(b) { ServerMeets(w, b, x); }
  }

  lemma EveryRunShows<C(!new), S(!new), I(!new)>(
      w: Wiring<C, S, I>, c0: C, s0: S, ls: seq<Label<I>>, b: Sys<C, S, I>)
      returns (x: Net<Packet, C, S>)
    requires Sound(w) && Quiet(w.ends, Still(c0, s0))
    requires Exec(w, Fresh(c0, s0), ls) == Some(b) && Serial(w, Still(c0, s0), b.log).Some?
    ensures Shows(w, b, x) && Run(w.ends, x).Settled?
  {
    x := EveryRunFollows(w, c0, s0, ls, b);
  }

  lemma ClientReadEnabled<C, S, I>(w: Wiring<C, S, I>, b: Sys<C, S, I>, p: Packet)
    requires ClientBlocks(w, b) && ClientReceives(w, b).Received? && ClientReceives(w, b).packet == p
    requires w.ends.clientTakes(b.client, p).Some?
    ensures Step(w, b, ClientReads).Some?
  {
  }

  lemma ServerReadEnabled<C, S, I>(w: Wiring<C, S, I>, b: Sys<C, S, I>, p: Packet)
    requires ServerBlocks(b) && ServerReceives(w, b).Received? && ServerReceives(w, b).packet == p
    requires w.ends.serverTakes(b.server, p).Some?
    ensures Step(w, b, ServerReads).Some?
  {
  }

  lemma ClientCanRead<C(!new), S(!new), I(!new)>(w: Wiring<C, S, I>, b: Sys<C, S, I>, x: Net<Packet, C, S>)
    requires Sound(w) && Shows(w, b, x) && Run(w.ends, x).Settled? && ClientBlocks(w, b)
    requires x.down != [] && b.downBuffer == []
    ensures Step(w, b, ClientReads).Some?
  {
    ClientSees(w, b, x);
    assert w.ends.clientTakes(x.client, x.down[0]).Some?;
    ClientReadEnabled(w, b, x.down[0]);
  }

  lemma ServerCanRead<C(!new), S(!new), I(!new)>(w: Wiring<C, S, I>, b: Sys<C, S, I>, x: Net<Packet, C, S>)
    requires Sound(w) && Shows(w, b, x) && Run(w.ends, x).Settled? && ServerBlocks(b)
    requires x.up != [] && b.upBuffer == []
    ensures Step(w, b, ServerReads).Some?
  {
    ServerSees(w, b, x);
    assert w.ends.serverTakes(x.server, x.up[0]).Some?;
    ServerReadEnabled(w, b, x.up[0]);
  }

  ghost predicate NothingLeft<C, S, I>(w: Wiring<C, S, I>, b: Sys<C, S, I>) {
    AtBoundary(w, b) && ServerBlocks(b) && w.ends.ready(b.server) && !BytesInFlight(b)
  }

  lemma NothingLeftIf<C, S, I>(w: Wiring<C, S, I>, b: Sys<C, S, I>, x: Net<Packet, C, S>)
    requires Shows(w, b, x) && Run(w.ends, x).Settled?
    requires ClientStep(w.ends, x) == None && ServerStep(w.ends, x) == None
    ensures NothingLeft(w, b)
  {
    assert Quiet(w.ends, x);
  }

  /** Two ends that both block in a read: one of them has its packet, unless nothing is left to do. */
  lemma BlockedEnds<C(!new), S(!new), I(!new)>(w: Wiring<C, S, I>, b: Sys<C, S, I>, x: Net<Packet, C, S>)
      returns (l: Label<I>)
    requires Sound(w) && Shows(w, b, x) && Run(w.ends, x).Settled?
    requires b.outbox == [] && !b.flushing && ServerBlocks(b)
    ensures NothingLeft(w, b) || ((l.ClientReads? || l.ServerReads?) && Step(w, b, l).Some?)
  {
    ServerMeets(w, b, x);
    l := ServerReads;
    if ClientBlocks(w, b) {
      ClientMeets(w, b, x);
      if x.down != [] {
        l := ClientReads;
        ClientCanRead(w, b, x);
        return;
      }
    }
    if x.up == [] {
      NothingLeftIf(w, b, x);
    } else if ClientBlocks(w, b) {
      ServerCanRead(w, b, x);
    }
  }

  /**
    No deadlock. In every state of every run either nothing is in progress, or one of the two ends
    can move; they are never both blocked.
   */
  lemma NoDeadlock<C(!new), S(!new), I(!new)>(
      w: Wiring<C, S, I>, c0: C, s0: S, ls: seq<Label<I>>, b: Sys<C, S, I>)
      returns (l: Label<I>)
    requires Sound(w) && Quiet(w.ends, Still(c0, s0))
    requires Exec(w, Fresh(c0, s0), ls) == Some(b) && Serial(w, Still(c0, s0), b.log).Some?
    ensures NothingLeft(w, b) || (!l.Begins? && !Spills(l) && Step(w, b, l).Some?)
  {
    l := ServerReads;
    if b.outbox != [] {
      l := ClientWrites;
    } else if b.flushing {
      l := ClientFlushes;
    } else if b.replies != [] {
      l := ServerWrites;
    } else if b.replyFlushing {
      l := ServerFlushes;
    } else {
      var x := EveryRunShows(w, c0, s0, ls, b);
      l := BlockedEnds(w, b, x);
    }
  }

  // ---- every call returns ----

  ghost function Remaining<C, S, I>(w: Wiring<C, S, I>, x: Net<Packet, C, S>): nat {
    match Run(w.ends, x)
    case Lost => 0
    case Settled(_, n) => n
  }

  /** The number of steps in a schedule that are not spills. */
  ghost function Work<I>(ls: seq<Label<I>>): nat {
    if ls == [] then 0 else Work(ls[..|ls| - 1]) + if Spills(ls[|ls| - 1]) then 0 else 1
  }

  ghost predicate NoNewCalls<I>(ls: seq<Label<I>>) {
    forall i :: 0 <= i < |ls| ==> !ls[i].Begins?
  }

  /**
    From any reachable state, under every schedule, exactly `Remaining` steps other than spills can
    follow before nothing is left to do. Since there is no deadlock, the calls in progress return.
   */
  lemma {:induction false} EveryCallReturns<C(!new), S(!new), I(!new)>(
      w: Wiring<C, S, I>, b: Sys<C, S, I>, x: Net<Packet, C, S>, ls: seq<Label<I>>, b': Sys<C, S, I>)
      returns (x': Net<Packet, C, S>)
    requires Sound(w) && Shows(w, b, x) && Run(w.ends, x).Settled?
    requires Exec(w, b, ls) == Some(b') && NoNewCalls(ls)
    ensures Shows(w, b', x') && Run(w.ends, x').Settled?
    ensures Remaining(w, x) == Work(ls) + Remaining(w, x')
  {
    if ls == [] {
      x' := x;
    } else {
      var n := |ls| - 1;
      var b1 := Exec(w, b, ls[..n]).value;
      var x1 := EveryCallReturns(w, b, x, ls[..n], b1);
      assert !ls[n].Begins?;
      x' := StepFollows(w, b1, x1, ls[n], b');
    }
  }

  /** A state that shows a quiet one has nothing left to do. */
  lemma NothingLeftShows<C(!new), S(!new), I(!new)>(w: Wiring<C, S, I>, b: Sys<C, S, I>, x: Net<Packet, C, S>)
    requires Sound(w) && Shows(w, b, x) && Run(w.ends, x).Settled? && NothingLeft(w, b)
    ensures ClientStep(w.ends, x) == None && ServerStep(w.ends, x) == None
  {
    SettledBoundary(w.ends, x);
    ServerSees(w, b, x);
  }

  /** Nothing remains exactly when nothing is left. */
  lemma RemainingIsLeft<C(!new), S(!new), I(!new)>(w: Wiring<C, S, I>, b: Sys<C, S, I>, x: Net<Packet, C, S>)
    requires Sound(w) && Shows(w, b, x) && Run(w.ends, x).Settled?
    ensures Remaining(w, x) == 0 <==> NothingLeft(w, b)
  {
    NoStepsLeft(w.ends, x);
    if NothingLeft(w, b) {
      NothingLeftShows(w, b, x);
    } else if ClientStep(w.ends, x) == None && ServerStep(w.ends, x) == None {
      NothingLeftIf(w, b, x);
    }
  }

  ghost predicate ReturnsAfter<C, S, I>(w: Wiring<C, S, I>, b: Sys<C, S, I>, n: nat, more: seq<Label<I>>) {
    match Exec(w, b, more)
    case None => true
    case Some(b') => Work(more) <= n && (Work(more) == n <==> NothingLeft(w, b'))
  }

  lemma ReturnsAfterRemaining<C(!new), S(!new), I(!new)>(
      w: Wiring<C, S, I>, b: Sys<C, S, I>, x: Net<Packet, C, S>, more: seq<Label<I>>)
    requires Sound(w) && Shows(w, b, x) && Run(w.ends, x).Settled? && NoNewCalls(more)
    ensures ReturnsAfter(w, b, Remaining(w, x), more)
  {
    if Exec(w, b, more).Some? {
      var b' := Exec(w, b, more).value;
      var x' := EveryCallReturns(w, b, x, more, b');
      RemainingIsLeft(w, b', x');
    }
  }

  /**
    So in every state of every run there is a number of steps after which, on whatever schedule, all
    calls have returned and nothing is left to do; and not before.
   */
  lemma AllReturnTogether<C(!new), S(!new), I(!new)>(
      w: Wiring<C, S, I>, c0: C, s0: S, ls: seq<Label<I>>, b: Sys<C, S, I>) returns (n: nat)
    requires Sound(w) && Quiet(w.ends, Still(c0, s0))
    requires Exec(w, Fresh(c0, s0), ls) == Some(b) && Serial(w, Still(c0, s0), b.log).Some?
    ensures forall more :: NoNewCalls(more) ==> ReturnsAfter(w, b, n, more)
  {
    var x := EveryRunShows(w, c0, s0, ls, b);
    n := Remaining(w, x);
    forall more | NoNewCalls(more) ensures ReturnsAfter(w, b, n, more) {
      ReturnsAfterRemaining(w, b, x, more);
    }
  }

  // ---- every session can be performed ----

  lemma ExecSnoc<C, S, I>(w: Wiring<C, S, I>, b0: Sys<C, S, I>, ls: seq<Label<I>>, b: Sys<C, S, I>, l: Label<I>,
                          b': Sys<C, S, I>)
    requires Exec(w, b0, ls) == Some(b) && Step(w, b, l) == Some(b')
    ensures Exec(w, b0, ls + [l]) == Some(b')
  {
    assert (ls + [l])[..|ls + [l]| - 1] == ls;
  }

  /** From any state of a run, the calls in progress can be brought to their end. */
  lemma {:induction false} RunsToTheEnd<C(!new), S(!new), I(!new)>(
      w: Wiring<C, S, I>, c0: C, s0: S, ls: seq<Label<I>>, b: Sys<C, S, I>, x: Net<Packet, C, S>)
      returns (ls': seq<Label<I>>, b': Sys<C, S, I>, x': Net<Packet, C, S>)
    requires Sound(w) && Quiet(w.ends, Still(c0, s0))
    requires Exec(w, Fresh(c0, s0), ls) == Some(b) && OnTrack(w, Still(c0, s0), b, x)
    ensures Exec(w, Fresh(c0, s0), ls') == Some(b') && OnTrack(w, Still(c0, s0), b', x')
    ensures b'.log == b.log && NothingLeft(w, b')
    decreases Remaining(w, x)
  {
    var l := NoDeadlock(w, c0, s0, ls, b);
    if NothingLeft(w, b) {
      ls', b', x' := ls, b, x;
    } else {
      var b1 := Step(w, b, l).value;
      var x1 := StepFollows(w, b, x, l, b1);
      ExecSnoc(w, Fresh(c0, s0), ls, b, l, b1);
      ls', b', x' := RunsToTheEnd(w, c0, s0, ls + [l], b1, x1);
    }
  }

  lemma CanBegin<C, S, I>(w: Wiring<C, S, I>, b: Sys<C, S, I>, i: I) returns (b': Sys<C, S, I>)
    requires AtBoundary(w, b)
    ensures Step(w, b, Begins(i)) == Some(b')
  {
    b' := Step(w, b, Begins(i)).value;
  }

  /** One more call, from its beginning to its end. */
  lemma OneMoreCall<C(!new), S(!new), I(!new)>(
      w: Wiring<C, S, I>, c0: C, s0: S, ls: seq<Label<I>>, b: Sys<C, S, I>, x: Net<Packet, C, S>, i: I)
      returns (ls': seq<Label<I>>, b': Sys<C, S, I>, x': Net<Packet, C, S>)
    requires Sound(w) && Quiet(w.ends, Still(c0, s0)) && Serial(w, Still(c0, s0), b.log + [i]).Some?
    requires Exec(w, Fresh(c0, s0), ls) == Some(b) && OnTrack(w, Still(c0, s0), b, x) && NothingLeft(w, b)
    ensures Exec(w, Fresh(c0, s0), ls') == Some(b') && OnTrack(w, Still(c0, s0), b', x')
    ensures b'.log == b.log + [i] && NothingLeft(w, b')
  {
    var b1 := CanBegin(w, b, i);
    BeginFollows(w, Still(c0, s0), b, x, i, b1);
    ExecSnoc(w, Fresh(c0, s0), ls, b, Begins(i), b1);
    ls', b', x' := RunsToTheEnd(w, c0, s0, ls + [Begins(i)], b1, Begin(w.ends, x, i));
  }

  lemma FreshRun<C, S, I>(w: Wiring<C, S, I>, c0: C, s0: S)
    requires Quiet(w.ends, Still(c0, s0))
    ensures Exec(w, Fresh(c0, s0), []) == Some(Fresh(c0, s0)) && NothingLeft(w, Fresh(c0, s0))
  {
  }

  /** Any calls that stay in lockstep one at a time have a run on bytes that performs them all. */
  lemma {:induction false} EverySessionRuns<C(!new), S(!new), I(!new)>(w: Wiring<C, S, I>, c0: C, s0: S, calls: seq<I>)
      returns (ls: seq<Label<I>>, b: Sys<C, S, I>, x: Net<Packet, C, S>)
    requires Sound(w) && Quiet(w.ends, Still(c0, s0)) && Serial(w, Still(c0, s0), calls).Some?
    ensures Exec(w, Fresh(c0, s0), ls) == Some(b) && OnTrack(w, Still(c0, s0), b, x)
    ensures b.log == calls && NothingLeft(w, b)
    decreases |calls|
  {
    if calls == [] {
      ls, b, x := [], Fresh(c0, s0), Still(c0, s0);
      FreshOnTrack(w, c0, s0);
      FreshRun(w, c0, s0);
    } else {
      var before, last := calls[..|calls| - 1], calls[|calls| - 1];
      assert calls == before + [last];
      SerialSnoc(w, Still(c0, s0), before, last);
      ls, b, x := EverySessionRuns(w, c0, s0, before);
      ls, b, x := OneMoreCall(w, c0, s0, ls, b, x, last);
    }
  }
}
