/**
  How the server opens the second stream, on which it reports events. It tries up to 16 random ports,
  tells the client the port, or 0 if there is none, and waits for the client to connect.
 */
module EventStreams {
  import opened Bytes
  import opened Codec
  import opened Packets

  const TRIES: nat := 16
  const PORT_MIN: nat := 49152
  const PORT_MAX: nat := 65535

  function PortFor(random: nat): (port: nat)
    ensures PORT_MIN <= port <= PORT_MAX
  {
    random % (PORT_MAX - PORT_MIN + 1) + PORT_MIN
  }

  /** What becomes of `accept` on a bound port. Without a client it waits for ever. */
  datatype Peer = Connects | AcceptFails | NeverConnects

  /** One attempt: the port is in use, something else goes wrong, or the socket is bound. */
  datatype Attempt = PortInUse | Breaks | Binds(peer: Peer)

  /** The attempts are an oracle: the n-th has the n-th random number and the n-th outcome. */
  datatype Luck = Luck(random: nat -> nat, attempt: nat -> Attempt)

  /** The first attempt from `i` on that is not simply repeated, or the number of tries. */
  function Decisive(luck: Luck, i: nat): (k: nat)
    requires i <= TRIES
    ensures i <= k <= TRIES && (forall j :: i <= j < k ==> luck.attempt(j).PortInUse?)
    ensures k < TRIES ==> !luck.attempt(k).PortInUse?
    decreases TRIES - i
  {
    if i == TRIES || !luck.attempt(i).PortInUse? then i else Decisive(luck, i + 1)
  }

  predicate Bound(luck: Luck) {
    var k := Decisive(luck, 0);
    k < TRIES && luck.attempt(k).Binds?
  }

  /** A port was bound, and this is how waiting on it goes. */
  predicate BoundAnd(luck: Luck, peer: Peer) { Bound(luck) && luck.attempt(Decisive(luck, 0)).peer == peer }

  /** What the server replies: the port it has bound, and 0 if it has none or cannot accept on it. */
  function Replies(luck: Luck): seq<nat> {
    (if Bound(luck) then [PortFor(luck.random(Decisive(luck, 0)))] else [])
    + (if !Bound(luck) || BoundAnd(luck, AcceptFails) then [0] else [])
  }

  /**
    The server's loop, which ends at the latest with the 16th attempt, unless it hangs: having replied
    with the port, the handler waits for ever for a client that never connects.
   */
  method CreateEventStream(luck: Luck) returns (replies: seq<nat>, open: bool, hangs: bool)
    ensures replies == Replies(luck)
    ensures open == BoundAnd(luck, Connects) && hangs == BoundAnd(luck, NeverConnects)
  {
    replies, open, hangs := [], false, false;
    var triesLeft: nat := TRIES;
    while triesLeft != 0
      invariant triesLeft <= TRIES && !open && !hangs
      invariant (replies == [] && Decisive(luck, 0) == Decisive(luck, TRIES - triesLeft))
        || (triesLeft == 0 && BoundAnd(luck, AcceptFails) && replies == [PortFor(luck.random(Decisive(luck, 0)))])
      invariant replies == [] && triesLeft == 0 ==> !Bound(luck)
    {
      var i := TRIES - triesLeft;
      triesLeft := triesLeft - 1;
      var port := PortFor(luck.random(i));
      match luck.attempt(i) {
        case PortInUse =>
        case Breaks =>
          break;
        case Binds(peer) =>
          triesLeft := 0;
          replies := replies + [port];
          if peer != AcceptFails {
            open, hangs := peer == Connects, peer == NeverConnects;
            return;
          }
      }
    }
    replies := replies + [0];
  }

  /** The client reads one reply. It is followed by a second exactly if a port was bound and accepting failed. */
  lemma TwoRepliesIff(luck: Luck)
    ensures Replies(luck) != []
    ensures Replies(luck)[0] == 0 <==> !Bound(luck)
    ensures Replies(luck)[1..] == (if BoundAnd(luck, AcceptFails) then [0] else [])
  {
  }

  /** The attempt that binds a port: all before it found theirs in use. */
  ghost predicate BindsAt(luck: Luck, k: nat) {
    k < 16 && luck.attempt(k).Binds? && forall j :: 0 <= j < k ==> luck.attempt(j).PortInUse?
  }

  /** The port that the client is told is the one that was bound, in the ephemeral range. */
  lemma PortIsBound(luck: Luck, k: nat)
    requires BindsAt(luck, k)
    ensures Bound(luck) && Replies(luck)[0] == 49152 + luck.random(k) % 16384
  {
    assert Decisive(luck, 0) == k;
  }

  /** There is no other way to have a port. */
  lemma BoundIff(luck: Luck)
    ensures Bound(luck) <==> exists k :: BindsAt(luck, k)
  {
    if Bound(luck) {
      assert BindsAt(luck, Decisive(luck, 0));
    }
    if k :| BindsAt(luck, k) {
      PortIsBound(luck, k);
    }
  }

  function Ports(ports: seq<nat>): seq<Packet> {
    seq(|ports|, i requires 0 <= i < |ports| => SmallPacket(2, ports[i]))
  }

  /**
    The bytes the client finds after its next call, where `answer` is what a server in its main loop
    sends for that call. A server that still waits for a connection does not get to it.
   */
  function NextBytes(z: Framing, luck: Luck, answer: seq<byte>): seq<byte> {
    if BoundAnd(luck, NeverConnects) then [] else EncodeAll(z, Ports(Replies(luck)[1..])) + answer
  }

  /** A reader that compresses may make anything of a payload that starts in the wrong place. */
  predicate Measured(z: Framing, f: Format) {
    f.tag == PAYLOAD ==> f.schema.Num? || (f.schema.Blob? && !z.zlib)
  }

  /**
    The next call gets its own reply exactly if the server could bind no port, or bound one and the
    client connected to it.
   */
  lemma NextCallAnsweredIff(z: Framing, luck: Luck, expected: Format, p: Packet)
    requires Lossless(z) && WellFormed(p) && Answers(p, expected) && Measured(z, expected)
    ensures Receive(z, expected, NextBytes(z, luck, Encode(z, p))) == Received(p, [])
      <==> !Bound(luck) || BoundAnd(luck, Connects)
  {
    var answer := Encode(z, p);
    if BoundAnd(luck, AcceptFails) {
      SecondReply(z, luck, answer);
      if expected.tag == PAYLOAD {
        StalePayload(z, expected, p);
      }
    } else if !BoundAnd(luck, NeverConnects) {
      assert EncodeAll(z, Ports(Replies(luck)[1..])) + answer == answer + [];
      ReceiveEncoded(z, expected, p, []);
    }
  }

  /** The next call waits for ever exactly if the client never connects to the port. */
  lemma NextCallHangsIff(z: Framing, luck: Luck, expected: Format, p: Packet)
    requires Lossless(z) && WellFormed(p) && Answers(p, expected) && expected.tag != PAYLOAD
    ensures Receive(z, expected, NextBytes(z, luck, Encode(z, p))) == Waiting <==> BoundAnd(luck, NeverConnects)
  {
    if BoundAnd(luck, AcceptFails) {
      SecondReplyIsMisread(z, luck, expected, Encode(z, p));
    } else if !BoundAnd(luck, NeverConnects) {
      NextCallAnsweredIff(z, luck, expected, p);
    }
  }

  lemma SecondReply(z: Framing, luck: Luck, answer: seq<byte>)
    requires BoundAnd(luck, AcceptFails)
    ensures NextBytes(z, luck, answer) == [PAYLOAD, 0, 0] + answer
  {
    var ps := Ports(Replies(luck)[1..]);
    assert ps == [SmallPacket(2, 0)] && ps[1..] == [];
    assert Little(2, 0) == [0] + Little(1, 0) && Little(1, 0) == [0] + Little(0, 0);
    assert EncodeAll(z, ps) == Encode(z, SmallPacket(2, 0)) + EncodeAll(z, []);
  }

  /** The second reply takes the place of the answer to the next call, which it does not fit. */
  lemma SecondReplyIsMisread(z: Framing, luck: Luck, expected: Format, answer: seq<byte>)
    requires BoundAnd(luck, AcceptFails) && expected.tag != PAYLOAD
    ensures Receive(z, expected, NextBytes(z, luck, answer)) == Mistyped(PAYLOAD)
  {
    SecondReply(z, luck, answer);
  }

  /** Where a payload is awaited the stale reply is taken for it, and bytes stay behind. */
  lemma StalePayload(z: Framing, expected: Format, p: Packet)
    requires WellFormed(p) && Answers(p, expected) && Measured(z, expected) && expected.tag == PAYLOAD
    ensures Receive(z, expected, [PAYLOAD, 0, 0] + Encode(z, p)) != Received(p, [])
  {
    var bs := [PAYLOAD, 0, 0] + Encode(z, p);
    match Parse(z, expected.schema, bs[1..])
    case None =>
    case Some((v, rest)) =>
      if v == p.body && p.format == expected {
        assert |bs[1..]| == |Print(z, expected.schema, v)| + |rest|;
      }
  }
}
