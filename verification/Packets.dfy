/** The packet types of the protocol and how a packet is framed. */
module Packets {
  import opened Options
  import opened Bytes
  import opened Codec

  // ---- the type byte ----

  const PAYLOAD: byte := 1
  const SUCCESS: byte := 2
  const ERROR: byte := 3
  const RETAIN: byte := 4
  const RELEASE: byte := 5
  const CREATE_CONTEXT: byte := 6
  const CREATE_BINARY_PROGRAM: byte := 16
  const COMPILE_PROGRAM: byte := 17
  const BUILD_PROGRAM: byte := 18
  const CREATE_KERNEL: byte := 22
  const CREATE_KERNELS: byte := 23
  const SET_KERNEL_ARG: byte := 25
  const CREATE_BUFFER: byte := 29
  const READ_BUFFER: byte := 31
  const WRITE_BUFFER: byte := 33
  const FILL_BUFFER: byte := 34
  const GET_MEM_OBJ_INFO: byte := 35
  const CREATE_IMAGE: byte := 36
  const READ_IMAGE: byte := 37
  const WRITE_IMAGE: byte := 38
  const ENQUEUE_KERNEL: byte := 40
  const CREATE_USER_EVENT: byte := 41
  const WAIT_EVENTS: byte := 45
  const GET_PLATFORM_IDS: byte := 47
  const ID: byte := 50
  const ID_LIST: byte := 51
  const CALLBACK_TRIGGER: byte := 53
  const REGISTER_EVENT_CALLBACK: byte := 54
  const EVENT_CALLBACK_TRIGGER: byte := 55
  const TERMINATE: byte := 255

  /** A type byte and the fields that follow it. */
  datatype Format = Format(tag: byte, schema: Schema)

  datatype Packet = Packet(format: Format, body: Val)

  /** Fixed-width fields only. */
  function Nums(widths: seq<nat>): Schema {
    Tuple(seq(|widths|, i requires 0 <= i < |widths| => Num(widths[i])))
  }

  function Numbers(ns: seq<nat>): Val {
    Vs(seq(|ns|, i requires 0 <= i < |ns| => N(ns[i])))
  }

  const TEXT: Schema := List(2, Num(1))
  const IDS: Schema := List(1, Num(2))

  function Simple(tag: byte, width: nat): Format { Format(tag, Num(width)) }
  function Signal(tag: byte): Format { Format(tag, Tuple([])) }

  const ERROR_FORMAT := Simple(ERROR, 4)
  const SUCCESS_FORMAT := Signal(SUCCESS)
  const ID_FORMAT := Simple(ID, 2)
  const ID_LIST_FORMAT := Format(ID_LIST, IDS)
  const REF_COUNT: Schema := Nums([1, 2])
  const CONTEXT_FORMAT := Format(CREATE_CONTEXT, Tuple([List(1, Num(8)), List(2, Num(2))]))
  const COMPILE_FORMAT := Format(COMPILE_PROGRAM,
    Tuple([Num(2), TEXT, IDS, IDS, List(1, TEXT), Flagged(Num(2))]))
  const ID_TEXT: Schema := Tuple([Num(2), TEXT])
  const KERNEL_ARG_FORMAT := Format(SET_KERNEL_ARG, Nums([2, 4]))
  const CREATE_KERNELS_FORMAT := Format(CREATE_KERNELS, Nums([2, 4]))
  const CREATE_BUFFER_FORMAT := Format(CREATE_BUFFER, Nums([4, 4, 2, 1]))
  const BUFFER_RW: Schema := Nums([2, 2, 4, 4, 1, 1, 1])
  const FILL_BUFFER_FORMAT := Format(FILL_BUFFER,
    Tuple([Num(2), Num(2), Num(4), Num(4), Num(1), Num(1), Num(1), Raw(128)]))
  const ID_PARAM: Schema := Nums([4, 2])
  const CREATE_IMAGE_FORMAT := Format(CREATE_IMAGE, Nums([4, 4, 4, 4, 4, 4, 4, 4, 4, 4, 4, 4, 2]))
  const IMAGE_RW: Schema := Nums([2, 2, 4, 4, 4, 4, 4, 4, 4, 4, 1, 1, 1])
  const ENQUEUE_KERNEL_FORMAT := Format(ENQUEUE_KERNEL, Nums([2, 2, 1, 4, 4, 4, 4, 4, 4, 4, 4, 4, 1, 1]))
  const REGISTER_FORMAT := Format(REGISTER_EVENT_CALLBACK, Nums([2, 2, 4]))
  const TRIGGER_FORMAT := Simple(CALLBACK_TRIGGER, 4)
  const EVENT_TRIGGER_FORMAT := Simple(EVENT_CALLBACK_TRIGGER, 2)

  function PayloadFormat(sizeWidth: nat): Format { Format(PAYLOAD, Blob(sizeWidth)) }

  // ---- packets ----

  ghost predicate WellFormed(p: Packet) { Fits(p.format.schema, p.body) }

  function Encode(z: Framing, p: Packet): seq<byte> {
    [p.format.tag] + Print(z, p.format.schema, p.body)
  }

  function EncodeAll(z: Framing, ps: seq<Packet>): seq<byte> {
    if ps == [] then [] else Encode(z, ps[0]) + EncodeAll(z, ps[1..])
  }

  /** The four ways in which reading a packet of an expected format can go. */
  datatype Received =
    | Waiting                                     // the packet is not complete: the reader blocks
    | Received(packet: Packet, rest: seq<byte>)   // the expected packet, or an in-band error
    | Closed                                      // a Terminate packet stands for a closed socket
    | Mistyped(tag: byte)                         // neither: the assertion on the packet type fails

  /** An in-band error may stand in for any packet. */
  function Receive(z: Framing, expected: Format, bs: seq<byte>): Received {
    if bs == [] then Waiting
    else if bs[0] == TERMINATE then Closed
    else if bs[0] != ERROR && bs[0] != expected.tag then Mistyped(bs[0])
    else
      var format := if bs[0] == ERROR then ERROR_FORMAT else expected;
      match Parse(z, format.schema, bs[1..])
      case None => Waiting
      case Some((body, rest)) => Received(Packet(format, body), rest)
  }

  /** The packet may be read where `expected` is awaited. */
  predicate Answers(p: Packet, expected: Format) {
    && p.format.tag != TERMINATE
    && (p.format == ERROR_FORMAT || (p.format == expected && p.format.tag != ERROR))
  }

  lemma ReceiveEncoded(z: Framing, expected: Format, p: Packet, rest: seq<byte>)
    requires Lossless(z) && WellFormed(p) && Answers(p, expected)
    ensures Receive(z, expected, Encode(z, p) + rest) == Received(p, rest)
  {
    var bs := Encode(z, p) + rest;
    assert bs[0] == p.format.tag && bs[1..] == Print(z, p.format.schema, p.body) + rest;
    RoundTrip(z, p.format.schema, p.body, rest);
  }

  /** Bytes that arrive later do not change what a completed read returned. */
  lemma ReceiveMonotone(z: Framing, expected: Format, bs: seq<byte>, more: seq<byte>)
    requires bs != []
    ensures var r := Receive(z, expected, bs); var r' := Receive(z, expected, bs + more);
      && (r.Received? ==> r' == Received(r.packet, r.rest + more))
      && (r.Closed? || r.Mistyped? ==> r' == r)
  {
    assert (bs + more)[0] == bs[0] && (bs + more)[1..] == bs[1..] + more;
    var format := if bs[0] == ERROR then ERROR_FORMAT else expected;
    if Parse(z, format.schema, bs[1..]).Some? {
      ParseMonotone(z, format.schema, bs[1..], more);
    }
  }

  lemma {:induction false} EncodeAllAppend(z: Framing, ps: seq<Packet>, p: Packet)
    ensures EncodeAll(z, ps + [p]) == EncodeAll(z, ps) + Encode(z, p)
  {
    if ps == [] {
      assert EncodeAll(z, [p]) == Encode(z, p) + EncodeAll(z, []);
    } else {
      assert (ps + [p])[1..] == ps[1..] + [p];
      EncodeAllAppend(z, ps[1..], p);
    }
  }

  /** Reads one packet per expected format. */
  function ReceiveAll(z: Framing, expected: seq<Format>, bs: seq<byte>): Option<(seq<Packet>, seq<byte>)> {
    if expected == [] then Some(([], bs)) else
    match Receive(z, expected[0], bs)
    case Received(p, rest) =>
      (match ReceiveAll(z, expected[1..], rest)
       case None => None
       case Some((ps, rest')) => Some(([p] + ps, rest')))
    case _ => None
  }

  /**
    Any list of packets, errors among them, written one after the other and followed by anything, is
    read back as exactly those packets, with the rest of the stream untouched.
   */
  lemma {:induction false} PacketsRoundTrip(z: Framing, expected: seq<Format>, ps: seq<Packet>, rest: seq<byte>)
    requires Lossless(z) && |expected| == |ps|
    requires forall i :: 0 <= i < |ps| ==> WellFormed(ps[i]) && Answers(ps[i], expected[i])
    ensures ReceiveAll(z, expected, EncodeAll(z, ps) + rest) == Some((ps, rest))
  {
    if ps == [] {
      assert EncodeAll(z, ps) + rest == rest;
    } else {
      var tail := EncodeAll(z, ps[1..]) + rest;
      Regroup(Encode(z, ps[0]), EncodeAll(z, ps[1..]), rest);
      ReceiveEncoded(z, expected[0], ps[0], tail);
      PacketsRoundTrip(z, expected[1..], ps[1..], rest);
      assert [ps[0]] + ps[1..] == ps;
    }
  }

  /** Two packet lists with the same bytes, read with the same expectations, are the same list. */
  lemma UniquelyDecodable(z: Framing, expected: seq<Format>, ps: seq<Packet>, qs: seq<Packet>,
                          rest: seq<byte>, rest': seq<byte>)
    requires Lossless(z) && |ps| == |qs| == |expected|
    requires forall i :: 0 <= i < |ps| ==> WellFormed(ps[i]) && Answers(ps[i], expected[i])
    requires forall i :: 0 <= i < |qs| ==> WellFormed(qs[i]) && Answers(qs[i], expected[i])
    requires EncodeAll(z, ps) + rest == EncodeAll(z, qs) + rest'
    ensures ps == qs && rest == rest'
  {
    PacketsRoundTrip(z, expected, ps, rest);
    PacketsRoundTrip(z, expected, qs, rest');
  }

  // ---- the packets used in the dialogues ----

  function IdPacket(id: nat): Packet { Packet(ID_FORMAT, N(id)) }
  function ErrorPacket(code: nat): Packet { Packet(ERROR_FORMAT, N(code)) }
  function SuccessPacket(): Packet { Packet(SUCCESS_FORMAT, Vs([])) }
  function PayloadPacket(sizeWidth: nat, d: seq<byte>): Packet { Packet(PayloadFormat(sizeWidth), B(d)) }

  /** The size of a payload is converted to its type; only so many bytes are sent. */
  function Clipped(sizeWidth: nat, d: seq<byte>): (r: seq<byte>)
    ensures |r| < Range(sizeWidth) && (|d| < Range(sizeWidth) ==> r == d)
  {
    if |d| < Range(sizeWidth) then d else d[..|d| % Range(sizeWidth)]
  }

  function PayloadOf(sizeWidth: nat, d: seq<byte>): Packet { PayloadPacket(sizeWidth, Clipped(sizeWidth, d)) }

  function SmallPacket(width: nat, n: nat): Packet { Packet(Simple(PAYLOAD, width), N(n)) }
  function Ids(ids: seq<nat>): Val { Vs(seq(|ids|, i requires 0 <= i < |ids| => N(ids[i]))) }
  function IdListPacket(ids: seq<nat>): Packet { Packet(ID_LIST_FORMAT, Ids(ids)) }

  function ValNum(v: Val): nat { if v.N? then v.n else 0 }
  function ValData(v: Val): seq<byte> { if v.B? then v.bytes else [] }

  /** Field `i` of a packet made of several fields. */
  function Field(p: Packet, i: nat): Val {
    if p.body.Vs? && i < |p.body.vals| then p.body.vals[i] else Absent
  }

  function FieldNum(p: Packet, i: nat): nat { ValNum(Field(p, i)) }

  function ValNums(v: Val): seq<nat> {
    if v.Vs? then seq(|v.vals|, i requires 0 <= i < |v.vals| => ValNum(v.vals[i])) else []
  }
}
