/**
  Packets over a buffered stream: the stream operators, written with their loops, against `Print` and
  `Parse`; and the framing of packets, against `Encode` and `Receive`.
 */
module PacketStreams {
  import opened Options
  import opened Bytes
  import opened Codec
  import opened Packets
  import opened SocketStreams

  // ---- integers ----

  method PutNum(s: SocketStream, width: nat, n: nat)
    requires s.Valid()
    modifies s`writeOffset, s.writeBuffer, s.socket`sent
    ensures s.Valid() && s.Written() == old(s.Written()) + Little(width, n)
  {
    var _ := s.Write(Little(width, n));
  }

  method GetNum(s: SocketStream, width: nat) returns (n: nat, outcome: Outcome)
    requires s.Valid()
    modifies s`readOffset, s`available, s.readBuffer, s.socket`incoming
    ensures s.Valid() && (outcome == Done <==> TakeNum(width, old(s.Pending())).Some?)
    ensures outcome == Done ==> TakeNum(width, old(s.Pending())) == Some((n, s.Pending()))
  {
    var d;
    d, outcome := s.Get(width);
    Front(d, s.Pending());
    n := FromLittle(d);
  }

  lemma Front(d: seq<byte>, rest: seq<byte>)
    ensures (d + rest)[..|d|] == d && (d + rest)[|d|..] == rest
  {
  }

  method GetBytes(s: SocketStream, n: nat) returns (d: seq<byte>, outcome: Outcome)
    requires s.Valid()
    modifies s`readOffset, s`available, s.readBuffer, s.socket`incoming
    ensures s.Valid() && (outcome == Done <==> TakeBytes(n, old(s.Pending())).Some?)
    ensures outcome == Done ==> TakeBytes(n, old(s.Pending())) == Some((d, s.Pending()))
  {
    d, outcome := s.Get(n);
    Front(d, s.Pending());
  }

  // ---- payloads ----

  method PutSized(s: SocketStream, w: nat, size: nat, d: seq<byte>)
    requires s.Valid()
    modifies s`writeOffset, s.writeBuffer, s.socket`sent
    ensures s.Valid() && s.Written() == old(s.Written()) + (Little(w, size) + d)
  {
    ghost var before := s.Written();
    PutNum(s, w, size);
    var _ := s.Write(d);
    Regroup(before, Little(w, size), d);
  }

  /**
    The bytes of a `Payload` packet, which owns its data. It decides on compression by the real size of
    the data, and converts that to the size type only when it sends it.
   */
  function OwnedBlobBytes(z: Framing, w: nat, d: seq<byte>): (r: seq<byte>)
    ensures |d| < Range(w) ==> r == BlobBytes(z, w, d)
  {
    if !z.zlib then
      Little(w, |d|) + Clipped(w, d)
    else
      var c := z.compress(d);
      if |d| >= COMPRESSION_THRESHOLD && c != [] && |c| < |d| then
        Little(w, |d|) + (Little(w, |c|) + c)
      else
        Little(w, 0) + (Little(w, |d|) + Clipped(w, d))
  }

  method PutPayload(s: SocketStream, z: Framing, w: nat, d: seq<byte>)
    requires s.Valid()
    modifies s`writeOffset, s.writeBuffer, s.socket`sent
    ensures s.Valid() && s.Written() == old(s.Written()) + OwnedBlobBytes(z, w, d)
  {
    ghost var before := s.Written();
    if z.zlib {
      if |d| >= COMPRESSION_THRESHOLD {
        var compressed := z.compress(d);
        if |compressed| != 0 && |compressed| < |d| {
          PutNum(s, w, |d|);
          PutSized(s, w, |compressed|, compressed);
          Regroup(before, Little(w, |d|), Sized(w, compressed));
          return;
        }
      }
      PutNum(s, w, 0);
    }
    PutSized(s, w, |d|, Clipped(w, d));
    Regroup(before, Little(w, 0), Little(w, |d|) + Clipped(w, d));
  }

  /** Without compression such a payload arrives exactly if its size fits; otherwise it is cut. */
  lemma OwnedReadBackIff(z: Framing, w: nat, d: seq<byte>, rest: seq<byte>)
    requires Lossless(z) && (!z.zlib || z.compress(d) == [] || |z.compress(d)| >= |d|)
    ensures ParseBlob(z, w, OwnedBlobBytes(z, w, d) + rest) == Some((d, rest)) <==> |d| < Range(w)
  {
    if |d| < Range(w) {
      BlobRoundTrip(z, w, d, rest);
    } else {
      var sized := Little(w, |d|) + Clipped(w, d);
      if z.zlib {
        Regroup(Little(w, 0), sized, rest);
        TakeNumBack(w, 0, sized + rest);
      }
      ShortData(w, sized + rest);
    }
  }

  lemma ShortData(w: nat, bs: seq<byte>)
    ensures TakeSized(w, bs).Some? ==> |TakeSized(w, bs).value.0| < Range(w)
  {
  }

  /** A `PayloadPtr` packet, which refers to `data` and keeps its size in the size type. */
  method PutPayloadPtr(s: SocketStream, z: Framing, w: nat, data: seq<byte>)
    requires s.Valid()
    modifies s`writeOffset, s.writeBuffer, s.socket`sent
    ensures s.Valid() && s.Written() == old(s.Written()) + BlobBytes(z, w, Clipped(w, data))
  {
    ghost var before := s.Written();
    var d := Clipped(w, data);
    if z.zlib {
      if |d| >= COMPRESSION_THRESHOLD {
        var compressed := z.compress(d);
        if |compressed| != 0 && |compressed| < |d| {
          PutNum(s, w, |d|);
          PutSized(s, w, |compressed|, compressed);
          Regroup(before, Little(w, |d|), Sized(w, compressed));
          return;
        }
      }
      PutNum(s, w, 0);
    }
    PutSized(s, w, |d|, d);
    Regroup(before, Little(w, 0), Sized(w, d));
  }

  method GetPayload(s: SocketStream, z: Framing, w: nat) returns (d: seq<byte>, outcome: Outcome)
    requires s.Valid()
    modifies s`readOffset, s`available, s.readBuffer, s.socket`incoming
    ensures s.Valid() && (outcome == Done <==> ParseBlob(z, w, old(s.Pending())).Some?)
    ensures outcome == Done ==> ParseBlob(z, w, old(s.Pending())) == Some((d, s.Pending()))
  {
    var original := 0;
    d := [];
    if z.zlib {
      original, outcome := GetNum(s, w);
      if outcome != Done {
        return;
      }
    }
    var size;
    size, outcome := GetNum(s, w);
    if outcome != Done {
      return;
    }
    d, outcome := GetBytes(s, size);
    if outcome == Done && original != 0 {
      d := z.inflate(d, original);
    }
  }

  /** How much of its memory a `PayloadInto` may fill: the size announced, or that of the decompressed data. */
  ghost function Filled(z: Framing, w: nat, bs: seq<byte>): nat {
    match Announced(z, w, bs)
    case None => 0
    case Some((original, size, rest)) =>
      if original == 0 then size else if size <= |rest| then |z.inflate(rest[..size], original)| else 0
  }

  /** What comes before the data: the marker, which is zero unless the data is compressed, and the size. */
  ghost function Announced(z: Framing, w: nat, bs: seq<byte>): Option<(nat, nat, seq<byte>)> {
    match if z.zlib then TakeNum(w, bs) else Some((0, bs))
    case None => None
    case Some((original, rest)) =>
      match TakeNum(w, rest)
      case None => None
      case Some((size, rest')) => Some((original, size, rest'))
  }

  lemma BlobOnceAnnounced(z: Framing, w: nat, bs: seq<byte>)
    ensures ParseBlob(z, w, bs) ==
      match Announced(z, w, bs)
      case None => None
      case Some((original, size, rest)) =>
        match TakeBytes(size, rest)
        case None => None
        case Some((d, rest')) => Some((if original != 0 then z.inflate(d, original) else d, rest'))
  {
  }

  method ReadInto(s: SocketStream, memory: array<byte>, n: nat) returns (outcome: Outcome)
    requires s.Valid() && memory != s.readBuffer && memory != s.writeBuffer && n <= memory.Length
    modifies s`readOffset, s`available, s.readBuffer, s.socket`incoming, memory
    ensures s.Valid() && (outcome == Done <==> TakeBytes(n, old(s.Pending())).Some?)
    ensures outcome == Done ==> TakeBytes(n, old(s.Pending())) == Some((memory[..n], s.Pending()))
    ensures memory[n..] == old(memory[n..])
  {
    ghost var m := memory[..];
    ghost var got;
    outcome, got := s.Read(memory, 0, n);
    Front(got, s.Pending());
    assert m[..0] + got == got;
    assert memory[n..] == memory[|got|..][n - |got|..] == m[|got|..][n - |got|..];
  }

  method DecompressInto(z: Framing, compressed: seq<byte>, original: nat, memory: array<byte>)
    requires |z.inflate(compressed, original)| <= memory.Length
    modifies memory
    ensures var d := z.inflate(compressed, original); memory[..|d|] == d && memory[|d|..] == old(memory[|d|..])
  {
    var d := z.inflate(compressed, original);
    forall k | 0 <= k < |d| {
      memory[k] := d[k];
    }
  }

  /**
    A `PayloadInto` packet: the data goes straight to the caller's memory, which has to be large enough
    for it. A stream that ends early makes the read fail, and nothing behind the data is touched.
   */
  method GetPayloadInto(s: SocketStream, z: Framing, w: nat, memory: array<byte>) returns (outcome: Outcome)
    requires s.Valid() && memory != s.readBuffer && memory != s.writeBuffer
    requires Filled(z, w, s.Pending()) <= memory.Length
    modifies s`readOffset, s`available, s.readBuffer, s.socket`incoming, memory
    ensures s.Valid() && (outcome == Done <==> ParseBlob(z, w, old(s.Pending())).Some?)
    ensures Filled(z, w, old(s.Pending())) <= memory.Length
    ensures var size := Filled(z, w, old(s.Pending()));
      && memory[size..] == old(memory[size..])
      && (outcome == Done ==> ParseBlob(z, w, old(s.Pending())) == Some((memory[..size], s.Pending())))
  {
    BlobOnceAnnounced(z, w, s.Pending());
    var original := 0;
    if z.zlib {
      original, outcome := GetNum(s, w);
      if outcome != Done {
        return;
      }
    }
    var dataSize;
    dataSize, outcome := GetNum(s, w);
    if outcome != Done {
      return;
    }
    if original != 0 {
      var compressed;
      compressed, outcome := GetBytes(s, dataSize);
      if outcome == Done {
        DecompressInto(z, compressed, original, memory);
      }
    } else if dataSize != 0 {
      outcome := ReadInto(s, memory, dataSize);
    } else {
      assert memory[..0] == [];
    }
  }

  method SendPayload(z: Framing, w: nat, d: seq<byte>, viaPtr: bool, rest: seq<byte>) returns (bytes: seq<byte>)
    requires |d| < Range(w)
    ensures bytes == BlobBytes(z, w, d) + rest
  {
    var socket := new Socket([], false);
    var writer := new SocketStream(socket);
    if viaPtr {
      PutPayloadPtr(writer, z, w, d);
    } else {
      PutPayload(writer, z, w, d);
    }
    assert writer.Written() == [] + BlobBytes(z, w, d) == BlobBytes(z, w, d);
    var _ := writer.Write(rest);
    writer.Flush();
    bytes := socket.sent;
  }

  method ReceivePayload(z: Framing, w: nat, bytes: seq<byte>, into: bool, size: nat, next: nat)
      returns (got: seq<byte>, left: seq<byte>)
    requires ParseBlob(z, w, bytes).Some? && |ParseBlob(z, w, bytes).value.0| == size
    requires |ParseBlob(z, w, bytes).value.1| == next
    ensures ParseBlob(z, w, bytes) == Some((got, left))
  {
    var socket := new Socket(bytes, false);
    var reader := new SocketStream(socket);
    var outcome;
    if into {
      var memory := new byte[size](i => 0);
      BlobOnceAnnounced(z, w, bytes);
      outcome := GetPayloadInto(reader, z, w, memory);
      assert memory[..size] == memory[..];
      got := memory[..];
    } else {
      got, outcome := GetPayload(reader, z, w);
    }
    left, outcome := reader.Get(next);
    assert left + reader.Pending() == left;
  }

  /**
    Every way of writing a payload, paired with every way of reading it: the original bytes arrive and
    the stream is left at whatever follows.
   */
  method TransferPayload(z: Framing, w: nat, d: seq<byte>, viaPtr: bool, into: bool, rest: seq<byte>)
      returns (got: seq<byte>, left: seq<byte>)
    requires Lossless(z) && |d| < Range(w)
    ensures got == d && left == rest
  {
    var bytes := SendPayload(z, w, d, viaPtr, rest);
    BlobRoundTrip(z, w, d, rest);
    got, left := ReceivePayload(z, w, bytes, into, |d|, |rest|);
  }

  // ---- fields ----

  lemma ManyStep(z: Framing, elem: Schema, vs: seq<Val>, i: nat)
    requires i < |vs|
    ensures PrintMany(z, elem, vs[i..]) == Print(z, elem, vs[i]) + PrintMany(z, elem, vs[i + 1..])
  {
    assert vs[i..][1..] == vs[i + 1..];
  }

  lemma FieldsStep(z: Framing, fs: seq<Schema>, vs: seq<Val>, i: nat)
    requires i < |vs| == |fs|
    ensures PrintFields(z, fs[i..], vs[i..]) == Print(z, fs[i], vs[i]) + PrintFields(z, fs[i + 1..], vs[i + 1..])
  {
    assert vs[i..][1..] == vs[i + 1..] && fs[i..][1..] == fs[i + 1..];
  }

  /** The stream operators that write the fields of a packet. */
  method PutVal(s: SocketStream, z: Framing, schema: Schema, v: Val)
    requires s.Valid() && Fits(schema, v)
    modifies s`writeOffset, s.writeBuffer, s.socket`sent
    ensures s.Valid() && s.Written() == old(s.Written()) + Print(z, schema, v)
    decreases v
  {
    ghost var before := s.Written();
    match schema {
      case Num(w) => PutNum(s, w, v.n);
      case Raw(_) => var _ := s.Write(v.bytes);
      case Blob(w) => PutPayload(s, z, w, v.bytes);
      case List(cw, elem) =>
        PutNum(s, cw, |v.vals|);
        PutMany(s, z, elem, v.vals);
        assert s.Written() == before + (Little(cw, |v.vals|) + PrintMany(z, elem, v.vals));
      case Flagged(inner) =>
        PutNum(s, 1, if v.Present? then 1 else 0);
        if v.Present? {
          PutVal(s, z, inner, v.inner);
          assert s.Written() == before + (Little(1, 1) + Print(z, inner, v.inner));
        }
      case Tuple(fs) => PutFields(s, z, fs, v.vals);
    }
  }

  method PutMany(s: SocketStream, z: Framing, elem: Schema, vs: seq<Val>)
    requires s.Valid() && forall i :: 0 <= i < |vs| ==> Fits(elem, vs[i])
    modifies s`writeOffset, s.writeBuffer, s.socket`sent
    ensures s.Valid() && s.Written() == old(s.Written()) + PrintMany(z, elem, vs)
    decreases vs
  {
    var i: nat := 0;
    assert vs[0..] == vs;
    while i < |vs|
      invariant i <= |vs| && s.Valid()
      invariant s.Written() + PrintMany(z, elem, vs[i..]) == old(s.Written()) + PrintMany(z, elem, vs)
    {
      ManyStep(z, elem, vs, i);
      PutVal(s, z, elem, vs[i]);
      i := i + 1;
    }
  }

  method PutFields(s: SocketStream, z: Framing, fs: seq<Schema>, vs: seq<Val>)
    requires s.Valid() && |fs| == |vs| && forall i :: 0 <= i < |vs| ==> Fits(fs[i], vs[i])
    modifies s`writeOffset, s.writeBuffer, s.socket`sent
    ensures s.Valid() && s.Written() == old(s.Written()) + PrintFields(z, fs, vs)
    decreases vs
  {
    var i: nat := 0;
    assert vs[0..] == vs && fs[0..] == fs;
    while i < |vs|
      invariant i <= |vs| && s.Valid()
      invariant s.Written() + PrintFields(z, fs[i..], vs[i..]) == old(s.Written()) + PrintFields(z, fs, vs)
    {
      FieldsStep(z, fs, vs, i);
      PutVal(s, z, fs[i], vs[i]);
      i := i + 1;
    }
  }

  /** The stream operators that read the fields of a packet. */
  method GetVal(s: SocketStream, z: Framing, schema: Schema) returns (v: Val, outcome: Outcome)
    requires s.Valid()
    modifies s`readOffset, s`available, s.readBuffer, s.socket`incoming
    ensures s.Valid() && (outcome == Done <==> Parse(z, schema, old(s.Pending())).Some?)
    ensures outcome == Done ==> Parse(z, schema, old(s.Pending())) == Some((v, s.Pending()))
    decreases schema, 0
  {
    v := Absent;
    match schema {
      case Num(w) =>
        var n;
        n, outcome := GetNum(s, w);
        v := N(n);
      case Raw(n) =>
        var d;
        d, outcome := GetBytes(s, n);
        v := B(d);
      case Blob(w) =>
        var d;
        d, outcome := GetPayload(s, z, w);
        v := B(d);
      case List(cw, elem) =>
        var count, vs;
        count, outcome := GetNum(s, cw);
        if outcome == Done {
          vs, outcome := GetMany(s, z, elem, count);
          v := Vs(vs);
        }
      case Flagged(inner) =>
        var flag;
        flag, outcome := GetNum(s, 1);
        if outcome == Done && flag != 0 {
          v, outcome := GetVal(s, z, inner);
          v := Present(v);
        }
      case Tuple(fs) =>
        var vs;
        vs, outcome := GetFields(s, z, fs);
        v := Vs(vs);
    }
  }

  /** What has been read so far, and what remains, make up the whole. */
  ghost function Then(vs: seq<Val>, r: Option<(seq<Val>, seq<byte>)>): Option<(seq<Val>, seq<byte>)> {
    match r
    case None => None
    case Some((us, rest)) => Some((vs + us, rest))
  }

  lemma ThenNothing(r: Option<(seq<Val>, seq<byte>)>, vs: seq<Val>, rest: seq<byte>)
    ensures Then([], r) == r && Then(vs, Some(([], rest))) == Some((vs, rest))
  {
    if r.Some? { assert [] + r.value.0 == r.value.0; }
    assert vs + [] == vs;
  }

  lemma ThenMany(z: Framing, elem: Schema, left: nat, bs: seq<byte>, vs: seq<Val>)
    requires left > 0
    ensures Then(vs, ParseMany(z, elem, left, bs)) ==
      match Parse(z, elem, bs)
      case None => None
      case Some((v, rest)) => Then(vs + [v], ParseMany(z, elem, left - 1, rest))
  {
    if Parse(z, elem, bs).Some? {
      var (v, rest) := Parse(z, elem, bs).value;
      var r := ParseMany(z, elem, left - 1, rest);
      if r.Some? { assert vs + ([v] + r.value.0) == vs + [v] + r.value.0; }
    }
  }

  lemma ThenFields(z: Framing, fs: seq<Schema>, i: nat, bs: seq<byte>, vs: seq<Val>)
    requires i < |fs|
    ensures Then(vs, ParseFields(z, fs[i..], bs)) ==
      match Parse(z, fs[i], bs)
      case None => None
      case Some((v, rest)) => Then(vs + [v], ParseFields(z, fs[i + 1..], rest))
  {
    assert fs[i..][1..] == fs[i + 1..];
    if Parse(z, fs[i], bs).Some? {
      var (v, rest) := Parse(z, fs[i], bs).value;
      var r := ParseFields(z, fs[i + 1..], rest);
      if r.Some? { assert vs + ([v] + r.value.0) == vs + [v] + r.value.0; }
    }
  }

  /**
    The loop over the elements of a container. Its counter never passes the count, so it stays within the
    prefix type.
   */
  method GetMany(s: SocketStream, z: Framing, elem: Schema, count: nat) returns (vs: seq<Val>, outcome: Outcome)
    requires s.Valid()
    modifies s`readOffset, s`available, s.readBuffer, s.socket`incoming
    ensures s.Valid() && (outcome == Done <==> ParseMany(z, elem, count, old(s.Pending())).Some?)
    ensures outcome == Done ==> ParseMany(z, elem, count, old(s.Pending())) == Some((vs, s.Pending()))
    decreases elem, 1
  {
    vs, outcome := [], Done;
    var i: nat := 0;
    ghost var all := ParseMany(z, elem, count, s.Pending());
    ThenNothing(all, [], []);
    while i < count
      invariant i <= count && s.Valid() && outcome == Done
      invariant Then(vs, ParseMany(z, elem, count - i, s.Pending())) == all
    {
      ThenMany(z, elem, count - i, s.Pending(), vs);
      var v;
      v, outcome := GetVal(s, z, elem);
      if outcome != Done {
        return;
      }
      vs := vs + [v];
      i := i + 1;
    }
    ThenNothing(all, vs, s.Pending());
  }

  method GetFields(s: SocketStream, z: Framing, fs: seq<Schema>) returns (vs: seq<Val>, outcome: Outcome)
    requires s.Valid()
    modifies s`readOffset, s`available, s.readBuffer, s.socket`incoming
    ensures s.Valid() && (outcome == Done <==> ParseFields(z, fs, old(s.Pending())).Some?)
    ensures outcome == Done ==> ParseFields(z, fs, old(s.Pending())) == Some((vs, s.Pending()))
    decreases fs
  {
    vs, outcome := [], Done;
    var i: nat := 0;
    ghost var all := ParseFields(z, fs, s.Pending());
    assert fs[0..] == fs;
    ThenNothing(all, [], []);
    while i < |fs|
      invariant i <= |fs| && s.Valid() && outcome == Done
      invariant Then(vs, ParseFields(z, fs[i..], s.Pending())) == all
    {
      ThenFields(z, fs, i, s.Pending(), vs);
      var v;
      v, outcome := GetVal(s, z, fs[i]);
      if outcome != Done {
        return;
      }
      vs := vs + [v];
      i := i + 1;
    }
    ThenNothing(all, vs, s.Pending());
  }

  // ---- packets ----

  /** How reading a packet ends. */
  datatype Read =
    | Got(packet: Packet)
    | Threw(code: nat)    // an in-band error, thrown as an exception
    | Gone                // the connection has ended, or a Terminate packet says so
    | Hangs               // the connection has ended, and the read does not notice
    | Asserts(tag: nat)   // the assertion on the packet type fails

  /** What the reader sees, in terms of the bytes that are still to come. */
  ghost predicate Reads(z: Framing, expected: Format, bs: seq<byte>, r: Read, rest: seq<byte>) {
    match Receive(z, expected, bs)
    case Received(p, rest') => rest == rest' && r == if p.format.tag == ERROR then Threw(ValNum(p.body)) else Got(p)
    case Waiting => r == Gone || r == Hangs
    case Closed => r == Gone
    case Mistyped(tag) => r == Asserts(tag)
  }

  class PacketStream {
    const stream: SocketStream
    const framing: Framing

    constructor (socket: Socket, framing: Framing)
      ensures stream.Valid() && stream.socket == socket && this.framing == framing
      ensures fresh(stream) && fresh(stream.writeBuffer) && fresh(stream.readBuffer)
      ensures stream.Written() == socket.sent && stream.Pending() == socket.incoming
    {
      this.stream := new SocketStream(socket);
      this.framing := framing;
    }

    method Write(p: Packet)
      requires stream.Valid() && WellFormed(p)
      modifies stream`writeOffset, stream.writeBuffer, stream.socket`sent
      ensures stream.Valid() && stream.Written() == old(stream.Written()) + Encode(framing, p)
    {
      var _ := stream.Write([p.format.tag]);
      PutVal(stream, framing, p.format.schema, p.body);
    }

    method Read(expected: Format) returns (r: Read)
      requires stream.Valid()
      modifies stream`readOffset, stream`available, stream.readBuffer, stream.socket`incoming
      ensures stream.Valid() && Reads(framing, expected, old(stream.Pending()), r, stream.Pending())
    {
      var ty, v, outcome;
      ty, outcome := stream.Get(1);
      if outcome != Done {
        return if outcome == Spins then Hangs else Gone;
      }
      Front(ty, stream.Pending());
      if ty[0] == ERROR {
        v, outcome := GetVal(stream, framing, ERROR_FORMAT.schema);
        return if outcome == Done then Threw(ValNum(v)) else if outcome == Spins then Hangs else Gone;
      }
      if ty[0] == TERMINATE {
        return Gone;
      }
      if ty[0] != expected.tag {
        return Asserts(ty[0]);
      }
      v, outcome := GetVal(stream, framing, expected.schema);
      r := if outcome == Done then Got(Packet(expected, v)) else if outcome == Spins then Hangs else Gone;
    }

    /** The type of the next packet, which is left unread; `TERMINATE` at the end of the connection. */
    method NextPacketType() returns (tag: byte)
      requires stream.Valid()
      modifies stream`readOffset, stream`available, stream.readBuffer, stream.socket`incoming
      ensures stream.Valid() && stream.Pending() == old(stream.Pending())
      ensures tag == if stream.Pending() == [] then TERMINATE else stream.Pending()[0]
    {
      tag := stream.Peek();
    }
  }

  // ---- the three layers together ----

  function ReadAs(p: Packet): Read { if p.format.tag == ERROR then Threw(ValNum(p.body)) else Got(p) }

  method WriteAll(z: Framing, ps: seq<Packet>) returns (bytes: seq<byte>)
    requires forall i :: 0 <= i < |ps| ==> WellFormed(ps[i])
    ensures bytes == EncodeAll(z, ps)
  {
    var socket := new Socket([], false);
    var writer := new PacketStream(socket, z);
    var i: nat := 0;
    while i < |ps|
      invariant i <= |ps| && writer.stream.Valid()
      invariant writer.stream.Written() == EncodeAll(z, ps[..i])
    {
      writer.Write(ps[i]);
      EncodeAllAppend(z, ps[..i], ps[i]);
      assert ps[..i + 1] == ps[..i] + [ps[i]];
      i := i + 1;
    }
    assert ps[..i] == ps;
    writer.stream.Flush();
    bytes := socket.sent;
  }

  lemma EncodeStep(z: Framing, ps: seq<Packet>, i: nat)
    requires i < |ps|
    ensures EncodeAll(z, ps[i..]) == Encode(z, ps[i]) + EncodeAll(z, ps[i + 1..])
  {
    assert ps[i..][1..] == ps[i + 1..];
  }

  method ReadOne(reader: PacketStream, expected: Format, ghost p: Packet, ghost rest: seq<byte>) returns (r: Read)
    requires reader.stream.Valid() && Lossless(reader.framing) && WellFormed(p) && Answers(p, expected)
    requires reader.stream.Pending() == Encode(reader.framing, p) + rest
    modifies reader.stream`readOffset, reader.stream`available, reader.stream.readBuffer, reader.stream.socket`incoming
    ensures reader.stream.Valid() && reader.stream.Pending() == rest && r == ReadAs(p)
  {
    ReceiveEncoded(reader.framing, expected, p, rest);
    r := reader.Read(expected);
  }

  method ReadAll(z: Framing, bytes: seq<byte>, expected: seq<Format>, ghost ps: seq<Packet>) returns (rs: seq<Read>)
    requires Lossless(z) && bytes == EncodeAll(z, ps) && |expected| == |ps|
    requires forall i :: 0 <= i < |ps| ==> WellFormed(ps[i]) && Answers(ps[i], expected[i])
    ensures |rs| == |ps| && forall i :: 0 <= i < |ps| ==> rs[i] == ReadAs(ps[i])
  {
    var socket := new Socket(bytes, false);
    var reader := new PacketStream(socket, z);
    rs := [];
    var i: nat := 0;
    assert ps[0..] == ps;
    while i < |expected|
      invariant |rs| == i <= |ps| && reader.stream.Valid()
      invariant reader.stream.Pending() == EncodeAll(z, ps[i..])
      invariant forall k :: 0 <= k < i ==> rs[k] == ReadAs(ps[k])
    {
      EncodeStep(z, ps, i);
      var r := ReadOne(reader, expected[i], ps[i], EncodeAll(z, ps[i + 1..]));
      rs := rs + [r];
      i := i + 1;
    }
  }

  /**
    Any packets, written one after the other, split in any way and read with the types expected, come
    out as they went in. An in-band error in place of any of them is thrown, and the packets after it
    are still read.
   */
  method Exchange(z: Framing, expected: seq<Format>, ps: seq<Packet>) returns (rs: seq<Read>)
    requires Lossless(z) && |expected| == |ps|
    requires forall i :: 0 <= i < |ps| ==> WellFormed(ps[i]) && Answers(ps[i], expected[i])
    ensures |rs| == |ps| && forall i :: 0 <= i < |ps| ==> rs[i] == ReadAs(ps[i])
  {
    var bytes := WriteAll(z, ps);
    rs := ReadAll(z, bytes, expected, ps);
  }
}
