/**
  What goes over the wire: a type byte followed by the fields of the packet.

  A `Schema` lists the fields in the order in which the stream operators of a packet type put them
  into and get them from the stream. `Print` is the writing side, `Parse` the reading side. Nothing
  in the byte stream says where a packet ends, so the reader can only stay aligned because it
  expects the very schema that was written.
 */
module Codec {
  import opened Options
  import opened Bytes

  datatype Schema =
    | Num(width: nat)                         // an integer (or a bool, one byte)
    | Raw(size: nat)                          // bytes of a fixed-size array
    | List(countWidth: nat, elem: Schema)     // a length prefix and that many elements
    | Blob(sizeWidth: nat)                    // the data of a Payload packet
    | Flagged(inner: Schema)                  // a bool, then the field if the bool is set
    | Tuple(fields: seq<Schema>)

  datatype Val =
    | N(n: nat)
    | B(bytes: seq<byte>)
    | Vs(vals: seq<Val>)
    | Absent
    | Present(inner: Val)

  /**
    How payloads are framed. Only builds with zlib precede the data with its decompressed size; the
    compressor itself is a parameter, and an empty result of `compress` means that it failed.
   */
  datatype Framing = Framing(
    zlib: bool, compress: seq<byte> -> seq<byte>, inflate: (seq<byte>, nat) -> seq<byte>)

  /** All that is asked of the compressor: decompression undoes compression, unless that has failed. */
  ghost predicate Lossless(z: Framing) {
    forall d :: z.compress(d) != [] ==> z.inflate(z.compress(d), |d|) == d
  }

  const COMPRESSION_THRESHOLD: nat := 0x10_0000

  function Sized(w: nat, d: seq<byte>): seq<byte> {
    Little(w, |d|) + d
  }

  function BlobBytes(z: Framing, w: nat, d: seq<byte>): seq<byte> {
    if !z.zlib then
      Sized(w, d)
    else
      var c := z.compress(d);
      if |d| >= COMPRESSION_THRESHOLD && c != [] && |c| < |d| then
        Little(w, |d|) + Sized(w, c)
      else
        Little(w, 0) + Sized(w, d)
  }

  function Print(z: Framing, s: Schema, v: Val): seq<byte>
    decreases v, 0
  {
    match (s, v)
    case (Num(w), N(n)) => Little(w, n)
    case (Raw(_), B(bs)) => bs
    case (List(cw, elem), Vs(vs)) => Little(cw, |vs|) + PrintMany(z, elem, vs)
    case (Blob(w), B(d)) => BlobBytes(z, w, d)
    case (Flagged(_), Absent) => Little(1, 0)
    case (Flagged(inner), Present(p)) => Little(1, 1) + Print(z, inner, p)
    case (Tuple(fs), Vs(vs)) => if |fs| == |vs| then PrintFields(z, fs, vs) else []
    case _ => []
  }

  function PrintMany(z: Framing, elem: Schema, vs: seq<Val>): seq<byte>
    decreases vs
  {
    if vs == [] then [] else Print(z, elem, vs[0]) + PrintMany(z, elem, vs[1..])
  }

  function PrintFields(z: Framing, fs: seq<Schema>, vs: seq<Val>): seq<byte>
    requires |fs| == |vs|
    decreases vs
  {
    if vs == [] then [] else Print(z, fs[0], vs[0]) + PrintFields(z, fs[1..], vs[1..])
  }

  function TakeNum(w: nat, bs: seq<byte>): Option<(nat, seq<byte>)> {
    if |bs| < w then None else Some((FromLittle(bs[..w]), bs[w..]))
  }

  function TakeBytes(n: nat, bs: seq<byte>): Option<(seq<byte>, seq<byte>)> {
    if |bs| < n then None else Some((bs[..n], bs[n..]))
  }

  function TakeSized(w: nat, bs: seq<byte>): Option<(seq<byte>, seq<byte>)> {
    match TakeNum(w, bs)
    case None => None
    case Some((size, rest)) => TakeBytes(size, rest)
  }

  function ParseBlob(z: Framing, w: nat, bs: seq<byte>): Option<(seq<byte>, seq<byte>)> {
    if !z.zlib then
      TakeSized(w, bs)
    else
      match TakeNum(w, bs)
      case None => None
      case Some((original, rest)) =>
        match TakeSized(w, rest)
        case None => None
        case Some((d, rest')) => Some((if original != 0 then z.inflate(d, original) else d, rest'))
  }

  /** Reads one value off the front; `None` when more bytes are needed, so that the reader blocks. */
  function Parse(z: Framing, s: Schema, bs: seq<byte>): Option<(Val, seq<byte>)>
    decreases s, 0
  {
    match s
    case Num(w) =>
      (match TakeNum(w, bs) case None => None case Some((n, rest)) => Some((N(n), rest)))
    case Raw(n) =>
      (match TakeBytes(n, bs) case None => None case Some((d, rest)) => Some((B(d), rest)))
    case Blob(w) =>
      (match ParseBlob(z, w, bs) case None => None case Some((d, rest)) => Some((B(d), rest)))
    case List(cw, elem) =>
      (match TakeNum(cw, bs)
       case None => None
       case Some((count, rest)) =>
         match ParseMany(z, elem, count, rest)
         case None => None
         case Some((vs, rest')) => Some((Vs(vs), rest')))
    case Flagged(inner) =>
      (match TakeNum(1, bs)
       case None => None
       case Some((flag, rest)) =>
         if flag == 0 then Some((Absent, rest)) else
         match Parse(z, inner, rest)
         case None => None
         case Some((v, rest')) => Some((Present(v), rest')))
    case Tuple(fs) =>
      (match ParseFields(z, fs, bs)
       case None => None
       case Some((vs, rest)) => Some((Vs(vs), rest)))
  }

  function ParseMany(z: Framing, elem: Schema, count: nat, bs: seq<byte>): (r: Option<(seq<Val>, seq<byte>)>)
    ensures r.Some? ==> |r.value.0| == count
    decreases elem, 1 + count
  {
    if count == 0 then Some(([], bs)) else
    match Parse(z, elem, bs)
    case None => None
    case Some((v, rest)) =>
      match ParseMany(z, elem, count - 1, rest)
      case None => None
      case Some((vs, rest')) => Some(([v] + vs, rest'))
  }

  function ParseFields(z: Framing, fs: seq<Schema>, bs: seq<byte>): Option<(seq<Val>, seq<byte>)>
    decreases fs
  {
    if fs == [] then Some(([], bs)) else
    match Parse(z, fs[0], bs)
    case None => None
    case Some((v, rest)) =>
      match ParseFields(z, fs[1..], rest)
      case None => None
      case Some((vs, rest')) => Some(([v] + vs, rest'))
  }

  /** The value has the shape of the schema and every number, count and size fits its width. */
  ghost predicate Fits(s: Schema, v: Val)
    decreases v
  {
    match (s, v)
    case (Num(w), N(n)) => n < Range(w)
    case (Raw(n), B(bs)) => |bs| == n
    case (List(cw, elem), Vs(vs)) => |vs| < Range(cw) && forall i :: 0 <= i < |vs| ==> Fits(elem, vs[i])
    case (Blob(w), B(d)) => |d| < Range(w)
    case (Flagged(_), Absent) => true
    case (Flagged(inner), Present(p)) => Fits(inner, p)
    case (Tuple(fs), Vs(vs)) => |fs| == |vs| && forall i :: 0 <= i < |vs| ==> Fits(fs[i], vs[i])
    case _ => false
  }

  // ---- reading back what was written ----

  lemma TakeNumBack(w: nat, n: nat, rest: seq<byte>)
    requires n < Range(w)
    ensures TakeNum(w, Little(w, n) + rest) == Some((n, rest))
  {
    var bs := Little(w, n) + rest;
    assert bs[..w] == Little(w, n) && bs[w..] == rest;
    LittleRoundTrip(w, n);
  }

  lemma TakeBytesBack(d: seq<byte>, rest: seq<byte>)
    ensures TakeBytes(|d|, d + rest) == Some((d, rest))
  {
    assert (d + rest)[..|d|] == d && (d + rest)[|d|..] == rest;
  }

  lemma TakeSizedBack(w: nat, d: seq<byte>, rest: seq<byte>)
    requires |d| < Range(w)
    ensures TakeSized(w, Sized(w, d) + rest) == Some((d, rest))
  {
    Regroup(Little(w, |d|), d, rest);
    TakeNumBack(w, |d|, d + rest);
    TakeBytesBack(d, rest);
  }

  /** Whether or not the compressor was used, the reader gets the data back and stops at its end. */
  lemma BlobRoundTrip(z: Framing, w: nat, d: seq<byte>, rest: seq<byte>)
    requires Lossless(z) && |d| < Range(w)
    ensures ParseBlob(z, w, BlobBytes(z, w, d) + rest) == Some((d, rest))
  {
    var c := z.compress(d);
    if !z.zlib {
      TakeSizedBack(w, d, rest);
    } else if |d| >= COMPRESSION_THRESHOLD && c != [] && |c| < |d| {
      Regroup(Little(w, |d|), Sized(w, c), rest);
      TakeNumBack(w, |d|, Sized(w, c) + rest);
      TakeSizedBack(w, c, rest);
    } else {
      Regroup(Little(w, 0), Sized(w, d), rest);
      TakeNumBack(w, 0, Sized(w, d) + rest);
      TakeSizedBack(w, d, rest);
    }
  }

  /** Data is sent compressed only from 1 MiB on, and only where that makes it shorter. */
  lemma CompressedIfShorter(z: Framing, w: nat, d: seq<byte>)
    ensures !z.zlib ==> BlobBytes(z, w, d) == Little(w, |d|) + d
    ensures z.zlib && (|d| < 0x10_0000 || z.compress(d) == [] || |z.compress(d)| >= |d|) ==>
      BlobBytes(z, w, d) == Little(w, 0) + (Little(w, |d|) + d)
    ensures z.zlib && |d| >= 0x10_0000 && 0 < |z.compress(d)| < |d| ==>
      BlobBytes(z, w, d) == Little(w, |d|) + (Little(w, |z.compress(d)|) + z.compress(d))
    ensures |BlobBytes(z, w, d)| <= |d| + 2 * w
  {
  }

  lemma ListRoundTrip(z: Framing, cw: nat, elem: Schema, vs: seq<Val>, rest: seq<byte>)
    requires |vs| < Range(cw) && ParseMany(z, elem, |vs|, PrintMany(z, elem, vs) + rest) == Some((vs, rest))
    ensures Parse(z, List(cw, elem), Print(z, List(cw, elem), Vs(vs)) + rest) == Some((Vs(vs), rest))
  {
    Regroup(Little(cw, |vs|), PrintMany(z, elem, vs), rest);
    TakeNumBack(cw, |vs|, PrintMany(z, elem, vs) + rest);
  }

  lemma PresentRoundTrip(z: Framing, inner: Schema, p: Val, rest: seq<byte>)
    requires Parse(z, inner, Print(z, inner, p) + rest) == Some((p, rest))
    ensures Parse(z, Flagged(inner), Print(z, Flagged(inner), Present(p)) + rest) == Some((Present(p), rest))
  {
    Regroup(Little(1, 1), Print(z, inner, p), rest);
    TakeNumBack(1, 1, Print(z, inner, p) + rest);
  }

  /** Reading undoes writing and leaves the stream exactly at the next field. */
  lemma {:induction false} RoundTrip(z: Framing, s: Schema, v: Val, rest: seq<byte>)
    requires Lossless(z) && Fits(s, v)
    ensures Parse(z, s, Print(z, s, v) + rest) == Some((v, rest))
    decreases v, 0
  {
    match (s, v)
    case (Num(w), N(n)) => TakeNumBack(w, n, rest);
    case (Raw(_), B(bs)) => TakeBytesBack(bs, rest);
    case (Blob(w), B(d)) => BlobRoundTrip(z, w, d, rest);
    case (List(cw, elem), Vs(vs)) =>
      RoundTripMany(z, elem, vs, rest);
      ListRoundTrip(z, cw, elem, vs, rest);
    case (Flagged(_), Absent) => TakeNumBack(1, 0, rest);
    case (Flagged(inner), Present(p)) =>
      RoundTrip(z, inner, p, rest);
      PresentRoundTrip(z, inner, p, rest);
    case (Tuple(fs), Vs(vs)) => RoundTripFields(z, fs, vs, rest);
    case _ =>
  }

  lemma FirstOfMany(z: Framing, elem: Schema, v: Val, vs: seq<Val>, rest: seq<byte>)
    requires var tail := PrintMany(z, elem, vs) + rest;
      Parse(z, elem, Print(z, elem, v) + tail) == Some((v, tail)) && ParseMany(z, elem, |vs|, tail) == Some((vs, rest))
    ensures ParseMany(z, elem, |vs| + 1, PrintMany(z, elem, [v] + vs) + rest) == Some(([v] + vs, rest))
  {
    assert ([v] + vs)[1..] == vs;
    Regroup(Print(z, elem, v), PrintMany(z, elem, vs), rest);
  }

  lemma {:induction false} RoundTripMany(z: Framing, elem: Schema, vs: seq<Val>, rest: seq<byte>)
    requires Lossless(z) && forall i :: 0 <= i < |vs| ==> Fits(elem, vs[i])
    ensures ParseMany(z, elem, |vs|, PrintMany(z, elem, vs) + rest) == Some((vs, rest))
    decreases vs
  {
    if vs == [] {
      assert PrintMany(z, elem, vs) + rest == rest;
    } else {
      RoundTrip(z, elem, vs[0], PrintMany(z, elem, vs[1..]) + rest);
      RoundTripMany(z, elem, vs[1..], rest);
      FirstOfMany(z, elem, vs[0], vs[1..], rest);
      assert [vs[0]] + vs[1..] == vs;
    }
  }

  lemma FirstOfFields(z: Framing, f: Schema, fs: seq<Schema>, v: Val, vs: seq<Val>, rest: seq<byte>)
    requires |fs| == |vs|
    requires var tail := PrintFields(z, fs, vs) + rest;
      Parse(z, f, Print(z, f, v) + tail) == Some((v, tail)) && ParseFields(z, fs, tail) == Some((vs, rest))
    ensures ParseFields(z, [f] + fs, PrintFields(z, [f] + fs, [v] + vs) + rest) == Some(([v] + vs, rest))
  {
    assert ([v] + vs)[1..] == vs && ([f] + fs)[1..] == fs;
    Regroup(Print(z, f, v), PrintFields(z, fs, vs), rest);
  }

  lemma {:induction false} RoundTripFields(z: Framing, fs: seq<Schema>, vs: seq<Val>, rest: seq<byte>)
    requires Lossless(z) && |fs| == |vs| && forall i :: 0 <= i < |vs| ==> Fits(fs[i], vs[i])
    ensures ParseFields(z, fs, PrintFields(z, fs, vs) + rest) == Some((vs, rest))
    decreases vs
  {
    if vs == [] {
      assert PrintFields(z, fs, vs) + rest == rest;
    } else {
      RoundTrip(z, fs[0], vs[0], PrintFields(z, fs[1..], vs[1..]) + rest);
      RoundTripFields(z, fs[1..], vs[1..], rest);
      FirstOfFields(z, fs[0], fs[1..], vs[0], vs[1..], rest);
      assert [vs[0]] + vs[1..] == vs && [fs[0]] + fs[1..] == fs;
    }
  }

  /**
    The length prefix of a container is its size converted to the prefix type. A container is read
    back exactly when its size fits that type; the largest such size included.
   */
  lemma ListReadBackIffCountFits(z: Framing, cw: nat, elem: Schema, vs: seq<Val>, rest: seq<byte>)
    requires Lossless(z) && forall i :: 0 <= i < |vs| ==> Fits(elem, vs[i])
    ensures Parse(z, List(cw, elem), Print(z, List(cw, elem), Vs(vs)) + rest) == Some((Vs(vs), rest))
      <==> |vs| < Range(cw)
  {
    var bs := Print(z, List(cw, elem), Vs(vs)) + rest;
    if |vs| < Range(cw) {
      RoundTrip(z, List(cw, elem), Vs(vs), rest);
    } else {
      assert bs[..cw] == Little(cw, |vs|);
    }
  }

  // ---- a reader that sees only part of the stream ----

  lemma TakeMore(w: nat, bs: seq<byte>, more: seq<byte>)
    requires w <= |bs|
    ensures TakeNum(w, bs + more) == Some((FromLittle(bs[..w]), bs[w..] + more))
    ensures TakeBytes(w, bs + more) == Some((bs[..w], bs[w..] + more))
  {
    assert (bs + more)[..w] == bs[..w] && (bs + more)[w..] == bs[w..] + more;
  }

  lemma TakeSizedMore(w: nat, bs: seq<byte>, more: seq<byte>)
    requires TakeSized(w, bs).Some?
    ensures TakeSized(w, bs + more) == Some((TakeSized(w, bs).value.0, TakeSized(w, bs).value.1 + more))
  {
    TakeMore(w, bs, more);
    TakeMore(FromLittle(bs[..w]), bs[w..], more);
  }

  lemma ParseBlobMonotone(z: Framing, w: nat, bs: seq<byte>, more: seq<byte>)
    requires ParseBlob(z, w, bs).Some?
    ensures ParseBlob(z, w, bs + more) == Some((ParseBlob(z, w, bs).value.0, ParseBlob(z, w, bs).value.1 + more))
  {
    if z.zlib {
      TakeMore(w, bs, more);
      TakeSizedMore(w, bs[w..], more);
    } else {
      TakeSizedMore(w, bs, more);
    }
  }

  /** A value once complete is not changed by the bytes that arrive after it. */
  lemma {:induction false} ParseMonotone(z: Framing, s: Schema, bs: seq<byte>, more: seq<byte>)
    requires Parse(z, s, bs).Some?
    ensures Parse(z, s, bs + more) == Some((Parse(z, s, bs).value.0, Parse(z, s, bs).value.1 + more))
    decreases s, 0
  {
    match s
    case Num(w) =>
      TakeMore(w, bs, more);
    case Raw(n) =>
      TakeMore(n, bs, more);
    case Blob(w) => ParseBlobMonotone(z, w, bs, more);
    case List(cw, elem) =>
      TakeMore(cw, bs, more);
      ParseManyMonotone(z, elem, FromLittle(bs[..cw]), bs[cw..], more);
    case Flagged(inner) =>
      TakeMore(1, bs, more);
      if FromLittle(bs[..1]) != 0 {
        ParseMonotone(z, inner, bs[1..], more);
      }
    case Tuple(fs) => ParseFieldsMonotone(z, fs, bs, more);
  }

  lemma {:induction false} ParseManyMonotone(z: Framing, elem: Schema, count: nat, bs: seq<byte>, more: seq<byte>)
    requires ParseMany(z, elem, count, bs).Some?
    ensures ParseMany(z, elem, count, bs + more)
      == Some((ParseMany(z, elem, count, bs).value.0, ParseMany(z, elem, count, bs).value.1 + more))
    decreases elem, 1 + count
  {
    if count > 0 {
      ParseMonotone(z, elem, bs, more);
      ParseManyMonotone(z, elem, count - 1, Parse(z, elem, bs).value.1, more);
    }
  }

  lemma {:induction false} ParseFieldsMonotone(z: Framing, fs: seq<Schema>, bs: seq<byte>, more: seq<byte>)
    requires ParseFields(z, fs, bs).Some?
    ensures ParseFields(z, fs, bs + more)
      == Some((ParseFields(z, fs, bs).value.0, ParseFields(z, fs, bs).value.1 + more))
    decreases fs
  {
    if fs != [] {
      ParseMonotone(z, fs[0], bs, more);
      ParseFieldsMonotone(z, fs[1..], Parse(z, fs[0], bs).value.1, more);
    }
  }
}
