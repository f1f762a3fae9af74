/**
  The version packet, with which a connection begins: 64 bytes with the version of the software, the
  width of an ID and the features of the build.
 */
module Handshake {
  import opened Options
  import opened Bytes
  import opened Codec

  const VERSION_SIZE: nat := 64

  /** The bytes that have to be equal: major and minor version, a space, the width of an ID. */
  const SOFTWARE_SIZE: nat := 4

  const SPACE: byte := 32
  const FEATURE_COMPRESSION: byte := 122   // 'z'
  const FEATURE_EVENTS: byte := 101        // 'e'

  /** What is fixed when the software is built. */
  datatype Build = Build(major: byte, minor: byte, idWidth: byte, zlib: bool, events: bool)

  function Features(b: Build): seq<byte> {
    (if b.zlib then [FEATURE_COMPRESSION] else []) + if b.events then [FEATURE_EVENTS] else []
  }

  /** The version that a build advertises. */
  function Advertised(b: Build): (v: seq<byte>)
    ensures |v| == VERSION_SIZE
  {
    [b.major, b.minor, SPACE, b.idWidth] + Features(b) + seq(VERSION_SIZE - SOFTWARE_SIZE - |Features(b)|, i => 0)
  }

  ghost predicate HasFeature(v: seq<byte>, feature: byte)
    requires |v| == VERSION_SIZE
  {
    feature in v[SOFTWARE_SIZE..]
  }

  ghost predicate Compatible(v: seq<byte>, w: seq<byte>)
    requires |v| == |w| == VERSION_SIZE
  {
    v[..SOFTWARE_SIZE] == w[..SOFTWARE_SIZE]
    && (HasFeature(v, FEATURE_COMPRESSION) <==> HasFeature(w, FEATURE_COMPRESSION))
  }

  class VersionPacket {
    const version: array<byte>

    ghost predicate Valid() { version.Length == VERSION_SIZE }

    constructor (b: Build)
      ensures Valid() && fresh(version) && version[..] == Advertised(b)
    {
      version := new byte[VERSION_SIZE](i => 0);
      new;
      var i := 0;
      version[i] := b.major;
      i := i + 1;
      version[i] := b.minor;
      i := i + 1;
      version[i] := SPACE;
      i := i + 1;
      version[i] := b.idWidth;
      i := i + 1;
      assert i == SOFTWARE_SIZE;
      if b.zlib {
        version[i] := FEATURE_COMPRESSION;
        i := i + 1;
      }
      if b.events {
        version[i] := FEATURE_EVENTS;
        i := i + 1;
      }
      version[i] := 0;
      assert version[..] == Advertised(b);
    }

    /** The search for a feature behind the software version. */
    method FeatureEnabled(feature: byte) returns (found: bool)
      requires Valid()
      ensures found == HasFeature(version[..], feature)
    {
      var i := SOFTWARE_SIZE;
      while i < version.Length
        invariant SOFTWARE_SIZE <= i <= version.Length
        invariant feature !in version[SOFTWARE_SIZE..i]
      {
        if version[i] == feature {
          assert version[..][SOFTWARE_SIZE..][i - SOFTWARE_SIZE] == feature;
          return true;
        }
        assert version[SOFTWARE_SIZE..i + 1] == version[SOFTWARE_SIZE..i] + [version[i]];
        i := i + 1;
      }
      assert version[..][SOFTWARE_SIZE..] == version[SOFTWARE_SIZE..i];
      found := false;
    }

    method IsCompatibleWith(v: VersionPacket) returns (compatible: bool)
      requires Valid() && v.Valid()
      ensures compatible == Compatible(version[..], v.version[..])
    {
      if version[..SOFTWARE_SIZE] != v.version[..SOFTWARE_SIZE] {
        return false;
      }
      var theirs := v.FeatureEnabled(FEATURE_COMPRESSION);
      var ours := FeatureEnabled(FEATURE_COMPRESSION);
      compatible := theirs == ours;
    }
  }

  /** An equivalence relation on all version packets. */
  lemma CompatibleIsEquivalence(u: seq<byte>, v: seq<byte>, w: seq<byte>)
    requires |u| == |v| == |w| == VERSION_SIZE
    ensures Compatible(u, u)
    ensures Compatible(u, v) ==> Compatible(v, u)
    ensures Compatible(u, v) && Compatible(v, w) ==> Compatible(u, w)
  {
  }

  /** The features of a build can be read off its version. */
  lemma FeaturesAdvertised(b: Build)
    ensures HasFeature(Advertised(b), FEATURE_COMPRESSION) <==> b.zlib
    ensures HasFeature(Advertised(b), FEATURE_EVENTS) <==> b.events
  {
    var v := Advertised(b)[SOFTWARE_SIZE..];
    var zeros: seq<byte> := seq(VERSION_SIZE - SOFTWARE_SIZE - |Features(b)|, i => 0);
    assert v == Features(b) + zeros;
    assert forall f :: f in v <==> f in Features(b) || f in zeros;
    assert b.zlib ==> Features(b)[0] == FEATURE_COMPRESSION;
    assert b.events ==> Features(b)[|Features(b)| - 1] == FEATURE_EVENTS;
  }

  /** Two builds connect exactly if they agree on everything but the event stream. */
  lemma BuildsConnectIff(a: Build, b: Build)
    ensures Compatible(Advertised(a), Advertised(b))
      <==> a.major == b.major && a.minor == b.minor && a.idWidth == b.idWidth && a.zlib == b.zlib
  {
    FeaturesAdvertised(a);
    FeaturesAdvertised(b);
    assert Advertised(a)[..SOFTWARE_SIZE] == [a.major, a.minor, SPACE, a.idWidth];
    assert Advertised(b)[..SOFTWARE_SIZE] == [b.major, b.minor, SPACE, b.idWidth];
    assert [a.major, a.minor, SPACE, a.idWidth] == [b.major, b.minor, SPACE, b.idWidth] ==>
        a.major == b.major && a.minor == b.minor && a.idWidth == b.idWidth by {
      assert [a.major, a.minor, SPACE, a.idWidth][0] == a.major && [b.major, b.minor, SPACE, b.idWidth][0] == b.major;
      assert [a.major, a.minor, SPACE, a.idWidth][1] == a.minor && [b.major, b.minor, SPACE, b.idWidth][1] == b.minor;
      assert [a.major, a.minor, SPACE, a.idWidth][3] == a.idWidth
        && [b.major, b.minor, SPACE, b.idWidth][3] == b.idWidth;
    }
  }

  /** How a build frames payloads, with a given compressor. */
  function FramingOf(b: Build, compress: seq<byte> -> seq<byte>, inflate: (seq<byte>, nat) -> seq<byte>): Framing {
    Framing(b.zlib, compress, inflate)
  }

  /**
    Builds that connect read each other's packets, whatever the event flag. The fields of a packet
    depend on the width of an ID in the build.
   */
  lemma ConnectedBuildsUnderstand(a: Build, b: Build, compress: seq<byte> -> seq<byte>,
                                  inflate: (seq<byte>, nat) -> seq<byte>, s: nat -> Schema, v: Val, rest: seq<byte>)
    requires Compatible(Advertised(a), Advertised(b))
    requires Lossless(FramingOf(a, compress, inflate)) && Fits(s(a.idWidth), v)
    ensures Parse(FramingOf(b, compress, inflate), s(b.idWidth),
                  Print(FramingOf(a, compress, inflate), s(a.idWidth), v) + rest) == Some((v, rest))
  {
    BuildsConnectIff(a, b);
    RoundTrip(FramingOf(a, compress, inflate), s(a.idWidth), v, rest);
  }

  /** Of an ID this holds only if the widths agree, whatever else the builds are. */
  lemma IdReadIffWidthsAgree(a: Build, b: Build, compress: seq<byte> -> seq<byte>,
                             inflate: (seq<byte>, nat) -> seq<byte>, id: nat)
    requires Lossless(FramingOf(a, compress, inflate)) && id < Range(a.idWidth)
    ensures Parse(FramingOf(b, compress, inflate), Num(b.idWidth),
                  Print(FramingOf(a, compress, inflate), Num(a.idWidth), N(id))) == Some((N(id), []))
      <==> a.idWidth == b.idWidth
  {
    var bs := Print(FramingOf(a, compress, inflate), Num(a.idWidth), N(id));
    if a.idWidth == b.idWidth {
      assert bs + [] == bs;
      RoundTrip(FramingOf(a, compress, inflate), Num(a.idWidth), N(id), []);
    }
  }

  /** Without this check they would not: the reader waits for four bytes that are never sent. */
  lemma OtherBuildsDoNot(a: Build, b: Build, compress: seq<byte> -> seq<byte>, inflate: (seq<byte>, nat) -> seq<byte>)
    requires !a.zlib && b.zlib
    ensures Parse(FramingOf(b, compress, inflate), Blob(4), Print(FramingOf(a, compress, inflate), Blob(4), B([])))
      == None
  {
    var bs := Print(FramingOf(a, compress, inflate), Blob(4), B([]));
    assert |bs| == 4;
  }
}
