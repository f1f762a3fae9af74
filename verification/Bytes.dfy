/** Bytes and little-endian integers. */
module Bytes {
  type byte = b: int | 0 <= b < 256

  /** A 32-bit unsigned integer. */
  type word = n: nat | n < 0x1_0000_0000

  /** The number of values of an unsigned integer of `width` bytes. */
  function Range(width: nat): (r: nat)
    ensures r > 0
  {
    if width == 0 then 1 else 256 * Range(width - 1)
  }

  /** The bytes of `n` converted to an unsigned integer of `width` bytes, least significant first. */
  function Little(width: nat, n: nat): (bs: seq<byte>)
    ensures |bs| == width
  {
    if width == 0 then [] else [n % 256] + Little(width - 1, n / 256)
  }

  function FromLittle(bs: seq<byte>): (n: nat)
    ensures n < Range(|bs|)
  {
    if bs == [] then 0 else bs[0] + 256 * FromLittle(bs[1..])
  }

  lemma {:induction false} LittleRoundTrip(width: nat, n: nat)
    requires n < Range(width)
    ensures FromLittle(Little(width, n)) == n
  {
    if width > 0 {
      var bs := Little(width, n);
      assert bs[1..] == Little(width - 1, n / 256);
      LittleRoundTrip(width - 1, n / 256);
    }
  }

  lemma Regroup(a: seq<byte>, b: seq<byte>, c: seq<byte>)
    ensures a + (b + c) == a + b + c
  {
  }

  /** Moving bytes from the front of one part of a stream to the end of the part before it. */
  lemma MoveOn(first: seq<byte>, second: seq<byte>, n: nat)
    requires n <= |second|
    ensures first + second[..n] + second[n..] == first + second
  {
    assert second[..n] + second[n..] == second;
    Regroup(first, second[..n], second[n..]);
  }

  /** The ranges of the integer widths in use. */
  lemma Ranges()
    ensures Range(1) == 0x100 && Range(2) == 0x1_0000 && Range(4) == 0x1_0000_0000
    ensures Range(8) == 0x1_0000_0000_0000_0000
  {
    assert Range(0) == 1;
    assert Range(1) == 0x100;
    assert Range(2) == 0x1_0000;
    assert Range(3) == 0x100_0000;
    assert Range(4) == 0x1_0000_0000;
    assert Range(5) == 0x100_0000_0000;
    assert Range(6) == 0x1_0000_0000_0000;
    assert Range(7) == 0x100_0000_0000_0000;
  }
}
