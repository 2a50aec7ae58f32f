/** Octets and big-endian integers, as in Python's `struct` with `>H` and `>I`. */
module Bytes {
  type Byte = b: int | 0 <= b < 256

  function U16(s: seq<Byte>): nat
    requires |s| == 2
  {
    var high: int, low: int := s[0], s[1];
    high * 256 + low
  }

  function U32(s: seq<Byte>): nat
    requires |s| == 4
  {
    U16(s[..2]) * 65536 + U16(s[2..])
  }

  function PutU16(n: nat): seq<Byte>
    requires n < 65536
  {
    [n / 256, n % 256]
  }

  function PutU32(n: nat): seq<Byte>
    requires n < 0x1_0000_0000
  {
    PutU16(n / 65536) + PutU16(n % 65536)
  }

  lemma NetworkOrder(s: seq<Byte>)
    requires |s| == 4
    ensures U32(s) == s[0] as int * 0x100_0000 + s[1] as int * 0x1_0000 + s[2] as int * 0x100 + s[3]
  {
    assert s[..2] == [s[0], s[1]] && s[2..] == [s[2], s[3]];
  }

  lemma U16RoundTrip(n: nat)
    requires n < 65536
    ensures U16(PutU16(n)) == n
  {}

  lemma U32RoundTrip(n: nat)
    requires n < 0x1_0000_0000
    ensures U32(PutU32(n)) == n
  {
    var s := PutU32(n);
    assert s[..2] == PutU16(n / 65536) && s[2..] == PutU16(n % 65536);
  }

  lemma PutU16RoundTrip(s: seq<Byte>)
    requires |s| == 2
    ensures U16(s) < 65536 && PutU16(U16(s)) == s
  {}

  lemma Halves(high: nat, low: nat)
    requires low < 65536
    ensures (high * 65536 + low) / 65536 == high && (high * 65536 + low) % 65536 == low
  {}

  lemma PutU32RoundTrip(s: seq<Byte>)
    requires |s| == 4
    ensures U32(s) < 0x1_0000_0000 && PutU32(U32(s)) == s
  {
    PutU16RoundTrip(s[..2]);
    PutU16RoundTrip(s[2..]);
    Halves(U16(s[..2]), U16(s[2..]));
    assert s == s[..2] + s[2..];
  }
}
