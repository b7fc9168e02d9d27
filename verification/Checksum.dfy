/** The Internet checksum of RFC 1071: the ones' complement of the ones' complement sum of 16-bit words. */
module Checksums {
  import opened Bytes

  /** The sum of the 16-bit words, an odd last octet padded with zero. */
  function Sum(data: seq<byte>): (n: nat) {
    if data == [] then 0
    else if |data| == 1 then Word(data[0], 0)
    else Word(data[0], data[1]) + Sum(data[2..])
  }

  function Word(high: byte, low: byte): (w: nat)
    ensures w <= 0xffff
  {
    var h: int, l: int := high, low;
    h * 256 + l
  }

  /** Carries added back in until the sum fits 16 bits. */
  function Fold(n: nat): (f: nat)
    ensures f <= 0xffff && (f == 0 <==> n == 0)
  {
    if n <= 0xffff then n else Fold(n / 0x1_0000 + n % 0x1_0000)
  }

  function Checksum(data: seq<byte>): (c: nat)
    ensures c <= 0xffff
  {
    0xffff - Fold(Sum(data))
  }

  /** The sum of every other octet, from octet `i` on. */
  function Alternate(data: seq<byte>, i: nat): (n: nat)
    decreases |data| - i
  {
    if i >= |data| then 0 else var octet: int := data[i]; octet + Alternate(data, i + 2)
  }

  lemma {:induction false} AlternateTail(data: seq<byte>, i: nat)
    requires |data| > 1
    ensures Alternate(data, i + 2) == Alternate(data[2..], i)
    decreases |data| - i
  {
    if i < |data| - 2 {
      AlternateTail(data, i + 2);
    }
  }

  /** The words are read high octet first, and an odd last octet is the high one of its word. */
  lemma {:induction false} SumMeans(data: seq<byte>)
    ensures Sum(data) == 256 * Alternate(data, 0) + Alternate(data, 1)
    decreases |data|
  {
    if |data| > 1 {
      SumMeans(data[2..]);
      AlternateTail(data, 0);
      AlternateTail(data, 1);
    } else if |data| == 1 {
      assert Alternate(data, 2) == 0 && Alternate(data, 1) == 0;
    }
  }

  /** Folding keeps the remainder by 65535, of which it picks 65535 rather than 0. */
  lemma {:induction false} FoldIsRemainder(n: nat)
    ensures Fold(n) == if n == 0 then 0 else if n % 0xffff == 0 then 0xffff else n % 0xffff
  {
    if n > 0xffff {
      var q, r := n / 0x1_0000, n % 0x1_0000;
      assert n == q * 0xffff + (q + r);
      RemainderAdds(q, q + r);
      FoldIsRemainder(q + r);
    }
  }

  lemma {:induction false} RemainderAdds(q: nat, m: nat)
    ensures (q * 0xffff + m) % 0xffff == m % 0xffff
  {
    if q > 0 {
      RemainderAdds(q - 1, m);
      assert q * 0xffff + m == ((q - 1) * 0xffff + m) + 0xffff;
    }
  }

  lemma {:induction false} SumSplits(a: seq<byte>, b: seq<byte>)
    requires |a| % 2 == 0
    ensures Sum(a + b) == Sum(a) + Sum(b)
  {
    if a == [] {
      assert a + b == b;
    } else {
      assert (a + b)[2..] == a[2..] + b;
      SumSplits(a[2..], b);
    }
  }

  lemma WordSum(n: nat)
    requires n <= 0xffff
    ensures Sum(U16(n)) == n
  {
    assert U16(n)[2..] == [];
    assert Sum(U16(n)[2..]) == 0;
  }

  /**
   * A packet whose checksum field, on a word boundary, holds the checksum taken with that field zero has the
   * ones' complement sum that a receiver looks for: all ones.
   */
  lemma ChecksumVerifies(before: seq<byte>, after: seq<byte>)
    requires |before| % 2 == 0
    ensures var c := Checksum(before + U16(0) + after);
      Fold(Sum(before + U16(c) + after)) == 0xffff
  {
    var s := Sum(before) + Sum(after);
    SumAround(before, 0, after);
    SumAround(before, 0xffff - Fold(s), after);
    ComplementFolds(s);
  }

  /** A sum and the complement of its fold add up to a multiple of 65535, and not to zero. */
  lemma ComplementFolds(s: nat)
    ensures Fold(s + (0xffff - Fold(s))) == 0xffff
  {
    var j := FoldQuotient(s);
    RemainderAdds(j, 0xffff);
    FoldIsRemainder(s + (0xffff - Fold(s)));
  }

  lemma SumAround(before: seq<byte>, c: nat, after: seq<byte>)
    requires |before| % 2 == 0 && c <= 0xffff
    ensures Sum(before + U16(c) + after) == Sum(before) + Sum(after) + c
  {
    SumSplits(before, U16(c));
    SumSplits(before + U16(c), after);
    WordSum(c);
  }

  lemma OneWord(high: byte, low: byte)
    ensures Sum([high, low]) == Word(high, low)
  {
    assert [high, low][2..] == [];
    assert Sum([high, low][2..]) == 0;
  }

  /** A checksum over anything but zeros is zero exactly when the words add up to a multiple of 65535. */
  lemma ZeroChecksumExactly(before: seq<byte>, after: seq<byte>)
    requires |before| % 2 == 0 && Sum(before) > 0
    ensures Checksum(before + U16(0) + after) == 0 <==> Sum(before + after) % 0xffff == 0
  {
    SumAround(before, 0, after);
    SumSplits(before, after);
    FoldIsRemainder(Sum(before) + Sum(after));
  }

  /** `inet_chksum`: words summed in a loop, then folded. */
  method InetChksum(data: seq<byte>) returns (c: nat)
    ensures c == Checksum(data)
  {
    var sum: nat, i := 0, 0;
    assert data[0..] == data;
    while i + 1 < |data|
      invariant i <= |data| && sum + Sum(data[i..]) == Sum(data)
    {
      assert data[i..][2..] == data[i + 2..];
      sum := sum + Word(data[i], data[i + 1]);
      i := i + 2;
    }
    if i < |data| {
      sum := sum + Word(data[i], 0);
    }
    ghost var all := sum;
    while sum > 0xffff
      invariant Fold(sum) == Fold(all)
    {
      sum := sum / 0x1_0000 + sum % 0x1_0000;
    }
    c := 0xffff - sum;
  }

  // Byte order.

  /** The same sum over words read low octet first. */
  function SwappedSum(data: seq<byte>): (n: nat) {
    if data == [] then 0
    else if |data| == 1 then Word(0, data[0])
    else Word(data[1], data[0]) + SwappedSum(data[2..])
  }

  function SwapWord(w: nat): nat
    requires w <= 0xffff
  {
    w % 256 * 256 + w / 256
  }

  lemma {:induction false} SwappedSumIsScaled(data: seq<byte>) returns (k: nat)
    ensures 256 * SwappedSum(data) == Sum(data) + k * 0xffff
    ensures Sum(data) == 0 ==> SwappedSum(data) == 0
  {
    if |data| <= 1 {
      k := 0;
    } else {
      var j := SwappedSumIsScaled(data[2..]);
      k := j + data[1];
    }
  }

  lemma SwapScales(w: nat)
    requires w <= 0xffff
    ensures 256 * w == SwapWord(w) + w / 256 * 0xffff
    ensures w > 0 ==> 0 < SwapWord(w) <= 0xffff
  {
  }

  /** Any sum is a multiple of 65535 and its fold. */
  lemma FoldQuotient(n: nat) returns (j: nat)
    ensures n == j * 0xffff + Fold(n)
  {
    FoldIsRemainder(n);
    j := if n > 0 && n % 0xffff == 0 then n / 0xffff - 1 else n / 0xffff;
  }

  /** The fold of a sum is the one number from 1 to 65535 with its remainder. */
  lemma FoldUnique(a: nat, j: nat, k: nat, w: nat)
    requires a + j * 0xffff == k * 0xffff + w && 0 < w <= 0xffff && a > 0
    ensures w == Fold(a)
  {
    RemainderAdds(j, a);
    RemainderAdds(k, w);
    FoldIsRemainder(a);
  }

  /**
   * Byte order independence, as section 2 of RFC 1071 has it: summing words low octet first and storing the
   * result low octet first stores the same two octets.
   */
  lemma ByteOrderIndependence(data: seq<byte>)
    ensures SwapWord(Fold(SwappedSum(data))) == Fold(Sum(data))
  {
    var s := SwappedSum(data);
    var k := SwappedSumIsScaled(data);
    var j := FoldQuotient(s);
    var f := Fold(s);
    SwapScales(f);
    if s > 0 {
      assert 256 * s == (256 * j + f / 256) * 0xffff + SwapWord(f);
      FoldUnique(Sum(data), k, 256 * j + f / 256, SwapWord(f));
    }
  }
}
