/** Octets, 16-bit words and byte streams, as the wire formats and the ciphers use them. */
module Bytes {

  type byte = x: int | 0 <= x < 256

  datatype Option<+T> = None | Some(value: T)

  /** Exclusive or of the low `width` bits of two numbers. */
  function XorBits(a: nat, b: nat, width: nat): (x: nat) {
    if width == 0 then 0 else (a % 2 + b % 2) % 2 + 2 * XorBits(a / 2, b / 2, width - 1)
  }

  /** Adding a bit twice brings it back, and half of an even number plus a bit is the number's half. */
  lemma BitCancels(a: nat, b: nat, high: nat)
    ensures var x := (a % 2 + b % 2) % 2 + 2 * high;
      x / 2 == high && (x % 2 + b % 2) % 2 == a % 2
  {
  }

  lemma {:induction false} XorBitsCancel(a: nat, b: nat, width: nat, bound: nat)
    requires a < bound && bound == Pow2(width)
    ensures XorBits(a, b, width) < bound && XorBits(XorBits(a, b, width), b, width) == a
  {
    if width > 0 {
      XorBitsCancel(a / 2, b / 2, width - 1, Pow2(width - 1));
      BitCancels(a, b, XorBits(a / 2, b / 2, width - 1));
    }
  }

  function Pow2(n: nat): nat {
    if n == 0 then 1 else 2 * Pow2(n - 1)
  }

  /** Bitwise exclusive or of two octets. */
  function Xor(a: byte, b: byte): byte {
    assert Pow2(8) == 256;
    XorBitsCancel(a, b, 8, 256);
    XorBits(a, b, 8)
  }

  lemma XorCancels(a: byte, b: byte)
    ensures Xor(Xor(a, b), b) == a
  {
    assert Pow2(8) == 256;
    XorBitsCancel(a, b, 8, 256);
  }

  /** Bit `i` of a number, from the lowest. */
  function Bit(n: nat, i: nat): nat {
    if i == 0 then n % 2 else Bit(n / 2, i - 1)
  }

  lemma {:induction false} XorBitsBit(a: nat, b: nat, width: nat, i: nat)
    requires i < width
    ensures Bit(XorBits(a, b, width), i) == if Bit(a, i) == Bit(b, i) then 0 else 1
  {
    var high := XorBits(a / 2, b / 2, width - 1);
    BitCancels(a, b, high);
    if i > 0 {
      XorBitsBit(a / 2, b / 2, width - 1, i - 1);
    }
  }

  /** A bit of the exclusive or is set exactly when the two octets differ there. */
  lemma XorIsBitwise(a: byte, b: byte, i: nat)
    requires i < 8
    ensures Bit(Xor(a, b), i) == if Bit(a, i) == Bit(b, i) then 0 else 1
  {
    XorBitsBit(a, b, 8, i);
  }

  /** The value `popInt8` gives for an octet: an `int8_t`. */
  function Signed(b: byte): int {
    if b < 128 then b else b - 256
  }

  /** `size() < bound`, an unsigned comparison: a negative bound converts to a huge one. */
  predicate SizeBelow(size: nat, bound: int) {
    bound < 0 || size < bound
  }

  /** A 16-bit value in network order; `appendInt16` truncates. */
  function U16(n: int): (w: seq<byte>)
    ensures |w| == 2
  {
    [n / 256 % 256, n % 256]
  }

  function ReadU16(w: seq<byte>): (n: nat)
    requires |w| == 2
    ensures n < 65536
  {
    var high: int, low: int := w[0], w[1];
    high * 256 + low
  }

  lemma U16RoundTrip(n: nat)
    requires n < 65536
    ensures ReadU16(U16(n)) == n
  {
  }

  lemma ReadU16RoundTrip(w: seq<byte>)
    requires |w| == 2
    ensures U16(ReadU16(w)) == w
  {
  }

  /** What a sequence of chunks carries when read as one stream. */
  function Flatten(chunks: seq<seq<byte>>): seq<byte> {
    if chunks == [] then [] else chunks[0] + Flatten(chunks[1..])
  }

  lemma ConcatAssociates<T>(a: seq<T>, b: seq<T>, c: seq<T>)
    ensures a + (b + c) == (a + b) + c
  {
  }

  lemma {:induction false} FlattenAppend(a: seq<seq<byte>>, b: seq<seq<byte>>)
    ensures Flatten(a + b) == Flatten(a) + Flatten(b)
  {
    if a == [] {
      assert a + b == b;
    } else {
      assert (a + b)[1..] == a[1..] + b;
      FlattenAppend(a[1..], b);
      ConcatAssociates(a[0], Flatten(a[1..]), Flatten(b));
    }
  }
}
