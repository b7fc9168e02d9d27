/**
 * The stream ciphers behind `Crypto`. A block cipher in CFB mode keeps one register, replaced octet by octet
 * by ciphertext; RC4 has no initialisation vector and keeps its place in a key stream.
 */
module Cipher {
  import opened Bytes

  /** `block(x, i)` is octet `i` of the block cipher's value on `x`; nothing else is assumed about it. */
  datatype Cipher =
    | Cfb(block: (seq<byte>, nat) -> byte, width: nat)
    | Rc4(keystream: nat -> byte)
  {
    predicate Valid() {
      Cfb? ==> 0 < width <= 16
    }

    function IvLength(): nat {
      if Cfb? then width else 0
    }

    function Block(x: seq<byte>): seq<byte>
      requires Cfb?
    {
      seq(width, i requires 0 <= i < width => block(x, i))
    }
  }

  /** An EVP context: the register and how far it is used up, or the place in the key stream. */
  datatype Context = Context(register: seq<byte>, used: nat) {
    predicate Fits(c: Cipher) {
      c.Cfb? ==> |register| == c.width && used < c.width
    }
  }

  /** A context keyed and given `iv`. */
  function Start(c: Cipher, iv: seq<byte>): (x: Context)
    requires c.Valid() && |iv| == c.IvLength()
    ensures x.Fits(c)
  {
    Context(iv, 0)
  }

  /** What `EVP_CipherInit_ex` with only an `iv` does to a context: RC4 takes no notice. */
  function SetIv(c: Cipher, x: Context, iv: seq<byte>): (y: Context)
    requires c.Valid() && x.Fits(c) && |iv| == c.IvLength()
    ensures y.Fits(c)
  {
    if c.Cfb? then Start(c, iv) else x
  }

  /** The register about to be used, and its current octet of key stream. */
  function Refill(c: Cipher, x: Context): (r: seq<byte>)
    requires c.Valid() && c.Cfb? && x.Fits(c)
    ensures |r| == c.width
  {
    if x.used == 0 then c.Block(x.register) else x.register
  }

  function Key(c: Cipher, x: Context): byte
    requires c.Valid() && x.Fits(c)
  {
    if c.Cfb? then Refill(c, x)[x.used] else c.keystream(x.used)
  }

  function Wrap(c: Cipher, used: nat): nat
    requires c.Cfb?
  {
    if used == c.width then 0 else used
  }

  /** The context after the octet of ciphertext `out` went by, in either direction. */
  function Advance(c: Cipher, x: Context, out: byte): (y: Context)
    requires c.Valid() && x.Fits(c)
    ensures y.Fits(c)
  {
    if c.Cfb? then Context(Refill(c, x)[x.used := out], Wrap(c, x.used + 1)) else Context(x.register, x.used + 1)
  }

  function Encrypt(c: Cipher, x: Context, data: seq<byte>): (r: (Context, seq<byte>))
    requires c.Valid() && x.Fits(c)
    ensures r.0.Fits(c) && |r.1| == |data|
    decreases |data|
  {
    if data == [] then (x, []) else
      var out := Xor(data[0], Key(c, x));
      var rest := Encrypt(c, Advance(c, x, out), data[1..]);
      (rest.0, [out] + rest.1)
  }

  function Decrypt(c: Cipher, x: Context, data: seq<byte>): (r: (Context, seq<byte>))
    requires c.Valid() && x.Fits(c)
    ensures r.0.Fits(c) && |r.1| == |data|
    decreases |data|
  {
    if data == [] then (x, []) else
      var rest := Decrypt(c, Advance(c, x, data[0]), data[1..]);
      (rest.0, [Xor(data[0], Key(c, x))] + rest.1)
  }

  /** Encrypting in two updates is encrypting in one. */
  lemma {:induction false} EncryptSplits(c: Cipher, x: Context, a: seq<byte>, b: seq<byte>)
    requires c.Valid() && x.Fits(c)
    ensures var (y, out) := Encrypt(c, x, a);
      Encrypt(c, x, a + b) == (Encrypt(c, y, b).0, out + Encrypt(c, y, b).1)
    decreases |a|
  {
    if a == [] {
      assert a + b == b && [] + Encrypt(c, x, b).1 == Encrypt(c, x, b).1;
    } else {
      assert (a + b)[1..] == a[1..] + b;
      var o := Xor(a[0], Key(c, x));
      var next := Advance(c, x, o);
      EncryptSplits(c, next, a[1..], b);
      var (y, out) := Encrypt(c, next, a[1..]);
      assert Encrypt(c, x, a) == (y, [o] + out);
      assert Encrypt(c, x, a + b) == (Encrypt(c, next, a[1..] + b).0, [o] + Encrypt(c, next, a[1..] + b).1);
      ConcatAssociates([o], out, Encrypt(c, y, b).1);
    }
  }

  lemma {:induction false} DecryptSplits(c: Cipher, x: Context, a: seq<byte>, b: seq<byte>)
    requires c.Valid() && x.Fits(c)
    ensures var (y, out) := Decrypt(c, x, a);
      Decrypt(c, x, a + b) == (Decrypt(c, y, b).0, out + Decrypt(c, y, b).1)
    decreases |a|
  {
    if a == [] {
      assert a + b == b && [] + Decrypt(c, x, b).1 == Decrypt(c, x, b).1;
    } else {
      assert (a + b)[1..] == a[1..] + b;
      var next := Advance(c, x, a[0]);
      DecryptSplits(c, next, a[1..], b);
      var (y, out) := Decrypt(c, next, a[1..]);
      var o := Xor(a[0], Key(c, x));
      assert Decrypt(c, x, a) == (y, [o] + out);
      assert Decrypt(c, x, a + b) == (Decrypt(c, next, a[1..] + b).0, [o] + Decrypt(c, next, a[1..] + b).1);
      ConcatAssociates([o], out, Decrypt(c, y, b).1);
    }
  }

  /** Decryption undoes encryption and keeps both ends' contexts equal. */
  lemma {:induction false} DecryptInverts(c: Cipher, x: Context, data: seq<byte>)
    requires c.Valid() && x.Fits(c)
    ensures var (y, out) := Encrypt(c, x, data); Decrypt(c, x, out) == (y, data)
    decreases |data|
  {
    if data != [] {
      var out := Xor(data[0], Key(c, x));
      XorCancels(data[0], Key(c, x));
      var next := Advance(c, x, out);
      DecryptInverts(c, next, data[1..]);
      var tail := Encrypt(c, next, data[1..]).1;
      assert Encrypt(c, x, data).1 == [out] + tail && ([out] + tail)[1..] == tail;
      assert data == [data[0]] + data[1..];
    }
  }

  /** One update per chunk. */
  function EncryptChunks(c: Cipher, x: Context, chunks: seq<seq<byte>>): (r: seq<seq<byte>>)
    requires c.Valid() && x.Fits(c)
    ensures |r| == |chunks|
    decreases |chunks|
  {
    if chunks == [] then [] else
      var (y, out) := Encrypt(c, x, chunks[0]);
      [out] + EncryptChunks(c, y, chunks[1..])
  }

  /** One segment: the block of the vector, exclusive-or the data. */
  function Segment(c: Cipher, iv: seq<byte>, data: seq<byte>): (out: seq<byte>)
    requires c.Valid() && c.Cfb? && |iv| == c.width && |data| <= c.width
    ensures |out| == |data|
  {
    seq(|data|, i requires 0 <= i < |data| => Xor(data[i], c.Block(iv)[i]))
  }

  /** The CFB mode of section 6.3 of NIST SP 800-38A with whole-block segments, the last one cut short. */
  function CfbSegments(c: Cipher, iv: seq<byte>, data: seq<byte>): seq<byte>
    requires c.Valid() && c.Cfb? && |iv| == c.width
    decreases |data|
  {
    if |data| <= c.width then Segment(c, iv, data) else
      var out := Segment(c, iv, data[..c.width]);
      out + CfbSegments(c, out, data[c.width..])
  }

  /** A register with `out` in the place of what it held from `at`. */
  function Spliced(register: seq<byte>, at: nat, out: seq<byte>): seq<byte>
    requires at + |out| <= |register|
  {
    register[..at] + out + register[at + |out|..]
  }

  lemma SpliceOne(register: seq<byte>, at: nat, out: byte, tail: seq<byte>)
    requires at + 1 + |tail| <= |register|
    ensures Spliced(register[at := out], at + 1, tail) == Spliced(register, at, [out] + tail)
  {
  }

  lemma SpliceNone(register: seq<byte>, at: nat, out: byte)
    requires at < |register|
    ensures register[at := out] == Spliced(register, at, [out])
  {
  }

  /** Within a block the key stream is what the register held at its start. */
  lemma {:induction false} BlockOutput(c: Cipher, x: Context, register: seq<byte>, data: seq<byte>, i: nat)
    requires c.Valid() && c.Cfb? && x.Fits(c) && register == Refill(c, x)
    requires i < |data| <= c.width - x.used
    ensures Encrypt(c, x, data).1[i] == Xor(data[i], register[x.used + i])
    decreases i
  {
    var out := Xor(data[0], register[x.used]);
    var y := Advance(c, x, out);
    if i > 0 {
      BlockOutput(c, y, y.register, data[1..], i - 1);
      assert Encrypt(c, x, data).1 == [out] + Encrypt(c, y, data[1..]).1;
      assert y.register[y.used + (i - 1)] == register[x.used + i];
    }
  }

  /** The first octet of a block's data: what is left is encrypted from the register it was put in. */
  lemma FirstOctet(c: Cipher, x: Context, register: seq<byte>, data: seq<byte>)
    requires c.Valid() && c.Cfb? && x.Fits(c) && register == Refill(c, x) && data != []
    ensures var out := Xor(data[0], register[x.used]);
      var y := Context(register[x.used := out], Wrap(c, x.used + 1));
      && y.Fits(c)
      && Encrypt(c, x, data) == (Encrypt(c, y, data[1..]).0, [out] + Encrypt(c, y, data[1..]).1)
  {
  }

  /** Within a block the ciphertext takes the register's place. */
  lemma {:induction false} BlockContext(c: Cipher, x: Context, register: seq<byte>, data: seq<byte>)
    requires c.Valid() && c.Cfb? && x.Fits(c) && register == Refill(c, x)
    requires 0 < |data| <= c.width - x.used
    ensures var (y, out) := Encrypt(c, x, data);
      y == Context(Spliced(register, x.used, out), Wrap(c, x.used + |out|))
    decreases |data|
  {
    var out := Xor(data[0], register[x.used]);
    var y := Context(register[x.used := out], Wrap(c, x.used + 1));
    FirstOctet(c, x, register, data);
    if |data| > 1 {
      BlockContext(c, y, y.register, data[1..]);
      SpliceOne(register, x.used, out, Encrypt(c, y, data[1..]).1);
    } else {
      assert data[1..] == [] && [out] + [] == [out];
      SpliceNone(register, x.used, out);
    }
  }

  /** A first segment of data, and that a whole one is the next segment's vector. */
  lemma FirstSegment(c: Cipher, iv: seq<byte>, data: seq<byte>)
    requires c.Valid() && c.Cfb? && |iv| == c.width && 0 < |data| <= c.width
    ensures Encrypt(c, Start(c, iv), data).1 == Segment(c, iv, data)
    ensures |data| == c.width ==> Encrypt(c, Start(c, iv), data).0 == Start(c, Segment(c, iv, data))
  {
    var x, register := Start(c, iv), c.Block(iv);
    forall i | 0 <= i < |data|
      ensures Encrypt(c, x, data).1[i] == Segment(c, iv, data)[i]
    {
      BlockOutput(c, x, register, data, i);
    }
    BlockContext(c, x, register, data);
    assert |data| == c.width ==> Spliced(register, 0, Segment(c, iv, data)) == Segment(c, iv, data);
  }

  /** However the data is cut into updates, the ciphertext is the one-shot CFB encryption of all of it. */
  lemma {:induction false} StreamIsCfb(c: Cipher, iv: seq<byte>, data: seq<byte>)
    requires c.Valid() && c.Cfb? && |iv| == c.width
    ensures Encrypt(c, Start(c, iv), data).1 == CfbSegments(c, iv, data)
    decreases |data|
  {
    if 0 < |data| <= c.width {
      FirstSegment(c, iv, data);
    } else if data != [] {
      var front, back := data[..c.width], data[c.width..];
      FirstSegment(c, iv, front);
      assert data == front + back;
      EncryptSplits(c, Start(c, iv), front, back);
      StreamIsCfb(c, Segment(c, iv, front), back);
    }
  }

  lemma {:induction false} Rc4Octet(c: Cipher, x: Context, data: seq<byte>, i: nat)
    requires c.Rc4? && i < |data|
    ensures Encrypt(c, x, data).1[i] == Xor(data[i], c.keystream(x.used + i))
    decreases i
  {
    if i > 0 {
      Rc4Octet(c, Advance(c, x, Xor(data[0], Key(c, x))), data[1..], i - 1);
    }
  }

  /** However the data is cut into updates, octet `i` of an RC4 ciphertext takes octet `i` of the key stream. */
  lemma StreamIsRc4(c: Cipher, data: seq<byte>)
    requires c.Rc4?
    ensures Encrypt(c, Start(c, []), data).1 == seq(|data|, i requires 0 <= i < |data| => Xor(data[i], c.keystream(i)))
  {
    forall i | 0 <= i < |data|
      ensures Encrypt(c, Start(c, []), data).1[i] == Xor(data[i], c.keystream(i))
    {
      Rc4Octet(c, Start(c, []), data, i);
    }
  }

  lemma {:induction false} ChunksAreOneShot(c: Cipher, x: Context, chunks: seq<seq<byte>>)
    requires c.Valid() && x.Fits(c)
    ensures Flatten(EncryptChunks(c, x, chunks)) == Encrypt(c, x, Flatten(chunks)).1
    decreases |chunks|
  {
    if chunks != [] {
      EncryptSplits(c, x, chunks[0], Flatten(chunks[1..]));
      ChunksAreOneShot(c, Encrypt(c, x, chunks[0]).0, chunks[1..]);
      assert EncryptChunks(c, x, chunks)[1..] == EncryptChunks(c, Encrypt(c, x, chunks[0]).0, chunks[1..]);
    }
  }

  class Crypto {
    const cipher: Cipher
    var encryptCTX: Context
    var decryptCTX: Context
    var encryptIV: seq<byte>
    var decryptIV: seq<byte>

    ghost predicate Valid()
      reads this
    {
      cipher.Valid() && encryptCTX.Fits(cipher) && decryptCTX.Fits(cipher) && |encryptIV| == cipher.IvLength()
    }

    /** `random` are the octets drawn for the initialisation vector, of which the cipher takes its own length. */
    constructor (cipher: Cipher, random: seq<byte>)
      requires cipher.Valid() && |random| == 16
      ensures Valid() && this.cipher == cipher && encryptIV == random[..cipher.IvLength()]
      ensures encryptCTX == decryptCTX == Start(cipher, encryptIV)
    {
      this.cipher := cipher;
      var iv := random[..cipher.IvLength()];
      encryptCTX, decryptCTX := Start(cipher, iv), Start(cipher, iv);
      encryptIV, decryptIV := iv, iv;
    }

    method EncryptData(data: seq<byte>) returns (out: seq<byte>)
      requires Valid()
      modifies this`encryptCTX
      ensures Valid() && (encryptCTX, out) == Encrypt(cipher, old(encryptCTX), data)
    {
      var (x, o) := Encrypt(cipher, encryptCTX, data);
      encryptCTX, out := x, o;
    }

    method DecryptData(data: seq<byte>) returns (out: seq<byte>)
      requires Valid()
      modifies this`decryptCTX
      ensures Valid() && (decryptCTX, out) == Decrypt(cipher, old(decryptCTX), data)
    {
      var (x, o) := Decrypt(cipher, decryptCTX, data);
      decryptCTX, out := x, o;
    }

    method SetDecryptIV(iv: seq<byte>)
      requires Valid() && |iv| == cipher.IvLength()
      modifies this`decryptCTX, this`decryptIV
      ensures Valid() && decryptIV == iv && decryptCTX == SetIv(cipher, old(decryptCTX), iv)
      ensures decryptCTX == if cipher.Cfb? then Context(iv, 0) else old(decryptCTX)
    {
      decryptIV := iv;
      decryptCTX := SetIv(cipher, decryptCTX, iv);
    }
  }
}
