/** pkg/manager/macro/enigma/cipher_mode.go: the block loops and the modes built on them. The block
    cipher and GCM are the library's; only their defining law is used. */
module BlockModes {
  import opened Wrappers
  import opened Division
  import opened Padding

  datatype Block = Block(size: nat, encrypt: Bytes -> Bytes, decrypt: Bytes -> Bytes)

  /** A block cipher under one key: a length-preserving permutation of blocks and its inverse. */
  ghost predicate LawfulBlock(b: Block) {
    && 1 <= b.size <= 255
    && (forall x: Bytes {:trigger b.encrypt(x)} ::
          |x| == b.size ==> |b.encrypt(x)| == b.size && b.decrypt(b.encrypt(x)) == x)
    && (forall x: Bytes {:trigger b.decrypt(x)} :: |x| == b.size ==> |b.decrypt(x)| == b.size)
  }

  datatype Gcm = Gcm(nonceSize: nat, seal: (Bytes, Bytes) -> Bytes, open: (Bytes, Bytes) -> Option<Bytes>)

  /** Section 7 of NIST SP 800-38D: opening under the same nonce what was sealed gives it back. */
  ghost predicate LawfulGcm(g: Gcm) {
    && g.nonceSize == 12
    && forall nonce: Bytes, x: Bytes :: |nonce| == g.nonceSize ==> g.open(nonce, g.seal(nonce, x)) == Some(x)
  }

  // ---------------------------------------------------------------- ECB, section 6.1 of NIST SP 800-38A

  function Ecb(size: nat, f: Bytes -> Bytes, src: Bytes): Bytes
    requires size > 0
  {
    if |src| < size then [] else f(src[..size]) + Ecb(size, f, src[size..])
  }

  lemma {:induction false} EcbLength(size: nat, f: Bytes -> Bytes, src: Bytes)
    requires size > 0 && Whole(|src|, size)
    requires forall x: Bytes {:trigger f(x)} :: |x| == size ==> |f(x)| == size
    ensures |Ecb(size, f, src)| == |src|
  {
    if |src| >= size {
      EcbLength(size, f, src[size..]);
    }
  }

  /** Block by block, decryption undoes encryption, for any number of blocks. */
  lemma {:induction false} EcbInverts(b: Block, src: Bytes)
    requires LawfulBlock(b) && Whole(|src|, b.size)
    ensures Ecb(b.size, b.decrypt, Ecb(b.size, b.encrypt, src)) == src
  {
    if |src| >= b.size {
      var head, tail := src[..b.size], src[b.size..];
      EcbInverts(b, tail);
      EcbCons(b.size, b.decrypt, b.encrypt(head), Ecb(b.size, b.encrypt, tail));
      assert src == head + tail;
    }
  }

  lemma EcbCons(size: nat, f: Bytes -> Bytes, c: Bytes, rest: Bytes)
    requires size > 0 && |c| == size
    ensures Ecb(size, f, c + rest) == f(c) + Ecb(size, f, rest)
  {
    assert (c + rest)[..size] == c && (c + rest)[size..] == rest;
  }

  // ---------------------------------------------------------------- CBC, section 6.2 of NIST SP 800-38A

  /** Exclusive or of the low `bits` bits. */
  function XorBits(a: nat, b: nat, bits: nat): nat {
    if bits == 0 then 0 else 2 * XorBits(a / 2, b / 2, bits - 1) + (a + b) % 2
  }

  function Power2(bits: nat): nat {
    if bits == 0 then 1 else 2 * Power2(bits - 1)
  }

  lemma Halves(h: nat, d: nat, a: nat, b: nat)
    requires d == (a + b) % 2
    ensures (2 * h + d) / 2 == h
    ensures (2 * h + d + b) % 2 == a % 2
  {
  }

  lemma {:induction false} XorBitsTwice(a: nat, b: nat, bits: nat)
    requires a < Power2(bits)
    ensures XorBits(a, b, bits) < Power2(bits)
    ensures XorBits(XorBits(a, b, bits), b, bits) == a
  {
    if bits > 0 {
      var h, d := XorBits(a / 2, b / 2, bits - 1), (a + b) % 2;
      XorBitsTwice(a / 2, b / 2, bits - 1);
      Halves(h, d, a, b);
      assert XorBits(2 * h + d, b, bits) == 2 * XorBits(h, b / 2, bits - 1) + a % 2;
    }
  }

  lemma Power2Of8()
    ensures Power2(8) == 256
  {
    assert Power2(4) == 16;
  }

  function XorByte(a: Byte, b: Byte): Byte {
    Power2Of8();
    XorBitsTwice(a, b, 8);
    XorBits(a, b, 8)
  }

  /** Bit `k`, counted from the lowest. */
  function Bit(a: nat, k: nat): nat {
    if k == 0 then a % 2 else Bit(a / 2, k - 1)
  }

  /** Bit `k` of `r` is set exactly if `a` and `b` differ there. */
  predicate XorAt(a: nat, b: nat, r: nat, k: nat) {
    Bit(r, k) == if Bit(a, k) == Bit(b, k) then 0 else 1
  }

  lemma LowBit(h: nat, d: nat)
    requires d < 2
    ensures (2 * h + d) / 2 == h && (2 * h + d) % 2 == d
  {
  }

  lemma LowBitOfSum(a: nat, b: nat)
    ensures (a + b) % 2 == if a % 2 == b % 2 then 0 else 1
  {
  }

  lemma {:induction false} BitOfXor(a: nat, b: nat, bits: nat, k: nat)
    requires k < bits
    ensures XorAt(a, b, XorBits(a, b, bits), k)
    decreases k
  {
    var h, d := XorBits(a / 2, b / 2, bits - 1), (a + b) % 2;
    LowBit(h, d);
    if k == 0 {
      LowBitOfSum(a, b);
    } else {
      BitOfXor(a / 2, b / 2, bits - 1, k - 1);
    }
  }

  lemma {:induction false} BitsDecide(a: nat, b: nat, bits: nat)
    requires a < Power2(bits) && b < Power2(bits)
    requires forall k: nat :: k < bits ==> Bit(a, k) == Bit(b, k)
    ensures a == b
  {
    if bits > 0 {
      assert Bit(a, 0) == Bit(b, 0);
      forall k: nat | k < bits - 1 ensures Bit(a / 2, k) == Bit(b / 2, k) {
        assert Bit(a, k + 1) == Bit(b, k + 1);
      }
      BitsDecide(a / 2, b / 2, bits - 1);
    }
  }

  /** The exclusive or of two bytes is the one byte whose bits are set where theirs differ. */
  lemma XorByteIs(a: Byte, b: Byte, r: Byte)
    ensures r == XorByte(a, b) <==> forall k: nat :: k < 8 ==> XorAt(a, b, r, k)
  {
    Power2Of8();
    XorBitsTwice(a, b, 8);
    forall k: nat | k < 8 ensures XorAt(a, b, XorByte(a, b), k) {
      BitOfXor(a, b, 8, k);
    }
    if forall k: nat :: k < 8 ==> XorAt(a, b, r, k) {
      forall k: nat | k < 8 ensures Bit(r, k) == Bit(XorByte(a, b), k) {
        assert XorAt(a, b, r, k) && XorAt(a, b, XorByte(a, b), k);
      }
      BitsDecide(r, XorByte(a, b), 8);
    }
  }

  function Xor(a: Bytes, b: Bytes): (r: Bytes)
    requires |a| == |b|
    ensures |r| == |a|
  {
    seq(|a|, i requires 0 <= i < |a| => XorByte(a[i], b[i]))
  }

  lemma XorTwice(a: Bytes, b: Bytes)
    requires |a| == |b|
    ensures Xor(Xor(a, b), b) == a
  {
    Power2Of8();
    forall i | 0 <= i < |a| ensures XorByte(XorByte(a[i], b[i]), b[i]) == a[i] {
      XorBitsTwice(a[i], b[i], 8);
    }
  }

  function CbcEncrypt(b: Block, iv: Bytes, src: Bytes): Bytes
    requires LawfulBlock(b) && |iv| == b.size
    decreases |src|
  {
    if |src| < b.size then []
    else
      var c := b.encrypt(Xor(src[..b.size], iv));
      c + CbcEncrypt(b, c, src[b.size..])
  }

  function CbcDecrypt(b: Block, iv: Bytes, src: Bytes): Bytes
    requires LawfulBlock(b) && |iv| == b.size
    decreases |src|
  {
    if |src| < b.size then []
    else Xor(b.decrypt(src[..b.size]), iv) + CbcDecrypt(b, src[..b.size], src[b.size..])
  }

  lemma CbcCons(b: Block, iv: Bytes, c: Bytes, rest: Bytes)
    requires LawfulBlock(b) && |iv| == b.size && |c| == b.size
    ensures CbcDecrypt(b, iv, c + rest) == Xor(b.decrypt(c), iv) + CbcDecrypt(b, c, rest)
  {
    assert (c + rest)[..b.size] == c && (c + rest)[b.size..] == rest;
  }

  /** The chain unwinds: each block is decrypted against the ciphertext block before it. */
  lemma {:induction false} CbcInverts(b: Block, iv: Bytes, src: Bytes)
    requires LawfulBlock(b) && |iv| == b.size && Whole(|src|, b.size)
    ensures CbcDecrypt(b, iv, CbcEncrypt(b, iv, src)) == src
    decreases |src|
  {
    if |src| >= b.size {
      var head, tail := src[..b.size], src[b.size..];
      var c := b.encrypt(Xor(head, iv));
      CbcInverts(b, c, tail);
      XorTwice(head, iv);
      CbcCons(b, iv, c, CbcEncrypt(b, c, tail));
      assert src == head + tail;
    }
  }

  lemma {:induction false} CbcLength(b: Block, iv: Bytes, src: Bytes)
    requires LawfulBlock(b) && |iv| == b.size && Whole(|src|, b.size)
    ensures |CbcEncrypt(b, iv, src)| == |src|
    decreases |src|
  {
    if |src| >= b.size {
      CbcLength(b, b.encrypt(Xor(src[..b.size], iv)), src[b.size..]);
    }
  }

  // ---------------------------------------------------------------- the block loop in place

  /** Writes one block at an offset of the buffer. */
  method PutBlock(dst: array<Byte>, i: nat, out: Bytes)
    requires i + |out| <= dst.Length
    modifies dst
    ensures dst[..i + |out|] == old(dst[..i]) + out
  {
    forall k | 0 <= k < |out| {
      dst[i + k] := out[k];
    }
  }

  /** The blocks before `i` have been turned into `done`. */
  ghost predicate DoneUpTo(size: nat, f: Bytes -> Bytes, src: Bytes, i: nat, done: Bytes)
    requires 0 < size && i <= |src|
  {
    done + Ecb(size, f, src[i..]) == Ecb(size, f, src)
  }

  lemma DoneStep(size: nat, f: Bytes -> Bytes, src: Bytes, i: nat, done: Bytes)
    requires 0 < size && i + size <= |src| && DoneUpTo(size, f, src, i, done)
    ensures DoneUpTo(size, f, src, i + size, done + f(src[i..i + size]))
  {
    var rest := src[i..];
    assert rest[..size] == src[i..i + size] && rest[size..] == src[i + size..];
  }

  lemma DoneStart(size: nat, f: Bytes -> Bytes, src: Bytes)
    requires 0 < size
    ensures DoneUpTo(size, f, src, 0, [])
  {
    assert src[0..] == src;
  }

  lemma DoneEnd(size: nat, f: Bytes -> Bytes, src: Bytes, done: Bytes)
    requires 0 < size && DoneUpTo(size, f, src, |src|, done)
    ensures done == Ecb(size, f, src)
  {
    assert done + [] == done;
  }

  /** The loop that fills `dst` block by block; a last partial block is out of bounds. */
  method CryptBlocks(size: nat, f: Bytes -> Bytes, src: Bytes) returns (r: Result<Bytes, string>)
    requires size > 0
    requires forall x: Bytes {:trigger f(x)} :: |x| == size ==> |f(x)| == size
    ensures r == if Whole(|src|, size) then Ok(Ecb(size, f, src)) else Err("slice bounds out of range")
  {
    var dst := new Byte[|src|];
    ghost var done: Bytes := [];
    var i := 0;
    DoneStart(size, f, src);
    while i < |src|
      invariant 0 <= i <= |src|
      invariant Whole(|src| - i, size) == Whole(|src|, size)
      invariant dst[..i] == done
      invariant DoneUpTo(size, f, src, i, done)
    {
      if i + size > |src| {
        return Err("slice bounds out of range");
      }
      var out := f(src[i..i + size]);
      DoneStep(size, f, src, i, done);
      PutBlock(dst, i, out);
      done := done + out;
      i := i + size;
    }
    DoneEnd(size, f, src, done);
    assert dst[..] == dst[..i];
    r := Ok(dst[..]);
  }
}
