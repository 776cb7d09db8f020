/** pkg/manager/macro/enigma/padding.go: PKCS#7 padding, section 6.3 of RFC 5652. A run-time panic
    of the source is an error here, because the callers recover and return it. */
module Padding {
  import opened Wrappers
  import opened Division

  type Byte = b: int | 0 <= b < 256
  type Bytes = seq<Byte>

  datatype Scheme = NoPadding | PKCS

  /** Go's `byte(n)` keeps the low eight bits. */
  function ToByte(n: nat): Byte {
    n % 256
  }

  /** The pad length is a whole block when the data already fills its blocks. */
  function PadLength(length: nat, blockSize: nat): (n: nat)
    requires blockSize > 0
    ensures 1 <= n <= blockSize
  {
    blockSize - length % blockSize
  }

  function Pkcs7Pad(src: Bytes, blockSize: nat): Bytes
    requires blockSize > 0
  {
    var padLen := PadLength(|src|, blockSize);
    src + seq(padLen, _ => ToByte(padLen))
  }

  function Pkcs7Unpad(src: Bytes): Result<Bytes, string> {
    if src == [] then Err("index out of range")
    else
      var padLen := src[|src| - 1];
      if padLen > |src| then Err("slice bounds out of range") else Ok(src[..|src| - padLen])
  }

  function Pad(scheme: Scheme, src: Bytes, blockSize: nat): Bytes
    requires blockSize > 0
  {
    match scheme
    case PKCS => Pkcs7Pad(src, blockSize)
    case NoPadding => src
  }

  function Unpad(scheme: Scheme, src: Bytes): Result<Bytes, string> {
    match scheme
    case PKCS => Pkcs7Unpad(src)
    case NoPadding => Ok(src)
  }

  /** Section 6.3 of RFC 5652: `r` is `src` filled up to the next whole block, a further one if `src` fills its
      blocks, and each byte put behind it is the number of these bytes. */
  ghost predicate IsPadded(src: Bytes, blockSize: nat, r: Bytes)
    requires blockSize > 0
  {
    && |src| < |r| <= |src| + blockSize
    && |r| % blockSize == 0
    && (forall k :: 0 <= k < |src| ==> r[k] == src[k])
    && (forall k :: |src| <= k < |r| ==> r[k] == |r| - |src|)
  }

  /** The padder does that exactly where the count fits a byte, and there is no other way to do it. */
  lemma PadsAsSpecified(src: Bytes, blockSize: nat, r: Bytes)
    requires 0 < blockSize <= 255
    ensures IsPadded(src, blockSize, r) <==> r == Pkcs7Pad(src, blockSize)
  {
    PaddedLength(src, blockSize);
    if IsPadded(src, blockSize, r) {
      SameMultiple(|src|, blockSize, |r|, |Pkcs7Pad(src, blockSize)|);
    }
  }

  /** There is one multiple in each stretch of a block. */
  lemma SameMultiple(from: nat, n: nat, a: nat, b: nat)
    requires n > 0 && a % n == 0 && b % n == 0 && from < a <= from + n && from < b <= from + n
    ensures a == b
  {
    var p, q := a / n, b / n;
    assert a == p * n && b == q * n;
    Distribute(p, q, n);
    Distribute(q, p, n);
    if p > q {
      AtLeastOnce(p - q, n);
    } else if q > p {
      AtLeastOnce(q - p, n);
    }
  }

  /** Padded data is a positive number of whole blocks and never shorter than needed by more than one. */
  lemma PaddedLength(src: Bytes, blockSize: nat)
    requires blockSize > 0
    ensures |Pkcs7Pad(src, blockSize)| % blockSize == 0
    ensures |src| < |Pkcs7Pad(src, blockSize)| <= |src| + blockSize
  {
    var q, r := |src| / blockSize, |src| % blockSize;
    assert |src| == q * blockSize + r;
    Distribute(q + 1, 1, blockSize);
    MultipleHasNoRemainder(q + 1, blockSize);
  }

  lemma UnpadPad(src: Bytes, blockSize: nat)
    requires 0 < blockSize <= 255
    ensures Pkcs7Unpad(Pkcs7Pad(src, blockSize)) == Ok(src)
  {
    var padLen := PadLength(|src|, blockSize);
    assert Pkcs7Pad(src, blockSize)[..|src|] == src;
  }

  /** A pad length of 256 or more does not fit the byte that records it. */
  lemma WidePadIsLost(blockSize: nat)
    requires blockSize > 255
    ensures Pkcs7Unpad(Pkcs7Pad([], blockSize)) != Ok([])
  {
    assert PadLength(0, blockSize) == blockSize;
  }

  /** Unpadding undoes padding for every input exactly for block sizes up to 255. */
  lemma PaddingInverts(blockSize: nat)
    requires blockSize > 0
    ensures (forall src :: Pkcs7Unpad(Pkcs7Pad(src, blockSize)) == Ok(src)) <==> blockSize <= 255
  {
    if blockSize <= 255 {
      forall src ensures Pkcs7Unpad(Pkcs7Pad(src, blockSize)) == Ok(src) {
        UnpadPad(src, blockSize);
      }
    } else {
      WidePadIsLost(blockSize);
    }
  }

  /** Either padder is undone by its unpadder. */
  lemma SchemeInverts(scheme: Scheme, src: Bytes, blockSize: nat)
    requires 0 < blockSize <= 255
    ensures Unpad(scheme, Pad(scheme, src, blockSize)) == Ok(src)
  {
    if scheme == PKCS {
      UnpadPad(src, blockSize);
    }
  }
}
