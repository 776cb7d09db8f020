/** pkg/manager/macro/enigma/strconv.go over the library's base64 and hex codecs: sections 4 and 8
    of RFC 4648, with lower-case hex. A decoder answers with the bytes it wrote and whether it met
    an error; the bytes before the error are kept. */
module TextCodec {
  import opened Padding

  datatype StrConv = Plain | Base64 | Hex

  datatype Decoded = Decoded(bytes: Bytes, ok: bool)

  // ---------------------------------------------------------------- base64

  const PAD: Byte := 61

  function Sextet(v: nat): Byte
    requires v < 64
  {
    if v < 26 then 65 + v
    else if v < 52 then 97 + (v - 26)
    else if v < 62 then 48 + (v - 52)
    else if v == 62 then 43
    else 47
  }

  predicate InAlphabet(c: Byte) {
    65 <= c <= 90 || 97 <= c <= 122 || 48 <= c <= 57 || c == 43 || c == 47
  }

  function SextetValue(c: Byte): (v: nat)
    requires InAlphabet(c)
    ensures v < 64 && Sextet(v) == c
  {
    if 65 <= c <= 90 then c - 65
    else if 97 <= c <= 122 then c - 97 + 26
    else if 48 <= c <= 57 then c - 48 + 52
    else if c == 43 then 62
    else 63
  }

  lemma SextetInverts(v: nat)
    requires v < 64
    ensures InAlphabet(Sextet(v)) && SextetValue(Sextet(v)) == v
    ensures Sextet(v) != PAD && Sextet(v) != 10 && Sextet(v) != 13
  {
  }

  function Base64Encode(src: Bytes): Bytes {
    if |src| == 0 then []
    else if |src| == 1 then [Sextet(src[0] / 4), Sextet(src[0] % 4 * 16), PAD, PAD]
    else if |src| == 2 then
      [Sextet(src[0] / 4), Sextet(src[0] % 4 * 16 + src[1] / 16), Sextet(src[1] % 16 * 4), PAD]
    else Quantum(src[0], src[1], src[2]) + Base64Encode(src[3..])
  }

  /** Three bytes as four characters. */
  function Quantum(x: Byte, y: Byte, z: Byte): Bytes {
    [Sextet(x / 4), Sextet(x % 4 * 16 + y / 16), Sextet(y % 16 * 4 + z / 64), Sextet(z % 64)]
  }

  predicate LineBreak(c: Byte) {
    c == 10 || c == 13
  }

  /** Carriage returns and newlines are skipped wherever they stand. */
  function WithoutLineBreaks(text: Bytes): Bytes {
    if text == [] then []
    else (if LineBreak(text[0]) then [] else [text[0]]) + WithoutLineBreaks(text[1..])
  }

  function First(a: nat, b: nat): Byte
    requires a < 64 && b < 64
  {
    a * 4 + b / 16
  }

  function Second(b: nat, c: nat): Byte
    requires b < 64 && c < 64
  {
    b % 16 * 16 + c / 4
  }

  function Third(c: nat, d: nat): Byte
    requires c < 64 && d < 64
  {
    c % 4 * 64 + d
  }

  /** Four characters at a time; padding must end the text. */
  function DecodeQuanta(s: Bytes): Decoded {
    if |s| == 0 then Decoded([], true)
    else if |s| < 4 || !InAlphabet(s[0]) || !InAlphabet(s[1]) then Decoded([], false)
    else
      var a, b := SextetValue(s[0]), SextetValue(s[1]);
      if s[2] == PAD then
        if s[3] == PAD then Decoded([First(a, b)], |s| == 4) else Decoded([], false)
      else if !InAlphabet(s[2]) then Decoded([], false)
      else
        var c := SextetValue(s[2]);
        if s[3] == PAD then Decoded([First(a, b), Second(b, c)], |s| == 4)
        else if !InAlphabet(s[3]) then Decoded([], false)
        else
          var rest := DecodeQuanta(s[4..]);
          Decoded([First(a, b), Second(b, c), Third(c, SextetValue(s[3]))] + rest.bytes, rest.ok)
  }

  function Base64Decode(text: Bytes): Decoded {
    DecodeQuanta(WithoutLineBreaks(text))
  }

  lemma QuantumInverts(x: Byte, y: Byte, z: Byte)
    ensures x / 4 < 64 && x % 4 * 16 + y / 16 < 64 && y % 16 * 4 + z / 64 < 64 && z % 64 < 64
    ensures First(x / 4, x % 4 * 16 + y / 16) == x
    ensures Second(x % 4 * 16 + y / 16, y % 16 * 4 + z / 64) == y
    ensures Third(y % 16 * 4 + z / 64, z % 64) == z
  {
  }

  lemma SextetsDecode(a: nat, b: nat, c: nat, d: nat, rest: Bytes)
    requires a < 64 && b < 64 && c < 64 && d < 64
    ensures DecodeQuanta([Sextet(a), Sextet(b), Sextet(c), Sextet(d)] + rest)
         == Decoded([First(a, b), Second(b, c), Third(c, d)] + DecodeQuanta(rest).bytes, DecodeQuanta(rest).ok)
  {
    var s := [Sextet(a), Sextet(b), Sextet(c), Sextet(d)] + rest;
    SextetInverts(a);
    SextetInverts(b);
    SextetInverts(c);
    SextetInverts(d);
    assert s[0] == Sextet(a) && s[1] == Sextet(b) && s[2] == Sextet(c) && s[3] == Sextet(d) && s[4..] == rest;
  }

  /** A full quantum in front of any text decodes to its three bytes in front. */
  lemma QuantumDecodes(x: Byte, y: Byte, z: Byte, rest: Bytes)
    ensures DecodeQuanta(Quantum(x, y, z) + rest)
         == Decoded([x, y, z] + DecodeQuanta(rest).bytes, DecodeQuanta(rest).ok)
  {
    QuantumInverts(x, y, z);
    SextetsDecode(x / 4, x % 4 * 16 + y / 16, y % 16 * 4 + z / 64, z % 64, rest);
  }

  /** One or two trailing bytes: what follows their padding only decides whether there is an error. */
  lemma TailDecodes(src: Bytes, junk: Bytes)
    requires 1 <= |src| <= 2
    ensures DecodeQuanta(Base64Encode(src) + junk) == Decoded(src, junk == [])
  {
    var x := src[0];
    var s := Base64Encode(src) + junk;
    if |src| == 1 {
      QuantumInverts(x, 0, 0);
      SextetInverts(x / 4);
      SextetInverts(x % 4 * 16);
      assert DecodeQuanta(s).bytes == [x];
    } else {
      QuantumInverts(x, src[1], 0);
      SextetInverts(x / 4);
      SextetInverts(x % 4 * 16 + src[1] / 16);
      SextetInverts(src[1] % 16 * 4);
      assert DecodeQuanta(s).bytes == [x, src[1]];
    }
  }

  /** `front` in front of what was decoded. */
  function Behind(front: Bytes, d: Decoded): Decoded {
    Decoded(front + d.bytes, d.ok)
  }

  lemma QuantumThenRest(src: Bytes, text: Bytes)
    requires |src| >= 3
    ensures DecodeQuanta(Base64Encode(src) + text)
         == Behind(src[..3], DecodeQuanta(Base64Encode(src[3..]) + text))
  {
    var x, y, z, rest := src[0], src[1], src[2], Base64Encode(src[3..]);
    QuantumDecodes(x, y, z, rest + text);
    assert Base64Encode(src) == Quantum(x, y, z) + rest;
    JoinAgain(Quantum(x, y, z), rest, text);
    assert src[..3] == [x, y, z];
  }

  lemma JoinAgain(a: Bytes, b: Bytes, c: Bytes)
    ensures a + b + c == a + (b + c)
  {
  }

  /** What decoding an encoding of `src` with a text behind it gives, if the text alone gives `d`: whole
      quanta let the text be decoded as well, padding ends the decoding, with an error if there is one. */
  function Followed(src: Bytes, d: Decoded, more: bool): Decoded {
    if |src| % 3 == 0 then Behind(src, d) else Decoded(src, !more)
  }

  lemma FollowedByQuantum(src: Bytes, d: Decoded, more: bool)
    requires |src| >= 3
    ensures Followed(src, d, more) == Behind(src[..3], Followed(src[3..], d, more))
  {
    assert src == src[..3] + src[3..];
    assert src[..3] + (src[3..] + d.bytes) == src + d.bytes;
  }

  lemma {:induction false} EncodingThenText(src: Bytes, text: Bytes)
    ensures DecodeQuanta(Base64Encode(src) + text) == Followed(src, DecodeQuanta(text), text != [])
  {
    if |src| == 0 {
      assert Base64Encode(src) + text == text;
    } else if |src| <= 2 {
      TailDecodes(src, text);
    } else {
      QuantumThenRest(src, text);
      EncodingThenText(src[3..], text);
      FollowedByQuantum(src, DecodeQuanta(text), text != []);
    }
  }

  const UPPER := "ABCDEFGHIJKLMNOPQRSTUVWXYZ"

  const LOWER := "abcdefghijklmnopqrstuvwxyz"

  const DIGITS := "0123456789"

  /** Table 1 of RFC 4648. */
  const LETTERS := UPPER + LOWER + DIGITS + "+/"

  lemma UpperLetter(v: nat)
    requires v < 26
    ensures UPPER[v] as int == 65 + v
  {
  }

  lemma LowerLetter(v: nat)
    requires v < 26
    ensures LOWER[v] as int == 97 + v
  {
  }

  lemma DigitLetter(v: nat)
    requires v < 10
    ensures DIGITS[v] as int == 48 + v
  {
  }

  lemma SextetIsLetter(v: nat)
    requires v < 64
    ensures |LETTERS| == 64 && Sextet(v) == LETTERS[v] as int
  {
    if v < 26 {
      UpperLetter(v);
    } else if v < 52 {
      LowerLetter(v - 26);
    } else if v < 62 {
      DigitLetter(v - 52);
    }
  }

  /** Four characters that spell the letters `a` to `d`, with padding for what `n` bytes do not reach. */
  predicate Spells(e: Bytes, n: nat, a: nat, b: nat, c: nat, d: nat) {
    && a < 64 && b < 64 && c < 64 && d < 64 && |LETTERS| == 64 && |e| == 4
    && e[0] == LETTERS[a] as int && e[1] == LETTERS[b] as int
    && e[2] == (if n >= 2 then LETTERS[c] else '=') as int
    && e[3] == (if n >= 3 then LETTERS[d] else '=') as int
  }

  lemma SextetsSpell(n: nat, a: nat, b: nat, c: nat, d: nat)
    requires a < 64 && b < 64 && c < 64 && d < 64
    ensures Spells([Sextet(a), Sextet(b), if n >= 2 then Sextet(c) else PAD, if n >= 3 then Sextet(d) else PAD],
                   n, a, b, c, d)
  {
    SextetIsLetter(a);
    SextetIsLetter(b);
    SextetIsLetter(c);
    SextetIsLetter(d);
  }

  function ByteAt(src: Bytes, i: nat): nat {
    if i < |src| then src[i] else 0
  }

  /** The 24 bits from byte `i` on, with zeros behind the end of the data. */
  function GroupBits(src: Bytes, i: nat): nat {
    ByteAt(src, i) * 65536 + ByteAt(src, i + 1) * 256 + ByteAt(src, i + 2)
  }

  function FourSextets(a: nat, b: nat, c: nat, d: nat): nat {
    a * 262144 + b * 4096 + c * 64 + d
  }

  /** The letters have six of the 24 bits each. */
  ghost predicate IsGroup(e: Bytes, v: nat, n: nat) {
    exists a: nat, b: nat, c: nat, d: nat :: Spells(e, n, a, b, c, d) && v == FourSextets(a, b, c, d)
  }

  lemma SixBits(x: nat, y: nat, z: nat)
    ensures FourSextets(x / 4, x % 4 * 16 + y / 16, y % 16 * 4 + z / 64, z % 64) == x * 65536 + y * 256 + z
  {
  }

  lemma FirstFour(src: Bytes, n: nat, y: Byte, z: Byte)
    requires n == |src| > 0 && y == ByteAt(src, 1) && z == ByteAt(src, 2)
    ensures var a, b, c, d := src[0] / 4, src[0] % 4 * 16 + y / 16, y % 16 * 4 + z / 64, z % 64;
      && a < 64 && b < 64 && c < 64 && d < 64 && |Base64Encode(src)| >= 4
      && Base64Encode(src)[..4]
      == [Sextet(a), Sextet(b), if n >= 2 then Sextet(c) else PAD, if n >= 3 then Sextet(d) else PAD]
  {
    QuantumInverts(src[0], y, z);
    var a, b, c, d := src[0] / 4, src[0] % 4 * 16 + y / 16, y % 16 * 4 + z / 64, z % 64;
    if n == 1 {
      assert y / 16 == 0;
      assert Base64Encode(src) == [Sextet(a), Sextet(b), PAD, PAD];
    } else if n == 2 {
      assert z / 64 == 0;
      assert Base64Encode(src) == [Sextet(a), Sextet(b), Sextet(c), PAD];
    } else {
      assert Base64Encode(src)[..4] == Quantum(src[0], y, z);
    }
  }

  lemma FirstGroup(src: Bytes)
    requires src != []
    ensures |Base64Encode(src)| >= 4 && IsGroup(Base64Encode(src)[..4], GroupBits(src, 0), |src|)
  {
    var x, y, z := src[0], ByteAt(src, 1), ByteAt(src, 2);
    var a, b, c, d := x / 4, x % 4 * 16 + y / 16, y % 16 * 4 + z / 64, z % 64;
    FirstFour(src, |src|, y, z);
    SixBits(x, y, z);
    SextetsSpell(|src|, a, b, c, d);
    assert Spells(Base64Encode(src)[..4], |src|, a, b, c, d);
  }

  lemma LaterGroup(src: Bytes, g: nat)
    requires |src| >= 3 && 4 * g + 4 <= |Base64Encode(src[3..])|
    ensures 4 * g + 8 <= |Base64Encode(src)|
    ensures Base64Encode(src)[4 * g + 4..4 * g + 8] == Base64Encode(src[3..])[4 * g..4 * g + 4]
    ensures GroupBits(src[3..], 3 * g) == GroupBits(src, 3 * g + 3)
  {
    assert Base64Encode(src) == Quantum(src[0], src[1], src[2]) + Base64Encode(src[3..]);
  }

  /** Each three bytes become such a group, and so do the one or two left over. */
  lemma {:induction false} EncodedGroup(src: Bytes, g: nat)
    requires 3 * g < |src|
    ensures 4 * g + 4 <= |Base64Encode(src)|
    ensures IsGroup(Base64Encode(src)[4 * g..4 * g + 4], GroupBits(src, 3 * g), |src| - 3 * g)
    decreases g
  {
    if g == 0 {
      FirstGroup(src);
    } else {
      EncodedGroup(src[3..], g - 1);
      LaterGroup(src, g - 1);
    }
  }

  /** Decoding goes by the letters alone, whether or not an encoder would write them: with padding the bits
      left over are ignored, and nothing may follow. */
  lemma GroupDecodes(e: Bytes, n: nat, a: nat, b: nat, c: nat, d: nat, x: Byte, y: Byte, z: Byte, rest: Bytes)
    requires 1 <= n <= 3 && Spells(e, n, a, b, c, d)
    requires FourSextets(a, b, c, d) == x as nat * 65536 + y as nat * 256 + z
    ensures DecodeQuanta(e + rest) == match n
      case 1 => Decoded([x], rest == [])
      case 2 => Decoded([x, y], rest == [])
      case _ => Behind([x, y, z], DecodeQuanta(rest))
  {
    SextetsSpell(n, a, b, c, d);
    ThreeBytes(a, b, c, d, x, y, z);
    var s := e + rest;
    assert s[0] == Sextet(a) && s[1] == Sextet(b) && s[4..] == rest;
    assert s[2] == (if n >= 2 then Sextet(c) else PAD) && s[3] == if n >= 3 then Sextet(d) else PAD;
    SextetInverts(a);
    SextetInverts(b);
    SextetInverts(c);
    SextetInverts(d);
  }

  lemma ThreeBytes(a: nat, b: nat, c: nat, d: nat, x: nat, y: nat, z: nat)
    requires a < 64 && b < 64 && c < 64 && d < 64 && x < 256 && y < 256 && z < 256
    requires FourSextets(a, b, c, d) == x * 65536 + y * 256 + z
    ensures First(a, b) == x && Second(b, c) == y && Third(c, d) == z
  {
    assert FourSextets(a, b, c, d)
        == First(a, b) as nat * 65536 + Second(b, c) as nat * 256 + Third(c, d);
  }

  lemma {:induction false} EncodingHasNoLineBreaks(src: Bytes)
    ensures forall c :: c in Base64Encode(src) ==> !LineBreak(c)
  {
    if |src| >= 3 {
      EncodingHasNoLineBreaks(src[3..]);
      QuantumInverts(src[0], src[1], src[2]);
    } else if |src| == 2 {
      QuantumInverts(src[0], src[1], 0);
    }
  }

  lemma {:induction false} NothingToSkip(text: Bytes)
    requires forall c :: c in text ==> !LineBreak(c)
    ensures WithoutLineBreaks(text) == text
  {
    if text != [] {
      NothingToSkip(text[1..]);
      assert text == [text[0]] + text[1..];
    }
  }

  /** Base64 round trip for every byte string, tails of one and two bytes included. */
  lemma Base64Inverts(src: Bytes)
    ensures Base64Decode(Base64Encode(src)) == Decoded(src, true)
  {
    EncodingHasNoLineBreaks(src);
    NothingToSkip(Base64Encode(src));
    EncodingThenText(src, []);
    assert src + DecodeQuanta([]).bytes == src;
    assert Base64Encode(src) + [] == Base64Encode(src);
  }

  /** The buffers the source allocates: encoding fills its buffer, decoding fits in its own. */
  lemma {:induction false} EncodedLength(src: Bytes)
    ensures |Base64Encode(src)| == (|src| + 2) / 3 * 4
  {
    if |src| >= 3 {
      EncodedLength(src[3..]);
    }
  }

  lemma {:induction false} DecodedFits(s: Bytes)
    ensures |DecodeQuanta(s).bytes| <= |s| / 4 * 3
  {
    if |s| >= 4 {
      DecodedFits(s[4..]);
      assert |s[4..]| / 4 + 1 == |s| / 4;
    }
  }

  lemma {:induction false} SkippingShortens(text: Bytes)
    ensures |WithoutLineBreaks(text)| <= |text|
  {
    if text != [] {
      SkippingShortens(text[1..]);
    }
  }

  lemma DecodedFitsBuffer(text: Bytes)
    ensures |Base64Decode(text).bytes| <= |text| / 4 * 3
  {
    DecodedFits(WithoutLineBreaks(text));
    SkippingShortens(text);
  }

  // ---------------------------------------------------------------- hex

  function HexDigit(v: nat): Byte
    requires v < 16
  {
    if v < 10 then 48 + v else 97 + (v - 10)
  }

  predicate IsHexDigit(c: Byte) {
    48 <= c <= 57 || 97 <= c <= 102 || 65 <= c <= 70
  }

  function HexValue(c: Byte): (v: nat)
    requires IsHexDigit(c)
    ensures v < 16
  {
    if c <= 57 then c - 48 else if c >= 97 then c - 97 + 10 else c - 65 + 10
  }

  function HexEncode(src: Bytes): Bytes {
    if src == [] then [] else [HexDigit(src[0] / 16), HexDigit(src[0] % 16)] + HexEncode(src[1..])
  }

  /** Two characters at a time, upper or lower case. */
  function HexDecode(s: Bytes): Decoded {
    if |s| == 0 then Decoded([], true)
    else if |s| == 1 || !IsHexDigit(s[0]) || !IsHexDigit(s[1]) then Decoded([], false)
    else
      var rest := HexDecode(s[2..]);
      Decoded([HexValue(s[0]) * 16 + HexValue(s[1])] + rest.bytes, rest.ok)
  }

  /** Two lower-case digits a byte. */
  const HEX_DIGITS := "0123456789abcdef"

  const HEX_UPPER := "0123456789ABCDEF"

  lemma {:induction false} EncodedByte(src: Bytes, i: nat)
    requires i < |src|
    ensures |HexEncode(src)| == 2 * |src|
    ensures HexEncode(src)[2 * i] == HEX_DIGITS[src[i] / 16] as int
    ensures HexEncode(src)[2 * i + 1] == HEX_DIGITS[src[i] % 16] as int
  {
    HexLength(src);
    if i > 0 {
      EncodedByte(src[1..], i - 1);
      assert HexEncode(src)[2..] == HexEncode(src[1..]);
    } else {
      DigitIsLetter(src[0] / 16);
      DigitIsLetter(src[0] % 16);
    }
  }

  lemma DigitIsLetter(v: nat)
    requires v < 16
    ensures HexDigit(v) == HEX_DIGITS[v] as int
  {
  }

  /** Both cases are read, and nothing else. */
  lemma HexDigitsRead(c: Byte)
    ensures IsHexDigit(c) <==> c as char in HEX_DIGITS || c as char in HEX_UPPER
    ensures forall v: nat :: v < 16 && (c == HEX_DIGITS[v] as int || c == HEX_UPPER[v] as int) ==>
              IsHexDigit(c) && HexValue(c) == v
  {
  }

  lemma {:induction false} HexLength(src: Bytes)
    ensures |HexEncode(src)| == 2 * |src|
  {
    if src != [] {
      HexLength(src[1..]);
    }
  }

  lemma NibblesInvert(x: Byte)
    ensures IsHexDigit(HexDigit(x / 16)) && IsHexDigit(HexDigit(x % 16))
    ensures HexValue(HexDigit(x / 16)) * 16 + HexValue(HexDigit(x % 16)) == x
  {
  }

  lemma PairInFront(x: Byte, rest: Bytes)
    ensures HexDecode([HexDigit(x / 16), HexDigit(x % 16)] + rest) == Behind([x], HexDecode(rest))
  {
    var s := [HexDigit(x / 16), HexDigit(x % 16)] + rest;
    assert s[0] == HexDigit(x / 16) && s[1] == HexDigit(x % 16) && s[2..] == rest;
    NibblesInvert(x);
  }

  lemma PairDecodes(src: Bytes, text: Bytes)
    requires src != []
    ensures HexDecode(HexEncode(src) + text) == Behind(src[..1], HexDecode(HexEncode(src[1..]) + text))
  {
    var x, rest := src[0], HexEncode(src[1..]);
    PairInFront(x, rest + text);
    assert [HexDigit(x / 16), HexDigit(x % 16)] + rest + text == [HexDigit(x / 16), HexDigit(x % 16)] + (rest + text);
    assert src[..1] == [x];
  }

  /** Decoding an encoding with any text behind it goes on with the text. */
  lemma {:induction false} HexThenText(src: Bytes, text: Bytes)
    ensures HexDecode(HexEncode(src) + text) == Behind(src, HexDecode(text))
  {
    if src == [] {
      assert HexEncode(src) + text == text;
    } else {
      PairDecodes(src, text);
      HexThenText(src[1..], text);
      assert src[..1] + (src[1..] + HexDecode(text).bytes) == src + HexDecode(text).bytes;
    }
  }

  lemma HexInverts(src: Bytes)
    ensures HexDecode(HexEncode(src)) == Decoded(src, true)
  {
    HexThenText(src, []);
    assert HexEncode(src) + [] == HexEncode(src);
  }

  lemma {:induction false} HexHalves(s: Bytes)
    ensures |HexDecode(s).bytes| <= |s| / 2
  {
    if |s| >= 2 {
      HexHalves(s[2..]);
    }
  }

  /** Decoding in front of what is still to be read: the bytes written so far and the decoding of
      the untouched rest make up the whole. */
  ghost predicate HexDoneUpTo(s: Bytes, i: nat, done: Bytes)
    requires 2 * i <= |s|
  {
    && HexDecode(s).bytes == done + HexDecode(s[2 * i..]).bytes
    && HexDecode(s).ok == HexDecode(s[2 * i..]).ok
  }

  lemma HexStep(s: Bytes, i: nat, done: Bytes)
    requires 2 * i + 1 < |s| && HexDoneUpTo(s, i, done)
    requires IsHexDigit(s[2 * i]) && IsHexDigit(s[2 * i + 1])
    ensures HexDoneUpTo(s, i + 1, done + [HexValue(s[2 * i]) * 16 + HexValue(s[2 * i + 1])])
  {
    var rest, x := s[2 * i..], HexValue(s[2 * i]) * 16 + HexValue(s[2 * i + 1]);
    assert rest[2..] == s[2 * (i + 1)..];
    assert done + ([x] + HexDecode(rest[2..]).bytes) == done + [x] + HexDecode(rest[2..]).bytes;
  }

  /** `hex.Decode(src, src)`: the output overwrites the buffer it is read from. The write position
      never catches up with the read position, so no unread input is lost. */
  method HexDecodeInPlace(a: array<Byte>) returns (n: nat, ok: bool)
    modifies a
    ensures n <= a.Length
    ensures Decoded(a[..n], ok) == HexDecode(old(a[..]))
    ensures a[a.Length - a.Length / 2..] == old(a[a.Length - a.Length / 2..])
  {
    ghost var s := a[..];
    n, ok := 0, true;
    assert s[0..] == s;
    while 2 * n + 1 < a.Length
      invariant 2 * n <= a.Length
      invariant HexDoneUpTo(s, n, a[..n])
      invariant forall k :: n <= k < a.Length ==> a[k] == s[k]
    {
      var p, q := a[2 * n], a[2 * n + 1];
      assert p == s[2 * n..][0] && q == s[2 * n..][1];
      if !IsHexDigit(p) || !IsHexDigit(q) {
        ok := false;
        return;
      }
      HexStep(s, n, a[..n]);
      ghost var done := a[..n];
      a[n] := HexValue(p) * 16 + HexValue(q);
      assert a[..n + 1] == done + [HexValue(p) * 16 + HexValue(q)];
      n := n + 1;
    }
    ok := a.Length % 2 == 0;
    assert |s[2 * n..]| == a.Length - 2 * n;
  }

  // ---------------------------------------------------------------- the three converters

  function TextEncode(conv: StrConv, src: Bytes): Bytes {
    match conv
    case Plain => src
    case Base64 => Base64Encode(src)
    case Hex => HexEncode(src)
  }

  function TextDecode(conv: StrConv, text: Bytes): Decoded {
    match conv
    case Plain => Decoded(text, true)
    case Base64 => Base64Decode(text)
    case Hex => HexDecode(text)
  }

  lemma {:induction false} SkippingJoins(a: Bytes, b: Bytes)
    ensures WithoutLineBreaks(a + b) == WithoutLineBreaks(a) + WithoutLineBreaks(b)
  {
    if a == [] {
      assert a + b == b;
    } else {
      assert (a + b)[1..] == a[1..] + b;
      SkippingJoins(a[1..], b);
    }
  }

  /** Newlines and carriage returns change nothing, wherever they stand. */
  lemma LineBreakIsSkipped(a: Bytes, c: Byte, b: Bytes)
    requires c == '\n' as int || c == '\r' as int
    ensures Base64Decode(a + [c] + b) == Base64Decode(a + b)
  {
    SkippingJoins(a + [c], b);
    SkippingJoins(a, [c]);
    SkippingJoins(a, b);
    assert WithoutLineBreaks([c]) == [] && WithoutLineBreaks(a) + [] == WithoutLineBreaks(a);
  }

  /** Any other character that is not a letter ends the decoding at once. */
  lemma OthersAreRefused(c: Byte, b: Bytes)
    requires c != '\n' as int && c != '\r' as int && forall v :: 0 <= v < |LETTERS| ==> c != LETTERS[v] as int
    ensures Base64Decode([c] + b) == Decoded([], false)
  {
    if InAlphabet(c) {
      SextetIsLetter(SextetValue(c));
    }
    var s := WithoutLineBreaks([c] + b);
    assert ([c] + b)[1..] == b && s == [c] + WithoutLineBreaks(b);
  }

  /** Text that decodes to nothing and is refused on its own leaves no trace behind an encoding but
      the error. */
  lemma EncodingThenJunk(conv: StrConv, src: Bytes, junk: Bytes)
    requires TextDecode(conv, junk) == Decoded([], false)
    ensures TextDecode(conv, TextEncode(conv, src) + junk) == Decoded(src, false)
  {
    match conv
    case Base64 =>
      SkippingJoins(Base64Encode(src), junk);
      EncodingHasNoLineBreaks(src);
      NothingToSkip(Base64Encode(src));
      EncodingThenText(src, WithoutLineBreaks(junk));
      assert src + [] == src;
    case Hex =>
      HexThenText(src, junk);
      assert src + [] == src;
    case Plain =>
  }

  lemma TextInverts(conv: StrConv, src: Bytes)
    ensures TextDecode(conv, TextEncode(conv, src)) == Decoded(src, true)
  {
    match conv
    case Plain =>
    case Base64 => Base64Inverts(src);
    case Hex => HexInverts(src);
  }

  /** The converter's decoder: hex works in the caller's buffer, the others leave it alone. */
  method DecodeText(conv: StrConv, src: array<Byte>) returns (r: Decoded)
    modifies src
    ensures r == TextDecode(conv, old(src[..]))
    ensures conv != Hex ==> src[..] == old(src[..])
  {
    match conv {
      case Plain => r := Decoded(src[..], true);
      case Base64 => r := Base64Decode(src[..]);
      case Hex =>
        var n, ok := HexDecodeInPlace(src);
        r := Decoded(src[..n], ok);
    }
  }
}
