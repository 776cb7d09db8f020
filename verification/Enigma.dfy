/** pkg/manager/macro/enigma/salt.go, cipher_mode.go and enigma_machine.go: the pipeline pad,
    encrypt, prefix the salt, encode as text, and back. A run-time panic is an error, because the
    machine recovers. */
module Enigma {
  import opened Wrappers
  import opened Division
  import opened Padding
  import opened BlockModes
  import opened TextCodec

  /** The system's random bytes: none when the source is broken, else as many as asked for. */
  type Random = nat -> Option<Bytes>

  ghost predicate Fills(random: Random) {
    forall n: nat :: random(n).Some? ==> |random(n).value| == n
  }

  // ---------------------------------------------------------------- salt

  /** A configured salt cut or filled with zeros to the length the cipher mode needs. */
  function SafeSalt(value: Bytes, n: nat): (r: Bytes)
    ensures |r| == n
  {
    seq(n, i requires 0 <= i < n => if i < |value| then value[i] else 0)
  }

  /** So it is the front of the value, or the whole of it in front of zeros. */
  lemma SafeSaltKeepsFront(value: Bytes, n: nat)
    ensures n <= |value| ==> SafeSalt(value, n) == value[..n]
    ensures n >= |value| ==> SafeSalt(value, n)[..|value|] == value
    ensures n >= |value| ==> forall b :: b in SafeSalt(value, n)[|value|..] ==> b == 0
  {
  }

  datatype SaltSetting = SaltSetting(configured: Option<Bytes>, length: nat)

  function DrawSalt(salt: SaltSetting, random: Random): Result<Bytes, string> {
    match salt.configured
    case Some(value) => Ok(SafeSalt(value, salt.length))
    case None =>
      match random(salt.length)
      case Some(b) => Ok(b)
      case None => Err("new salt by randbytes")
  }

  /** A random salt travels in front of the ciphertext; a configured one is known to both sides. */
  function SaltEncodeRule(src: Bytes, salt: Bytes, has: bool): Bytes {
    if has then src else salt + src
  }

  /** Only the length of the given salt matters when it travels with the text. */
  function SaltDecodeRule(src: Bytes, salt: Bytes, has: bool): Result<(Bytes, Bytes), string> {
    if has then Ok((src, salt))
    else if |src| < |salt| then Err("makeslice: len out of range")
    else Ok((src[|salt|..], src[..|salt|]))
  }

  /** Splitting undoes joining: with a travelling salt of the expected length both parts come back
      whatever the receiver's own salt is, with a configured one the receiver's own is used. */
  lemma SaltSplitUndoesJoin(src: Bytes, salt: Bytes, own: Bytes, has: bool)
    requires |own| == |salt| && (has ==> own == salt)
    ensures SaltDecodeRule(SaltEncodeRule(src, salt, has), own, has) == Ok((src, salt))
  {
    if !has {
      assert (salt + src)[|salt|..] == src && (salt + src)[..|salt|] == salt;
    }
  }

  class Salt {
    var value: Bytes
    var has: bool
    var len: nat

    constructor ()
      ensures !has && len == 0 && value == []
    {
      value, has, len := [], false, 0;
    }

    /** Replaces the whole salt; the length is set later by the cipher mode. */
    method SetValue(b: Bytes)
      modifies this
      ensures value == b && has && len == 0
    {
      value, has, len := b, true, 0;
    }

    method SetLen(n: nat)
      modifies this`len
      ensures len == n
    {
      len := n;
    }

    function Setting(): SaltSetting
      reads this
    {
      SaltSetting(if has then Some(value) else None, len)
    }
  }

  /** One encode or decode call's salt: generated at most once, however often it is asked for. */
  class ScopeSalt {
    const setting: SaltSetting
    const random: Random
    var generated: Option<Result<Bytes, string>>

    constructor (setting: SaltSetting, random: Random)
      ensures this.setting == setting && this.random == random && generated == None
    {
      this.setting := setting;
      this.random := random;
      generated := None;
    }

    ghost predicate Valid()
      reads this
    {
      generated.Some? ==> generated.value == DrawSalt(setting, random)
    }

    method GenSalt() returns (r: Result<Bytes, string>)
      requires Valid()
      modifies this
      ensures Valid() && r == DrawSalt(setting, random) && generated == Some(r)
    {
      if generated.None? {
        generated := Some(DrawSalt(setting, random));
      }
      r := generated.value;
    }
  }

  // ---------------------------------------------------------------- the pipeline, as functions

  datatype Mode = NONE | CBC | GCM

  datatype Setup = Setup(block: Block, gcm: Gcm, mode: Mode, padding: Scheme, conv: StrConv, salt: SaltSetting)

  ghost predicate LawfulSetup(m: Setup) {
    && LawfulBlock(m.block) && LawfulGcm(m.gcm)
    && m.salt.length == SaltLength(m.block, m.gcm, m.mode)
  }

  /** The salt length each mode asks for. */
  function SaltLength(block: Block, gcm: Gcm, mode: Mode): nat {
    match mode
    case NONE => if block.size == 1 then 0 else block.size
    case CBC => block.size
    case GCM => gcm.nonceSize
  }

  /** The mode's encoder. The NONE mode pads by itself unless blocks are single bytes. */
  ghost function Encrypt(m: Setup, src: Bytes, salt: Bytes): Result<Bytes, string>
    requires LawfulBlock(m.block)
  {
    match m.mode
    case NONE =>
      if m.block.size == 1 then Ok(Ecb(1, m.block.encrypt, src))
      else Ok(Ecb(m.block.size, m.block.encrypt, Pkcs7Pad(src, m.block.size)))
    case CBC =>
      if |salt| != m.block.size || !Whole(|src|, m.block.size) then Err("crypto/cipher: input not full blocks")
      else Ok(CbcEncrypt(m.block, salt, src))
    case GCM =>
      if |salt| != m.gcm.nonceSize then Err("crypto/cipher: incorrect nonce length given to GCM")
      else Ok(m.gcm.seal(salt, src))
  }

  ghost function Decrypt(m: Setup, src: Bytes, salt: Bytes): Result<Bytes, string>
    requires LawfulBlock(m.block)
  {
    match m.mode
    case NONE =>
      if !Whole(|src|, m.block.size) then Err("slice bounds out of range")
      else if m.block.size == 1 then Ok(Ecb(1, m.block.decrypt, src))
      else Pkcs7Unpad(Ecb(m.block.size, m.block.decrypt, src))
    case CBC =>
      if |salt| != m.block.size || !Whole(|src|, m.block.size) then Err("crypto/cipher: input not full blocks")
      else Ok(CbcDecrypt(m.block, salt, src))
    case GCM =>
      if |salt| != m.gcm.nonceSize then Err("crypto/cipher: incorrect nonce length given to GCM")
      else
        match m.gcm.open(salt, src)
        case Some(x) => Ok(x)
        case None => Err("cipher: message authentication failed")
  }

  ghost function Encode(m: Setup, src: Bytes, random: Random): Result<Bytes, string>
    requires LawfulBlock(m.block)
  {
    match DrawSalt(m.salt, random)
    case Err(e) => Err(e)
    case Ok(salt) =>
      match Encrypt(m, Pad(m.padding, src, m.block.size), salt)
      case Err(e) => Err(e)
      case Ok(c) => Ok(TextEncode(m.conv, SaltEncodeRule(c, salt, m.salt.configured.Some?)))
  }

  /** The text decoder's error is overwritten before anyone looks at it: what it managed to decode
      is used as if it were everything. */
  ghost function Decode(m: Setup, text: Bytes, random: Random): Result<Bytes, string>
    requires LawfulBlock(m.block)
  {
    DecodeBytes(m, TextDecode(m.conv, text).bytes, random)
  }

  ghost function DecodeBytes(m: Setup, raw: Bytes, random: Random): Result<Bytes, string>
    requires LawfulBlock(m.block)
  {
    match DrawSalt(m.salt, random)
    case Err(e) => Err(e)
    case Ok(own) =>
      match SaltDecodeRule(raw, own, m.salt.configured.Some?)
      case Err(e) => Err(e)
      case Ok((c, salt)) =>
        match Decrypt(m, c, salt)
        case Err(e) => Err(e)
        case Ok(x) => Unpad(m.padding, x)
  }

  // ---------------------------------------------------------------- the round trip

  /** Each mode undoes itself on whatever it accepts. */
  lemma DecryptInverts(m: Setup, src: Bytes, salt: Bytes)
    requires LawfulSetup(m) && Encrypt(m, src, salt).Ok?
    ensures Decrypt(m, Encrypt(m, src, salt).value, salt) == Ok(src)
  {
    match m.mode
    case NONE =>
      var padded := if m.block.size == 1 then src else Pkcs7Pad(src, m.block.size);
      if m.block.size == 1 {
        AllWhole(|src|);
      } else {
        PaddedLength(src, m.block.size);
        WholeIsNoRemainder(|padded|, m.block.size);
        UnpadPad(src, m.block.size);
      }
      EcbInverts(m.block, padded);
      EcbLength(m.block.size, m.block.encrypt, padded);
    case CBC =>
      CbcInverts(m.block, salt, src);
      CbcLength(m.block, salt, src);
    case GCM =>
  }

  lemma {:induction false} AllWhole(n: nat)
    ensures Whole(n, 1)
  {
    if n > 0 {
      AllWhole(n - 1);
    }
  }

  lemma SaltHasLength(salt: SaltSetting, random: Random)
    requires Fills(random) && DrawSalt(salt, random).Ok?
    ensures |DrawSalt(salt, random).value| == salt.length
  {
  }

  /** The codec round trip: for every method, mode, padding, converter and salt setting, and
      whatever random bytes either side draws, decoding what was encoded gives the plaintext. */
  lemma RoundTrip(m: Setup, src: Bytes, random: Random, random': Random)
    requires LawfulSetup(m) && Fills(random) && Fills(random') && DrawSalt(m.salt, random').Ok?
    requires Encode(m, src, random).Ok?
    ensures Decode(m, Encode(m, src, random).value, random') == Ok(src)
  {
    var salt, own := DrawSalt(m.salt, random).value, DrawSalt(m.salt, random').value;
    var padded := Pad(m.padding, src, m.block.size);
    var c := Encrypt(m, padded, salt).value;
    var has := m.salt.configured.Some?;
    SaltHasLength(m.salt, random);
    SaltHasLength(m.salt, random');
    TextInverts(m.conv, SaltEncodeRule(c, salt, has));
    SaltSplitUndoesJoin(c, salt, own, has);
    DecryptInverts(m, padded, salt);
    SchemeInverts(m.padding, src, m.block.size);
  }

  /** Encoding fails in exactly two ways: no random bytes, or CBC over data that is not whole blocks
      because padding is off. */
  lemma EncodeSucceedsIff(m: Setup, src: Bytes, random: Random)
    requires LawfulSetup(m) && Fills(random)
    ensures Encode(m, src, random).Ok? <==>
              && (m.salt.configured.Some? || random(m.salt.length).Some?)
              && (m.mode == CBC && m.padding == NoPadding ==> |src| % m.block.size == 0)
  {
    if DrawSalt(m.salt, random).Ok? {
      SaltHasLength(m.salt, random);
    }
    WholeIsNoRemainder(|src|, m.block.size);
    PaddedLength(src, m.block.size);
    WholeIsNoRemainder(|Pkcs7Pad(src, m.block.size)|, m.block.size);
  }

  /** Without a configured salt the receiver draws random bytes only for their length: two working
      sources never make a difference, on any text. */
  lemma FreshSaltIndependence(m: Setup, text: Bytes, random: Random, random': Random)
    requires LawfulBlock(m.block) && Fills(random) && Fills(random')
    requires DrawSalt(m.salt, random).Ok? && DrawSalt(m.salt, random').Ok?
    ensures Decode(m, text, random) == Decode(m, text, random')
  {
    if m.salt.configured.None? {
      SaltHasLength(m.salt, random);
      SaltHasLength(m.salt, random');
      var raw := TextDecode(m.conv, text).bytes;
      var a, b := random(m.salt.length).value, random'(m.salt.length).value;
      assert SaltDecodeRule(raw, a, false) == SaltDecodeRule(raw, b, false);
    }
  }

  /** The salt of one call: as drawn, or what the configured one gives at the asked length. */
  ghost predicate IsSalt(m: Setup, random: Random, salt: Bytes) {
    match m.salt.configured
    case None => random(m.salt.length) == Some(salt)
    case Some(value) =>
      && |salt| == m.salt.length
      && (forall k :: 0 <= k < |salt| && k < |value| ==> salt[k] == value[k])
      && (forall k :: |value| <= k < |salt| ==> salt[k] == 0)
  }

  /** What the first stage hands on: whole blocks with the pad bytes of RFC 5652, or the data itself. */
  ghost predicate FirstStage(m: Setup, src: Bytes, padded: Bytes)
    requires LawfulBlock(m.block)
  {
    match m.padding
    case PKCS => IsPadded(src, m.block.size, padded)
    case NoPadding => padded == src
  }

  /** What the cipher mode makes of it, seen from the ciphertext: NONE pads once more and has its blocks
      encrypted one by one, CBC chains them behind the salt, GCM seals the data under it. */
  ghost predicate SecondStage(m: Setup, padded: Bytes, salt: Bytes, c: Bytes)
    requires LawfulBlock(m.block) && |salt| == SaltLength(m.block, m.gcm, m.mode)
  {
    match m.mode
    case NONE =>
      exists blocks: Bytes ::
        && (if m.block.size == 1 then blocks == padded else IsPadded(padded, m.block.size, blocks))
        && Ecb(m.block.size, m.block.decrypt, c) == blocks && |c| == |blocks|
    case CBC => CbcDecrypt(m.block, salt, c) == padded && |c| == |padded|
    case GCM => c == m.gcm.seal(salt, padded)
  }

  ghost predicate Encodes(m: Setup, src: Bytes, random: Random, text: Bytes)
    requires LawfulSetup(m)
  {
    exists padded: Bytes, salt: Bytes, c: Bytes ::
      && FirstStage(m, src, padded)
      && IsSalt(m, random, salt) && |salt| == SaltLength(m.block, m.gcm, m.mode)
      && SecondStage(m, padded, salt, c)
      && text == TextEncode(m.conv, if m.salt.configured.Some? then c else salt + c)
  }

  /** Every text that encoding gives has come about in these stages. */
  lemma EncodedInStages(m: Setup, src: Bytes, random: Random)
    requires LawfulSetup(m) && Fills(random) && Encode(m, src, random).Ok?
    ensures Encodes(m, src, random, Encode(m, src, random).value)
  {
    var salt, padded := DrawSalt(m.salt, random).value, Pad(m.padding, src, m.block.size);
    var c := Encrypt(m, padded, salt).value;
    SaltHasLength(m.salt, random);
    PadsAsSpecified(src, m.block.size, Pkcs7Pad(src, m.block.size));
    assert FirstStage(m, src, padded);
    SecondStageIs(m, padded, salt);
    assert SecondStage(m, padded, salt, c);
    assert IsSalt(m, random, salt);
  }

  lemma SecondStageIs(m: Setup, padded: Bytes, salt: Bytes)
    requires LawfulSetup(m) && Encrypt(m, padded, salt).Ok? && |salt| == SaltLength(m.block, m.gcm, m.mode)
    ensures SecondStage(m, padded, salt, Encrypt(m, padded, salt).value)
  {
    match m.mode
    case NONE =>
      var blocks := if m.block.size == 1 then padded else Pkcs7Pad(padded, m.block.size);
      PadsAsSpecified(padded, m.block.size, Pkcs7Pad(padded, m.block.size));
      WholeIsNoRemainder(|blocks|, m.block.size);
      if m.block.size == 1 {
        AllWhole(|padded|);
      }
      EcbInverts(m.block, blocks);
      EcbLength(m.block.size, m.block.encrypt, blocks);
    case CBC =>
      CbcInverts(m.block, salt, padded);
      CbcLength(m.block, salt, padded);
    case GCM =>
  }

  /** Two texts with the same decodable front decode alike, error or not. */
  lemma OnlyDecodedBytesMatter(m: Setup, text: Bytes, text': Bytes, random: Random)
    requires LawfulBlock(m.block)
    requires TextDecode(m.conv, text).bytes == TextDecode(m.conv, text').bytes
    ensures Decode(m, text, random) == Decode(m, text', random)
  {
  }

  /** So text with a broken tail is not refused: it decodes as if the tail were absent. */
  lemma BrokenTailIsAccepted(m: Setup, src: Bytes, junk: Bytes, random: Random, random': Random)
    requires LawfulSetup(m) && Fills(random) && Fills(random') && DrawSalt(m.salt, random').Ok?
    requires Encode(m, src, random).Ok? && TextDecode(m.conv, junk) == Decoded([], false)
    ensures !TextDecode(m.conv, Encode(m, src, random).value + junk).ok
    ensures Decode(m, Encode(m, src, random).value + junk, random') == Ok(src)
  {
    var y := Encode(m, src, random).value;
    var salt := DrawSalt(m.salt, random).value;
    var raw := SaltEncodeRule(Encrypt(m, Pad(m.padding, src, m.block.size), salt).value, salt, m.salt.configured.Some?);
    EncodingThenJunk(m.conv, raw, junk);
    TextInverts(m.conv, raw);
    OnlyDecodedBytesMatter(m, y + junk, y, random');
    RoundTrip(m, src, random, random');
  }

  /** Text the converter refuses is always refused only by the converter that refuses nothing: base64
      and hex each let some broken text through. */
  lemma BrokenTextRefusedIff(m: Setup, random: Random)
    requires LawfulSetup(m) && Fills(random) && DrawSalt(m.salt, random).Ok?
    ensures (forall text :: !TextDecode(m.conv, text).ok ==> Decode(m, text, random).Err?) <==> m.conv == Plain
  {
    if m.conv != Plain {
      var bang: Bytes := [33];
      NothingToSkip(bang);
      assert TextDecode(m.conv, bang) == Decoded([], false);
      EncodeSucceedsIff(m, [], random);
      BrokenTailIsAccepted(m, [], bang, random, random);
    }
  }

  // ---------------------------------------------------------------- the machine object

  class Machine {
    const block: Block
    const gcm: Gcm
    const mode: Mode
    const padding: Scheme
    const conv: StrConv
    const salt: Salt

    function TheSetup(): Setup
      reads salt
    {
      Setup(block, gcm, mode, padding, conv, salt.Setting())
    }

    /** The cipher mode decides the salt's length. */
    constructor (block: Block, gcm: Gcm, mode: Mode, padding: Scheme, conv: StrConv, salt: Salt)
      requires LawfulBlock(block) && LawfulGcm(gcm)
      modifies salt
      ensures this.salt == salt && salt.has == old(salt.has) && salt.value == old(salt.value)
      ensures TheSetup() == Setup(block, gcm, mode, padding, conv,
                SaltSetting(if old(salt.has) then Some(old(salt.value)) else None, SaltLength(block, gcm, mode)))
      ensures LawfulSetup(TheSetup())
    {
      this.block, this.gcm, this.mode, this.padding, this.conv, this.salt := block, gcm, mode, padding, conv, salt;
      new;
      match mode {
        case NONE =>
          if block.size == 1 {
            salt.SetLen(0);
          } else {
            salt.SetLen(block.size);
          }
        case CBC => salt.SetLen(block.size);
        case GCM => salt.SetLen(gcm.nonceSize);
      }
    }

    /** GCM insists on 128-bit blocks; every other combination is accepted. */
    static method NewMachine(block: Block, gcm: Gcm, mode: Mode, padding: Scheme, conv: StrConv,
                             configured: Option<Bytes>)
      returns (r: Result<Machine, string>)
      requires LawfulBlock(block) && LawfulGcm(gcm)
      ensures r.Ok? <==> mode != GCM || block.size == 16
      ensures r.Ok? ==>
                && fresh(r.value) && fresh(r.value.salt)
                && r.value.TheSetup() == Setup(block, gcm, mode, padding, conv,
                                               SaltSetting(configured, SaltLength(block, gcm, mode)))
                && LawfulSetup(r.value.TheSetup())
    {
      var salt := new Salt();
      if configured.Some? {
        salt.SetValue(configured.value);
      }
      if mode == GCM && block.size != 16 {
        return Err("cipher: NewGCM requires 128-bit block cipher");
      }
      var machine := new Machine(block, gcm, mode, padding, conv, salt);
      r := Ok(machine);
    }

    /** The encoder closure of the mode. */
    method Encoder(src: Bytes, iv: Bytes) returns (r: Result<Bytes, string>)
      requires LawfulBlock(block)
      ensures r == Encrypt(TheSetup(), src, iv)
    {
      match mode {
        case NONE =>
          if block.size == 1 {
            AllWhole(|src|);
            r := CryptBlocks(1, block.encrypt, src);
          } else {
            var padded := Pkcs7Pad(src, block.size);
            PaddedLength(src, block.size);
            WholeIsNoRemainder(|padded|, block.size);
            r := CryptBlocks(block.size, block.encrypt, padded);
          }
        case CBC =>
          if |iv| != block.size || !Whole(|src|, block.size) {
            return Err("crypto/cipher: input not full blocks");
          }
          r := Ok(CbcEncrypt(block, iv, src));
        case GCM =>
          if |iv| != gcm.nonceSize {
            return Err("crypto/cipher: incorrect nonce length given to GCM");
          }
          r := Ok(gcm.seal(iv, src));
      }
    }

    /** The decoder closure of the mode. */
    method Decoder(src: Bytes, iv: Bytes) returns (r: Result<Bytes, string>)
      requires LawfulBlock(block)
      ensures r == Decrypt(TheSetup(), src, iv)
    {
      match mode {
        case NONE =>
          var dst := CryptBlocks(block.size, block.decrypt, src);
          if dst.Err? || block.size == 1 {
            return dst;
          }
          r := Pkcs7Unpad(dst.value);
        case CBC =>
          if |iv| != block.size || !Whole(|src|, block.size) {
            return Err("crypto/cipher: input not full blocks");
          }
          r := Ok(CbcDecrypt(block, iv, src));
        case GCM =>
          if |iv| != gcm.nonceSize {
            return Err("crypto/cipher: incorrect nonce length given to GCM");
          }
          var plain := gcm.open(iv, src);
          r := if plain.Some? then Ok(plain.value) else Err("cipher: message authentication failed");
      }
    }

    method EncodeDetail(src: Bytes, random: Random) returns (r: Result<Bytes, string>)
      requires LawfulBlock(block)
      ensures r == Encode(TheSetup(), src, random)
      ensures LawfulSetup(TheSetup()) && Fills(random) && r.Ok? ==> Encodes(TheSetup(), src, random, r.value)
    {
      var ss := new ScopeSalt(salt.Setting(), random);
      var padded := Pad(padding, src, block.size);
      var own := ss.GenSalt();
      if own.Err? {
        return own;
      }
      var dst := Encoder(padded, own.value);
      if dst.Err? {
        return dst;
      }
      own := ss.GenSalt();
      var joined := SaltEncodeRule(dst.value, own.value, salt.has);
      r := Ok(TextEncode(conv, joined));
      if LawfulSetup(TheSetup()) && Fills(random) {
        EncodedInStages(TheSetup(), src, random);
      }
    }

    /** Hex text is decoded over the caller's buffer; every other setting leaves the buffer alone. */
    method DecodeDetail(src: array<Byte>, random: Random) returns (r: Result<Bytes, string>)
      requires LawfulBlock(block)
      modifies src
      ensures r == Decode(TheSetup(), old(src[..]), random)
      ensures conv != Hex ==> src[..] == old(src[..])
    {
      var ss := new ScopeSalt(salt.Setting(), random);
      var raw := DecodeText(conv, src);
      var own := ss.GenSalt();
      if own.Err? {
        return own;
      }
      var parts := SaltDecodeRule(raw.bytes, own.value, salt.has);
      if parts.Err? {
        return Err(parts.error);
      }
      var dst := Decoder(parts.value.0, parts.value.1);
      if dst.Err? {
        return dst;
      }
      r := Unpad(padding, dst.value);
    }
  }
}
