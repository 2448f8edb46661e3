/**
 * The credential envelope (native_credential.go:16-71, native_codec_helpers.go:12-24):
 * strict standard base64 around CBC with PKCS#7 padding, the machine key serving as key
 * and as initial vector.  The block cipher and the UTF-8 test are arbitrary.
 */
module CredentialCodec {
  import opened Basics
  import opened Base64
  import opened BlockCipher
  import BodyCodec

  function StdDigit(d: Digit): Byte {
    if d < 26 then 'A' as int + d
    else if d < 52 then 'a' as int + (d - 26)
    else if d < 62 then '0' as int + (d - 52)
    else if d == 62 then '+' as int else '/' as int
  }

  function Std(): Alphabet { Alphabet(seq(64, d requires 0 <= d < 64 => StdDigit(d)), '=' as int) }

  /** The letters of each case and the decimal digits stand in their order; the first of each, and what follows. */
  lemma StdTable()
    ensures var d := Std().digits;
      && d[0] == 'A' as int && d[26] == 'a' as int && d[52] == '0' as int
      && d[62] == '+' as int && d[63] == '/' as int && Std().pad == '=' as int
      && forall i :: 0 <= i < 61 && i != 25 && i != 51 ==> d[i + 1] == d[i] + 1
  {}

  lemma StdSound()
    ensures Sound(Std()) && BodyCodec.NoBreaks(Std().digits + [Std().pad])
  {}

  datatype TextError = LineBreak | NotBase64 | NotCanonical

  /** Strict decoding accepts the encodings and nothing else; the re-encode check never refuses. */
  method DecodeStrictStdBase64(value: Bytes) returns (r: Result<Bytes, TextError>)
    ensures forall raw :: r == Ok(raw) <==> value == Encode(Std(), raw)
    ensures r.Err? ==> r.error == if BodyCodec.NoBreaks(value) then NotBase64 else LineBreak
  {
    StdSound();
    hide Std, Encode, Decode;
    forall raw
      ensures value == Encode(Std(), raw) ==> BodyCodec.NoBreaks(value) && Decode(Std(), value) == Some(raw)
    {
      BodyCodec.EncodedChars(Std(), raw);
      DecodeEncode(Std(), raw);
    }
    if BodyCodec.CR in value || BodyCodec.LF in value {
      return Err(LineBreak);
    }
    var decoded := Decode(Std(), value);
    if decoded.None? {
      return Err(NotBase64);
    }
    EncodeDecode(Std(), value);
    if Encode(Std(), decoded.value) != value {
      return Err(NotCanonical);
    }
    r := Ok(decoded.value);
  }

  datatype CredentialError = InvalidInput | Incompatible | Failure

  /** The envelope of a plaintext under a machine key. */
  function Envelope(c: Cipher, plain: Bytes, machineKey: Bytes): Bytes
    requires |machineKey| == BLOCK
  {
    Encode(Std(), CbcEncrypt(c, machineKey, machineKey, Padded(plain, BLOCK)))
  }

  /** The blob is base64 of a text whose first block is chained to the key and each other to the one before. */
  ghost predicate IsEnvelope(c: Cipher, plain: Bytes, machineKey: Bytes, blob: Bytes)
    requires |machineKey| == BLOCK
  {
    exists text :: blob == Encode(Std(), text) && Chained(c, machineKey, machineKey, Padded(plain, BLOCK), text)
  }

  lemma EnvelopeIff(c: Cipher, plain: Bytes, machineKey: Bytes, blob: Bytes)
    requires |machineKey| == BLOCK
    ensures IsEnvelope(c, plain, machineKey, blob) <==> blob == Envelope(c, plain, machineKey)
  {
    hide Encode, CbcEncrypt, Padded, Chained;
    forall text
      ensures Chained(c, machineKey, machineKey, Padded(plain, BLOCK), text)
         <==> text == CbcEncrypt(c, machineKey, machineKey, Padded(plain, BLOCK))
    {
      ChainedIff(c, machineKey, machineKey, Padded(plain, BLOCK), text);
    }
  }

  method Encrypt(c: Cipher, plain: Bytes, machineKey: Bytes) returns (r: Result<Bytes, CredentialError>)
    ensures |machineKey| != BLOCK ==> r == Err(InvalidInput)
    ensures |machineKey| == BLOCK ==>
      r == if |plain| > MAX_INT - PadLength(|plain|, BLOCK) then Err(Failure)
           else Ok(Envelope(c, plain, machineKey))
    ensures r.Ok? ==> |machineKey| == BLOCK && IsEnvelope(c, plain, machineKey, r.value)
  {
    hide Chained, CbcEncrypt, Padded, Encode;
    if |machineKey| != BLOCK {
      return Err(InvalidInput);
    }
    StdSound();
    var ciphertext := AesCbcEncryptPkcs7(c, plain, machineKey, machineKey);
    match ciphertext {
      case Err(_) => r := Err(Failure);
      case Ok(bytes) => r := Ok(Encode(Std(), bytes));
    }
  }

  /**
   * Decryption yields a plaintext exactly when the blob is, byte for byte, the
   * envelope of that plaintext and the plaintext is valid UTF-8.
   */
  method Decrypt(c: Cipher, utf8: Bytes -> bool, blob: Bytes, machineKey: Bytes)
    returns (r: Result<Bytes, CredentialError>)
    requires Invertible(c, machineKey)
    ensures |machineKey| != BLOCK ==> r == Err(InvalidInput)
    ensures |machineKey| == BLOCK ==>
      forall plain :: r == Ok(plain) <==> utf8(plain) && IsEnvelope(c, plain, machineKey, blob)
    ensures |machineKey| == BLOCK && r.Err? ==> r.error == Incompatible
  {
    hide Std, Padded, CbcEncrypt, Chained, IsEnvelope, Encode;
    if |machineKey| != BLOCK {
      return Err(InvalidInput);
    }
    EnvelopesDecode(c, blob, machineKey);
    var ciphertext := DecodeStrictStdBase64(blob);
    if ciphertext.Err? || |ciphertext.value| == 0 || |ciphertext.value| % BLOCK != 0 {
      return Err(Incompatible);
    }
    var plain := AesCbcDecryptPkcs7(c, ciphertext.value, machineKey, machineKey);
    EnvelopeText(c, blob, machineKey, ciphertext.value);
    if plain.Err? {
      return Err(Incompatible);
    }
    if !utf8(plain.value) {
      return Err(Incompatible);
    }
    r := Ok(plain.value);
  }

  /** The ciphertext of an envelope is a non-empty number of blocks. */
  lemma EnvelopesDecode(c: Cipher, blob: Bytes, machineKey: Bytes)
    requires |machineKey| == BLOCK
    ensures forall plain :: IsEnvelope(c, plain, machineKey, blob) ==>
      exists text :: blob == Encode(Std(), text) && |text| > 0 && |text| % BLOCK == 0
  {
    hide Std, Encode;
  }

  lemma EnvelopeText(c: Cipher, blob: Bytes, machineKey: Bytes, text: Bytes)
    requires |machineKey| == BLOCK && blob == Encode(Std(), text)
    ensures forall plain :: (
      IsEnvelope(c, plain, machineKey, blob) <==> Chained(c, machineKey, machineKey, Padded(plain, BLOCK), text))
  {
    hide Std, Encode, Decode, Chained, Padded;
    StdSound();
    forall other | blob == Encode(Std(), other)
      ensures other == text
    {
      DecodeEncode(Std(), text);
      DecodeEncode(Std(), other);
    }
  }

  /** An envelope no longer than a Go string can be is one that Encrypt makes without overflow. */
  lemma EnvelopeFits(c: Cipher, plain: Bytes, machineKey: Bytes)
    requires |machineKey| == BLOCK && |Envelope(c, plain, machineKey)| <= MAX_INT
    ensures |plain| <= MAX_INT - PadLength(|plain|, BLOCK)
  {
    var n := |Padded(plain, BLOCK)|;
    assert |Envelope(c, plain, machineKey)| == EncodedLength(n) >= n;
  }

  /** Different plaintexts have different envelopes under one key. */
  lemma EnvelopeInjective(c: Cipher, p: Bytes, q: Bytes, machineKey: Bytes)
    requires |machineKey| == BLOCK && Invertible(c, machineKey)
    requires Envelope(c, p, machineKey) == Envelope(c, q, machineKey)
    ensures p == q
  {
    StdSound();
    DecodeEncode(Std(), CbcEncrypt(c, machineKey, machineKey, Padded(p, BLOCK)));
    DecodeEncode(Std(), CbcEncrypt(c, machineKey, machineKey, Padded(q, BLOCK)));
    CbcDecryptsEncrypted(c, machineKey, machineKey, Padded(p, BLOCK));
    CbcDecryptsEncrypted(c, machineKey, machineKey, Padded(q, BLOCK));
    PaddedEnds(p, BLOCK);
    PaddedEnds(q, BLOCK);
  }
}
