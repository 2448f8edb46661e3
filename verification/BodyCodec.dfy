/**
 * The private request body form (native_body_codec.go): base64 with its own alphabet
 * and padding, then the outer thirds of the text exchanged.
 */
module BodyCodec {
  import opened Basics
  import opened Base64

  const CR: Byte := 13
  const LF: Byte := 10

  /** The alphabet of native_body_codec.go:10. */
  function QoderDigit(d: Digit): char {
    match d
    case 0 => '_' case 1 => 'd' case 2 => 'o' case 3 => 'R' case 4 => 'T' case 5 => 'g'
    case 6 => 'H' case 7 => 'Z' case 8 => 'B' case 9 => 'K' case 10 => 'c' case 11 => 'G'
    case 12 => 'V' case 13 => 'j' case 14 => 'l' case 15 => 'v' case 16 => 'p' case 17 => 'C'
    case 18 => ',' case 19 => '@' case 20 => 'a' case 21 => 'F' case 22 => 'S' case 23 => 'x'
    case 24 => '#' case 25 => 'D' case 26 => 'P' case 27 => 'u' case 28 => 'N' case 29 => 'J'
    case 30 => 'm' case 31 => 'e' case 32 => '&' case 33 => 'i' case 34 => '*' case 35 => 'M'
    case 36 => 'z' case 37 => 'L' case 38 => 'O' case 39 => 'E' case 40 => 'n' case 41 => ')'
    case 42 => 's' case 43 => 'U' case 44 => 'r' case 45 => 't' case 46 => 'h' case 47 => 'b'
    case 48 => 'f' case 49 => '%' case 50 => 'Y' case 51 => '^' case 52 => 'w' case 53 => '.'
    case 54 => '(' case 55 => 'k' case 56 => 'I' case 57 => 'Q' case 58 => 'y' case 59 => 'X'
    case 60 => 'q' case 61 => 'W' case 62 => 'A' case _ => '!'
  }

  lemma QoderDigitByte(d: Digit)
    ensures QoderDigit(d) as int < 128 && QoderDigit(d) != '$'
    ensures QoderDigit(d) != '\r' && QoderDigit(d) != '\n'
  {}

  lemma QoderDigitsDiffer(d: Digit, e: Digit)
    requires d < e
    ensures QoderDigit(d) != QoderDigit(e)
  {}

  function QoderByte(d: Digit): Byte { QoderDigit(d) as int }

  function Qoder(): Alphabet { Alphabet(seq(64, d requires 0 <= d < 64 => QoderByte(d)), '$' as int) }

  lemma QoderSound()
    ensures Sound(Qoder()) && NoBreaks(Qoder().digits + [Qoder().pad])
  {
    hide QoderDigit;
    forall i, j | 0 <= i < j < 64
      ensures Qoder().digits[i] != Qoder().digits[j]
    {
      QoderDigitsDiffer(i, j);
    }
    forall i | 0 <= i < 64
      ensures Qoder().digits[i] !in [Qoder().pad, CR, LF]
    {
      QoderDigitByte(i);
    }
  }

  predicate NoBreaks(text: Bytes) { CR !in text && LF !in text }

  /** Encoded text is made of digits and padding. */
  lemma {:induction false} EncodedChars(a: Alphabet, raw: Bytes)
    requires |a.digits| == 64
    ensures forall c :: c in Encode(a, raw) ==> c in a.digits + [a.pad]
  {
    hide D0, D1, D2, D3;
    if |raw| > 2 {
      EncodedChars(a, raw[3..]);
      var group := Three(a, raw[0], raw[1], raw[2]);
      assert forall c :: c in group ==> c in a.digits;
    }
  }

  // ---------- the swap ----------

  /** The first third goes last, the last third goes first, the middle stays. */
  function Swapped(src: Bytes): (r: Bytes)
    ensures |r| == |src|
    ensures forall i :: 0 <= i < |src| / 3 ==> r[i] == src[|src| - |src| / 3 + i]
    ensures forall i :: |src| / 3 <= i < |src| - |src| / 3 ==> r[i] == src[i]
    ensures forall i :: |src| - |src| / 3 <= i < |src| ==> r[i] == src[i - (|src| - |src| / 3)]
  {
    var q := |src| / 3;
    src[|src| - q..] + src[q..|src| - q] + src[..q]
  }

  lemma SwapTwice(src: Bytes)
    ensures Swapped(Swapped(src)) == src
  {
    hide Swapped;
  }

  method SwapOuterThirds(src: Bytes) returns (out: Bytes)
    ensures out == Swapped(src)
  {
    var q := |src| / 3;
    out := [];
    out := out + src[|src| - q..];
    out := out + src[q..|src| - q];
    out := out + src[..q];
    assert [] + src[|src| - q..] == src[|src| - q..];
  }

  // ---------- the codec ----------

  datatype BodyError = LineBreak | NotBase64 | NotCanonical

  function Encoded(raw: Bytes): Bytes {
    Swapped(Encode(Qoder(), raw))
  }

  method EncodeBody(raw: Bytes) returns (encoded: Bytes)
    ensures encoded == Encoded(raw)
  {
    encoded := SwapOuterThirds(Encode(Qoder(), raw));
  }

  /** Where each character of a body comes from: the first and last third of the base64 text change places. */
  lemma EncodedAt(raw: Bytes, i: nat)
    requires i < |Encoded(raw)|
    ensures var text := Encode(Qoder(), raw);
      var n, q := |text|, |text| / 3;
      && |Encoded(raw)| == n
      && Encoded(raw)[i] == if i < q then text[n - q + i] else if i < n - q then text[i] else text[i - (n - q)]
  {
    hide Swapped, Encode, Qoder;
  }

  lemma EncodedNoBreaks(raw: Bytes)
    ensures NoBreaks(Encoded(raw))
  {
    hide Qoder, QoderDigit, QoderByte, Encode;
    QoderSound();
    EncodedChars(Qoder(), raw);
    forall c | c in Encoded(raw)
      ensures c in Encode(Qoder(), raw)
    {
      var i :| 0 <= i < |Encoded(raw)| && Encoded(raw)[i] == c;
    }
  }

  /**
   * A body decodes exactly when it is the encoding of something, and then to that;
   * the re-encode check at the end refuses nothing that got so far.
   */
  method DecodeBody(encoded: Bytes) returns (r: Result<Bytes, BodyError>)
    ensures forall raw :: r == Ok(raw) <==> encoded == Encoded(raw)
    ensures r.Err? ==> r.error == if NoBreaks(encoded) then NotBase64 else LineBreak
  {
    hide Qoder, QoderDigit, QoderByte, Encode, Decode, Swapped;
    QoderSound();
    forall raw
      ensures encoded == Encoded(raw) ==> NoBreaks(encoded) && Decode(Qoder(), Swapped(encoded)) == Some(raw)
    {
      EncodedNoBreaks(raw);
      SwapTwice(Encode(Qoder(), raw));
      DecodeEncode(Qoder(), raw);
    }
    if CR in encoded || LF in encoded {
      return Err(LineBreak);
    }
    var text := SwapOuterThirds(encoded);
    var decoded := Decode(Qoder(), text);
    if decoded.None? {
      return Err(NotBase64);
    }
    EncodeDecode(Qoder(), text);
    SwapTwice(encoded);
    var canonical := EncodeBody(decoded.value);
    if canonical != encoded {
      return Err(NotCanonical);
    }
    r := Ok(decoded.value);
  }
}
