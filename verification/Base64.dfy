/**
 * Padded base64 over any 64-byte alphabet, decoded strictly: sections 3.5 and 4 of
 * RFC 4648.  Line breaks are not skipped here; both callers in the program refuse
 * them first (native_body_codec.go:25-27, native_codec_helpers.go:13-15).
 */
module Base64 {
  import opened Basics

  type Byte = b: int | 0 <= b < 256

  type Bytes = seq<Byte>

  type Digit = d: int | 0 <= d < 64

  datatype Alphabet = Alphabet(digits: Bytes, pad: Byte)

  /** 64 distinct digits, none of them the padding. */
  ghost predicate Sound(a: Alphabet) {
    && |a.digits| == 64
    && (forall i, j :: 0 <= i < j < 64 ==> a.digits[i] != a.digits[j])
    && a.pad !in a.digits
  }

  function Find(digits: Bytes, c: Byte): (r: Option<nat>)
    ensures r.Some? ==> r.value < |digits| && digits[r.value] == c
    ensures r.None? ==> c !in digits
  {
    if digits == [] then None
    else if digits[|digits| - 1] == c then Some(|digits| - 1)
    else Find(digits[..|digits| - 1], c)
  }

  /** The digit a character stands for. */
  function DigitOf(a: Alphabet, c: Byte): (r: Option<Digit>)
    requires |a.digits| == 64
  {
    match Find(a.digits, c)
    case Some(i) => Some(i)
    case None => None
  }

  lemma DigitAt(a: Alphabet, d: Digit)
    requires Sound(a)
    ensures DigitOf(a, a.digits[d]) == Some(d)
    ensures a.digits[d] != a.pad
  {}

  // Digits out of bytes.
  function D0(x: Byte): Digit { x / 4 }
  function D1(x: Byte, y: Byte): Digit { x % 4 * 16 + y / 16 }
  function D2(y: Byte, z: Byte): Digit { y % 16 * 4 + z / 64 }
  function D3(z: Byte): Digit { z % 64 }

  // Bytes out of digits.
  function B0(d0: Digit, d1: Digit): Byte { d0 * 4 + d1 / 16 }
  function B1(d1: Digit, d2: Digit): Byte { d1 % 16 * 16 + d2 / 4 }
  function B2(d2: Digit, d3: Digit): Byte { d2 % 4 * 64 + d3 }

  /** Three bytes make four digits and the digits make the bytes again. */
  lemma BytesBack(x: Byte, y: Byte, z: Byte)
    ensures B0(D0(x), D1(x, y)) == x && B1(D1(x, y), D2(y, z)) == y && B2(D2(y, z), D3(z)) == z
    ensures D1(x, 0) % 16 == 0 && D2(y, 0) % 4 == 0
  {
    FirstBack(x, y);
    SecondBack(x, y, z);
    LastBack(y, z);
    hide B0, B1, B2;
  }

  lemma FirstBack(x: Byte, y: Byte)
    ensures B0(D0(x), D1(x, y)) == x
  {}

  lemma SecondBack(x: Byte, y: Byte, z: Byte)
    ensures B1(D1(x, y), D2(y, z)) == y
  {
    assert D1(x, y) % 16 == y / 16;
    assert D2(y, z) / 4 == y % 16;
  }

  lemma LastBack(y: Byte, z: Byte)
    ensures B2(D2(y, z), D3(z)) == z
  {
    LowBits(y % 16, z / 64);
    hide B1, B0;
    assert D2(y, z) % 4 == z / 64;
  }

  lemma LowBits(a: nat, b: nat)
    requires b < 4
    ensures (a * 4 + b) % 4 == b
  {}

  lemma DigitsBack(d0: Digit, d1: Digit, d2: Digit, d3: Digit)
    ensures var x, y, z := B0(d0, d1), B1(d1, d2), B2(d2, d3);
      && D0(x) == d0 && D1(x, y) == d1 && D2(y, z) == d2 && D3(z) == d3
      && (d1 % 16 == 0 ==> D1(x, 0) == d1) && (d2 % 4 == 0 ==> D2(y, 0) == d2)
  {}

  function Three(a: Alphabet, x: Byte, y: Byte, z: Byte): (r: Bytes)
    requires |a.digits| == 64
    ensures |r| == 4
  {
    [a.digits[D0(x)], a.digits[D1(x, y)], a.digits[D2(y, z)], a.digits[D3(z)]]
  }

  function Two(a: Alphabet, x: Byte, y: Byte): (r: Bytes)
    requires |a.digits| == 64
    ensures |r| == 4
  {
    [a.digits[D0(x)], a.digits[D1(x, y)], a.digits[D2(y, 0)], a.pad]
  }

  function One(a: Alphabet, x: Byte): (r: Bytes)
    requires |a.digits| == 64
    ensures |r| == 4
  {
    [a.digits[D0(x)], a.digits[D1(x, 0)], a.pad, a.pad]
  }

  /** Four characters for every three bytes or part of three. */
  function EncodedLength(n: nat): (r: nat)
    ensures r >= n && 4 * n <= 3 * r <= 4 * n + 8
  {
    if n == 0 then 0 else if n <= 3 then 4 else 4 + EncodedLength(n - 3)
  }

  function Encode(a: Alphabet, raw: Bytes): (r: Bytes)
    requires |a.digits| == 64
    ensures |r| == EncodedLength(|raw|)
  {
    if raw == [] then []
    else if |raw| == 1 then One(a, raw[0])
    else if |raw| == 2 then Two(a, raw[0], raw[1])
    else Three(a, raw[0], raw[1], raw[2]) + Encode(a, raw[3..])
  }

  /** Four characters: three bytes, or fewer in the last group, with the unused bits zero. */
  function DecodeGroup(a: Alphabet, g: Bytes, last: bool): Option<Bytes>
    requires |a.digits| == 64 && |g| == 4
  {
    var d0, d1 := DigitOf(a, g[0]), DigitOf(a, g[1]);
    if d0.None? || d1.None? then None
    else
      var x := B0(d0.value, d1.value);
      var d2 := DigitOf(a, g[2]);
      if d2.None? then
        if last && g[2] == a.pad && g[3] == a.pad && d1.value % 16 == 0 then Some([x]) else None
      else
        var y := B1(d1.value, d2.value);
        var d3 := DigitOf(a, g[3]);
        if d3.None? then
          if last && g[3] == a.pad && d2.value % 4 == 0 then Some([x, y]) else None
        else Some([x, y, B2(d2.value, d3.value)])
  }

  function Decode(a: Alphabet, text: Bytes): Option<Bytes>
    requires |a.digits| == 64
  {
    if text == [] then Some([])
    else if |text| < 4 then None
    else
      match DecodeGroup(a, text[..4], |text| == 4)
      case None => None
      case Some(bytes) =>
        match Decode(a, text[4..])
        case None => None
        case Some(rest) => Some(bytes + rest)
  }

  lemma ThreeDecodes(a: Alphabet, x: Byte, y: Byte, z: Byte, last: bool)
    requires Sound(a)
    ensures DecodeGroup(a, Three(a, x, y, z), last) == Some([x, y, z])
  {
    hide Sound, DigitOf, D0, D1, D2, D3, B0, B1, B2;
    BytesBack(x, y, z);
    DigitAt(a, D0(x));
    DigitAt(a, D1(x, y));
    DigitAt(a, D2(y, z));
    DigitAt(a, D3(z));
  }

  lemma PadIsNoDigit(a: Alphabet)
    requires Sound(a)
    ensures DigitOf(a, a.pad) == None
  {}

  lemma FewDecode(a: Alphabet, x: Byte, y: Byte)
    requires Sound(a)
    ensures DecodeGroup(a, One(a, x), true) == Some([x])
    ensures DecodeGroup(a, Two(a, x, y), true) == Some([x, y])
  {
    hide Sound, DigitOf, D0, D1, D2, D3, B0, B1, B2;
    PadIsNoDigit(a);
    BytesBack(x, 0, 0);
    BytesBack(x, y, 0);
    DigitAt(a, D0(x));
    DigitAt(a, D1(x, 0));
    DigitAt(a, D1(x, y));
    DigitAt(a, D2(y, 0));
  }

  /** What was encoded decodes to itself. */
  lemma {:induction false} DecodeEncode(a: Alphabet, raw: Bytes)
    requires Sound(a)
    ensures Decode(a, Encode(a, raw)) == Some(raw)
  {
    hide DecodeGroup, Three, Two, One;
    if raw == [] {
    } else if |raw| <= 2 {
      FewDecode(a, raw[0], raw[|raw| - 1]);
      var text := Encode(a, raw);
      assert text[..4] == text && text[4..] == [];
      assert Decode(a, []) == Some([]);
      assert raw + [] == raw;
      assert raw == if |raw| == 1 then [raw[0]] else [raw[0], raw[1]];
    } else {
      var group, rest := Three(a, raw[0], raw[1], raw[2]), Encode(a, raw[3..]);
      ThreeDecodes(a, raw[0], raw[1], raw[2], |group + rest| == 4);
      assert (group + rest)[..4] == group && (group + rest)[4..] == rest;
      DecodeEncode(a, raw[3..]);
      assert raw == [raw[0], raw[1], raw[2]] + raw[3..];
    }
  }

  /** A group that decodes is the encoding of what it decodes to. */
  lemma GroupCanonical(a: Alphabet, g: Bytes, last: bool)
    requires Sound(a) && |g| == 4 && DecodeGroup(a, g, last).Some?
    ensures var bytes := DecodeGroup(a, g, last).value;
      && 1 <= |bytes| <= 3 && (|bytes| < 3 ==> last)
      && g == if |bytes| == 1 then One(a, bytes[0])
              else if |bytes| == 2 then Two(a, bytes[0], bytes[1])
              else Three(a, bytes[0], bytes[1], bytes[2])
  {
    assert |a.digits| == 64;
    hide Sound, DigitOf, D0, D1, D2, D3, B0, B1, B2;
    var d0, d1 := DigitOf(a, g[0]).value, DigitOf(a, g[1]).value;
    assert g == [g[0], g[1], g[2], g[3]];
    FoundAt(a, g[0]);
    FoundAt(a, g[1]);
    if DigitOf(a, g[2]).None? {
      DigitsBack(d0, d1, 0, 0);
    } else {
      var d2 := DigitOf(a, g[2]).value;
      FoundAt(a, g[2]);
      if DigitOf(a, g[3]).None? {
        DigitsBack(d0, d1, d2, 0);
      } else {
        FoundAt(a, g[3]);
        DigitsBack(d0, d1, d2, DigitOf(a, g[3]).value);
      }
    }
  }

  lemma FoundAt(a: Alphabet, c: Byte)
    requires |a.digits| == 64
    ensures DigitOf(a, c).Some? ==> a.digits[DigitOf(a, c).value] == c
  {}

  /** Only encodings decode: strict decoding accepts nothing else. */
  lemma {:induction false} EncodeDecode(a: Alphabet, text: Bytes)
    requires Sound(a) && Decode(a, text).Some?
    ensures Encode(a, Decode(a, text).value) == text
    decreases |text|
  {
    if text == [] {
    } else {
      var last := |text| == 4;
      var bytes := DecodeGroup(a, text[..4], last).value;
      GroupCanonical(a, text[..4], last);
      hide DecodeGroup, Three, Two, One;
      EncodeDecode(a, text[4..]);
      var rest := Decode(a, text[4..]).value;
      assert text == text[..4] + text[4..];
      if last {
        assert text[4..] == [] && bytes + [] == bytes;
        assert Encode(a, []) == [];
      }
      if |bytes| == 3 {
        assert (bytes + rest)[3..] == rest;
      }
    }
  }

  // ---------- which characters ----------

  /** The bytes of a group of three as one number of 24 bits, the first byte highest. */
  function Bits(x: Byte, y: Byte, z: Byte): nat { 65536 * x + 256 * y + z }

  /** The number the digits of four characters make, the first digit highest. */
  function DigitBits(d0: Digit, d1: Digit, d2: Digit, d3: Digit): nat { 262144 * d0 + 4096 * d1 + 64 * d2 + d3 }

  lemma BytesAreDigits(x: Byte, y: Byte, z: Byte)
    ensures DigitBits(D0(x), D1(x, y), D2(y, z), D3(z)) == Bits(x, y, z)
  {}

  /** Four characters: the given digits, the last `pads` of them zero and written as padding. */
  predicate Written(a: Alphabet, g: Bytes, d0: Digit, d1: Digit, d2: Digit, d3: Digit, pads: nat) {
    && |a.digits| == 64 && |g| == 4 && g[0] == a.digits[d0] && g[1] == a.digits[d1]
    && (if pads < 2 then g[2] == a.digits[d2] else g[2] == a.pad && d2 == 0)
    && (if pads < 1 then g[3] == a.digits[d3] else g[3] == a.pad && d3 == 0)
  }

  /** The digits of a group, six bits each, are the 24 bits of its bytes. */
  ghost predicate Spells(a: Alphabet, g: Bytes, n: nat, pads: nat) {
    exists d0: Digit, d1: Digit, d2: Digit, d3: Digit ::
      Written(a, g, d0, d1, d2, d3, pads) && DigitBits(d0, d1, d2, d3) == n
  }

  /** Every three bytes become four characters whose digits, six bits each, are the 24 bits of the bytes. */
  lemma {:induction false} EncodesGroup(a: Alphabet, raw: Bytes, j: nat)
    requires |a.digits| == 64 && 3 * j + 3 <= |raw|
    ensures 4 * j + 4 <= |Encode(a, raw)|
    ensures Spells(a, Encode(a, raw)[4 * j..4 * j + 4], Bits(raw[3 * j], raw[3 * j + 1], raw[3 * j + 2]), 0)
    decreases j
  {
    hide Three, Spells, Bits;
    var group, rest := Three(a, raw[0], raw[1], raw[2]), Encode(a, raw[3..]);
    if j == 0 {
      GroupSpells(a, raw[0], raw[1], raw[2]);
      assert (group + rest)[0..4] == group;
    } else {
      EncodesGroup(a, raw[3..], j - 1);
      assert (group + rest)[4 * j..4 * j + 4] == rest[4 * (j - 1)..4 * (j - 1) + 4];
    }
  }

  lemma GroupSpells(a: Alphabet, x: Byte, y: Byte, z: Byte)
    requires |a.digits| == 64
    ensures Spells(a, Three(a, x, y, z), Bits(x, y, z), 0)
    ensures Spells(a, Two(a, x, y), Bits(x, y, 0), 1)
    ensures Spells(a, One(a, x), Bits(x, 0, 0), 2)
  {
    hide D0, D1, D2, D3, DigitBits, Bits;
    BytesAreDigits(x, y, z);
    BytesAreDigits(x, y, 0);
    BytesAreDigits(x, 0, 0);
    RestZero();
    assert Written(a, Three(a, x, y, z), D0(x), D1(x, y), D2(y, z), D3(z), 0);
    assert Written(a, Two(a, x, y), D0(x), D1(x, y), D2(y, 0), D3(0), 1);
    assert Written(a, One(a, x), D0(x), D1(x, 0), D2(0, 0), D3(0), 2);
  }

  lemma RestZero()
    ensures D2(0, 0) == 0 && D3(0) == 0
  {}

  /** One or two bytes that are left make a last group with two or one padding characters; none make none. */
  lemma {:induction false} EncodesRest(a: Alphabet, raw: Bytes, k: nat)
    requires |a.digits| == 64 && 3 * k <= |raw| <= 3 * k + 2
    ensures var n, text := |raw|, Encode(a, raw);
      && |text| == (if n == 3 * k then 4 * k else 4 * k + 4)
      && (n == 3 * k + 1 ==> Spells(a, text[4 * k..], Bits(raw[n - 1], 0, 0), 2))
      && (n == 3 * k + 2 ==> Spells(a, text[4 * k..], Bits(raw[n - 2], raw[n - 1], 0), 1))
  {
    hide Spells, Bits, One, Two, Three;
    var n := |raw|;
    if k > 0 {
      EncodesRest(a, raw[3..], k - 1);
      var group, rest := Three(a, raw[0], raw[1], raw[2]), Encode(a, raw[3..]);
      assert Encode(a, raw) == group + rest;
      assert (group + rest)[4 * k..] == rest[4 * (k - 1)..];
    } else if n == 1 {
      GroupSpells(a, raw[0], 0, 0);
      assert One(a, raw[0])[0..] == One(a, raw[0]);
    } else if n == 2 {
      GroupSpells(a, raw[0], raw[1], 0);
      assert Two(a, raw[0], raw[1])[0..] == Two(a, raw[0], raw[1]);
    }
  }
}
