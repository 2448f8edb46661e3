/**
 * RSA encryption of a short message with PKCS#1 v1.5 padding, the padding drawn from
 * an entropy source that may run dry (native_runtime_fields.go:135-181; section 7.2.1
 * of RFC 8017).
 */
module RsaPadding {
  import opened Basics
  import opened Base64

  // ---------- big-endian integers ----------

  function Pow256(n: nat): (r: nat)
    ensures r >= 1
  {
    if n == 0 then 1 else 256 * Pow256(n - 1)
  }

  /** big.Int.SetBytes. */
  function Value(bytes: Bytes): nat {
    if bytes == [] then 0 else 256 * Value(bytes[..|bytes| - 1]) + bytes[|bytes| - 1]
  }

  /** big.Int.FillBytes: n bytes, leading zeros included. */
  function FillBytes(v: nat, n: nat): (r: Bytes)
    requires v < Pow256(n)
    ensures |r| == n
  {
    if n == 0 then [] else FillBytes(v / 256, n - 1) + [v % 256]
  }

  lemma {:induction false} FillBytesValue(v: nat, n: nat)
    requires v < Pow256(n)
    ensures Value(FillBytes(v, n)) == v
  {
    if n > 0 {
      FillBytesValue(v / 256, n - 1);
      var r := FillBytes(v, n);
      assert r[..n - 1] == FillBytes(v / 256, n - 1);
    }
  }

  lemma {:induction false} ValueBelow(bytes: Bytes)
    ensures Value(bytes) < Pow256(|bytes|)
  {
    if bytes != [] {
      ValueBelow(bytes[..|bytes| - 1]);
    }
  }

  lemma {:induction false} LeadingZero(bytes: Bytes)
    requires bytes != [] && bytes[0] == 0
    ensures Value(bytes) < Pow256(|bytes| - 1)
  {
    var n := |bytes| - 1;
    if n == 0 {
      assert bytes[..0] == [];
    } else {
      LeadingZero(bytes[..n]);
    }
  }

  /** The first byte is the highest: what stands before counts for whole powers of 256. */
  lemma {:induction false} ValueAppend(xs: Bytes, ys: Bytes)
    ensures Value(xs + ys) == Value(xs) * Pow256(|ys|) + Value(ys)
    decreases |ys|
  {
    if ys == [] {
      assert xs + ys == xs;
    } else {
      var n := |ys| - 1;
      assert (xs + ys)[..|xs| + n] == xs + ys[..n];
      ValueAppend(xs, ys[..n]);
      Shifted(Value(xs), Pow256(n), Value(ys[..n]));
    }
  }

  lemma Shifted(a: nat, p: nat, v: nat)
    ensures 256 * (a * p + v) == a * (256 * p) + 256 * v
  {}

  function Exp(b: nat, e: nat): nat { if e == 0 then 1 else b * Exp(b, e - 1) }

  /** Exponents add up, and the first power is the number itself. */
  lemma {:induction false} ExpSum(b: nat, x: nat, y: nat)
    ensures Exp(b, x + y) == Exp(b, x) * Exp(b, y)
    ensures Exp(b, 1) == b
  {
    assert Exp(b, 1) == b * Exp(b, 0);
    if x > 0 {
      ExpSum(b, x - 1, y);
      assert b * (Exp(b, x - 1) * Exp(b, y)) == b * Exp(b, x - 1) * Exp(b, y);
    }
  }

  /** The length in bytes of a positive integer, as PublicKey.Size has it. */
  function ByteLength(n: nat): (k: nat)
    ensures n < Pow256(k)
    ensures n > 0 ==> k > 0 && Pow256(k - 1) <= n
  {
    if n == 0 then 0 else 1 + ByteLength(n / 256)
  }

  // ---------- the padding ----------

  /** A zero byte is redrawn until it is not zero; None when the source runs dry. */
  function Redraw(b: Byte, source: Bytes): (r: Option<(Byte, Bytes)>)
    ensures r.Some? ==> r.value.0 != 0 && |r.value.1| <= |source|
    decreases |source|
  {
    if b != 0 then Some((b, source))
    else if source == [] then None
    else Redraw(source[0], source[1..])
  }

  /** The bytes are settled one after the other, each from what the one before left. */
  function Settle(ps: Bytes, source: Bytes): (r: Option<(Bytes, Bytes)>)
    ensures r.Some? ==> |r.value.0| == |ps| && 0 !in r.value.0 && |r.value.1| <= |source|
  {
    if ps == [] then Some(([], source))
    else
      match Settle(ps[..|ps| - 1], source)
      case None => None
      case Some((done, rest)) =>
        match Redraw(ps[|ps| - 1], rest)
        case None => None
        case Some((b, left)) => Some((done + [b], left))
  }

  /** One bulk read of n bytes, then the redraws. */
  function Draw(n: nat, source: Bytes): Option<(Bytes, Bytes)> {
    if |source| < n then None else Settle(source[..n], source[n..])
  }

  /** The bytes that are not zero, in order. */
  function Fillers(bytes: Bytes): (r: Bytes)
    ensures 0 !in r
  {
    if bytes == [] then []
    else Fillers(bytes[..|bytes| - 1]) + (if bytes[|bytes| - 1] != 0 then [bytes[|bytes| - 1]] else [])
  }

  function Zeros(bytes: Bytes): nat {
    if bytes == [] then 0 else Zeros(bytes[..|bytes| - 1]) + (if bytes[|bytes| - 1] == 0 then 1 else 0)
  }

  /** The zeros are replaced by the fillers, in order. */
  function Patched(bytes: Bytes, fillers: Bytes): (r: Bytes)
    requires |fillers| == Zeros(bytes)
    ensures |r| == |bytes|
  {
    if bytes == [] then []
    else
      var n, k := |bytes| - 1, |fillers| - 1;
      if bytes[n] == 0 then Patched(bytes[..n], fillers[..k]) + [fillers[k]]
      else Patched(bytes[..n], fillers) + [bytes[n]]
  }

  lemma {:induction false} FillersAppend(xs: Bytes, ys: Bytes)
    ensures Fillers(xs + ys) == Fillers(xs) + Fillers(ys)
    decreases |ys|
  {
    if ys == [] {
      assert xs + ys == xs;
    } else {
      assert (xs + ys)[..|xs + ys| - 1] == xs + ys[..|ys| - 1];
      FillersAppend(xs, ys[..|ys| - 1]);
    }
  }

  lemma FillersOne(b: Byte)
    ensures Fillers([b]) == if b != 0 then [b] else []
  {
    assert [b][..0] == [];
  }

  /** A redraw reads up to the first byte that is not zero. */
  lemma {:induction false} RedrawReads(source: Bytes)
    requires Redraw(0, source).Some?
    ensures var (c, rest) := Redraw(0, source).value;
      var used := source[..|source| - |rest|];
      source == used + rest && Fillers(used) == [c]
    decreases |source|
  {
    var (c, rest) := Redraw(0, source).value;
    FillersOne(source[0]);
    if source[0] != 0 {
      assert source[..1] == [source[0]];
    } else {
      RedrawReads(source[1..]);
      assert source == [source[0]] + source[1..];
      UsedMore([source[0]], source[1..], rest);
    }
  }

  /** What is read after xs was read. */
  lemma UsedMore(xs: Bytes, mid: Bytes, rest: Bytes)
    requires |rest| <= |mid|
    requires mid == mid[..|mid| - |rest|] + rest
    ensures var source := xs + mid;
      && source[..|source| - |rest|] == xs + mid[..|mid| - |rest|]
      && source == source[..|source| - |rest|] + rest
      && Fillers(source[..|source| - |rest|]) == Fillers(xs) + Fillers(mid[..|mid| - |rest|])
  {
    hide Fillers;
    FillersAppend(xs, mid[..|mid| - |rest|]);
    assert (xs + mid)[..|xs + mid| - |rest|] == xs + mid[..|mid| - |rest|];
  }

  lemma PatchedZero(bytes: Bytes, fillers: Bytes, c: Byte)
    requires bytes != [] && bytes[|bytes| - 1] == 0 && |fillers| == Zeros(bytes[..|bytes| - 1])
    ensures Zeros(bytes) == |fillers + [c]|
    ensures Patched(bytes, fillers + [c]) == Patched(bytes[..|bytes| - 1], fillers) + [c]
  {
    assert (fillers + [c])[..|fillers|] == fillers;
  }

  /**
   * Settling reads no more than it needs: what it reads holds one byte that is not
   * zero per zero of the padding, and those take the places of the zeros in order.
   */
  lemma {:induction false} SettlePatches(ps: Bytes, source: Bytes)
    requires Settle(ps, source).Some?
    ensures var (done, rest) := Settle(ps, source).value;
      var used := source[..|source| - |rest|];
      source == used + rest && |Fillers(used)| == Zeros(ps) && done == Patched(ps, Fillers(used))
  {
    if ps == [] {
      assert source[..0] == [];
    } else {
      hide Fillers, Redraw;
      var n := |ps| - 1;
      SettlePatches(ps[..n], source);
      var (before, mid) := Settle(ps[..n], source).value;
      var first := source[..|source| - |mid|];
      if ps[n] == 0 {
        var (c, rest) := Redraw(0, mid).value;
        RedrawReads(mid);
        UsedMore(first, mid, rest);
        PatchedZero(ps, Fillers(first), c);
      } else {
        NotRedrawn(ps[n], mid);
      }
    }
  }

  lemma NotRedrawn(b: Byte, source: Bytes)
    requires b != 0
    ensures Redraw(b, source) == Some((b, source))
  {}

  // ---------- the encoded message ----------

  function Block(ps: Bytes, message: Bytes): Bytes { [0, 2] + ps + [0] + message }

  /** The message of a padded block, if it is one. */
  function Parsed(block: Bytes): Option<Bytes> {
    if |block| < 2 || block[0] != 0 || block[1] != 2 then None
    else
      var rest := AfterZero(block[2..]);
      if rest.None? || |block| - 3 - |rest.value| < 8 then None else rest
  }

  function AfterZero(bytes: Bytes): (r: Option<Bytes>)
    ensures r.Some? ==> |r.value| < |bytes|
  {
    if bytes == [] then None
    else if bytes[0] == 0 then Some(bytes[1..])
    else AfterZero(bytes[1..])
  }

  lemma {:induction false} AfterPadding(ps: Bytes, message: Bytes)
    requires 0 !in ps
    ensures AfterZero(ps + [0] + message) == Some(message)
  {
    if ps == [] {
      assert (ps + [0] + message)[1..] == message;
    } else {
      assert (ps + [0] + message)[1..] == ps[1..] + [0] + message;
      AfterPadding(ps[1..], message);
    }
  }

  /** A block has one reading: the message that was put in. */
  lemma ParseBlock(ps: Bytes, message: Bytes)
    requires 0 !in ps && |ps| >= 8
    ensures Parsed(Block(ps, message)) == Some(message)
  {
    assert Block(ps, message)[2..] == ps + [0] + message;
    AfterPadding(ps, message);
  }

  // ---------- the encryption ----------

  datatype RsaError = BadPublicKey | MessageTooLong | NoEntropy | NotBelowModulus

  /** An entropy source: the bytes it still has. */
  class Entropy {
    var left: Bytes

    constructor (bytes: Bytes)
      ensures left == bytes
    {
      left := bytes;
    }

    method Read(n: nat) returns (bytes: Option<Bytes>)
      modifies this
      ensures if |old(left)| < n then bytes == None && left == old(left)
              else bytes == Some(old(left)[..n]) && left == old(left)[n..]
    {
      if |left| < n {
        return None;
      }
      bytes := Some(left[..n]);
      left := left[n..];
    }
  }

  /** The redraw loop over one byte of the buffer. */
  method RedrawByte(buffer: array<Byte>, i: nat, entropy: Entropy) returns (ok: bool)
    requires i < buffer.Length
    modifies buffer, entropy
    ensures ok == Redraw(old(buffer[i]), old(entropy.left)).Some?
    ensures ok ==> (buffer[i], entropy.left) == Redraw(old(buffer[i]), old(entropy.left)).value
    ensures forall j :: 0 <= j < buffer.Length && j != i ==> buffer[j] == old(buffer[j])
  {
    while buffer[i] == 0
      invariant forall j :: 0 <= j < buffer.Length && j != i ==> buffer[j] == old(buffer[j])
      invariant Redraw(buffer[i], entropy.left) == Redraw(old(buffer[i]), old(entropy.left))
      decreases |entropy.left|
    {
      var drawn := entropy.Read(1);
      if drawn.None? {
        return false;
      }
      buffer[i] := drawn.value[0];
    }
    ok := true;
  }

  lemma SettleNext(ps: Bytes, source: Bytes, i: nat)
    requires i < |ps| && Settle(ps[..i], source).Some?
    ensures var (done, rest) := Settle(ps[..i], source).value;
      var next := Redraw(ps[i], rest);
      Settle(ps[..i + 1], source)
        == if next.None? then None else Some((done + [next.value.0], next.value.1))
  {
    assert ps[..i + 1][..i] == ps[..i];
  }

  lemma SettleNone(source: Bytes)
    ensures Settle([], source) == Some(([], source))
  {}

  /** The redraw loop over the padding, which starts at the third byte of the buffer. */
  method SettlePadding(buffer: array<Byte>, psLength: nat, entropy: Entropy) returns (ok: bool)
    requires 2 + psLength <= buffer.Length
    modifies buffer, entropy
    ensures ok == Settle(old(buffer[2..2 + psLength]), old(entropy.left)).Some?
    ensures ok ==>
      Settle(old(buffer[2..2 + psLength]), old(entropy.left)) == Some((buffer[2..2 + psLength], entropy.left))
    ensures forall j :: 0 <= j < buffer.Length && !(2 <= j < 2 + psLength) ==> buffer[j] == old(buffer[j])
  {
    hide Settle, Redraw;
    ghost var ps := buffer[2..2 + psLength];
    SettleNone(entropy.left);
    assert ps[..0] == [] && buffer[2..2] == [];
    var i := 0;
    while i < psLength
      invariant 0 <= i <= psLength
      invariant forall j :: 0 <= j < buffer.Length && !(2 <= j < 2 + i) ==> buffer[j] == old(buffer[j])
      invariant Settle(ps[..i], old(entropy.left)) == Some((buffer[2..2 + i], entropy.left))
    {
      ghost var before := buffer[2..2 + i];
      SettleNext(ps, old(entropy.left), i);
      ok := RedrawByte(buffer, 2 + i, entropy);
      if !ok {
        SettleFails(ps, old(entropy.left), i + 1);
        return;
      }
      assert buffer[2..2 + (i + 1)] == before + [buffer[2 + i]];
      i := i + 1;
    }
    assert ps[..i] == ps;
    ok := true;
  }

  /** The block is below every modulus that has its length. */
  lemma BlockBelow(block: Bytes, n: nat)
    requires n > 0 && |block| == ByteLength(n) && block[0] == 0
    ensures Value(block) < n
  {
    LeadingZero(block);
  }

  /**
   * On success the result is, in as many bytes as the modulus has, the block 00 02 PS 00 M
   * to the power of e modulo n, PS drawn as described; the entropy left over is what PS
   * did not need.  The only failures are a bad key, a long message and a dry source: the
   * comparison with the modulus never fails.
   */
  method RsaEncryptPkcs1v15Exact(n: int, e: int, message: Bytes, entropy: Entropy)
    returns (r: Result<Bytes, RsaError>)
    modifies entropy
    ensures n <= 0 || e <= 1 ==> r == Err(BadPublicKey)
    ensures n > 0 && e > 1 ==>
      var k := ByteLength(n);
      if k < 11 || |message| > k - 11 then r == Err(MessageTooLong)
      else
        var drawn := Draw(k - |message| - 3, old(entropy.left));
        if drawn.None? then r == Err(NoEntropy)
        else
          var block := Block(drawn.value.0, message);
          && r.Ok? && |r.value| == k && Value(r.value) == Exp(Value(block), e) % n && entropy.left == drawn.value.1
          && |block| == k && |drawn.value.0| >= 8 && 0 !in drawn.value.0 && Value(block) < n
  {
    hide Settle, Value, Pow256, FillBytes, ByteLength, Exp;
    if n <= 0 || e <= 1 {
      return Err(BadPublicKey);
    }
    var k := ByteLength(n);
    if k < 11 || |message| > k - 11 {
      return Err(MessageTooLong);
    }
    var psLength := k - |message| - 3;
    var encoded := new Byte[k](_ => 0);
    encoded[1] := 2;
    var bulk := entropy.Read(psLength);
    if bulk.None? {
      return Err(NoEntropy);
    }
    forall i | 0 <= i < psLength {
      encoded[2 + i] := bulk.value[i];
    }
    assert encoded[2..2 + psLength] == bulk.value;
    var ok := SettlePadding(encoded, psLength, entropy);
    if !ok {
      return Err(NoEntropy);
    }
    ghost var drawn := encoded[2..2 + psLength];
    encoded[2 + psLength] := 0;
    forall j | 0 <= j < |message| {
      encoded[3 + psLength + j] := message[j];
    }
    assert encoded[..] == Block(drawn, message);
    BlockBelow(encoded[..], n);
    var messageInteger := Value(encoded[..]);
    if messageInteger >= n {
      return Err(NotBelowModulus);
    }
    var power := Exp(messageInteger, e) % n;
    FillBytesValue(power, k);
    r := Ok(FillBytes(power, k));
  }

  lemma {:induction false} SettleFails(ps: Bytes, source: Bytes, i: nat)
    requires i <= |ps| && Settle(ps[..i], source).None?
    ensures Settle(ps, source).None?
    decreases |ps| - i
  {
    if i == |ps| {
      assert ps[..i] == ps;
    } else {
      assert ps[..i + 1][..i] == ps[..i];
      SettleFails(ps, source, i + 1);
    }
  }

  /** Two messages in blocks of one length are told apart by their blocks and by their integers. */
  lemma BlockReadsBack(ps: Bytes, message: Bytes, k: nat)
    requires 0 !in ps && |ps| >= 8 && |Block(ps, message)| == k
    ensures Parsed(FillBytes(BlockValue(ps, message, k), k)) == Some(message)
  {
    FillBytesUnique(Block(ps, message));
    ParseBlock(ps, message);
  }

  function BlockValue(ps: Bytes, message: Bytes, k: nat): (v: nat)
    requires |Block(ps, message)| == k
    ensures v < Pow256(k)
  {
    ValueBelow(Block(ps, message));
    Value(Block(ps, message))
  }

  lemma {:induction false} FillBytesUnique(bytes: Bytes)
    ensures Value(bytes) < Pow256(|bytes|) && FillBytes(Value(bytes), |bytes|) == bytes
  {
    ValueBelow(bytes);
    if bytes != [] {
      FillBytesUnique(bytes[..|bytes| - 1]);
    }
  }

  /** Whoever has the exponent that undoes e modulo n reads the message out of the encryption. */
  lemma RsaDecrypts(n: nat, e: nat, d: nat, ps: Bytes, message: Bytes, encrypted: Bytes)
    requires n > 0 && 0 !in ps && |ps| >= 8 && |Block(ps, message)| == ByteLength(n)
    requires forall m: nat :: m < n ==> Exp(Exp(m, e) % n, d) % n == m
    requires |encrypted| == ByteLength(n) && Value(encrypted) == Exp(Value(Block(ps, message)), e) % n
    ensures Parsed(FillBytes(Exp(Value(encrypted), d) % n, ByteLength(n))) == Some(message)
  {
    hide Value, FillBytes, Exp, Parsed;
    BlockBelow(Block(ps, message), n);
    BlockReadsBack(ps, message, ByteLength(n));
  }
}
