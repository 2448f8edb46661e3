/**
 * PKCS#7 padding (section 6.3 of RFC 5652) and CBC (section 6.2 of NIST SP 800-38A)
 * over an arbitrary invertible block cipher (native_codec_helpers.go:26-103).
 */
module BlockCipher {
  import opened Basics
  import opened Base64

  const MAX_INT := 0x7fff_ffff_ffff_ffff   // the largest Go int
  const BLOCK := 16

  datatype PadError = BadBlockSize | TooLong | Empty | Unaligned | BadLength | BadBytes

  function Repeat(c: Byte, n: nat): (r: Bytes)
    ensures |r| == n && forall i :: 0 <= i < n ==> r[i] == c
  {
    seq(n, i => c)
  }

  /** How many bytes are added: at least one, and the length becomes a multiple. */
  function PadLength(len: nat, blockSize: int): (n: int)
    requires 1 <= blockSize <= 255
    ensures 1 <= n <= blockSize && (len + n) % blockSize == 0
  {
    PadLengthAligns(len, blockSize);
    blockSize - len % blockSize
  }

  lemma PadLengthAligns(len: nat, blockSize: int)
    requires 1 <= blockSize
    ensures (len + (blockSize - len % blockSize)) % blockSize == 0
  {
    var q := len / blockSize;
    assert len + (blockSize - len % blockSize) == (q + 1) * blockSize;
    MultipleMod(q + 1, blockSize);
  }

  lemma MultipleMod(q: int, b: int)
    requires 1 <= b
    ensures q * b % b == 0
  {
    var k := q - q * b / b;
    assert k * b == q * b % b;
    if k != 0 {
      MultipleIsFar(k, b);
    }
  }

  /** A multiple of b other than 0 is at least b away from 0. */
  lemma MultipleIsFar(k: int, b: int)
    requires 1 <= b && k != 0
    ensures k * b >= b || k * b <= -b
  {
    if k >= 1 {
      assert (k - 1) * b >= 0;
    } else {
      assert (-k - 1) * b >= 0;
    }
  }

  /** Only one number of bytes up to the block size fills the last block. */
  lemma PadLengthUnique(len: nat, n: int, blockSize: int)
    requires 1 <= blockSize <= 255 && 1 <= n <= blockSize && (len + n) % blockSize == 0
    ensures n == PadLength(len, blockSize)
  {
    var m := PadLength(len, blockSize);
    var k := (len + n) / blockSize - (len + m) / blockSize;
    assert n - m == k * blockSize by {
      QuotientBack(len + n, blockSize);
      QuotientBack(len + m, blockSize);
      assert k * blockSize == (len + n) / blockSize * blockSize - (len + m) / blockSize * blockSize;
    }
    if k != 0 {
      MultipleIsFar(k, blockSize);
    }
  }

  lemma QuotientBack(x: int, b: int)
    requires 1 <= b && x % b == 0
    ensures x / b * b == x
  {}

  function Padded(src: Bytes, blockSize: int): (r: Bytes)
    requires 1 <= blockSize <= 255
    ensures |r| % blockSize == 0 && |r| > |src|
  {
    var n := PadLength(|src|, blockSize);
    src + Repeat(n, n)
  }

  method Pkcs7Pad(src: Bytes, blockSize: int) returns (r: Result<Bytes, PadError>)
    ensures r == if blockSize < 1 || blockSize > 255 then Err(BadBlockSize)
                 else if |src| > MAX_INT - PadLength(|src|, blockSize) then Err(TooLong)
                 else Ok(Padded(src, blockSize))
  {
    if blockSize < 1 || blockSize > 255 {
      return Err(BadBlockSize);
    }
    var paddingLen := PadLength(|src|, blockSize);
    if |src| > MAX_INT - paddingLen {
      return Err(TooLong);
    }
    var padded := new Byte[|src| + paddingLen](_ => 0);
    forall i | 0 <= i < |src| {
      padded[i] := src[i];
    }
    var i := |src|;
    while i < padded.Length
      invariant |src| <= i <= padded.Length
      invariant forall k :: 0 <= k < |src| ==> padded[k] == src[k]
      invariant forall k :: |src| <= k < i ==> padded[k] == paddingLen
    {
      padded[i] := paddingLen;
      i := i + 1;
    }
    assert padded[..] == Padded(src, blockSize);
    r := Ok(padded[..]);
  }

  /** What every padded text looks like from its end. */
  lemma PaddedEnds(s: Bytes, blockSize: int)
    requires 1 <= blockSize <= 255
    ensures var src, n := Padded(s, blockSize), PadLength(|s|, blockSize);
      && |src| == |s| + n && src[|src| - 1] == n && src[..|src| - n] == s
      && forall k :: |src| - n <= k < |src| ==> src[k] == n
  {}

  lemma PaddedFrom(src: Bytes, start: nat, blockSize: int)
    requires 1 <= blockSize <= 255 && start < |src| && |src| % blockSize == 0 && |src| - start <= blockSize
    requires forall k :: start <= k < |src| ==> src[k] == |src| - start
    ensures src == Padded(src[..start], blockSize)
  {
    PadLengthUnique(start, |src| - start, blockSize);
  }

  /** Unpadding succeeds on padded texts only, and gives back what was padded. */
  method Pkcs7Unpad(src: Bytes, blockSize: int) returns (r: Result<Bytes, PadError>)
    ensures blockSize < 1 || blockSize > 255 ==> r == Err(BadBlockSize)
    ensures 1 <= blockSize <= 255 ==> forall s :: r == Ok(s) <==> src == Padded(s, blockSize)
  {
    if blockSize < 1 || blockSize > 255 {
      return Err(BadBlockSize);
    }
    if |src| == 0 {
      return Err(Empty);
    }
    if |src| % blockSize != 0 {
      return Err(Unaligned);
    }
    var paddingLen := src[|src| - 1];
    forall s | src == Padded(s, blockSize)
      ensures 1 <= paddingLen <= blockSize && paddingLen <= |src| && s == src[..|src| - paddingLen]
      ensures forall k :: |src| - paddingLen <= k < |src| ==> src[k] == paddingLen
    {
      PaddedEnds(s, blockSize);
    }
    hide Padded, PadLength;
    if paddingLen == 0 || paddingLen > blockSize || paddingLen > |src| {
      return Err(BadLength);
    }
    var paddingStart := |src| - paddingLen;
    var i := paddingStart;
    while i < |src|
      invariant paddingStart <= i <= |src|
      invariant forall k :: paddingStart <= k < i ==> src[k] == paddingLen
    {
      if src[i] != paddingLen {
        return Err(BadBytes);
      }
      i := i + 1;
    }
    PaddedFrom(src, paddingStart, blockSize);
    r := Ok(src[..paddingStart]);
  }

  // ---------- CBC ----------

  function Half(x: nat): nat { x / 2 }

  function Bit(x: nat): nat { x % 2 }

  function BitXor(a: nat, b: nat): nat { (a + b) % 2 }

  /** Exclusive or of the low n bits. */
  function XorBits(x: nat, y: nat, n: nat): nat {
    if n == 0 then 0 else 2 * XorBits(Half(x), Half(y), n - 1) + BitXor(Bit(x), Bit(y))
  }

  function Power2(n: nat): (r: nat)
    ensures r >= 1
  {
    if n == 0 then 1 else 2 * Power2(n - 1)
  }

  function BitAt(x: nat, i: nat): nat { x / Power2(i) % 2 }

  lemma {:induction false} XorBelow(x: nat, y: nat, n: nat)
    ensures XorBits(x, y, n) < Power2(n)
  {
    if n > 0 {
      XorBelow(Half(x), Half(y), n - 1);
    }
  }

  lemma BitsOf(q: nat, b: nat)
    requires b < 2
    ensures Half(2 * q + b) == q && Bit(2 * q + b) == b
  {}

  lemma BitXorTwice(x: nat, y: nat)
    ensures BitXor(Bit(x), Bit(y)) < 2 && BitXor(BitXor(Bit(x), Bit(y)), Bit(y)) == Bit(x)
    ensures x == 2 * Half(x) + Bit(x)
  {}

  lemma {:induction false} XorTwice(x: nat, y: nat, n: nat)
    requires x < Power2(n)
    ensures XorBits(XorBits(x, y, n), y, n) == x
    decreases n
  {
    hide Half, Bit, BitXor;
    if n > 0 {
      BitXorTwice(x, y);
      XorTwice(Half(x), Half(y), n - 1);
      BitsOf(XorBits(Half(x), Half(y), n - 1), BitXor(Bit(x), Bit(y)));
    }
  }

  function Xor(x: Byte, y: Byte): Byte {
    XorBelow(x, y, 8);
    assert Power2(8) == 256;
    XorBits(x, y, 8)
  }

  /** The i-th bit of an exclusive or is set when exactly one of the i-th bits is. */
  lemma {:induction false} XorBitAt(x: nat, y: nat, n: nat, i: nat)
    requires i < n
    ensures BitAt(XorBits(x, y, n), i) == if BitAt(x, i) == BitAt(y, i) then 0 else 1
    decreases n
  {
    hide BitAt, Half;
    var q, b := XorBits(Half(x), Half(y), n - 1), BitXor(Bit(x), Bit(y));
    BitXorTwice(x, y);
    BitsOf(q, b);
    if i == 0 {
      BitAtZero(x);
      BitAtZero(y);
      BitAtZero(2 * q + b);
    } else {
      XorBitAt(Half(x), Half(y), n - 1, i - 1);
      BitAtNext(x, i);
      BitAtNext(y, i);
      BitAtNext(2 * q + b, i);
    }
  }

  lemma BitAtZero(x: nat)
    ensures BitAt(x, 0) == Bit(x)
  {}

  lemma BitAtNext(x: nat, i: nat)
    requires i > 0
    ensures BitAt(x, i) == BitAt(Half(x), i - 1)
  {
    HalfThen(x, Power2(i - 1));
  }

  lemma HalfThen(x: nat, m: nat)
    requires m > 0
    ensures Half(x) / m == x / (2 * m)
  {
    var h, q := Half(x), Half(x) / m;
    assert h == q * m + h % m;
    assert x == 2 * h + x % 2;
    var rest := 2 * (h % m) + x % 2;
    assert x == q * (2 * m) + rest && 0 <= rest < 2 * m;
    QuotientIs(x, 2 * m, q, rest);
  }

  lemma QuotientIs(x: nat, m: nat, q: nat, rest: nat)
    requires m > 0 && x == q * m + rest && rest < m
    ensures x / m == q
  {
    var d := x / m - q;
    assert d * m == rest - x % m;
    if d != 0 {
      MultipleIsFar(d, m);
    }
  }

  lemma ByteXorBits(x: Byte, y: Byte, i: nat)
    requires i < 8
    ensures BitAt(Xor(x, y), i) == if BitAt(x, i) == BitAt(y, i) then 0 else 1
  {
    XorBitAt(x, y, 8, i);
  }

  lemma XorBack(x: Byte, y: Byte)
    ensures Xor(Xor(x, y), y) == x
  {
    assert Power2(8) == 256;
    XorTwice(x, y, 8);
  }

  type Block = b: Bytes | |b| == BLOCK witness Repeat(0, BLOCK)

  function XorBlock(x: Block, y: Block): Block {
    seq(BLOCK, i requires 0 <= i < BLOCK => Xor(x[i], y[i]))
  }

  lemma XorBlockBack(x: Block, y: Block)
    ensures XorBlock(XorBlock(x, y), y) == x
  {
    hide Xor;
    forall i | 0 <= i < BLOCK
      ensures XorBlock(XorBlock(x, y), y)[i] == x[i]
    {
      XorBack(x[i], y[i]);
    }
  }

  /** One block function per key, and its inverse. */
  datatype Cipher = Cipher(forward: (Bytes, Block) -> Block, backward: (Bytes, Block) -> Block)

  ghost predicate Invertible(c: Cipher, key: Bytes) {
    && (forall b: Block :: c.backward(key, c.forward(key, b)) == b)
    && (forall b: Block :: c.forward(key, c.backward(key, b)) == b)
  }

  predicate Blocks(text: Bytes) { |text| % BLOCK == 0 }

  function CbcEncrypt(c: Cipher, key: Bytes, iv: Block, plain: Bytes): (r: Bytes)
    requires Blocks(plain)
    ensures |r| == |plain|
    decreases |plain|
  {
    if plain == [] then []
    else
      var block: Bytes := c.forward(key, XorBlock(plain[..BLOCK], iv));
      block + CbcEncrypt(c, key, block, plain[BLOCK..])
  }

  function CbcDecrypt(c: Cipher, key: Bytes, iv: Block, text: Bytes): (r: Bytes)
    requires Blocks(text)
    ensures |r| == |text|
    decreases |text|
  {
    if text == [] then []
    else XorBlock(c.backward(key, text[..BLOCK]), iv) + CbcDecrypt(c, key, text[..BLOCK], text[BLOCK..])
  }

  lemma {:induction false} CbcDecryptsEncrypted(c: Cipher, key: Bytes, iv: Block, plain: Bytes)
    requires Blocks(plain) && Invertible(c, key)
    ensures CbcDecrypt(c, key, iv, CbcEncrypt(c, key, iv, plain)) == plain
    decreases |plain|
  {
    if plain != [] {
      var block: Bytes := c.forward(key, XorBlock(plain[..BLOCK], iv));
      var rest: Bytes := CbcEncrypt(c, key, block, plain[BLOCK..]);
      assert (block + rest)[..BLOCK] == block && (block + rest)[BLOCK..] == rest;
      XorBlockBack(plain[..BLOCK], iv);
      CbcDecryptsEncrypted(c, key, block, plain[BLOCK..]);
    }
  }

  lemma {:induction false} CbcEncryptsDecrypted(c: Cipher, key: Bytes, iv: Block, text: Bytes)
    requires Blocks(text) && Invertible(c, key)
    ensures CbcEncrypt(c, key, iv, CbcDecrypt(c, key, iv, text)) == text
    decreases |text|
  {
    if text != [] {
      var block: Bytes := XorBlock(c.backward(key, text[..BLOCK]), iv);
      var rest: Bytes := CbcDecrypt(c, key, text[..BLOCK], text[BLOCK..]);
      assert (block + rest)[..BLOCK] == block && (block + rest)[BLOCK..] == rest;
      XorBlockBack(c.backward(key, text[..BLOCK]), iv);
      CbcEncryptsDecrypted(c, key, text[..BLOCK], text[BLOCK..]);
    }
  }

  // ---------- the chain, block by block ----------

  function BlockAt(text: Bytes, j: nat): Block
    requires BLOCK * j + BLOCK <= |text|
  {
    text[BLOCK * j..BLOCK * j + BLOCK]
  }

  /** The chaining value of a block: the ciphertext block before it, or the initial vector. */
  function Before(iv: Block, text: Bytes, j: nat): Block
    requires BLOCK * j <= |text|
  {
    if j == 0 then iv else BlockAt(text, j - 1)
  }

  /** The two texts are chained: every block of ciphertext is the cipher of its masked block of plaintext. */
  ghost predicate Chained(c: Cipher, key: Bytes, iv: Block, plain: Bytes, text: Bytes) {
    && |text| == |plain|
    && forall j: nat | BLOCK * j + BLOCK <= |plain| ::
         BlockAt(text, j) == c.forward(key, XorBlock(BlockAt(plain, j), Before(iv, text, j)))
  }

  lemma BlockAtTail(head: Block, rest: Bytes, j: nat)
    requires BLOCK * j + BLOCK <= |rest|
    ensures BlockAt(head + rest, j + 1) == BlockAt(rest, j)
    ensures Before(head, rest, j) == BlockAt(head + rest, j)
  {
    if j > 0 {
      BlockAtTail(head, rest, j - 1);
    }
  }

  lemma {:induction false} EncryptsBlock(c: Cipher, key: Bytes, iv: Block, plain: Bytes, j: nat)
    requires Blocks(plain) && BLOCK * j + BLOCK <= |plain|
    ensures var text := CbcEncrypt(c, key, iv, plain);
      BlockAt(text, j) == c.forward(key, XorBlock(BlockAt(plain, j), Before(iv, text, j)))
    decreases j
  {
    hide XorBlock;
    var block: Block := c.forward(key, XorBlock(plain[..BLOCK], iv));
    var rest := CbcEncrypt(c, key, block, plain[BLOCK..]);
    if j > 0 {
      EncryptsBlock(c, key, block, plain[BLOCK..], j - 1);
      BlockAtTail(block, rest, j - 1);
      assert plain == plain[..BLOCK] + plain[BLOCK..];
      BlockAtTail(plain[..BLOCK], plain[BLOCK..], j - 1);
    }
  }

  lemma {:induction false} DecryptsBlock(c: Cipher, key: Bytes, iv: Block, text: Bytes, j: nat)
    requires Blocks(text) && BLOCK * j + BLOCK <= |text|
    ensures BlockAt(CbcDecrypt(c, key, iv, text), j)
         == XorBlock(c.backward(key, BlockAt(text, j)), Before(iv, text, j))
    decreases j
  {
    hide XorBlock;
    var head: Block, tail := text[..BLOCK], text[BLOCK..];
    var first: Block := XorBlock(c.backward(key, head), iv);
    if j > 0 {
      DecryptsBlock(c, key, head, tail, j - 1);
      assert text == head + tail;
      BlockAtTail(head, tail, j - 1);
      BlockAtTail(first, CbcDecrypt(c, key, head, tail), j - 1);
    }
  }

  /** Encryption chains. */
  lemma EncryptChains(c: Cipher, key: Bytes, iv: Block, plain: Bytes)
    requires Blocks(plain)
    ensures Chained(c, key, iv, plain, CbcEncrypt(c, key, iv, plain))
  {
    forall j: nat | BLOCK * j + BLOCK <= |plain|
      ensures var text := CbcEncrypt(c, key, iv, plain);
        BlockAt(text, j) == c.forward(key, XorBlock(BlockAt(plain, j), Before(iv, text, j)))
    {
      EncryptsBlock(c, key, iv, plain, j);
    }
  }

  lemma OneMoreBlock(text: Bytes, n: nat)
    requires BLOCK * n + BLOCK <= |text|
    ensures text[..BLOCK * (n + 1)] == text[..BLOCK * n] + BlockAt(text, n)
    ensures n > 0 ==> BlockAt(text, n - 1) == text[..BLOCK * n][BLOCK * (n - 1)..]
  {}

  /** Chaining determines the ciphertext. */
  lemma {:induction false} ChainedOnce(c: Cipher, key: Bytes, iv: Block, plain: Bytes, text: Bytes, other: Bytes,
                                       n: nat)
    requires Blocks(plain) && Chained(c, key, iv, plain, text) && Chained(c, key, iv, plain, other)
    requires BLOCK * n <= |plain|
    ensures text[..BLOCK * n] == other[..BLOCK * n]
  {
    hide XorBlock, BlockAt;
    if n > 0 {
      var m := n - 1;
      ChainedOnce(c, key, iv, plain, text, other, m);
      OneMoreBlock(text, m);
      OneMoreBlock(other, m);
      ChainedBlock(c, key, iv, plain, text, m);
      ChainedBlock(c, key, iv, plain, other, m);
      hide Chained;
      assert Before(iv, text, m) == Before(iv, other, m);
    }
  }

  lemma ChainedBlock(c: Cipher, key: Bytes, iv: Block, plain: Bytes, text: Bytes, j: nat)
    requires Chained(c, key, iv, plain, text) && BLOCK * j + BLOCK <= |plain|
    ensures BlockAt(text, j) == c.forward(key, XorBlock(BlockAt(plain, j), Before(iv, text, j)))
  {}

  /** So the encryption is the one text that is chained to the plaintext. */
  lemma ChainedIff(c: Cipher, key: Bytes, iv: Block, plain: Bytes, text: Bytes)
    requires Blocks(plain)
    ensures Chained(c, key, iv, plain, text) <==> text == CbcEncrypt(c, key, iv, plain)
  {
    hide CbcEncrypt;
    EncryptChains(c, key, iv, plain);
    if Chained(c, key, iv, plain, text) {
      var n := |plain| / BLOCK;
      var other := CbcEncrypt(c, key, iv, plain);
      ChainedOnce(c, key, iv, plain, text, other, n);
      assert text[..BLOCK * n] == text && other[..BLOCK * n] == other;
    }
  }

  // ---------- CBC with padding ----------

  datatype CipherError = BadKey | BadIv | BadText | BadPadding(error: PadError)

  predicate KeyAndIv(key: Bytes, iv: Bytes) { |key| in {16, 24, 32} && |iv| == BLOCK }

  method AesCbcEncryptPkcs7(c: Cipher, plain: Bytes, key: Bytes, iv: Bytes) returns (r: Result<Bytes, CipherError>)
    ensures |key| !in {16, 24, 32} ==> r == Err(BadKey)
    ensures |key| in {16, 24, 32} && |iv| != BLOCK ==> r == Err(BadIv)
    ensures KeyAndIv(key, iv) ==>
      r == if |plain| > MAX_INT - PadLength(|plain|, BLOCK) then Err(BadPadding(TooLong))
           else Ok(CbcEncrypt(c, key, iv, Padded(plain, BLOCK)))
    ensures r.Ok? ==> KeyAndIv(key, iv) && Chained(c, key, iv, Padded(plain, BLOCK), r.value)
  {
    if |key| !in {16, 24, 32} {
      return Err(BadKey);
    }
    if |iv| != BLOCK {
      return Err(BadIv);
    }
    var padded := Pkcs7Pad(plain, BLOCK);
    match padded {
      case Err(e) => r := Err(BadPadding(e));
      case Ok(text) =>
        EncryptChains(c, key, iv, text);
        r := Ok(CbcEncrypt(c, key, iv, text));
    }
  }

  /** Decryption succeeds exactly on encryptions, and gives back what was encrypted. */
  method AesCbcDecryptPkcs7(c: Cipher, text: Bytes, key: Bytes, iv: Bytes) returns (r: Result<Bytes, CipherError>)
    requires Invertible(c, key)
    ensures |key| !in {16, 24, 32} ==> r == Err(BadKey)
    ensures |key| in {16, 24, 32} && |iv| != BLOCK ==> r == Err(BadIv)
    ensures KeyAndIv(key, iv) ==>
      forall plain :: r == Ok(plain) <==> Chained(c, key, iv, Padded(plain, BLOCK), text)
  {
    if |key| !in {16, 24, 32} {
      return Err(BadKey);
    }
    if |iv| != BLOCK {
      return Err(BadIv);
    }
    if |text| == 0 || |text| % BLOCK != 0 {
      return Err(BadText);
    }
    var plain := CbcDecrypt(c, key, iv, text);
    CbcEncryptsDecrypted(c, key, iv, text);
    forall p
      ensures text == CbcEncrypt(c, key, iv, Padded(p, BLOCK)) ==> plain == Padded(p, BLOCK)
    {
      CbcDecryptsEncrypted(c, key, iv, Padded(p, BLOCK));
    }
    forall p
      ensures Chained(c, key, iv, Padded(p, BLOCK), text) <==> text == CbcEncrypt(c, key, iv, Padded(p, BLOCK))
    {
      ChainedIff(c, key, iv, Padded(p, BLOCK), text);
    }
    var unpadded := Pkcs7Unpad(plain, BLOCK);
    match unpadded {
      case Err(e) => r := Err(BadPadding(e));
      case Ok(p) => r := Ok(p);
    }
  }
}
