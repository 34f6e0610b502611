/** The MD5 variant of external/md5str/include. Round 1 rotates by 17, 7, 22, 12 where RFC 1321
    has 7, 12, 17, 22, so its digests are not those of RFC 1321. */
module Md5 {
  type byte = x: int | 0 <= x < 256
  type word = x: int | 0 <= x < 0x1_0000_0000

  const M := 0x1_0000_0000

  // ----- The compression function -----

  function F(x: bv32, y: bv32, z: bv32): bv32 { (x & y) | (!x & z) }

  function G(x: bv32, y: bv32, z: bv32): bv32 { (x & z) | (y & !z) }

  function H(x: bv32, y: bv32, z: bv32): bv32 { x ^ y ^ z }

  function I(x: bv32, y: bv32, z: bv32): bv32 { y ^ (x | !z) }

  type Turn = s: bv32 | 0 < s < 32 witness 1

  /** ROTATELEFT. */
  function RotateLeft(num: bv32, n: Turn): bv32 { (num << n) | (num >> (32 - n)) }

  function RotateRight(num: bv32, n: Turn): bv32 { (num >> n) | (num << (32 - n)) }

  lemma RotateInverse(num: bv32, n: Turn)
    ensures RotateRight(RotateLeft(num, n), n) == num
  {
  }

  lemma RotateBack(num: bv32, n: Turn)
    ensures RotateLeft(RotateRight(num, n), n) == num
  {
  }

  /** The bits that a shift of the word pushes out at the top come in at the bottom. */
  lemma RotateWraps(num: bv32, n: Turn)
    ensures RotateLeft(num, n) as bv64 == (((num as bv64) << n) & 0xffff_ffff) | (((num as bv64) << n) >> 32)
  {
  }

  /** The registers a, b, c, d. */
  datatype Regs = Regs(a: bv32, b: bv32, c: bv32, d: bv32)

  type Index = k: nat | k < 16

  /** One row of the round table: message word, rotation and added constant. */
  datatype Row = Row(k: Index, s: Turn, ac: bv32)

  const ROUND1: seq<Row> := [
    Row( 0, 17, 0xd76aa478), Row( 1,  7, 0xe8c7b756), Row( 2, 22, 0x242070db), Row( 3, 12, 0xc1bdceee),
    Row( 4, 17, 0xf57c0faf), Row( 5,  7, 0x4787c62a), Row( 6, 22, 0xa8304613), Row( 7, 12, 0xfd469501),
    Row( 8, 17, 0x698098d8), Row( 9,  7, 0x8b44f7af), Row(10, 22, 0xffff5bb1), Row(11, 12, 0x895cd7be),
    Row(12, 17, 0x6b901122), Row(13,  7, 0xfd987193), Row(14, 22, 0xa679438e), Row(15, 12, 0x49b40821)]

  const ROUND2: seq<Row> := [
    Row( 1,  5, 0xf61e2562), Row( 6,  9, 0xc040b340), Row(11, 14, 0x265e5a51), Row( 0, 20, 0xe9b6c7aa),
    Row( 5,  5, 0xd62f105d), Row(10,  9, 0x02441453), Row(15, 14, 0xd8a1e681), Row( 4, 20, 0xe7d3fbc8),
    Row( 9,  5, 0x21e1cde6), Row(14,  9, 0xc33707d6), Row( 3, 14, 0xf4d50d87), Row( 8, 20, 0x455a14ed),
    Row(13,  5, 0xa9e3e905), Row( 2,  9, 0xfcefa3f8), Row( 7, 14, 0x676f02d9), Row(12, 20, 0x8d2a4c8a)]

  const ROUND3: seq<Row> := [
    Row( 5,  4, 0xfffa3942), Row( 8, 11, 0x8771f681), Row(11, 16, 0x6d9d6122), Row(14, 23, 0xfde5380c),
    Row( 1,  4, 0xa4beea44), Row( 4, 11, 0x4bdecfa9), Row( 7, 16, 0xf6bb4b60), Row(10, 23, 0xbebfbc70),
    Row(13,  4, 0x289b7ec6), Row( 0, 11, 0xeaa127fa), Row( 3, 16, 0xd4ef3085), Row( 6, 23, 0x04881d05),
    Row( 9,  4, 0xd9d4d039), Row(12, 11, 0xe6db99e5), Row(15, 16, 0x1fa27cf8), Row( 2, 23, 0xc4ac5665)]

  const ROUND4: seq<Row> := [
    Row( 0,  6, 0xf4292244), Row( 7, 10, 0x432aff97), Row(14, 15, 0xab9423a7), Row( 5, 21, 0xfc93a039),
    Row(12,  6, 0x655b59c3), Row( 3, 10, 0x8f0ccc92), Row(10, 15, 0xffeff47d), Row( 1, 21, 0x85845dd1),
    Row( 8,  6, 0x6fa87e4f), Row(15, 10, 0xfe2ce6e0), Row( 6, 15, 0xa3014314), Row(13, 21, 0x4e0811a1),
    Row( 4,  6, 0xf7537e82), Row(11, 10, 0xbd3af235), Row( 2, 15, 0x2ad7d2bb), Row( 9, 21, 0xeb86d391)]

  function RowAt(i: nat): Row
    requires i < 64
  {
    if i < 16 then ROUND1[i] else if i < 32 then ROUND2[i - 16] else if i < 48 then ROUND3[i - 32] else ROUND4[i - 48]
  }

  /** The word order of section 3.4 of RFC 1321: each round is an affine walk over the block. */
  lemma RoundsWalkTheBlock(i: nat)
    requires i < 16
    ensures ROUND1[i].k == i
    ensures ROUND2[i].k == (1 + 5 * i) % 16
    ensures ROUND3[i].k == (5 + 3 * i) % 16
    ensures ROUND4[i].k == (7 * i) % 16
  {
    match i
    case 0 | 1 | 2 | 3 =>
    case 4 | 5 | 6 | 7 =>
    case 8 | 9 | 10 | 11 =>
    case 12 | 13 | 14 | 15 =>
  }

  function Mix(i: nat, x: bv32, y: bv32, z: bv32): bv32 {
    if i < 16 then F(x, y, z) else if i < 32 then G(x, y, z) else if i < 48 then H(x, y, z) else I(x, y, z)
  }

  // What the rounds mix, bit by bit: first x chooses between y and z, then z between x and y, then it is
  // the parity of the three, and last what differs from y exactly in x or not z.

  lemma Round1Mixes(i: nat, x: bv32, y: bv32, z: bv32)
    requires i < 16
    ensures Mix(i, x, y, z) & x == y & x && Mix(i, x, y, z) & !x == z & !x
  {
    FChooses(x, y, z);
  }

  lemma FChooses(x: bv32, y: bv32, z: bv32)
    ensures F(x, y, z) & x == y & x && F(x, y, z) & !x == z & !x
  {
  }

  lemma Round2Mixes(i: nat, x: bv32, y: bv32, z: bv32)
    requires 16 <= i < 32
    ensures Mix(i, x, y, z) & z == x & z && Mix(i, x, y, z) & !z == y & !z
  {
    GChooses(x, y, z);
  }

  lemma GChooses(x: bv32, y: bv32, z: bv32)
    ensures G(x, y, z) & z == x & z && G(x, y, z) & !z == y & !z
  {
  }

  lemma Round3Mixes(i: nat, x: bv32, y: bv32, z: bv32)
    requires 32 <= i < 48
    ensures Mix(i, x, y, z) ^ x ^ y == z
  {
  }

  lemma Round4Mixes(i: nat, x: bv32, y: bv32, z: bv32)
    requires 48 <= i
    ensures Mix(i, x, y, z) ^ y == x | !z
  {
  }

  /** Step i. The registers are renamed after each step, (a, b, c, d) to (d, a, b, c), so that the
      step always assigns to a; after four steps the names are the original ones again. */
  function Step(r: Regs, x: seq<bv32>, i: nat): Regs
    requires i < 64 && |x| == 16
  {
    var row := RowAt(i);
    Regs(r.d, Turned(r.a, Mix(i, r.b, r.c, r.d), x[row.k], row.ac, row.s, r.b), r.b, r.c)
  }

  /** FF, GG, HH and II: a += m + x + ac, rotate, a += b. */
  function Turned(a: bv32, m: bv32, x: bv32, ac: bv32, s: Turn, b: bv32): bv32 {
    Plus(RotateLeft(Sum(a, m, x, ac), s), b)
  }

  function Sum(a: bv32, m: bv32, x: bv32, ac: bv32): bv32 { a + m + x + ac }

  function Plus(a: bv32, b: bv32): bv32 { a + b }

  function Steps(r: Regs, x: seq<bv32>, n: nat): Regs
    requires n <= 64 && |x| == 16
  {
    if n == 0 then r else Step(Steps(r, x, n - 1), x, n - 1)
  }

  function Unstep(r: Regs, x: seq<bv32>, i: nat): Regs
    requires i < 64 && |x| == 16
  {
    var row := RowAt(i);
    Regs(Unturned(r.b, Mix(i, r.c, r.d, r.a), x[row.k], row.ac, row.s, r.c), r.c, r.d, r.a)
  }

  function Unturned(a: bv32, m: bv32, x: bv32, ac: bv32, s: Turn, b: bv32): bv32 {
    Less(RotateRight(Minus(a, b), s), m, x, ac)
  }

  function Less(a: bv32, m: bv32, x: bv32, ac: bv32): bv32 { a - m - x - ac }

  function Minus(a: bv32, b: bv32): bv32 { a - b }

  function Unsteps(r: Regs, x: seq<bv32>, n: nat): Regs
    requires n <= 64 && |x| == 16
    decreases n
  {
    if n == 0 then r else Unsteps(Unstep(r, x, n - 1), x, n - 1)
  }

  lemma TurnUndone(a: bv32, m: bv32, x: bv32, ac: bv32, s: Turn, b: bv32)
    ensures Unturned(Turned(a, m, x, ac, s, b), m, x, ac, s, b) == a
  {
    var t := Sum(a, m, x, ac);
    RotateInverse(t, s);
    AddBack(RotateLeft(t, s), b);
    SumBack(a, m, x, ac);
  }

  lemma TurnRedone(a: bv32, m: bv32, x: bv32, ac: bv32, s: Turn, b: bv32)
    ensures Turned(Unturned(a, m, x, ac, s, b), m, x, ac, s, b) == a
  {
    var u := Minus(a, b);
    RotateBack(u, s);
    SumBack(RotateRight(u, s), m, x, ac);
    AddBack(a, b);
  }

  lemma AddBack(u: bv32, b: bv32)
    ensures Minus(Plus(u, b), b) == u && Plus(Minus(u, b), b) == u
  {
    assert Minus(u + b, b) == u;
    assert Plus(u - b, b) == u;
  }

  lemma SumBack(a: bv32, m: bv32, x: bv32, ac: bv32)
    ensures Less(Sum(a, m, x, ac), m, x, ac) == a && Sum(Less(a, m, x, ac), m, x, ac) == a
  {
    assert Less(a + m + x + ac, m, x, ac) == a;
    assert Sum(a - m - x - ac, m, x, ac) == a;
  }

  lemma StepIsBijective(r: Regs, x: seq<bv32>, i: nat)
    requires i < 64 && |x| == 16
    ensures Unstep(Step(r, x, i), x, i) == r
    ensures Step(Unstep(r, x, i), x, i) == r
  {
    var row := RowAt(i);
    TurnUndone(r.a, Mix(i, r.b, r.c, r.d), x[row.k], row.ac, row.s, r.b);
    TurnRedone(r.b, Mix(i, r.c, r.d, r.a), x[row.k], row.ac, row.s, r.c);
  }

  /** For a fixed block the 64 steps are a bijection on the registers. */
  lemma {:induction false} StepsAreBijective(r: Regs, x: seq<bv32>, n: nat)
    requires n <= 64 && |x| == 16
    ensures Unsteps(Steps(r, x, n), x, n) == r
    ensures Steps(Unsteps(r, x, n), x, n) == r
    decreases n
  {
    if n > 0 {
      StepsAreBijective(r, x, n - 1);
      StepIsBijective(Steps(r, x, n - 1), x, n - 1);
      StepIsBijective(r, x, n - 1);
      StepsAreBijective(Unstep(r, x, n - 1), x, n - 1);
    }
  }

  // ----- Numbers -----

  /** A number is made of its quotient and remainder in one way. */
  lemma DivModUnique(x: int, d: int, q: int, r: int)
    requires d > 0 && 0 <= r < d && x == q * d + r
    ensures x / d == q && x % d == r
  {
    var k := x / d - q;
    assert d * k == r - x % d;
  }

  // ----- Words and bytes, low-order byte first -----

  function WordAt(b: seq<byte>, j: nat): word
    requires j + 4 <= |b|
  {
    b[j] as int + 0x100 * (b[j + 1] as int) + 0x1_0000 * (b[j + 2] as int) + 0x100_0000 * (b[j + 3] as int)
  }

  /** Shifting right by 8 once, twice and three times. */
  function BytesOf(w: word): (b: seq<byte>)
    ensures |b| == 4
  {
    var w8 := w / 0x100;
    var w16 := w8 / 0x100;
    var w24 := w16 / 0x100;
    [w % 0x100, w8 % 0x100, w16 % 0x100, w24 % 0x100]
  }

  lemma BytesOfWord(b: seq<byte>, j: nat)
    requires j + 4 <= |b|
    ensures BytesOf(WordAt(b, j)) == b[j..j + 4]
  {
    var w := WordAt(b, j);
    var q2: int := b[j + 2] as int + 0x100 * (b[j + 3] as int);
    var q1: int := b[j + 1] as int + 0x100 * q2;
    assert w / 0x100 == q1 && w % 0x100 == b[j];
    assert q1 / 0x100 == q2 && q1 % 0x100 == b[j + 1];
    assert q2 / 0x100 == b[j + 3] && q2 % 0x100 == b[j + 2];
  }

  lemma WordOfBytes(w: word)
    ensures WordAt(BytesOf(w), 0) == w
  {
  }

  function Encoded(ws: seq<word>): (b: seq<byte>)
    ensures |b| == 4 * |ws|
  {
    seq(4 * |ws|, k requires 0 <= k < 4 * |ws| => BytesOf(ws[k / 4])[k % 4])
  }

  function Decoded(b: seq<byte>): (ws: seq<word>)
    requires |b| % 4 == 0
    ensures |ws| == |b| / 4
  {
    seq(|b| / 4, i requires 0 <= i < |b| / 4 => WordAt(b, 4 * i))
  }

  lemma EncodedAt(ws: seq<word>, i: nat, j: nat)
    requires i < |ws| && j < 4
    ensures Encoded(ws)[4 * i + j] == BytesOf(ws[i])[j]
  {
    assert (4 * i + j) / 4 == i && (4 * i + j) % 4 == j;
  }

  /** encode and decode are inverse to each other. */
  lemma DecodedEncoded(ws: seq<word>)
    ensures Decoded(Encoded(ws)) == ws
  {
    var b := Encoded(ws);
    var back := Decoded(b);
    forall i | 0 <= i < |ws| ensures back[i] == ws[i] {
      DecodedAt(ws, i, b);
    }
  }

  lemma DecodedAt(ws: seq<word>, i: nat, b: seq<byte>)
    requires i < |ws| && b == Encoded(ws)
    ensures WordAt(b, 4 * i) == ws[i]
  {
    EncodedAt(ws, i, 0);
    EncodedAt(ws, i, 1);
    EncodedAt(ws, i, 2);
    EncodedAt(ws, i, 3);
    WordOfBytes(ws[i]);
    assert forall j :: 0 <= j < 4 ==> b[4 * i + j] == BytesOf(ws[i])[j];
  }

  lemma EncodedDecoded(b: seq<byte>)
    requires |b| % 4 == 0
    ensures Encoded(Decoded(b)) == b
  {
    var ws := Decoded(b);
    forall k | 0 <= k < |b| ensures Encoded(ws)[k] == b[k] {
      var i := k / 4;
      EncodedAt(ws, i, k - 4 * i);
      BytesOfWord(b, 4 * i);
    }
  }

  // ----- Chaining, padding and the digest of a message -----

  type Block = b: seq<byte> | |b| == 64 witness seq(64, _ => 0)

  /** The chaining state. */
  type State = h: seq<word> | |h| == 4 witness [0, 0, 0, 0]

  const INITIAL: State := [0x67452301, 0xefcdab89, 0x98badcfe, 0x10325476]

  function AsBits(w: word): bv32 { w as bv32 }

  function Loaded(h: State): Regs { Regs(AsBits(h[0]), AsBits(h[1]), AsBits(h[2]), AsBits(h[3])) }

  function Bits(ws: seq<word>): (x: seq<bv32>)
    ensures |x| == |ws| && forall i :: 0 <= i < |x| ==> x[i] == AsBits(ws[i])
  {
    seq(|ws|, i requires 0 <= i < |ws| => AsBits(ws[i]))
  }

  function Unloaded(r: Regs): State { [r.a as int, r.b as int, r.c as int, r.d as int] }

  /** What the 64 steps make of the state. */
  function Stepped(h: State, x: seq<word>): State
    requires |x| == 16
  {
    Unloaded(Steps(Loaded(h), Bits(x), 64))
  }

  /** The final additions of transform. */
  function Raised(h: State, r: State): State {
    [(h[0] + r[0]) % M, (h[1] + r[1]) % M, (h[2] + r[2]) % M, (h[3] + r[3]) % M]
  }

  function Compress(h: State, block: Block): State { Raised(h, Stepped(h, Decoded(block))) }

  /** Runs f over the whole blocks of m, ignoring an incomplete last one. */
  function Fold(f: (State, Block) -> State, h: State, m: seq<byte>): State
    decreases |m|
  {
    if |m| < 64 then h else Fold(f, f(h, m[..64]), m[64..])
  }

  lemma {:induction false} FoldAppend(f: (State, Block) -> State, h: State, m: seq<byte>, x: seq<byte>)
    requires |m| % 64 == 0
    ensures Fold(f, h, m + x) == Fold(f, Fold(f, h, m), x)
    decreases |m|
  {
    if |m| < 64 {
      assert m + x == x;
    } else {
      assert (m + x)[..64] == m[..64] && (m + x)[64..] == m[64..] + x;
      FoldAppend(f, f(h, m[..64]), m[64..], x);
    }
  }

  function Zeros(n: nat): (z: seq<byte>)
    ensures |z| == n && forall i :: 0 <= i < n ==> z[i] == 0
  {
    seq(n, _ => 0)
  }

  /** PADDING: 0x80 and 63 zeros. */
  const PADDING: seq<byte> := [0x80] + Zeros(63)

  function PadLen(index: nat): nat
    requires index < 64
  {
    if index < 56 then 56 - index else 120 - index
  }

  lemma PadsTo56(n: nat)
    ensures (n + PadLen(n % 64)) % 64 == 56 && PadLen(n % 64) <= 64
  {
    DivModUnique(n + PadLen(n % 64), 64, if n % 64 < 56 then n / 64 else n / 64 + 1, 56);
  }

  /** The message length in bits, as two words, modulo 2^64. */
  function BitCount(n: nat): seq<word> { [8 * n % M, 8 * n / M % M] }

  function LengthBytes(n: nat): (b: seq<byte>)
    ensures |b| == 8
  {
    Encoded(BitCount(n))
  }

  /** Sections 3.1 and 3.2 of RFC 1321. */
  function Padded(m: seq<byte>): (r: seq<byte>)
    ensures |r| % 64 == 0
  {
    m + PADDING[..PadLen(|m| % 64)] + LengthBytes(|m|)
  }

  function DigestBy(f: (State, Block) -> State, h: State, m: seq<byte>): (d: seq<byte>)
    ensures |d| == 16
  {
    Encoded(Fold(f, h, Padded(m)))
  }

  function Digest(m: seq<byte>): (d: seq<byte>)
    ensures |d| == 16
  {
    DigestBy(Compress, INITIAL, m)
  }

  /** The padding separates all messages, of any length. */
  lemma PaddingIsInjective(m: seq<byte>, n: seq<byte>)
    requires Padded(m) == Padded(n)
    ensures m == n
  {
    var r := Padded(m);
    if |m| == |n| {
      assert m == r[..|m|] && n == r[..|n|];
    } else if |m| < |n| {
      PaddingTells(m, n);
    } else {
      PaddingTells(n, m);
    }
  }

  /** At the position where the longer message ends, one padding has 0x80 and the other a zero. */
  lemma PaddingTells(short: seq<byte>, long: seq<byte>)
    requires |short| < |long|
    ensures Padded(short) != Padded(long)
  {
    var k, s, l := |long|, Padded(short), Padded(long);
    assert l[k] == PADDING[0] == 0x80;
    if |s| == |l| {
      assert k < |s| - 8;
      assert s[k] == PADDING[k - |short|] == 0;
    }
  }

  // ----- The streaming object -----

  function Rest(m: seq<byte>): (t: seq<byte>)
    ensures |t| == |m| % 64
  {
    m[|m| - |m| % 64..]
  }

  lemma FoldBlock(f: (State, Block) -> State, h: State, m: seq<byte>, b: Block)
    requires |m| % 64 == 0
    ensures Fold(f, h, m + b) == f(Fold(f, h, m), b)
  {
    FoldAppend(f, h, m, b);
    assert b[..64] == b && b[64..] == [];
  }

  lemma NextBlock(f: (State, Block) -> State, h: State, m: seq<byte>, input: seq<byte>, i: nat)
    requires i + 64 <= |input| && (|m| + i) % 64 == 0
    ensures Fold(f, h, m + input[..i + 64]) == f(Fold(f, h, m + input[..i]), input[i..i + 64])
    ensures (|m| + i + 64) % 64 == 0
  {
    FoldBlock(f, h, m + input[..i], input[i..i + 64]);
    assert m + input[..i] + input[i..i + 64] == m + input[..i + 64];
  }

  /** An incomplete block does not change the state yet. */
  lemma FoldRest(f: (State, Block) -> State, h: State, m: seq<byte>, x: seq<byte>)
    requires |m| % 64 == 0 && |x| < 64
    ensures Fold(f, h, m + x) == Fold(f, h, m) && Rest(m + x) == x
  {
    FoldAppend(f, h, m, x);
  }

  /** Two bytes strings that differ only in the incomplete block give the same state. */
  lemma FoldWhole(f: (State, Block) -> State, h: State, m: seq<byte>)
    ensures Fold(f, h, m) == Fold(f, h, m[..|m| - |m| % 64])
  {
    var whole := m[..|m| - |m| % 64];
    assert m == whole + Rest(m);
    FoldRest(f, h, whole, Rest(m));
  }

  /** The two-word counter with its carry counts bits modulo 2^64. */
  lemma CountAdds(n: nat, len: nat)
    requires len < M
    ensures var c := BitCount(n);
            var add := 8 * len % M;
            var low := (c[0] + add) % M;
            var carried := if low < add then (c[1] + 1) % M else c[1];
            BitCount(n + len) == [low, (carried + len / 0x2000_0000) % M]
  {
    var a, c0, e, add := 8 * n / M, 8 * n % M, 8 * len / M, 8 * len % M;
    DivModUnique(len, 0x2000_0000, e, add / 8);
    var carry := if c0 + add >= M then 1 else 0;
    DivModUnique(8 * (n + len), M, a + e + carry, c0 + add - M * carry);
    CarryWraps(a, carry, e);
  }

  lemma CarryWraps(a: nat, carry: nat, e: nat)
    requires carry <= 1
    ensures ((if carry == 1 then (a % M + 1) % M else a % M) + e) % M == (a + e + carry) % M
  {
  }

  lemma CountTells(n: nat)
    ensures BitCount(n)[0] / 8 % 64 == n % 64
  {
    var a := 8 * n / M;
    var k := n - 0x2000_0000 * a;
    assert BitCount(n)[0] == 8 * k;
    DivModUnique(8 * k, 8, k, 0);
    DivModUnique(n, 64, k / 64 + 0x80_0000 * a, k % 64);
  }

  /** The buffer after `input` was fed at `index`: the last incomplete block on top of the bytes
      that completed the block before. */
  function Overwritten(buffer: Block, index: nat, input: seq<byte>): (b: Block)
    requires index < 64
  {
    if index + |input| < 64 then buffer[..index] + input + buffer[index + |input|..]
    else
      var left := (index + |input|) % 64;
      input[|input| - left..] + (buffer[..index] + input[..64 - index])[left..]
  }

  lemma LastBytes(before: Block, index: nat, input: seq<byte>, i: nat, done: Block, after: seq<byte>)
    requires index < 64 && 64 - index <= i <= |input| < i + 64 && (index + i) % 64 == 0
    requires done == before[..index] + input[..64 - index]
    requires after == input[i..] + done[|input| - i..]
    ensures after == Overwritten(before, index, input)
  {
    DivModUnique(index + |input|, 64, (index + i) / 64, |input| - i);
  }

  /** What state and buffer hold after m was fed: the fold over its whole blocks, and the rest. */
  ghost predicate Absorbed(f: (State, Block) -> State, h0: State, h: State, buffer: Block, m: seq<byte>) {
    h == Fold(f, h0, m) && buffer[..|m| % 64] == Rest(m)
  }

  /** Input that does not fill the block only goes to the buffer. */
  lemma AbsorbShort(f: (State, Block) -> State, h0: State, h: State, buffer: Block, m: seq<byte>, input: seq<byte>)
    requires Absorbed(f, h0, h, buffer, m) && |m| % 64 + |input| < 64
    ensures Absorbed(f, h0, h, Overwritten(buffer, |m| % 64, input), m + input)
  {
    var whole := m[..|m| - |m| % 64];
    assert m + input == whole + (Rest(m) + input);
    FoldWhole(f, h0, m);
    FoldRest(f, h0, whole, Rest(m) + input);
  }

  /** The first bytes of the input complete the buffered block. */
  lemma AbsorbFirst(f: (State, Block) -> State, h0: State, h: State, buffer: Block, m: seq<byte>, first: seq<byte>, block: Block)
    requires Absorbed(f, h0, h, buffer, m) && |m| % 64 + |first| == 64
    requires block == buffer[..|m| % 64] + first
    ensures f(h, block) == Fold(f, h0, m + first) && |m + first| % 64 == 0
  {
    var whole := m[..|m| - |m| % 64];
    assert m + first == whole + block;
    FoldWhole(f, h0, m);
    FoldBlock(f, h0, whole, block);
  }

  lemma AbsorbLast(f: (State, Block) -> State, h0: State, h: State, buffer: Block, m: seq<byte>, input: seq<byte>, i: nat, last: seq<byte>)
    requires i <= |input| < i + 64 && last == input[i..]
    requires h == Fold(f, h0, m + input[..i]) && (|m| + i) % 64 == 0 && buffer[..|last|] == last
    ensures Absorbed(f, h0, h, buffer, m + input)
  {
    assert m + input == m + input[..i] + last;
    FoldRest(f, h0, m + input[..i], last);
  }

  lemma EncodedNext(ws: seq<word>, i: nat)
    requires i < |ws|
    ensures Encoded(ws[..i + 1]) == Encoded(ws[..i]) + BytesOf(ws[i])
  {
    var next := ws[..i + 1];
    forall k | 0 <= k < 4 * i + 4
      ensures Encoded(next)[k] == (Encoded(ws[..i]) + BytesOf(ws[i]))[k]
    {
      EncodedAt(next, k / 4, k % 4);
    }
  }

  method Encode(input: seq<word>, output: array<byte>)
    requires output.Length == 4 * |input|
    modifies output
    ensures output[..] == Encoded(input)
  {
    var i, j := 0, 0;
    while j < output.Length
      invariant 0 <= i <= |input| && j == 4 * i
      invariant output[..j] == Encoded(input[..i])
    {
      EncodedNext(input, i);
      PutWord(input[i], output, j);
      i, j := i + 1, j + 4;
    }
    assert input[..i] == input && output[..j] == output[..];
  }

  /** The four assignments of the loop body. */
  method PutWord(w: word, output: array<byte>, j: nat)
    requires j + 4 <= output.Length
    modifies output
    ensures output[..j + 4] == old(output[..j]) + BytesOf(w)
  {
    var w8 := w / 0x100;
    var w16 := w8 / 0x100;
    var w24 := w16 / 0x100;
    output[j] := w % 0x100;
    output[j + 1] := w8 % 0x100;
    output[j + 2] := w16 % 0x100;
    output[j + 3] := w24 % 0x100;
  }

  method Decode(input: seq<byte>, output: array<word>)
    requires |input| == 4 * output.Length
    modifies output
    ensures output[..] == Decoded(input)
  {
    var i, j := 0, 0;
    while j < |input|
      invariant 0 <= i <= output.Length && j == 4 * i
      invariant forall k :: 0 <= k < i ==> output[k] == Decoded(input)[k]
    {
      output[i] := WordAt(input, j);
      i, j := i + 1, j + 4;
    }
  }

  /** memcpy into a byte array. */
  method CopyTo(dst: array<byte>, at: nat, src: seq<byte>)
    requires at + |src| <= dst.Length
    modifies dst
    ensures dst[..] == old(dst[..at]) + src + old(dst[at + |src|..])
  {
    forall k | 0 <= k < |src| {
      dst[at + k] := src[k];
    }
  }

  method CopyToFront(dst: array<byte>, src: seq<byte>)
    requires |src| <= dst.Length
    modifies dst
    ensures dst[..] == src + old(dst[..])[|src|..] && dst[..|src|] == src
  {
    CopyTo(dst, 0, src);
  }

  /** f is the compression function. The trigger keeps the verifier from computing Compress
      unless a pair is marked. */
  ghost predicate Compresses(f: (State, Block) -> State) {
    forall h, b {:trigger Marked(h, b)} :: Marked(h, b) ==> f(h, b) == Compress(h, b)
  }

  ghost predicate Marked(h: State, b: Block) { true }

  /** The 64 steps of transform, before the final additions. */
  method RunSteps(ghost f: (State, Block) -> State, h: State, block: Block, x: seq<word>) returns (r: State)
    requires Compresses(f) && x == Decoded(block)
    ensures f(h, block) == Raised(h, r)
  {
    r := Stepped(h, x);
    assert Marked(h, block);
  }

  class MD5 {
    var finished: bool
    const state: array<word>
    const count: array<word>
    const buffer: array<byte>
    const digest: array<byte>
    ghost var fed: seq<byte>
    ghost const f: (State, Block) -> State
    ghost const initial: State

    ghost predicate Sized() {
      && state.Length == 4 && count.Length == 2 && buffer.Length == 64 && digest.Length == 16
      && state != count && buffer != digest
      && state as object !in {buffer, digest} && count as object !in {buffer, digest} && Compresses(f)
    }

    /** The object stands for the bytes fed to it. It is never `finished` between calls. */
    ghost predicate Fed()
      reads this, state, count, buffer
    {
      && Sized()
      && count[..] == BitCount(|fed|) && Absorbed(f, initial, state[..], buffer[..], fed)
    }

    ghost predicate Valid()
      reads this, state, count, buffer
    {
      Fed() && !finished
    }

    method Transform(block: seq<byte>)
      requires Sized() && |block| == 64
      modifies state
      ensures state[..] == f(old(state[..]), block)
    {
      ghost var h := state[..];
      var x := new word[16];
      Decode(block, x);
      var r := RunSteps(f, state[..], block, x[..]);
      state[0] := (state[0] + r[0]) % M;
      state[1] := (state[1] + r[1]) % M;
      state[2] := (state[2] + r[2]) % M;
      state[3] := (state[3] + r[3]) % M;
      assert state[..] == f(h, block);
    }

    /** Counts the bits of len more bytes. */
    method AddCount(len: nat)
      requires Sized() && count[..] == BitCount(|fed|) && len < M
      modifies count
      ensures count[..] == BitCount(|fed| + len)
    {
      CountAdds(|fed|, len);
      var add := 8 * len % M;
      count[0] := (count[0] + add) % M;
      if count[0] < add {
        count[1] := (count[1] + 1) % M;
      }
      count[1] := (count[1] + len / 0x2000_0000) % M;
    }

    /** Feeds more bytes: whole blocks are compressed, the rest waits in the buffer. */
    method Init(input: seq<byte>)
      requires Fed() && |input| < M - 64
      modifies this, state, count, buffer
      ensures Valid() && fed == old(fed) + input
      ensures buffer[..] == Overwritten(old(buffer[..]), old(|fed|) % 64, input)
    {
      finished := false;
      CountTells(|fed|);
      var index := count[0] / 8 % 64;
      AddCount(|input|);
      Feed(index, input);
      fed := fed + input;
    }

    /** Transforms as many times as possible and buffers what remains. */
    method Feed(index: nat, input: seq<byte>)
      requires Sized() && Absorbed(f, initial, state[..], buffer[..], fed)
      requires index == |fed| % 64 && |input| < M - 64
      modifies state, buffer
      ensures buffer[..] == Overwritten(old(buffer[..]), index, input)
      ensures Absorbed(f, initial, state[..], buffer[..], fed + input)
    {
      var partLen := 64 - index;
      if |input| >= partLen {
        FeedLong(index, input);
      } else {
        FeedShort(index, input);
      }
    }

    /** The else part of Feed, where no block is completed. */
    method FeedShort(index: nat, input: seq<byte>)
      requires Sized() && Absorbed(f, initial, state[..], buffer[..], fed)
      requires index == |fed| % 64 && |input| < 64 - index
      modifies buffer
      ensures buffer[..] == Overwritten(old(buffer[..]), index, input)
      ensures Absorbed(f, initial, state[..], buffer[..], fed + input)
    {
      AbsorbShort(f, initial, state[..], buffer[..], fed, input);
      CopyTo(buffer, index, input);
    }

    /** The other part: transforms as many blocks as possible and buffers the rest. */
    method FeedLong(index: nat, input: seq<byte>)
      requires Sized() && Absorbed(f, initial, state[..], buffer[..], fed)
      requires index == |fed| % 64 && 64 - index <= |input| < M - 64
      modifies state, buffer
      ensures buffer[..] == Overwritten(old(buffer[..]), index, input)
      ensures Absorbed(f, initial, state[..], buffer[..], fed + input)
    {
      ghost var before := buffer[..];
      var i := FeedBlocks(index, input);
      ghost var done := buffer[..];
      var last := input[i..];
      CopyToFront(buffer, last);
      LastBytes(before, index, input, i, done, buffer[..]);
      AbsorbLast(f, initial, state[..], buffer[..], fed, input, i, last);
    }

    method FeedBlocks(index: nat, input: seq<byte>) returns (i: nat)
      requires Sized() && Absorbed(f, initial, state[..], buffer[..], fed)
      requires index == |fed| % 64 && 64 - index <= |input| < M - 64
      modifies state, buffer
      ensures 64 - index <= i <= |input| < i + 64 && (|fed| + i) % 64 == 0
      ensures state[..] == Fold(f, initial, fed + input[..i])
      ensures buffer[..] == old(buffer[..index]) + input[..64 - index]
    {
      var partLen := 64 - index;
      ghost var h, before := state[..], buffer[..];
      CopyTo(buffer, index, input[..partLen]);
      ghost var block := buffer[..];
      AbsorbFirst(f, initial, h, before, fed, input[..partLen], block);
      Transform(buffer[..]);
      i := FeedWhole(input, partLen);
    }

    /** The loop over the whole blocks that follow. */
    method FeedWhole(input: seq<byte>, start: nat) returns (i: nat)
      requires Sized() && start <= |input| < M - 64 && (|fed| + start) % 64 == 0
      requires state[..] == Fold(f, initial, fed + input[..start])
      modifies state
      ensures start <= i <= |input| < i + 64 && (|fed| + i) % 64 == 0
      ensures state[..] == Fold(f, initial, fed + input[..i])
    {
      i := start;
      while (i + 63) % M < |input|
        invariant start <= i <= |input| && (|fed| + i) % 64 == 0
        invariant state[..] == Fold(f, initial, fed + input[..i])
        decreases |input| - i
      {
        NextBlock(f, initial, fed, input, i);
        Transform(input[i..i + 64]);
        i := i + 64;
      }
    }

    constructor (message: seq<byte>)
      requires |message| < M - 64
      ensures Valid() && fed == message && f == Compress && initial == INITIAL
      ensures fresh(state) && fresh(count) && fresh(buffer) && fresh(digest)
    {
      finished := false;
      count := new word[2](_ => 0);
      state := new word[4](i requires 0 <= i < 4 => INITIAL[i]);
      buffer := new byte[64](_ => 0);
      digest := new byte[16](_ => 0);
      f, initial, fed := Compress, INITIAL, [];
      new;
      assert state[..] == INITIAL;
      Init(message);
    }

    /** The digest of what was fed. The padding goes through the buffer, which is not restored,
        so that the object may stand for other bytes afterwards; `finished` is reset by Init. */
    method GetDigest()
      requires Valid()
      modifies this, state, count, buffer, digest
      ensures Valid() && digest[..] == DigestBy(f, initial, old(fed))
      ensures fed == Clobbered(old(fed))
      ensures state[..] == old(state[..]) && count[..] == old(count[..])
    {
      if !finished {
        finished := true;
        ghost var m, before := fed, buffer[..];
        var bits := new byte[8];
        var oldState, oldCount := state[..], count[..];
        Encode(count[..], bits);
        CountTells(|fed|);
        var index := count[0] / 8 % 64;
        AppendPadding(index, bits[..]);
        Encode(state[..], digest);
        Restore(oldState, oldCount);
        ClobberedAbsorbed(f, initial, oldState, before, buffer[..], m);
        fed := Clobbered(m);
      }
    }

    /** Pads out to 56 modulo 64 and appends the length. */
    method AppendPadding(index: nat, bits: seq<byte>)
      requires Fed() && index == |fed| % 64 && bits == LengthBytes(|fed|)
      modifies this, state, count, buffer
      ensures Valid() && fed == Padded(old(fed))
      ensures buffer[..] == AfterPadding(old(buffer[..]), old(fed))
    {
      var padLen := PadLen(index);
      PadsTo56(|fed|);
      Init(PADDING[..padLen]);
      Init(bits);
    }

    /** The two memcpy calls that put state and count back. */
    method Restore(oldState: seq<word>, oldCount: seq<word>)
      requires Sized() && |oldState| == 4 && |oldCount| == 2
      modifies state, count
      ensures state[..] == oldState && count[..] == oldCount
    {
      forall i | 0 <= i < 4 {
        state[i] := oldState[i];
      }
      forall i | 0 <= i < 2 {
        count[i] := oldCount[i];
      }
    }
  }

  /** What the object stands for after a digest was taken. A rest of 56 bytes or more has been
      overwritten by padding zeros and the encoded length. */
  function Clobbered(m: seq<byte>): (r: seq<byte>)
    ensures |r| == |m|
  {
    if |m| % 64 < 56 then m
    else m[..|m| - |m| % 64] + (Zeros(56) + LengthBytes(|m|))[..|m| % 64]
  }

  /** The buffer after feeding the padding and then the length. */
  function AfterPadding(buffer: Block, m: seq<byte>): Block {
    Overwritten(Overwritten(buffer, |m| % 64, PADDING[..PadLen(|m| % 64)]), 56, LengthBytes(|m|))
  }

  /** Padding that stays in the block leaves the live part of the buffer alone. */
  lemma ShortPadding(before: Block, after: Block, m: seq<byte>)
    requires |m| % 64 < 56 && after == AfterPadding(before, m)
    ensures after[..|m| % 64] == before[..|m| % 64]
  {
    var index := |m| % 64;
    var mid := Overwritten(before, index, PADDING[..PadLen(index)]);
    assert mid[..index] == before[..index];
    assert after == mid[..56] + LengthBytes(|m|);
  }

  /** Padding that runs over into a second block overwrites the whole buffer. */
  lemma LongPadding(before: Block, after: Block, m: seq<byte>)
    requires |m| % 64 >= 56 && after == AfterPadding(before, m)
    ensures after == Zeros(56) + LengthBytes(|m|)
  {
    var index := |m| % 64;
    var mid := Overwritten(before, index, PADDING[..PadLen(index)]);
    assert mid[..56] == PADDING[PadLen(index) - 56..PadLen(index)] == Zeros(56);
    assert after == mid[..56] + LengthBytes(|m|);
  }

  lemma ClobberedAbsorbed(f: (State, Block) -> State, h0: State, h: State, before: Block, after: Block, m: seq<byte>)
    requires Absorbed(f, h0, h, before, m)
    requires after == AfterPadding(before, m)
    ensures Absorbed(f, h0, h, after, Clobbered(m))
  {
    if |m| % 64 < 56 {
      ShortPadding(before, after, m);
    } else {
      LongPadding(before, after, m);
      ClobberedRest(f, h0, m, m[..|m| - |m| % 64], after[..|m| % 64]);
    }
  }

  lemma ClobberedRest(f: (State, Block) -> State, h0: State, m: seq<byte>, whole: seq<byte>, rest: seq<byte>)
    requires whole == m[..|m| - |m| % 64] && |rest| == |m| % 64
    ensures Fold(f, h0, whole + rest) == Fold(f, h0, m) && Rest(whole + rest) == rest
  {
    FoldWhole(f, h0, m);
    FoldRest(f, h0, whole, rest);
  }

  /** Taking a digest again changes nothing more. */
  lemma ClobberedTwice(m: seq<byte>)
    ensures Clobbered(Clobbered(m)) == Clobbered(m)
  {
    var c, tail := Clobbered(m), (Zeros(56) + LengthBytes(|m|))[..|m| % 64];
    if |m| % 64 >= 56 {
      assert c[..|c| - |c| % 64] == m[..|m| - |m| % 64];
    }
  }

  /** When the object still stands for the same bytes after a digest. */
  lemma UnclobberedIff(m: seq<byte>)
    ensures Clobbered(m) == m <==> |m| % 64 < 56 || Rest(m) == (Zeros(56) + LengthBytes(|m|))[..|m| % 64]
  {
    var whole, tail := m[..|m| - |m| % 64], (Zeros(56) + LengthBytes(|m|))[..|m| % 64];
    assert m == whole + Rest(m);
    if |m| % 64 >= 56 && Clobbered(m) == m {
      assert Rest(m) == (whole + tail)[|whole|..] == tail;
    }
  }

  /** The second digest is taken of another padded message exactly when the object no longer stands for
      the same bytes, as whenever 56 bytes or more wait and the first of them is not 0. */
  lemma SecondDigestIff(m: seq<byte>)
    ensures Padded(Clobbered(m)) == Padded(m) <==> Clobbered(m) == m
    ensures |m| % 64 >= 56 && Rest(m)[0] != 0 ==> Clobbered(m) != m
  {
    if Padded(Clobbered(m)) == Padded(m) {
      PaddingIsInjective(Clobbered(m), m);
    }
    UnclobberedIff(m);
    if |m| % 64 >= 56 {
      assert (Zeros(56) + LengthBytes(|m|))[..|m| % 64][0] == 0;
    }
  }

  /** Such a message: 56 bytes that are not 0. */
  lemma SecondDigestDiffers()
    ensures var m := seq(56, _ => 1); Clobbered(m) != m && Padded(Clobbered(m)) != Padded(m)
  {
    var m: seq<byte> := seq(56, _ => 1);
    assert Rest(m)[0] == m[0];
    SecondDigestIff(m);
  }

  /** What the object stands for after n digests. */
  function StandsFor(m: seq<byte>, n: nat): seq<byte> {
    if n == 0 then m else Clobbered(StandsFor(m, n - 1))
  }

  lemma {:induction false} StandsSettle(m: seq<byte>, n: nat)
    ensures n >= 1 ==> StandsFor(m, n) == Clobbered(m)
    ensures |m| % 64 < 56 ==> StandsFor(m, n) == m
  {
    if n >= 1 {
      StandsSettle(m, n - 1);
      ClobberedTwice(m);
    }
  }

  /** All digests but the first agree, and the first agrees with them if the message length leaves
      room for the length field in its last block. */
  lemma DigestsSettle(m: seq<byte>, n: nat)
    ensures n >= 1 ==> Digest(StandsFor(m, n)) == Digest(Clobbered(m))
    ensures |m| % 64 < 56 ==> Digest(StandsFor(m, n)) == Digest(m)
  {
    StandsSettle(m, n);
  }

  /** The constructor followed by the first getDigest. */
  method Hash(message: seq<byte>) returns (d: seq<byte>)
    requires |message| < M - 64
    ensures d == Digest(message)
  {
    var md5 := new MD5(message);
    md5.GetDigest();
    d := md5.digest[..];
  }

  /** Objects that were fed the same bytes, in whatever pieces, hold the same state, count and
      live part of the buffer. */
  lemma FedDetermines(a: MD5, b: MD5)
    requires a.Fed() && b.Fed() && a.fed == b.fed && a.f == b.f && a.initial == b.initial
    ensures a.state[..] == b.state[..] && a.count[..] == b.count[..]
    ensures a.buffer[..|a.fed| % 64] == b.buffer[..|b.fed| % 64]
  {
    assert a.buffer[..][..|a.fed| % 64] == a.buffer[..|a.fed| % 64];
    assert b.buffer[..][..|b.fed| % 64] == b.buffer[..|b.fed| % 64];
  }

  method FeedTwice(a: MD5, x: seq<byte>, y: seq<byte>)
    requires a.Fed() && |x| < M - 64 && |y| < M - 64
    modifies a, a.state, a.count, a.buffer
    ensures a.Valid() && a.fed == old(a.fed) + (x + y)
  {
    ghost var fed := a.fed;
    a.Init(x);
    a.Init(y);
    assert fed + x + y == fed + (x + y);
  }

  /** Feeding x and then y is feeding x + y. */
  method FeedInPieces(a: MD5, b: MD5, x: seq<byte>, y: seq<byte>)
    requires a.Fed() && b.Fed() && a.fed == b.fed && a.f == b.f && a.initial == b.initial
    requires |x| + |y| < M - 64
    requires a != b && {a.state as object, a.count, a.buffer} !! {b.state as object, b.count, b.buffer}
    modifies a, a.state, a.count, a.buffer, b, b.state, b.count, b.buffer
    ensures a.Valid() && b.Valid() && a.fed == b.fed == old(a.fed) + (x + y)
    ensures a.state[..] == b.state[..] && a.count[..] == b.count[..]
    ensures a.buffer[..|a.fed| % 64] == b.buffer[..|b.fed| % 64]
  {
    FeedTwice(a, x, y);
    b.Init(x + y);
    FedDetermines(a, b);
  }

  const HEX_NUMBERS: string := "0123456789abcdef"

  function Hex(d: seq<byte>): (str: string)
    ensures |str| == 2 * |d|
  {
    if d == [] then ""
    else Hex(d[..|d| - 1]) + [HEX_NUMBERS[d[|d| - 1] / 16], HEX_NUMBERS[d[|d| - 1] % 16]]
  }

  method ToStr(digest: seq<byte>) returns (str: string)
    ensures str == Hex(digest)
  {
    str := "";
    for i := 0 to |digest|
      invariant str == Hex(digest[..i])
    {
      var t := digest[i];
      assert digest[..i + 1][..i] == digest[..i];
      str := str + [HEX_NUMBERS[t / 16]] + [HEX_NUMBERS[t % 16]];
    }
    assert digest[..|digest|] == digest;
  }

  /** Different digests print differently. */
  lemma {:induction false} HexIsInjective(d: seq<byte>, e: seq<byte>)
    requires Hex(d) == Hex(e)
    ensures d == e
  {
    if d != [] {
      var n := |d| - 1;
      assert |e| == |d|;
      assert Hex(d[..n]) == Hex(d)[..2 * n] && Hex(e[..n]) == Hex(e)[..2 * n];
      HexIsInjective(d[..n], e[..n]);
      assert HEX_NUMBERS[d[n] / 16] == Hex(d)[2 * n] && HEX_NUMBERS[d[n] % 16] == Hex(d)[2 * n + 1];
      assert HEX_NUMBERS[e[n] / 16] == Hex(e)[2 * n] && HEX_NUMBERS[e[n] % 16] == Hex(e)[2 * n + 1];
      HexDigits(d[n] / 16, e[n] / 16);
      HexDigits(d[n] % 16, e[n] % 16);
    }
  }

  lemma HexDigits(a: nat, b: nat)
    requires a < 16 && b < 16 && HEX_NUMBERS[a] == HEX_NUMBERS[b]
    ensures a == b
  {
  }
}
