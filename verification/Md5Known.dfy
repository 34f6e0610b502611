/** The digest of "abc", step by step. It ties the table, the mixing functions, the start values, the byte
    order, the padding and the final additions to numbers worked out from md5.h and md5.cpp. */
module Md5Known {
  import opened Md5

  const ABC: seq<byte> := [0x61, 0x62, 0x63]

  /** The sixteen words of its one block: the three letters and 0x80, and the length in bits. */
  predicate IsAbc(x: seq<bv32>) {
    && |x| == 16 && x[0] == 0x80636261 && x[1] == x[2] == x[3] == x[4] == x[5] == x[6] == x[7] == 0
    && x[8] == x[9] == x[10] == x[11] == x[12] == x[13] == x[15] == 0 && x[14] == 24
  }

  /** s is a course of the registers through the steps. It is asked for only where a step is named. */
  ghost predicate Follows(s: nat -> Regs, x: seq<bv32>) {
    |x| == 16 && forall i {:trigger Step(s(i), x, i)} :: 0 <= i < 64 ==> s(i + 1) == Step(s(i), x, i)
  }

  function Course(r: Regs, x: seq<bv32>): nat -> Regs
    requires |x| == 16
  {
    (n: nat) => Steps(r, x, if n <= 64 then n else 64)
  }

  lemma CourseIs(r: Regs, x: seq<bv32>, n: nat)
    requires |x| == 16 && n <= 64
    ensures Steps(r, x, n) == Course(r, x)(n)
  {
  }

  lemma CourseFollows(r: Regs, x: seq<bv32>)
    requires |x| == 16
    ensures Follows(Course(r, x), x)
  {
    var s := Course(r, x);
    forall i: nat | i < 64
      ensures s(i + 1) == Step(s(i), x, i)
    {
      CourseIs(r, x, i);
      CourseIs(r, x, i + 1);
    }
  }

  // ----- Round 1 -----

  lemma From0To2(s: nat -> Regs, x: seq<bv32>)
    requires IsAbc(x) && Follows(s, x) && s(0) == Regs(0x67452301, 0xefcdab89, 0x98badcfe, 0x10325476)
    ensures s(2) == Regs(0x98badcfe, 0x60cc2f18, 0xfd7e5b25, 0xefcdab89)
  {
    assert Step(s(0), x, 0) == Regs(0x10325476, 0xfd7e5b25, 0xefcdab89, 0x98badcfe);
    assert Step(s(1), x, 1) == Regs(0x98badcfe, 0x60cc2f18, 0xfd7e5b25, 0xefcdab89);
  }

  lemma From2To4(s: nat -> Regs, x: seq<bv32>)
    requires IsAbc(x) && Follows(s, x) && s(2) == Regs(0x98badcfe, 0x60cc2f18, 0xfd7e5b25, 0xefcdab89)
    ensures s(4) == Regs(0xfd7e5b25, 0x35d13aeb, 0xb777394e, 0x60cc2f18)
  {
    assert Step(s(2), x, 2) == Regs(0xefcdab89, 0xb777394e, 0x60cc2f18, 0xfd7e5b25);
    assert Step(s(3), x, 3) == Regs(0xfd7e5b25, 0x35d13aeb, 0xb777394e, 0x60cc2f18);
  }

  lemma From4To8(s: nat -> Regs, x: seq<bv32>)
    requires IsAbc(x) && Follows(s, x) && s(4) == Regs(0xfd7e5b25, 0x35d13aeb, 0xb777394e, 0x60cc2f18)
    ensures s(8) == Regs(0x862e0b9a, 0x49668bb0, 0xebe743b2, 0x58c61408)
  {
    assert Step(s(4), x, 4) == Regs(0x60cc2f18, 0x862e0b9a, 0x35d13aeb, 0xb777394e);
    assert Step(s(5), x, 5) == Regs(0xb777394e, 0x58c61408, 0x862e0b9a, 0x35d13aeb);
    assert Step(s(6), x, 6) == Regs(0x35d13aeb, 0xebe743b2, 0x58c61408, 0x862e0b9a);
    assert Step(s(7), x, 7) == Regs(0x862e0b9a, 0x49668bb0, 0xebe743b2, 0x58c61408);
  }

  lemma From8To16(s: nat -> Regs, x: seq<bv32>)
    requires IsAbc(x) && Follows(s, x) && s(8) == Regs(0x862e0b9a, 0x49668bb0, 0xebe743b2, 0x58c61408)
    ensures s(16) == Regs(0xea2463e0, 0x1d5833b1, 0x79f46877, 0x84d23497)
  {
    assert Step(s(8), x, 8) == Regs(0x58c61408, 0xc1bb1ed9, 0x49668bb0, 0xebe743b2);
    assert Step(s(9), x, 9) == Regs(0xebe743b2, 0x7a66d380, 0xc1bb1ed9, 0x49668bb0);
    assert Step(s(10), x, 10) == Regs(0x49668bb0, 0xff3215ae, 0x7a66d380, 0xc1bb1ed9);
    assert Step(s(11), x, 11) == Regs(0xc1bb1ed9, 0xe7260a84, 0xff3215ae, 0x7a66d380);
    assert Step(s(12), x, 12) == Regs(0x7a66d380, 0xea2463e0, 0xe7260a84, 0xff3215ae);
    assert Step(s(13), x, 13) == Regs(0xff3215ae, 0x84d23497, 0xea2463e0, 0xe7260a84);
    assert Step(s(14), x, 14) == Regs(0xe7260a84, 0x79f46877, 0x84d23497, 0xea2463e0);
    assert Step(s(15), x, 15) == Regs(0xea2463e0, 0x1d5833b1, 0x79f46877, 0x84d23497);
  }

  // ----- Round 2 -----

  lemma From16To18(s: nat -> Regs, x: seq<bv32>)
    requires IsAbc(x) && Follows(s, x) && s(16) == Regs(0xea2463e0, 0x1d5833b1, 0x79f46877, 0x84d23497)
    ensures s(18) == Regs(0x79f46877, 0x6aff514e, 0xd4387a1c, 0x1d5833b1)
  {
    assert Step(s(16), x, 16) == Regs(0x84d23497, 0xd4387a1c, 0x1d5833b1, 0x79f46877);
    assert Step(s(17), x, 17) == Regs(0x79f46877, 0x6aff514e, 0xd4387a1c, 0x1d5833b1);
  }

  lemma From18To20(s: nat -> Regs, x: seq<bv32>)
    requires IsAbc(x) && Follows(s, x) && s(18) == Regs(0x79f46877, 0x6aff514e, 0xd4387a1c, 0x1d5833b1)
    ensures s(20) == Regs(0xd4387a1c, 0xc1e0921c, 0x31f46b80, 0x6aff514e)
  {
    assert Step(s(18), x, 18) == Regs(0x1d5833b1, 0x31f46b80, 0x6aff514e, 0xd4387a1c);
    assert Step(s(19), x, 19) == Regs(0xd4387a1c, 0xc1e0921c, 0x31f46b80, 0x6aff514e);
  }

  lemma From20To24(s: nat -> Regs, x: seq<bv32>)
    requires IsAbc(x) && Follows(s, x) && s(20) == Regs(0xd4387a1c, 0xc1e0921c, 0x31f46b80, 0x6aff514e)
    ensures s(24) == Regs(0x4ad932db, 0x48621783, 0x6fbfc2a2, 0x7309ad37)
  {
    assert Step(s(20), x, 20) == Regs(0x6aff514e, 0x4ad932db, 0xc1e0921c, 0x31f46b80);
    assert Step(s(21), x, 21) == Regs(0x31f46b80, 0x7309ad37, 0x4ad932db, 0xc1e0921c);
    assert Step(s(22), x, 22) == Regs(0xc1e0921c, 0x6fbfc2a2, 0x7309ad37, 0x4ad932db);
    assert Step(s(23), x, 23) == Regs(0x4ad932db, 0x48621783, 0x6fbfc2a2, 0x7309ad37);
  }

  lemma From24To32(s: nat -> Regs, x: seq<bv32>)
    requires IsAbc(x) && Follows(s, x) && s(24) == Regs(0x4ad932db, 0x48621783, 0x6fbfc2a2, 0x7309ad37)
    ensures s(32) == Regs(0xc74626b8, 0x6e48c248, 0xd62bd465, 0x9180759c)
  {
    assert Step(s(24), x, 24) == Regs(0x7309ad37, 0x768b201a, 0x48621783, 0x6fbfc2a2);
    assert Step(s(25), x, 25) == Regs(0x6fbfc2a2, 0x8e1f7154, 0x768b201a, 0x48621783);
    assert Step(s(26), x, 26) == Regs(0x48621783, 0x8e6fda1c, 0x8e1f7154, 0x768b201a);
    assert Step(s(27), x, 27) == Regs(0x768b201a, 0x6b3197d3, 0x8e6fda1c, 0x8e1f7154);
    assert Step(s(28), x, 28) == Regs(0x8e1f7154, 0xc74626b8, 0x6b3197d3, 0x8e6fda1c);
    assert Step(s(29), x, 29) == Regs(0x8e6fda1c, 0x9180759c, 0xc74626b8, 0x6b3197d3);
    assert Step(s(30), x, 30) == Regs(0x6b3197d3, 0xd62bd465, 0x9180759c, 0xc74626b8);
    assert Step(s(31), x, 31) == Regs(0xc74626b8, 0x6e48c248, 0xd62bd465, 0x9180759c);
  }

  // ----- Round 3 -----

  lemma From32To34(s: nat -> Regs, x: seq<bv32>)
    requires IsAbc(x) && Follows(s, x) && s(32) == Regs(0xc74626b8, 0x6e48c248, 0xd62bd465, 0x9180759c)
    ensures s(34) == Regs(0xd62bd465, 0x533f3795, 0x8084fd07, 0x6e48c248)
  {
    assert Step(s(32), x, 32) == Regs(0x9180759c, 0x8084fd07, 0x6e48c248, 0xd62bd465);
    assert Step(s(33), x, 33) == Regs(0xd62bd465, 0x533f3795, 0x8084fd07, 0x6e48c248);
  }

  lemma From34To36(s: nat -> Regs, x: seq<bv32>)
    requires IsAbc(x) && Follows(s, x) && s(34) == Regs(0xd62bd465, 0x533f3795, 0x8084fd07, 0x6e48c248)
    ensures s(36) == Regs(0x8084fd07, 0xa9775e48, 0x91a03951, 0x533f3795)
  {
    assert Step(s(34), x, 34) == Regs(0x6e48c248, 0x91a03951, 0x533f3795, 0x8084fd07);
    assert Step(s(35), x, 35) == Regs(0x8084fd07, 0xa9775e48, 0x91a03951, 0x533f3795);
  }

  lemma From36To40(s: nat -> Regs, x: seq<bv32>)
    requires IsAbc(x) && Follows(s, x) && s(36) == Regs(0x8084fd07, 0xa9775e48, 0x91a03951, 0x533f3795)
    ensures s(40) == Regs(0xbc3adbc1, 0xbdb04a19, 0xa8752452, 0x1a5b8ce1)
  {
    assert Step(s(36), x, 36) == Regs(0x533f3795, 0xbc3adbc1, 0xa9775e48, 0x91a03951);
    assert Step(s(37), x, 37) == Regs(0x91a03951, 0x1a5b8ce1, 0xbc3adbc1, 0xa9775e48);
    assert Step(s(38), x, 38) == Regs(0xa9775e48, 0xa8752452, 0x1a5b8ce1, 0xbc3adbc1);
    assert Step(s(39), x, 39) == Regs(0xbc3adbc1, 0xbdb04a19, 0xa8752452, 0x1a5b8ce1);
  }

  lemma From40To48(s: nat -> Regs, x: seq<bv32>)
    requires IsAbc(x) && Follows(s, x) && s(40) == Regs(0xbc3adbc1, 0xbdb04a19, 0xa8752452, 0x1a5b8ce1)
    ensures s(48) == Regs(0x73af9358, 0xc69849ea, 0x7ed6b24a, 0x08619b0b)
  {
    assert Step(s(40), x, 40) == Regs(0x1a5b8ce1, 0x05041d38, 0xbdb04a19, 0xa8752452);
    assert Step(s(41), x, 41) == Regs(0xa8752452, 0x115999e9, 0x05041d38, 0xbdb04a19);
    assert Step(s(42), x, 42) == Regs(0xbdb04a19, 0x34f8c13b, 0x115999e9, 0x05041d38);
    assert Step(s(43), x, 43) == Regs(0x05041d38, 0xb96a3011, 0x34f8c13b, 0x115999e9);
    assert Step(s(44), x, 44) == Regs(0x115999e9, 0x73af9358, 0xb96a3011, 0x34f8c13b);
    assert Step(s(45), x, 45) == Regs(0x34f8c13b, 0x08619b0b, 0x73af9358, 0xb96a3011);
    assert Step(s(46), x, 46) == Regs(0xb96a3011, 0x7ed6b24a, 0x08619b0b, 0x73af9358);
    assert Step(s(47), x, 47) == Regs(0x73af9358, 0xc69849ea, 0x7ed6b24a, 0x08619b0b);
  }

  // ----- Round 4 -----

  lemma From48To50(s: nat -> Regs, x: seq<bv32>)
    requires IsAbc(x) && Follows(s, x) && s(48) == Regs(0x73af9358, 0xc69849ea, 0x7ed6b24a, 0x08619b0b)
    ensures s(50) == Regs(0x7ed6b24a, 0xf71934f9, 0x27d63646, 0xc69849ea)
  {
    assert Step(s(48), x, 48) == Regs(0x08619b0b, 0x27d63646, 0xc69849ea, 0x7ed6b24a);
    assert Step(s(49), x, 49) == Regs(0x7ed6b24a, 0xf71934f9, 0x27d63646, 0xc69849ea);
  }

  lemma From50To52(s: nat -> Regs, x: seq<bv32>)
    requires IsAbc(x) && Follows(s, x) && s(50) == Regs(0x7ed6b24a, 0xf71934f9, 0x27d63646, 0xc69849ea)
    ensures s(52) == Regs(0x27d63646, 0xcf354859, 0x227b3683, 0xf71934f9)
  {
    assert Step(s(50), x, 50) == Regs(0xc69849ea, 0x227b3683, 0xf71934f9, 0x27d63646);
    assert Step(s(51), x, 51) == Regs(0x27d63646, 0xcf354859, 0x227b3683, 0xf71934f9);
  }

  lemma From52To56(s: nat -> Regs, x: seq<bv32>)
    requires IsAbc(x) && Follows(s, x) && s(52) == Regs(0x27d63646, 0xcf354859, 0x227b3683, 0xf71934f9)
    ensures s(56) == Regs(0x7ed8c1b7, 0xa6964267, 0x1165fae4, 0xbce58893)
  {
    assert Step(s(52), x, 52) == Regs(0xf71934f9, 0x7ed8c1b7, 0xcf354859, 0x227b3683);
    assert Step(s(53), x, 53) == Regs(0x227b3683, 0xbce58893, 0x7ed8c1b7, 0xcf354859);
    assert Step(s(54), x, 54) == Regs(0xcf354859, 0x1165fae4, 0xbce58893, 0x7ed8c1b7);
    assert Step(s(55), x, 55) == Regs(0x7ed8c1b7, 0xa6964267, 0x1165fae4, 0xbce58893);
  }

  lemma From56To64(s: nat -> Regs, x: seq<bv32>)
    requires IsAbc(x) && Follows(s, x) && s(56) == Regs(0x7ed8c1b7, 0xa6964267, 0x1165fae4, 0xbce58893)
    ensures s(64) == Regs(0x20d3c076, 0xe7d48d64, 0x856277f5, 0x40c1cc2a)
  {
    assert Step(s(56), x, 56) == Regs(0xbce58893, 0x05c9a6e0, 0xa6964267, 0x1165fae4);
    assert Step(s(57), x, 57) == Regs(0x1165fae4, 0x871de2f1, 0x05c9a6e0, 0xa6964267);
    assert Step(s(58), x, 58) == Regs(0xa6964267, 0x52a6aa7e, 0x871de2f1, 0x05c9a6e0);
    assert Step(s(59), x, 59) == Regs(0x05c9a6e0, 0x0574f3ab, 0x52a6aa7e, 0x871de2f1);
    assert Step(s(60), x, 60) == Regs(0x871de2f1, 0x20d3c076, 0x0574f3ab, 0x52a6aa7e);
    assert Step(s(61), x, 61) == Regs(0x52a6aa7e, 0x40c1cc2a, 0x20d3c076, 0x0574f3ab);
    assert Step(s(62), x, 62) == Regs(0x0574f3ab, 0x856277f5, 0x40c1cc2a, 0x20d3c076);
    assert Step(s(63), x, 63) == Regs(0x20d3c076, 0xe7d48d64, 0x856277f5, 0x40c1cc2a);
  }

  // ----- The digest -----

  lemma AllSteps(s: nat -> Regs, x: seq<bv32>)
    requires IsAbc(x) && Follows(s, x) && s(0) == Regs(0x67452301, 0xefcdab89, 0x98badcfe, 0x10325476)
    ensures s(64) == Regs(0x20d3c076, 0xe7d48d64, 0x856277f5, 0x40c1cc2a)
  {
    From0To2(s, x);
    From2To4(s, x);
    From4To8(s, x);
    From8To16(s, x);
    From16To18(s, x);
    From18To20(s, x);
    From20To24(s, x);
    From24To32(s, x);
    From32To34(s, x);
    From34To36(s, x);
    From36To40(s, x);
    From40To48(s, x);
    From48To50(s, x);
    From50To52(s, x);
    From52To56(s, x);
    From56To64(s, x);
  }

  lemma StepsOfAbc(r: Regs, x: seq<bv32>)
    requires IsAbc(x) && r == Regs(0x67452301, 0xefcdab89, 0x98badcfe, 0x10325476)
    ensures Steps(r, x, 64) == Regs(0x20d3c076, 0xe7d48d64, 0x856277f5, 0x40c1cc2a)
  {
    CourseFollows(r, x);
    CourseIs(r, x, 0);
    AllSteps(Course(r, x), x);
    CourseIs(r, x, 64);
  }

  lemma AbcPadded(p: seq<byte>)
    requires p == Padded(ABC)
    ensures |p| == 64 && p[0] == 0x61 && p[1] == 0x62 && p[2] == 0x63 && p[3] == 0x80 && p[56] == 24
    ensures forall k :: 4 <= k < 64 && k != 56 ==> p[k] == 0
  {
    var l := LengthBytes(3);
    assert BitCount(3) == [24, 0];
    EncodedAt(BitCount(3), 0, 0);
    assert forall k :: 0 <= k < 8 ==> l[k] == BytesOf(BitCount(3)[k / 4])[k % 4];
    assert p == ABC + PADDING[..53] + l;
  }

  lemma AbcWords(p: seq<byte>, ws: seq<word>)
    requires p == Padded(ABC) && |p| == 64 && ws == Decoded(p)
    ensures ws[0] == 0x80636261 && ws[14] == 24 && forall k :: 1 <= k < 16 && k != 14 ==> ws[k] == 0
  {
    AbcPadded(p);
  }

  lemma Conversions()
    ensures AsBits(0x80636261) == 0x80636261 && AsBits(24) == 24 && AsBits(0) == 0
    ensures AsBits(0x67452301) == 0x67452301 && AsBits(0xefcdab89) == 0xefcdab89
    ensures AsBits(0x98badcfe) == 0x98badcfe && AsBits(0x10325476) == 0x10325476
  {
  }

  lemma Start(h: State, ws: seq<word>)
    requires h == INITIAL && |ws| == 16
    requires ws[0] == 0x80636261 && ws[14] == 24 && forall k :: 1 <= k < 16 && k != 14 ==> ws[k] == 0
    ensures Loaded(h) == Regs(0x67452301, 0xefcdab89, 0x98badcfe, 0x10325476) && IsAbc(Bits(ws))
  {
    Conversions();
  }

  lemma End(h: State, r: Regs)
    requires h == INITIAL && r == Regs(0x20d3c076, 0xe7d48d64, 0x856277f5, 0x40c1cc2a)
    ensures Raised(h, Unloaded(r)) == [0x8818e377, 0xd7a238ed, 0x1e1d54f3, 0x50f420a0]
  {
  }

  lemma CompressAbc(h: State, p: Block, ws: seq<word>)
    requires h == INITIAL && p == Padded(ABC) && ws == Decoded(p)
    ensures Compress(h, p) == [0x8818e377, 0xd7a238ed, 0x1e1d54f3, 0x50f420a0]
  {
    AbcWords(p, ws);
    Start(h, ws);
    StepsOfAbc(Loaded(h), Bits(ws));
    End(h, Steps(Loaded(h), Bits(ws), 64));
  }

  lemma OneBlock(f: (State, Block) -> State, h: State, m: seq<byte>, p: Block, c: State)
    requires p == Padded(m) && c == f(h, p)
    ensures DigestBy(f, h, m) == Encoded(c)
  {
    FoldBlock(f, h, [], p);
    assert [] + p == p;
  }

  lemma DigestBytes(h: State, b: seq<byte>)
    requires h == [0x8818e377, 0xd7a238ed, 0x1e1d54f3, 0x50f420a0] && b == Encoded(h)
    ensures b[0..4] == [0x77, 0xe3, 0x18, 0x88]
    ensures b[4..8] == [0xed, 0x38, 0xa2, 0xd7]
    ensures b[8..12] == [0xf3, 0x54, 0x1d, 0x1e]
    ensures b[12..16] == [0xa0, 0x20, 0xf4, 0x50]
  {
    BytesAt(h, 0, [0x77, 0xe3, 0x18, 0x88]);
    BytesAt(h, 1, [0xed, 0x38, 0xa2, 0xd7]);
    BytesAt(h, 2, [0xf3, 0x54, 0x1d, 0x1e]);
    BytesAt(h, 3, [0xa0, 0x20, 0xf4, 0x50]);
  }

  lemma BytesAt(ws: seq<word>, i: nat, b: seq<byte>)
    requires i < |ws| && |b| == 4 && WordAt(b, 0) == ws[i]
    ensures Encoded(ws)[4 * i..4 * i + 4] == b
  {
    BytesOfWord(b, 0);
    forall j | 0 <= j < 4
      ensures Encoded(ws)[4 * i + j] == BytesOf(ws[i])[j]
    {
      EncodedAt(ws, i, j);
    }
  }

  lemma {:induction false} HexJoins(d: seq<byte>, e: seq<byte>)
    ensures Hex(d + e) == Hex(d) + Hex(e)
  {
    if e == [] {
      assert d + e == d;
    } else {
      var n := |e| - 1;
      assert (d + e)[..|d + e| - 1] == d + e[..n];
      HexJoins(d, e[..n]);
    }
  }

  lemma HexOfTwo(a: byte, b: byte)
    ensures Hex([a, b]) == [HEX_NUMBERS[a / 16], HEX_NUMBERS[a % 16], HEX_NUMBERS[b / 16], HEX_NUMBERS[b % 16]]
  {
    assert [a, b][..1] == [a] && [a][..0] == [];
    assert Hex([a]) == [HEX_NUMBERS[a / 16], HEX_NUMBERS[a % 16]];
  }

  lemma HexOfFour(a: byte, b: byte, c: byte, d: byte)
    ensures Hex([a, b, c, d])
         == [HEX_NUMBERS[a / 16], HEX_NUMBERS[a % 16], HEX_NUMBERS[b / 16], HEX_NUMBERS[b % 16],
             HEX_NUMBERS[c / 16], HEX_NUMBERS[c % 16], HEX_NUMBERS[d / 16], HEX_NUMBERS[d % 16]]
  {
    HexOfTwo(a, b);
    HexOfTwo(c, d);
    HexJoins([a, b], [c, d]);
    assert [a, b] + [c, d] == [a, b, c, d];
  }

  lemma HexOfWords()
    ensures Hex([0x77, 0xe3, 0x18, 0x88]) == "77e31888"
    ensures Hex([0xed, 0x38, 0xa2, 0xd7]) == "ed38a2d7"
    ensures Hex([0xf3, 0x54, 0x1d, 0x1e]) == "f3541d1e"
    ensures Hex([0xa0, 0x20, 0xf4, 0x50]) == "a020f450"
  {
    HexOfFour(0x77, 0xe3, 0x18, 0x88);
    HexOfFour(0xed, 0x38, 0xa2, 0xd7);
    HexOfFour(0xf3, 0x54, 0x1d, 0x1e);
    HexOfFour(0xa0, 0x20, 0xf4, 0x50);
  }

  lemma HexOfFourWords(d: seq<byte>, a: seq<byte>, b: seq<byte>, c: seq<byte>, e: seq<byte>)
    requires d == a + b + c + e
    ensures Hex(d) == Hex(a) + Hex(b) + Hex(c) + Hex(e)
  {
    HexJoins(a, b);
    HexJoins(a + b, c);
    HexJoins(a + b + c, e);
  }

  lemma Printed(d: seq<byte>, c: State)
    requires c == [0x8818e377, 0xd7a238ed, 0x1e1d54f3, 0x50f420a0] && d == Encoded(c)
    ensures Hex(d) == "77e31888" + "ed38a2d7" + "f3541d1e" + "a020f450"
  {
    DigestBytes(c, d);
    HexOfFourWords(d, d[0..4], d[4..8], d[8..12], d[12..16]);
    HexOfWords();
  }

  /** The digest of "abc", as toStr prints it. */
  lemma DigestOfAbc()
    ensures Hex(Digest(ABC)) == "77e31888" + "ed38a2d7" + "f3541d1e" + "a020f450"
  {
    var p := Padded(ABC);
    AbcPadded(p);
    var c := Compress(INITIAL, p);
    CompressAbc(INITIAL, p, Decoded(p));
    OneBlock(Compress, INITIAL, ABC, p, c);
    Printed(Digest(ABC), c);
  }
}
