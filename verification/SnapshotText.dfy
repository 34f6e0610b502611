/** The text form of a market snapshot: MarketSnapshot::Show of external/common prints a line, and
    DataGener::HandleSnapshot of src/simtrade/simdata reads one back. Integers are printed and read
    digit by digit; printing and reading of floating-point numbers are parameters. */
module SnapshotText {
  // ----- Splitting and joining -----

  predicate Free(s: string, c: char) { c !in s }

  /** The pieces between separators: one more than there are separators. */
  function Pieces(s: string, c: char): (ps: seq<string>)
    ensures |ps| >= 1 && forall i :: 0 <= i < |ps| ==> Free(ps[i], c)
  {
    if s == "" then [""]
    else
      var ps, last := Pieces(s[..|s| - 1], c), s[|s| - 1];
      if last == c then ps + [""] else ps[..|ps| - 1] + [ps[|ps| - 1] + [last]]
  }

  function Join(ps: seq<string>, c: char): string
    requires ps != []
  {
    if |ps| == 1 then ps[0] else Join(ps[..|ps| - 1], c) + [c] + ps[|ps| - 1]
  }

  lemma JoinAppend(ps: seq<string>, p: string, c: char)
    requires ps != []
    ensures Join(ps + [p], c) == Join(ps, c) + [c] + p
  {
    assert (ps + [p])[..|ps|] == ps;
  }

  /** Lengthening the last piece lengthens the whole. */
  lemma JoinExtend(ps: seq<string>, p: string, q: string, c: char)
    ensures Join(ps + [p + q], c) == Join(ps + [p], c) + q
  {
    if ps == [] {
      assert ps + [p + q] == [p + q] && ps + [p] == [p];
    } else {
      JoinAppend(ps, p + q, c);
      JoinAppend(ps, p, c);
    }
  }

  lemma {:induction false} JoinOfPieces(s: string, c: char)
    ensures Join(Pieces(s, c), c) == s
  {
    if s != "" {
      var n := |s| - 1;
      var ps := Pieces(s[..n], c);
      JoinOfPieces(s[..n], c);
      assert s == s[..n] + [s[n]];
      if s[n] == c {
        JoinAppend(ps, "", c);
      } else {
        JoinExtend(ps[..|ps| - 1], ps[|ps| - 1], [s[n]], c);
        assert ps[..|ps| - 1] + [ps[|ps| - 1]] == ps;
      }
    }
  }

  lemma {:induction false} PiecesGrow(s: string, p: string, c: char)
    requires Free(p, c)
    ensures var ps := Pieces(s, c); Pieces(s + p, c) == ps[..|ps| - 1] + [ps[|ps| - 1] + p]
  {
    var ps := Pieces(s, c);
    if p == "" {
      assert s + p == s && ps[|ps| - 1] + p == ps[|ps| - 1];
    } else {
      var n := |p| - 1;
      PiecesGrow(s, p[..n], c);
      assert (s + p)[..|s + p| - 1] == s + p[..n] && (s + p)[|s + p| - 1] == p[n];
      assert p[n] in p;
      assert ps[|ps| - 1] + p == ps[|ps| - 1] + p[..n] + [p[n]];
    }
  }

  lemma OnePiece(a: string, c: char)
    requires Free(a, c)
    ensures Pieces(a, c) == [a]
  {
    PiecesGrow("", a, c);
    assert "" + a == a;
  }

  /** A separator ends the last piece, and what follows is a piece of its own. */
  lemma PieceAfter(s: string, p: string, c: char)
    requires Free(p, c)
    ensures Pieces(s + [c] + p, c) == Pieces(s, c) + [p]
  {
    var ps := Pieces(s, c);
    assert (s + [c])[..|s|] == s;
    assert Pieces(s + [c], c) == ps + [""];
    PiecesGrow(s + [c], p, c);
    assert "" + p == p && (ps + [""])[..|ps|] == ps;
  }

  /** A splitter that takes a string without separators whole, and what follows a separator as a piece
      of its own, takes a join apart again. */
  lemma {:induction false} SplitOfJoin(f: string -> seq<string>, ps: seq<string>, c: char)
    requires ps != [] && forall i :: 0 <= i < |ps| ==> Free(ps[i], c)
    requires forall p {:trigger f(p)} :: Free(p, c) ==> f(p) == [p]
    requires forall s, p {:trigger f(s + [c] + p)} :: Free(p, c) ==> f(s + [c] + p) == f(s) + [p]
    ensures f(Join(ps, c)) == ps
  {
    var n := |ps| - 1;
    if n > 0 {
      SplitOfJoin(f, ps[..n], c);
      assert Join(ps, c) == Join(ps[..n], c) + [c] + ps[n];
    }
  }

  lemma PiecesOfJoin(ps: seq<string>, c: char)
    requires ps != [] && forall i :: 0 <= i < |ps| ==> Free(ps[i], c)
    ensures Pieces(Join(ps, c), c) == ps
  {
    var f := (s: string) => Pieces(s, c);
    forall p | Free(p, c)
      ensures f(p) == [p]
    {
      OnePiece(p, c);
    }
    forall s, p | Free(p, c)
      ensures f(s + [c] + p) == f(s) + [p]
    {
      PieceAfter(s, p, c);
    }
    SplitOfJoin(f, ps, c);
  }

  // ----- Integers -----

  function Digit(d: nat): char
    requires d < 10
  {
    ("0123456789")[d]
  }

  predicate IsDigit(c: char) { '0' <= c <= '9' }

  function Value(c: char): nat
    requires IsDigit(c)
  {
    c as int - '0' as int
  }

  function Digits(n: nat): (s: string)
    ensures s != "" && forall c :: c in s ==> IsDigit(c)
  {
    if n < 10 then [Digit(n)] else Digits(n / 10) + [Digit(n % 10)]
  }

  /** %d */
  function Decimal(n: int): string { if n < 0 then "-" + Digits(-n) else Digits(n) }

  function Fill(c: char, n: int): (s: string)
    ensures forall k :: k in s ==> k == c
  {
    if n <= 0 then "" else [c] + Fill(c, n - 1)
  }

  /** %3d */
  function Padded(n: int): string { Fill(' ', 3 - |Decimal(n)|) + Decimal(n) }

  /** %06ld */
  function ZeroPadded(n: int): string {
    if n < 0 then "-" + Fill('0', 5 - |Digits(-n)|) + Digits(-n) else Fill('0', 6 - |Digits(n)|) + Digits(n)
  }

  predicate IsSpace(c: char) { c == ' ' || '\t' <= c <= '\r' }

  function ReadDigits(s: string, acc: nat): nat {
    if s == "" || !IsDigit(s[0]) then acc else ReadDigits(s[1..], acc * 10 + Value(s[0]))
  }

  /** atoi: white space, a sign, and as many digits as there are. */
  function Atoi(s: string): int
    decreases |s|
  {
    if s == "" then 0
    else if IsSpace(s[0]) then Atoi(s[1..])
    else if s[0] == '-' then 0 - ReadDigits(s[1..], 0)
    else if s[0] == '+' then ReadDigits(s[1..], 0)
    else ReadDigits(s, 0)
  }

  function DigitsValue(s: string, acc: nat): nat
    requires forall c :: c in s ==> IsDigit(c)
  {
    if s == "" then acc else DigitsValue(s[..|s| - 1], acc) * 10 + Value(s[|s| - 1])
  }

  lemma {:induction false} ReadAll(s: string, rest: string, acc: nat)
    requires forall c :: c in s ==> IsDigit(c)
    ensures ReadDigits(s + rest, acc) == ReadDigits(rest, DigitsValue(s, acc))
  {
    if s == "" {
      assert s + rest == rest;
    } else {
      var n := |s| - 1;
      var d := s[n];
      assert s + rest == s[..n] + ([d] + rest);
      ReadAll(s[..n], [d] + rest, acc);
      assert ([d] + rest)[1..] == rest;
    }
  }

  lemma {:induction false} ValueOfDigits(n: nat)
    ensures DigitsValue(Digits(n), 0) == n
  {
    if n >= 10 {
      ValueOfDigits(n / 10);
      assert Digits(n)[..|Digits(n)| - 1] == Digits(n / 10);
    } else {
      assert Digits(n)[..0] == "";
    }
  }

  predicate Ends(rest: string) { rest == "" || !IsDigit(rest[0]) }

  lemma ReadBack(n: nat, rest: string)
    requires Ends(rest)
    ensures ReadDigits(Digits(n) + rest, 0) == n
  {
    ReadAll(Digits(n), rest, 0);
    ValueOfDigits(n);
  }

  /** A digit is neither white space nor a sign. */
  lemma AtoiOfDigits(ds: string, rest: string)
    requires ds != "" && IsDigit(ds[0])
    ensures Atoi(ds + rest) == ReadDigits(ds + rest, 0)
    ensures Atoi("-" + ds + rest) == 0 - ReadDigits(ds + rest, 0)
  {
    assert (ds + rest)[0] == ds[0];
    assert ("-" + ds + rest)[0] == '-' && ("-" + ds + rest)[1..] == ds + rest;
  }

  /** Reading a printed integer gives it back, whatever follows it. */
  lemma AtoiOfDecimal(n: int, rest: string)
    requires Ends(rest)
    ensures Atoi(Decimal(n) + rest) == n
  {
    var ds := Digits(if n < 0 then -n else n);
    ReadBack(if n < 0 then -n else n, rest);
    assert ds[0] in ds;
    AtoiOfDigits(ds, rest);
  }

  lemma {:induction false} AtoiSkipsSpaces(k: int, s: string)
    ensures Atoi(Fill(' ', k) + s) == Atoi(s)
  {
    if k > 0 {
      AtoiSkipsSpaces(k - 1, s);
      assert (Fill(' ', k) + s)[1..] == Fill(' ', k - 1) + s;
    } else {
      assert Fill(' ', k) + s == s;
    }
  }

  /** One size between its spaces. */
  lemma AtoiOfPadded(n: int)
    ensures Atoi(" " + Padded(n) + " ") == n
  {
    var k := 3 - |Decimal(n)|;
    assert " " + Padded(n) + " " == " " + (Fill(' ', k) + (Decimal(n) + " "));
    assert (" " + Padded(n) + " ")[1..] == Fill(' ', k) + (Decimal(n) + " ");
    AtoiSkipsSpaces(k, Decimal(n) + " ");
    AtoiOfDecimal(n, " ");
  }

  lemma {:induction false} FillLength(c: char, n: int)
    ensures |Fill(c, n)| == if n < 0 then 0 else n
  {
    if n > 0 {
      FillLength(c, n - 1);
    }
  }

  lemma {:induction false} ReadsZeros(k: int, ds: string)
    ensures ReadDigits(Fill('0', k) + ds, 0) == ReadDigits(ds, 0)
  {
    if k > 0 {
      ReadsZeros(k - 1, ds);
      assert (Fill('0', k) + ds)[1..] == Fill('0', k - 1) + ds;
    } else {
      assert Fill('0', k) + ds == ds;
    }
  }

  /** Sizes take at least three places and microseconds at least six, and padding does not change the number. */
  lemma Widths(n: int)
    ensures |Padded(n)| == if |Decimal(n)| < 3 then 3 else |Decimal(n)|
    ensures |ZeroPadded(n)| == if |Decimal(n)| < 6 then 6 else |Decimal(n)|
    ensures n >= 0 ==> Atoi(ZeroPadded(n)) == n
  {
    FillLength(' ', 3 - |Decimal(n)|);
    if n < 0 {
      FillLength('0', 5 - |Digits(-n)|);
    } else {
      var k, ds := 6 - |Digits(n)|, Digits(n);
      FillLength('0', k);
      ReadsZeros(k, ds);
      AtoiOfWhole(n);
      assert ds[0] in ds;
      assert k > 0 ==> ZeroPadded(n)[0] == '0';
      assert k <= 0 ==> ZeroPadded(n) == ds;
    }
  }

  lemma DecimalIsClean(n: int, c: char)
    requires !IsDigit(c) && c != '-'
    ensures Free(Decimal(n), c) && Free(ZeroPadded(n), c) && (c != ' ' ==> Free(Padded(n), c))
  {
  }

  // ----- The line -----

  /** Printing and reading of floating-point numbers: %.12g and atof. */
  datatype Codec = Codec(fmt: real -> string, atof: string -> real)

  datatype Level = Level(bid: real, ask: real, bidSize: int, askSize: int)

  datatype Shot = Shot(
    ticker: string, sec: int, usec: int, levels: seq<Level>,
    last: real, lastSize: int, volume: int, turnover: real, openInterest: real, isTrade: bool)

  const DEPTH := 5

  /** Room for the ticker, with its terminator. */
  const TICKER := 32

  function Head(s: Shot): string {
    Decimal(s.sec) + " " + ZeroPadded(s.usec) + " SNAPSHOT " + s.ticker + " "
  }

  function Prices(k: Codec, l: Level): string { " " + k.fmt(l.bid) + " " + k.fmt(l.ask) + " " }

  function Sizes(l: Level): string { " " + Padded(l.bidSize) + " x " + Padded(l.askSize) + " " }

  function LevelText(k: Codec, l: Level): string {
    " " + k.fmt(l.bid) + " " + k.fmt(l.ask) + " | " + Padded(l.bidSize) + " x " + Padded(l.askSize) + " |"
  }

  function Tail(k: Codec, s: Shot): string {
    var start := " " + k.fmt(s.last) + " " + Decimal(s.lastSize) + " " + Decimal(s.volume);
    if s.isTrade then start + " T" else start + " M " + k.fmt(s.turnover) + " " + k.fmt(s.openInterest)
  }

  /** The line so far, with its separators, after n levels. */
  function Front(k: Codec, s: Shot, n: nat): string
    requires n <= |s.levels|
  {
    Strung(Head(s) + "|", LevelTexts(k, s.levels[..n]))
  }

  function LevelTexts(k: Codec, levels: seq<Level>): (xs: seq<string>)
    ensures |xs| == |levels| && forall i :: 0 <= i < |xs| ==> xs[i] == LevelText(k, levels[i])
  {
    seq(|levels|, i requires 0 <= i < |levels| => LevelText(k, levels[i]))
  }

  function Strung(start: string, xs: seq<string>): string {
    if xs == [] then start else Strung(start, xs[..|xs| - 1]) + xs[|xs| - 1]
  }

  /** One more level. */
  lemma FrontNext(k: Codec, s: Shot, n: nat)
    requires n < |s.levels|
    ensures Front(k, s, n + 1) == Front(k, s, n) + LevelText(k, s.levels[n])
  {
    assert LevelTexts(k, s.levels[..n + 1])[..n] == LevelTexts(k, s.levels[..n]);
  }

  function Shown(depth: int, levels: nat): nat { if depth < 0 then 0 else if depth < levels then depth else levels }

  /** What Show prints, without the end of the line. */
  function Line(k: Codec, s: Shot, depth: int): string { Front(k, s, Shown(depth, |s.levels|)) + Tail(k, s) }

  /** The parts between the bars: the head, then two for each level. */
  function Parts(k: Codec, s: Shot, n: nat): (ps: seq<string>)
    requires n <= |s.levels|
    ensures |ps| == 2 * n + 1
  {
    Flat(Head(s), LevelParts(k, s.levels[..n]))
  }

  function LevelParts(k: Codec, levels: seq<Level>): (rows: seq<(string, string)>)
    ensures |rows| == |levels| && forall i :: 0 <= i < |rows| ==> rows[i] == (Prices(k, levels[i]), Sizes(levels[i]))
  {
    seq(|levels|, i requires 0 <= i < |levels| => (Prices(k, levels[i]), Sizes(levels[i])))
  }

  function Flat(head: string, rows: seq<(string, string)>): (ps: seq<string>)
    ensures |ps| == 2 * |rows| + 1
  {
    if rows == [] then [head]
    else Flat(head, rows[..|rows| - 1]) + [rows[|rows| - 1].0] + [rows[|rows| - 1].1]
  }

  lemma Regroup(y: string, p: string, q: string)
    ensures y + " " + p + " x " + q + " |" == y + (" " + p + " x " + q + " ") + "|"
  {
    assert y + " " + p == y + (" " + p);
    assert y + (" " + p) + " x " == y + (" " + p + " x ");
    assert y + (" " + p + " x ") + q == y + (" " + p + " x " + q);
    assert " |" == " " + "|";
    assert y + (" " + p + " x " + q) + (" " + "|") == y + (" " + p + " x " + q + " ") + "|";
  }

  lemma LevelTextParts(k: Codec, l: Level)
    ensures LevelText(k, l) == Prices(k, l) + "|" + Sizes(l) + "|"
  {
    var x := " " + k.fmt(l.bid) + " " + k.fmt(l.ask);
    assert x + " | " == x + " " + "|" + " ";
    Regroup(x + " " + "|", Padded(l.bidSize), Padded(l.askSize));
  }

  /** Two more parts, each with its bar. */
  lemma FrontStep(ps: seq<string>, front: string, a: string, b: string)
    requires ps != [] && Join(ps, '|') + "|" == front
    ensures Join(ps + [a] + [b], '|') + "|" == front + (a + "|" + b + "|")
  {
    JoinAppend(ps, a, '|');
    JoinAppend(ps + [a], b, '|');
    var s := Join(ps, '|');
    assert s + ['|'] + a + ['|'] + b + "|" == s + "|" + (a + "|" + b + "|");
  }

  lemma {:induction false} StrungIsJoined(head: string, rows: seq<(string, string)>, xs: seq<string>)
    requires |xs| == |rows| && forall i :: 0 <= i < |xs| ==> xs[i] == rows[i].0 + "|" + rows[i].1 + "|"
    ensures Join(Flat(head, rows), '|') + "|" == Strung(head + "|", xs)
  {
    if rows != [] {
      var n := |rows| - 1;
      StrungIsJoined(head, rows[..n], xs[..n]);
      FrontStep(Flat(head, rows[..n]), Strung(head + "|", xs[..n]), rows[n].0, rows[n].1);
    }
  }

  lemma FrontIsJoined(k: Codec, s: Shot, n: nat)
    requires n <= |s.levels|
    ensures Join(Parts(k, s, n), '|') + "|" == Front(k, s, n)
  {
    forall i | 0 <= i < n
      ensures LevelText(k, s.levels[i]) == Prices(k, s.levels[i]) + "|" + Sizes(s.levels[i]) + "|"
    {
      LevelTextParts(k, s.levels[i]);
    }
    StrungIsJoined(Head(s), LevelParts(k, s.levels[..n]), LevelTexts(k, s.levels[..n]));
  }

  /** A printed number that cannot be mistaken for layout. */
  predicate Token(s: string) { Free(s, ' ') && Free(s, '|') }

  /** What the round trip takes for granted: a ticker that fits and has no blanks and bars, and
      floating-point numbers that print as tokens. */
  predicate Printable(k: Codec, s: Shot) {
    && Token(s.ticker) && |s.ticker| < TICKER
    && (forall i :: 0 <= i < |s.levels| ==> Token(k.fmt(s.levels[i].bid)) && Token(k.fmt(s.levels[i].ask)))
    && Token(k.fmt(s.last)) && Token(k.fmt(s.turnover)) && Token(k.fmt(s.openInterest))
  }

  lemma TailIsFree(k: Codec, s: Shot)
    requires Printable(k, s)
    ensures Free(Tail(k, s), '|')
  {
    DecimalIsClean(s.lastSize, '|');
    DecimalIsClean(s.volume, '|');
  }

  lemma LevelIsFree(k: Codec, l: Level)
    requires Token(k.fmt(l.bid)) && Token(k.fmt(l.ask))
    ensures Free(Prices(k, l), '|') && Free(Sizes(l), '|')
  {
    DecimalIsClean(l.bidSize, '|');
    DecimalIsClean(l.askSize, '|');
  }

  lemma LevelAtIsFree(k: Codec, s: Shot, i: nat)
    requires Printable(k, s) && i < |s.levels|
    ensures Free(Prices(k, s.levels[i]), '|') && Free(Sizes(s.levels[i]), '|')
  {
    LevelIsFree(k, s.levels[i]);
  }

  lemma HeadIsFree(s: Shot)
    requires Token(s.ticker)
    ensures Free(Head(s), '|')
  {
    DecimalIsClean(s.sec, '|');
    DecimalIsClean(s.usec, '|');
  }

  lemma {:induction false} FlatIsFree(head: string, rows: seq<(string, string)>, ps: seq<string>, c: char)
    requires ps == Flat(head, rows) && Free(head, c)
    requires forall i :: 0 <= i < |rows| ==> Free(rows[i].0, c) && Free(rows[i].1, c)
    ensures forall i :: 0 <= i < |ps| ==> Free(ps[i], c)
  {
    if rows != [] {
      var n := |rows| - 1;
      FlatIsFree(head, rows[..n], Flat(head, rows[..n]), c);
    }
  }

  lemma PartsAreFree(k: Codec, s: Shot, n: nat, ps: seq<string>)
    requires n <= |s.levels| && Printable(k, s) && ps == Parts(k, s, n)
    ensures forall i :: 0 <= i < |ps| ==> Free(ps[i], '|')
  {
    HeadIsFree(s);
    forall i | 0 <= i < n
      ensures Free(Prices(k, s.levels[i]), '|') && Free(Sizes(s.levels[i]), '|')
    {
      LevelAtIsFree(k, s, i);
    }
    FlatIsFree(Head(s), LevelParts(k, s.levels[..n]), ps, '|');
  }

  /** Splitting a printed line at the bars gives its parts back. */
  lemma LineSplits(k: Codec, s: Shot, depth: int, n: nat)
    requires Printable(k, s) && n == Shown(depth, |s.levels|)
    ensures Pieces(Line(k, s, depth), '|') == Parts(k, s, n) + [Tail(k, s)]
  {
    var ps := Parts(k, s, n) + [Tail(k, s)];
    FrontIsJoined(k, s, n);
    JoinAppend(Parts(k, s, n), Tail(k, s), '|');
    PartsAreFree(k, s, n, Parts(k, s, n));
    TailIsFree(k, s);
    PiecesOfJoin(ps, '|');
  }

  // ----- Reading a line -----

  function Bars(raw: string): seq<string> { Pieces(raw, '|') }

  function HeadWords(raw: string): seq<string> { Pieces(Bars(raw)[0], ' ') }

  /** Without the first and the last character. */
  function Inner(s: string): string
    requires |s| >= 2
  {
    s[1..|s| - 1]
  }

  function PriceWords(raw: string): seq<string>
    requires |Bars(raw)| >= 2 && |Bars(raw)[1]| >= 2
  {
    Pieces(Inner(Bars(raw)[1]), ' ')
  }

  function SizeWords(raw: string): seq<string>
    requires |Bars(raw)| >= 3
  {
    Pieces(Bars(raw)[2], 'x')
  }

  /** The words after the last bar, without the empty one in front. */
  function TailWords(raw: string): seq<string> { Pieces(Bars(raw)[|Bars(raw)| - 1], ' ')[1..] }

  /** Everything that HandleSnapshot looks at is there; the source reads out of bounds otherwise. */
  predicate Readable(raw: string) {
    && |Bars(raw)| >= 3 && |Bars(raw)[1]| >= 2
    && |HeadWords(raw)| >= 2 && |PriceWords(raw)| >= 2 && |SizeWords(raw)| >= 2 && |TailWords(raw)| >= 6
  }

  function Cut(s: string): string { if |s| < TICKER then s else s[..TICKER - 1] }

  const NO_LEVEL := Level(0.0, 0.0, 0, 0)

  /** The fields taken from the words: the top level only, and no microseconds. */
  function ShotOf(k: Codec, head: seq<string>, prices: seq<string>, sizes: seq<string>, tail: seq<string>): Shot
    requires |head| >= 2 && |prices| >= 2 && |sizes| >= 2 && |tail| >= 6
  {
    Shot(
      Cut(head[|head| - 2]), Atoi(head[0]), 0,
      [Level(k.atof(prices[0]), k.atof(prices[1]), Atoi(sizes[0]), Atoi(sizes[1])), NO_LEVEL, NO_LEVEL, NO_LEVEL, NO_LEVEL],
      k.atof(tail[0]), Atoi(tail[1]), Atoi(tail[2]), k.atof(tail[4]), Atoi(tail[5]) as real, false)
  }

  /** HandleSnapshot. */
  function Read(k: Codec, raw: string): Shot
    requires Readable(raw)
  {
    ShotOf(k, HeadWords(raw), PriceWords(raw), SizeWords(raw), TailWords(raw))
  }

  lemma Middle(x: string, m: string, c: char)
    ensures x + ([c] + m + [c]) == x + [c] + m + [c]
  {
  }

  lemma FivePieces(a: string, b: string, m: string, t: string, c: char, s: string)
    requires Free(a, c) && Free(b, c) && Free(m, c) && Free(t, c)
    requires s == a + [c] + b + ([c] + m + [c]) + t + [c]
    ensures Pieces(s, c) == [a] + [b] + [m] + [t] + [""]
  {
    OnePiece(a, c);
    var two := a + [c] + b;
    PieceAfter(a, b, c);
    var three := two + [c] + m;
    PieceAfter(two, m, c);
    var four := three + [c] + t;
    PieceAfter(three, t, c);
    Middle(two, m, c);
    PieceAfter(four, "", c);
    assert four + [c] + "" == four + [c];
  }

  lemma HeadSplits(s: Shot)
    requires Free(s.ticker, ' ')
    ensures Pieces(Head(s), ' ') == [Decimal(s.sec), ZeroPadded(s.usec), "SNAPSHOT", s.ticker, ""]
  {
    DecimalIsClean(s.sec, ' ');
    DecimalIsClean(s.usec, ' ');
    assert " SNAPSHOT " == [' '] + "SNAPSHOT" + [' '];
    FivePieces(Decimal(s.sec), ZeroPadded(s.usec), "SNAPSHOT", s.ticker, ' ', Head(s));
  }

  lemma TwoPieces(a: string, b: string, c: char, s: string)
    requires Free(a, c) && Free(b, c) && s == a + [c] + b
    ensures Pieces(s, c) == [a, b]
  {
    OnePiece(a, c);
    PieceAfter(a, b, c);
  }

  lemma PricesSplit(k: Codec, l: Level)
    requires Free(k.fmt(l.bid), ' ') && Free(k.fmt(l.ask), ' ')
    ensures |Prices(k, l)| >= 2 && Pieces(Inner(Prices(k, l)), ' ') == [k.fmt(l.bid), k.fmt(l.ask)]
  {
    assert Inner(Prices(k, l)) == k.fmt(l.bid) + [' '] + k.fmt(l.ask);
    TwoPieces(k.fmt(l.bid), k.fmt(l.ask), ' ', Inner(Prices(k, l)));
  }

  lemma SizesSplit(l: Level)
    ensures Pieces(Sizes(l), 'x') == [" " + Padded(l.bidSize) + " ", " " + Padded(l.askSize) + " "]
  {
    var a, b := " " + Padded(l.bidSize) + " ", " " + Padded(l.askSize) + " ";
    DecimalIsClean(l.bidSize, 'x');
    DecimalIsClean(l.askSize, 'x');
    assert Sizes(l) == a + ['x'] + b;
    TwoPieces(a, b, 'x', Sizes(l));
  }

  /** One more word after a blank. */
  lemma OneMoreWord(s: string, ps: seq<string>, p: string)
    requires ps != [] && Join(ps, ' ') == s
    ensures Join(ps + [p], ' ') == s + [' '] + p
  {
    JoinAppend(ps, p, ' ');
  }

  /** The words of the last part that every line has. */
  function TailStart(k: Codec, s: Shot): (ps: seq<string>)
    ensures |ps| == 4
  {
    [""] + [k.fmt(s.last)] + [Decimal(s.lastSize)] + [Decimal(s.volume)]
  }

  lemma TailStartJoined(k: Codec, s: Shot)
    ensures Join(TailStart(k, s), ' ') == " " + k.fmt(s.last) + " " + Decimal(s.lastSize) + " " + Decimal(s.volume)
  {
    var a, b := k.fmt(s.last), Decimal(s.lastSize);
    OneMoreWord("", [""], a);
    OneMoreWord("" + [' '] + a, [""] + [a], b);
    OneMoreWord("" + [' '] + a + [' '] + b, [""] + [a] + [b], Decimal(s.volume));
    assert "" + [' '] + a == " " + a;
  }

  lemma TailStartFree(k: Codec, s: Shot)
    requires Free(k.fmt(s.last), ' ')
    ensures forall i :: 0 <= i < 4 ==> Free(TailStart(k, s)[i], ' ')
  {
    DecimalIsClean(s.lastSize, ' ');
    DecimalIsClean(s.volume, ' ');
  }

  lemma TradeTailSplits(k: Codec, s: Shot)
    requires s.isTrade && Free(k.fmt(s.last), ' ')
    ensures Pieces(Tail(k, s), ' ') == TailStart(k, s) + ["T"]
  {
    TailStartFree(k, s);
    TailStartJoined(k, s);
    OneMoreWord(Join(TailStart(k, s), ' '), TailStart(k, s), "T");
    assert Join(TailStart(k, s), ' ') + [' '] + "T" == Tail(k, s);
    PiecesOfJoin(TailStart(k, s) + ["T"], ' ');
  }

  lemma MarketTailSplits(k: Codec, s: Shot)
    requires !s.isTrade && Free(k.fmt(s.last), ' ') && Free(k.fmt(s.turnover), ' ') && Free(k.fmt(s.openInterest), ' ')
    ensures Pieces(Tail(k, s), ' ') == TailStart(k, s) + ["M"] + [k.fmt(s.turnover)] + [k.fmt(s.openInterest)]
  {
    var ps, d, e := TailStart(k, s), k.fmt(s.turnover), k.fmt(s.openInterest);
    var start := Join(ps, ' ');
    TailStartFree(k, s);
    TailStartJoined(k, s);
    OneMoreWord(start, ps, "M");
    OneMoreWord(start + [' '] + "M", ps + ["M"], d);
    OneMoreWord(start + [' '] + "M" + [' '] + d, ps + ["M"] + [d], e);
    assert start + [' '] + "M" + [' '] + d + [' '] + e == Tail(k, s);
    PiecesOfJoin(ps + ["M"] + [d] + [e], ' ');
  }

  // ----- The round trip -----

  /** A printed line can be read back exactly when it shows a level and is a market update. */
  lemma ReadableIff(k: Codec, s: Shot, depth: int, raw: string)
    requires Printable(k, s) && raw == Line(k, s, depth)
    ensures Readable(raw) <==> Shown(depth, |s.levels|) >= 1 && !s.isTrade
  {
    var n := Shown(depth, |s.levels|);
    LineSplits(k, s, depth, n);
    if s.isTrade {
      TradeTailSplits(k, s);
    } else {
      MarketTailSplits(k, s);
    }
    if n >= 1 {
      PartsAt(k, s, n, 0);
      HeadSplits(s);
      PricesSplit(k, s.levels[0]);
      SizesSplit(s.levels[0]);
    }
  }

  /** However many levels are shown, the first part is the head and two parts belong to each level. */
  lemma {:induction false} FlatAt(head: string, rows: seq<(string, string)>, ps: seq<string>, i: nat)
    requires i < |rows| && ps == Flat(head, rows)
    ensures ps[0] == head && ps[2 * i + 1] == rows[i].0 && ps[2 * i + 2] == rows[i].1
  {
    var n := |rows| - 1;
    var before := Flat(head, rows[..n]);
    if i < n {
      FlatAt(head, rows[..n], before, i);
    } else if n > 0 {
      FlatAt(head, rows[..n], before, 0);
    } else {
      assert before == [head];
    }
  }

  lemma PartsAt(k: Codec, s: Shot, n: nat, i: nat)
    requires i < n <= |s.levels|
    ensures Parts(k, s, n)[0] == Head(s) && Parts(k, s, n)[2 * i + 1] == Prices(k, s.levels[i])
    ensures Parts(k, s, n)[2 * i + 2] == Sizes(s.levels[i])
  {
    FlatAt(Head(s), LevelParts(k, s.levels[..n]), Parts(k, s, n), i);
  }

  /** The line shows the levels asked for, as many as there are, and each reads back. */
  lemma EveryLevelShown(k: Codec, s: Shot, depth: int, i: nat, bars: seq<string>)
    requires Printable(k, s) && i < depth && i < |s.levels| && bars == Pieces(Line(k, s, depth), '|')
    ensures |bars| == 2 * (if depth < |s.levels| then depth else |s.levels|) + 2
    ensures var l := s.levels[i];
      && |bars[2 * i + 1]| >= 2 && Pieces(Inner(bars[2 * i + 1]), ' ') == [k.fmt(l.bid), k.fmt(l.ask)]
      && var sizes := Pieces(bars[2 * i + 2], 'x');
      |sizes| == 2 && Atoi(sizes[0]) == l.bidSize && Atoi(sizes[1]) == l.askSize
  {
    var n := Shown(depth, |s.levels|);
    LineSplits(k, s, depth, n);
    PartsAt(k, s, n, i);
    PricesSplit(k, s.levels[i]);
    SizesSplit(s.levels[i]);
    AtoiOfPadded(s.levels[i].bidSize);
    AtoiOfPadded(s.levels[i].askSize);
  }

  /** At depth 0 or less it has the head and the last part only. */
  lemma NoLevelShown(k: Codec, s: Shot, depth: int)
    requires Printable(k, s) && depth <= 0
    ensures Pieces(Line(k, s, depth), '|') == [Head(s), Tail(k, s)]
  {
    LineSplits(k, s, depth, 0);
    assert LevelParts(k, s.levels[..0]) == [];
  }

  /** The numbers that are read back survive printing; the open interest, which is read as an
      integer, prints as one. */
  predicate Survives(k: Codec, s: Shot, openInterest: int)
    requires |s.levels| >= 1
  {
    && k.atof(k.fmt(s.levels[0].bid)) == s.levels[0].bid && k.atof(k.fmt(s.levels[0].ask)) == s.levels[0].ask
    && k.atof(k.fmt(s.last)) == s.last && k.atof(k.fmt(s.turnover)) == s.turnover
    && s.openInterest == openInterest as real && k.fmt(s.openInterest) == Decimal(openInterest)
  }

  /** The parts of a printed line that are looked at. */
  lemma BarsOf(k: Codec, s: Shot, depth: int, raw: string)
    requires Printable(k, s) && Shown(depth, |s.levels|) >= 1 && raw == Line(k, s, depth)
    ensures |Bars(raw)| >= 3 && Bars(raw)[0] == Head(s) && Bars(raw)[1] == Prices(k, s.levels[0])
    ensures Bars(raw)[2] == Sizes(s.levels[0]) && Bars(raw)[|Bars(raw)| - 1] == Tail(k, s)
  {
    var n := Shown(depth, |s.levels|);
    LineSplits(k, s, depth, n);
    PartsAt(k, s, n, 0);
  }

  /** The words that are read from a printed line. */
  lemma WordsOf(k: Codec, s: Shot, depth: int, raw: string)
    requires Printable(k, s) && Shown(depth, |s.levels|) >= 1 && !s.isTrade && raw == Line(k, s, depth)
    ensures Readable(raw)
    ensures HeadWords(raw) == [Decimal(s.sec), ZeroPadded(s.usec), "SNAPSHOT", s.ticker, ""]
    ensures PriceWords(raw) == [k.fmt(s.levels[0].bid), k.fmt(s.levels[0].ask)]
    ensures SizeWords(raw) == [" " + Padded(s.levels[0].bidSize) + " ", " " + Padded(s.levels[0].askSize) + " "]
    ensures TailWords(raw) == (TailStart(k, s) + ["M"] + [k.fmt(s.turnover)] + [k.fmt(s.openInterest)])[1..]
  {
    ReadableIff(k, s, depth, raw);
    BarsOf(k, s, depth, raw);
    HeadSplits(s);
    PricesSplit(k, s.levels[0]);
    SizesSplit(s.levels[0]);
    MarketTailSplits(k, s);
  }

  lemma WordsReadBack(
      k: Codec, s: Shot, openInterest: int,
      head: seq<string>, prices: seq<string>, sizes: seq<string>, tail: seq<string>)
    requires Printable(k, s) && |s.levels| == DEPTH && !s.isTrade && Survives(k, s, openInterest)
    requires head == [Decimal(s.sec), ZeroPadded(s.usec), "SNAPSHOT", s.ticker, ""]
    requires var l := s.levels[0];
      && prices == [k.fmt(l.bid), k.fmt(l.ask)]
      && sizes == [" " + Padded(l.bidSize) + " ", " " + Padded(l.askSize) + " "]
    requires tail == (TailStart(k, s) + ["M"] + [k.fmt(s.turnover)] + [k.fmt(s.openInterest)])[1..]
    ensures ShotOf(k, head, prices, sizes, tail)
         == s.(usec := 0, levels := [s.levels[0], NO_LEVEL, NO_LEVEL, NO_LEVEL, NO_LEVEL])
  {
    NumbersReadBack(s, openInterest);
  }

  /** Reading the market-update line printed at any depth of at least 1 gives the snapshot back, but
      for the microseconds and the levels below the top. */
  lemma RoundTrip(k: Codec, s: Shot, depth: int, raw: string, openInterest: int)
    requires Printable(k, s) && |s.levels| == DEPTH && depth >= 1 && !s.isTrade && raw == Line(k, s, depth)
    requires Survives(k, s, openInterest)
    ensures Readable(raw)
    ensures Read(k, raw) == s.(usec := 0, levels := [s.levels[0], NO_LEVEL, NO_LEVEL, NO_LEVEL, NO_LEVEL])
  {
    WordsOf(k, s, depth, raw);
    WordsReadBack(k, s, openInterest, HeadWords(raw), PriceWords(raw), SizeWords(raw), TailWords(raw));
  }

  lemma NumbersReadBack(s: Shot, openInterest: int)
    requires |s.levels| >= 1
    ensures Atoi(Decimal(s.sec)) == s.sec && Atoi(Decimal(s.lastSize)) == s.lastSize
    ensures Atoi(Decimal(s.volume)) == s.volume && Atoi(Decimal(openInterest)) == openInterest
    ensures Atoi(" " + Padded(s.levels[0].bidSize) + " ") == s.levels[0].bidSize
    ensures Atoi(" " + Padded(s.levels[0].askSize) + " ") == s.levels[0].askSize
  {
    AtoiOfWhole(s.sec);
    AtoiOfWhole(s.lastSize);
    AtoiOfWhole(s.volume);
    AtoiOfWhole(openInterest);
    AtoiOfPadded(s.levels[0].bidSize);
    AtoiOfPadded(s.levels[0].askSize);
  }

  lemma AtoiOfWhole(n: int)
    ensures Atoi(Decimal(n)) == n
  {
    AtoiOfDecimal(n, "");
    assert Decimal(n) + "" == Decimal(n);
  }

  // ----- The classes -----

  lemma FrontStarts(k: Codec, s: Shot, out: string)
    requires out == Decimal(s.sec) + " " + ZeroPadded(s.usec) + " SNAPSHOT " + s.ticker + " |"
    ensures out == Front(k, s, 0)
  {
    assert " " + "|" == " |";
  }

  class MarketSnapshot {
    var ticker: string
    const bids: array<real>
    const asks: array<real>
    const bidSizes: array<int>
    const askSizes: array<int>
    var lastTrade: real
    var lastTradeSize: int
    var volume: int
    var turnover: real
    var openInterest: real
    var isTradeUpdate: bool
    var sec: int
    var usec: int
    var isInitialized: bool

    ghost predicate Sized()
      reads this
    {
      && bids.Length == asks.Length == bidSizes.Length == askSizes.Length == DEPTH
      && bids != asks && bidSizes != askSizes
    }

    ghost function LevelAt(i: nat): Level
      requires Sized() && i < DEPTH
      reads this, bids, asks, bidSizes, askSizes
    {
      Level(bids[i], asks[i], bidSizes[i], askSizes[i])
    }

    ghost function View(): (s: Shot)
      requires Sized()
      reads this, bids, asks, bidSizes, askSizes
      ensures |s.levels| == DEPTH && forall i :: 0 <= i < DEPTH ==> s.levels[i] == LevelAt(i)
    {
      Shot(ticker, sec, usec, [LevelAt(0), LevelAt(1), LevelAt(2), LevelAt(3), LevelAt(4)],
           lastTrade, lastTradeSize, volume, turnover, openInterest, isTradeUpdate)
    }

    constructor ()
      ensures Sized() && fresh(bids) && fresh(asks) && fresh(bidSizes) && fresh(askSizes)
      ensures View() == Shot("", 0, 0, [NO_LEVEL, NO_LEVEL, NO_LEVEL, NO_LEVEL, NO_LEVEL], 0.0, 0, 0, 0.0, 0.0, false)
      ensures !isInitialized
    {
      ticker, lastTrade, lastTradeSize, volume, turnover, openInterest := "", 0.0, 0, 0, 0.0, 0.0;
      isTradeUpdate, sec, usec, isInitialized := false, 0, 0, false;
      bids, asks := new real[DEPTH], new real[DEPTH];
      bidSizes, askSizes := new int[DEPTH], new int[DEPTH];
      new;
      for i := 0 to DEPTH
        invariant forall j :: 0 <= j < i ==> bids[j] == asks[j] == 0.0 && bidSizes[j] == askSizes[j] == 0
        modifies bids, asks, bidSizes, askSizes
      {
        bids[i], asks[i], bidSizes[i], askSizes[i] := 0.0, 0.0, 0, 0;
      }
    }

    /** The line goes to a stream in the source, and is the result here. */
    method Show(k: Codec, depth: int) returns (out: string)
      requires Sized()
      ensures out == Line(k, View(), depth) + "\n"
    {
      var front := ShowLevels(k, depth);
      var tail := ShowTail(k);
      out := front + tail + "\n";
    }

    /** The head and the loop over the levels. */
    method ShowLevels(k: Codec, depth: int) returns (out: string)
      requires Sized()
      ensures out == Front(k, View(), Shown(depth, DEPTH))
    {
      ghost var s := View();
      out := Decimal(sec) + " " + ZeroPadded(usec) + " SNAPSHOT " + ticker + " |";
      FrontStarts(k, s, out);
      var n := if depth < DEPTH then depth else DEPTH;
      var i := 0;
      while i < n
        invariant 0 <= i <= Shown(depth, DEPTH)
        invariant out == Front(k, s, i)
      {
        FrontNext(k, s, i);
        var text := ShowLevel(k, i);
        out := out + text;
        i := i + 1;
      }
      assert i == Shown(depth, DEPTH);
    }

    method ShowLevel(k: Codec, i: nat) returns (text: string)
      requires Sized() && i < DEPTH
      ensures text == LevelText(k, View().levels[i])
    {
      text := " " + k.fmt(bids[i]) + " " + k.fmt(asks[i]) + " | " + Padded(bidSizes[i]) + " x " + Padded(askSizes[i]) + " |";
    }

    /** What follows the levels. */
    method ShowTail(k: Codec) returns (tail: string)
      requires Sized()
      ensures tail == Tail(k, View())
    {
      tail := " " + k.fmt(lastTrade) + " " + Decimal(lastTradeSize) + " " + Decimal(volume);
      if isTradeUpdate {
        tail := tail + " T";
      } else {
        tail := tail + " M " + k.fmt(turnover) + " " + k.fmt(openInterest);
      }
    }
  }

  /** The pieces so far, with the last one still growing. */
  lemma PiecesStep(s: string, done: seq<string>, last: string, d: char, c: char)
    requires Pieces(s, c) == done + [last]
    ensures Pieces(s + [d], c) == if d == c then done + [last] + [""] else done + [last + [d]]
  {
    assert (s + [d])[..|s|] == s;
    assert (done + [last])[..|done|] == done;
  }

  /** Split after i characters, with the last separator at pos. */
  ghost predicate Scanned(raw: string, c: char, i: nat, pos: int, result: seq<string>) {
    -1 <= pos < i <= |raw| && Pieces(raw[0..i], c) == result + [raw[pos + 1..i]]
  }

  lemma Slices(raw: string, from: nat, i: nat)
    requires from <= i < |raw|
    ensures raw[from..i + 1] == raw[from..i] + [raw[i]] && raw[i + 1..i + 1] == ""
  {
  }

  lemma ScanStep(raw: string, c: char, i: nat, pos: int, result: seq<string>)
    requires i < |raw| && Scanned(raw, c, i, pos, result)
    ensures raw[i] == c ==> Scanned(raw, c, i + 1, i, result + [raw[pos + 1..i]])
    ensures raw[i] != c ==> Scanned(raw, c, i + 1, pos, result)
  {
    Slices(raw, 0, i);
    Slices(raw, pos + 1, i);
    PiecesStep(raw[0..i], result, raw[pos + 1..i], raw[i], c);
  }

  lemma ScanDone(raw: string, c: char, pos: int, result: seq<string>)
    requires Scanned(raw, c, |raw|, pos, result)
    ensures result + [raw[pos + 1..]] == Pieces(raw, c)
  {
    assert raw[0..|raw|] == raw;
  }

  lemma ScanStart(raw: string, c: char)
    ensures Scanned(raw, c, 0, -1, [])
  {
    assert raw[0..0] == "";
  }

  /** Split: a scan that remembers the last separator. */
  method Split(raw: string, c: char) returns (result: seq<string>)
    ensures result == Pieces(raw, c)
  {
    result := [];
    var pos := -1;
    ScanStart(raw, c);
    for i := 0 to |raw|
      invariant Scanned(raw, c, i, pos, result)
    {
      ScanStep(raw, c, i, pos, result);
      if raw[i] == c {
        result := result + [raw[pos + 1..i]];
        pos := i;
      }
    }
    ScanDone(raw, c, pos, result);
    result := result + [raw[pos + 1..]];
  }

  method HandleSnapshot(k: Codec, raw: string) returns (shot: MarketSnapshot)
    requires Readable(raw)
    ensures fresh(shot) && shot.Sized() && shot.View() == Read(k, raw)
  {
    var bars := Split(raw, '|');
    var symbols := Split(bars[0], ' ');
    var priceInfo := bars[1];
    priceInfo := priceInfo[1..];
    priceInfo := priceInfo[..|priceInfo| - 1];
    assert priceInfo == Inner(bars[1]);
    var bidAsk := Split(priceInfo, ' ');
    var sizes := Split(bars[2], 'x');
    var last := Split(bars[|bars| - 1], ' ');
    last := last[1..];
    shot := FillIn(k, symbols, bidAsk, sizes, last);
  }

  /** The assignments of HandleSnapshot. */
  method FillIn(k: Codec, symbols: seq<string>, bidAsk: seq<string>, sizes: seq<string>, last: seq<string>)
    returns (shot: MarketSnapshot)
    requires |symbols| >= 2 && |bidAsk| >= 2 && |sizes| >= 2 && |last| >= 6
    ensures fresh(shot) && shot.Sized() && shot.View() == ShotOf(k, symbols, bidAsk, sizes, last)
  {
    shot := new MarketSnapshot();
    shot.ticker := Cut(symbols[|symbols| - 2]);
    shot.bids[0] := k.atof(bidAsk[0]);
    shot.asks[0] := k.atof(bidAsk[1]);
    shot.bidSizes[0] := Atoi(sizes[0]);
    shot.askSizes[0] := Atoi(sizes[1]);
    shot.sec := Atoi(symbols[0]);
    shot.lastTrade := k.atof(last[0]);
    shot.lastTradeSize := Atoi(last[1]);
    shot.volume := Atoi(last[2]);
    shot.turnover := k.atof(last[4]);
    shot.openInterest := Atoi(last[5]) as real;
  }
}
