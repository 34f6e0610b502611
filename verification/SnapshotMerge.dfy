/** MergeSnapshots (backend/src/common_bk/snapshot_util.h) on order-book sides of any depth.

    A side is a sequence of levels with the best level first. Prices are signed so that a
    higher price is better on both sides: an ask at price a is a level at -a. */
module SnapshotMerge {
  const EPS: real := 0.00000001

  datatype Level = Level(price: real, size: int)

  type Side = seq<Level>

  function Abs(x: real): real { if x < 0.0 then -x else x }

  /** The insertion point: the first dead level or the first level not clearly better than p. */
  function Find(side: Side, p: real): (i: nat)
    ensures i <= |side|
    ensures forall j :: 0 <= j < i ==> side[j].size != 0 && side[j].price > p + EPS
    ensures i < |side| ==> side[i].size == 0 || side[i].price <= p + EPS
  {
    if side == [] || side[0].size == 0 || side[0].price <= p + EPS then 0 else 1 + Find(side[1..], p)
  }

  /** Shifts the entries from i on down by one, losing the last, and puts x at i. */
  function ShiftIn<T>(s: seq<T>, i: nat, x: T): (r: seq<T>)
    requires i < |s|
    ensures |r| == |s|
    ensures forall j {:trigger r[j]} :: 0 <= j < |r| ==> r[j] == if j < i then s[j] else if j == i then x else s[j - 1]
  {
    seq(|s|, j requires 0 <= j < |s| => if j < i then s[j] else if j == i then x else s[j - 1])
  }

  /** Puts l in at i, or adds its size to the level there if the prices match. */
  function Place(side: Side, i: nat, l: Level): (r: Side)
    requires i < |side|
    ensures |r| == |side|
  {
    if Abs(side[i].price - l.price) > EPS then ShiftIn(side, i, l)
    else side[i := side[i].(size := side[i].size + l.size)]
  }

  /** What one iteration of the merge loop does to a side. */
  function Insert(side: Side, p: real, size: int): (r: Side)
    ensures |r| == |side|
  {
    var i := Find(side, p);
    if i == |side| then side else Place(side, i, Level(p, size))
  }

  function NextSide(side: Side, l: Level): (r: Side)
    ensures |r| == |side|
  {
    if l.size > 0 then Insert(side, l.price, l.size) else side
  }

  /** One side of the merge: the live levels of t are inserted one after the other. */
  function MergeSide(side: Side, t: seq<Level>): (r: Side)
    ensures |r| == |side|
  {
    if t == [] then side else NextSide(MergeSide(side, t[..|t| - 1]), t[|t| - 1])
  }

  // ----- The reference: total size by price, and its n best prices -----

  type Depth = map<real, int>

  function At(m: Depth, p: real): int { if p in m then m[p] else 0 }

  function Plus(a: Depth, b: Depth): Depth {
    map p | p in a.Keys + b.Keys :: At(a, p) + At(b, p)
  }

  /** m with the live levels of t added one after the other. */
  function Added(m: Depth, t: seq<Level>): Depth {
    if t == [] then m else NextDepth(Added(m, t[..|t| - 1]), t[|t| - 1])
  }

  function NextDepth(m: Depth, l: Level): Depth {
    if l.size > 0 then m[l.price := At(m, l.price) + l.size] else m
  }

  /** The total live size at each price. */
  function DepthOf(t: seq<Level>): Depth { Added(map[], t) }

  ghost function Better(m: Depth, p: real): set<real> {
    set q | q in m && q > p
  }

  /** How many prices beat p. */
  ghost function Rank(m: Depth, p: real): nat { |Better(m, p)| }

  /** x lists the n best prices of m, with their sizes, best first. */
  ghost predicate IsTop(x: seq<Level>, m: Depth, n: nat) {
    && |x| <= n && Descending(x)
    && (forall i :: 0 <= i < |x| ==> x[i].price in m && m[x[i].price] == x[i].size)
    && (forall p :: p in m ==> Lists(x, p) || (|x| == n && forall i :: 0 <= i < n ==> x[i].price > p))
  }

  ghost predicate Descending(x: seq<Level>) {
    forall i, j :: 0 <= i < j < |x| ==> x[i].price > x[j].price
  }

  ghost predicate Lists(x: seq<Level>, p: real) {
    exists i :: 0 <= i < |x| && x[i].price == p
  }

  /** The first k levels are live, the rest are dead. */
  ghost predicate Filled(side: Side, k: nat) {
    k <= |side| && forall i :: 0 <= i < |side| ==> if i < k then side[i].size > 0 else side[i].size == 0
  }

  /** The number of levels before the first dead one. */
  function Count(side: Side): (k: nat)
    ensures k <= |side|
    ensures forall i :: 0 <= i < k ==> side[i].size != 0
    ensures k < |side| ==> side[k].size == 0
  {
    if side == [] || side[0].size == 0 then 0 else 1 + Count(side[1..])
  }

  lemma CountIs(side: Side, k: nat)
    requires Filled(side, k)
    ensures Count(side) == k
  {
    assert k < |side| ==> side[k].size == 0;
    assert Count(side) < |side| ==> side[Count(side)].size == 0;
  }

  function Live(side: Side): seq<Level> { side[..Count(side)] }

  /** No gap: live levels first, then dead ones, and the live ones best first. */
  ghost predicate Ranked(side: Side) {
    Filled(side, Count(side)) && Descending(Live(side))
  }

  /** All prices in play are equal or clearly apart. */
  ghost predicate OnGrid(g: set<real>) {
    forall p, q {:trigger FarApart(p, q)} :: p in g && q in g && p != q ==> FarApart(p, q)
  }

  predicate FarApart(p: real, q: real) { Abs(p - q) > EPS }

  ghost predicate PricesIn(t: seq<Level>, g: set<real>) {
    forall i :: 0 <= i < |t| ==> t[i].price in g
  }

  /** x with a level put in at i, cut to n levels. */
  function PutIn(x: seq<Level>, i: nat, l: Level, n: nat): (y: seq<Level>)
    requires i <= |x| <= n && i < n
    ensures |y| == if |x| < n then |x| + 1 else n
    ensures forall j {:trigger y[j]} :: 0 <= j < |y| ==> y[j] == if j < i then x[j] else if j == i then l else x[j - 1]
  {
    (x[..i] + [l] + x[i..])[..if |x| < n then |x| + 1 else n]
  }

  lemma TopPutIn(x: seq<Level>, m: Depth, n: nat, i: nat, p: real, size: int)
    requires IsTop(x, m, n) && i <= |x| && i < n
    requires forall j :: 0 <= j < i ==> x[j].price > p
    requires forall j :: i <= j < |x| ==> x[j].price < p
    ensures p !in m && IsTop(PutIn(x, i, Level(p, size), n), m[p := size], n)
  {
    var y, m' := PutIn(x, i, Level(p, size), n), m[p := size];
    assert !Lists(x, p) && (|x| == n ==> x[i].price < p);
    assert forall j :: 0 <= j < |y| && j != i ==> y[j].price in m && m[y[j].price] == y[j].size && y[j].price != p;
    assert Descending(y);
    forall q | q in m' ensures Lists(y, q) || (|y| == n && forall j :: 0 <= j < n ==> y[j].price > q) {
      PutInLists(x, m, n, i, p, size, q);
    }
  }

  lemma PutInLists(x: seq<Level>, m: Depth, n: nat, i: nat, p: real, size: int, q: real)
    requires IsTop(x, m, n) && i <= |x| && i < n && (q in m || q == p)
    requires forall j :: 0 <= j < i ==> x[j].price > p
    requires forall j :: i <= j < |x| ==> x[j].price < p
    ensures var y := PutIn(x, i, Level(p, size), n);
            Lists(y, q) || (|y| == n && forall j :: 0 <= j < n ==> y[j].price > q)
  {
    var y := PutIn(x, i, Level(p, size), n);
    if q == p {
      assert y[i].price == p;
    } else if j :| 0 <= j < |x| && x[j].price == q && (j < i || j + 1 < n) {
      assert y[if j < i then j else j + 1].price == q;
    } else {
      if j :| 0 <= j < |x| && x[j].price == q {
        assert j == n - 1 && forall t :: 0 <= t < j ==> x[t].price > q;
      }
      assert |x| == n && x[i].price >= q;
      forall t | 0 <= t < n ensures y[t].price > q {
        assert t < i || t == i || y[t] == x[t - 1];
      }
    }
  }

  lemma TopBump(x: seq<Level>, m: Depth, n: nat, i: nat, size: int)
    requires IsTop(x, m, n) && i < |x|
    ensures var p := x[i].price;
            p in m && IsTop(x[i := Level(p, x[i].size + size)], m[p := m[p] + size], n)
  {
    var p := x[i].price;
    var y, m' := x[i := Level(p, x[i].size + size)], m[p := m[p] + size];
    forall q | q in m' ensures Lists(y, q) || (|y| == n && forall j :: 0 <= j < n ==> y[j].price > q) {
      if Lists(x, q) {
        var j :| 0 <= j < |x| && x[j].price == q;
        assert y[j].price == q;
      }
    }
  }

  lemma TopDrop(x: seq<Level>, m: Depth, n: nat, p: real, size: int)
    requires IsTop(x, m, n) && |x| == n && forall j :: 0 <= j < n ==> x[j].price > p
    ensures IsTop(x, m[p := size], n)
  {
  }

  /** Every price of the side is p or clearly apart from it. */
  ghost predicate Clear(side: Side, p: real) {
    forall j :: 0 <= j < |side| ==> side[j].price == p || side[j].price > p + EPS || side[j].price < p - EPS
  }

  lemma FindInLive(side: Side, k: nat, p: real)
    requires Filled(side, k) && Descending(side[..k]) && Clear(side, p)
    ensures Find(side, p) <= k
    ensures forall j :: 0 <= j < k && j < Find(side, p) ==> side[j].price > p
    ensures forall j :: Find(side, p) < j < k ==> side[j].price < p
    ensures Find(side, p) < k ==> side[Find(side, p)].price <= p
  {
    var x, i := side[..k], Find(side, p);
    assert k < |side| ==> side[k].size == 0;
    forall j | i < j < k ensures side[j].price < p {
      assert x[i].price > x[j].price;
    }
  }

  /** A side that holds the n best of m in its first k levels. */
  ghost predicate Holds(side: Side, k: nat, m: Depth) {
    Filled(side, k) && IsTop(side[..k], m, |side|)
  }

  /** An insertion that meets a live level of the same price. */
  lemma InsertBump(side: Side, k: nat, m: Depth, i: nat, p: real, size: int, r: Side)
    requires Holds(side, k, m) && size > 0 && i < k && side[i].price == p
    requires r == side[i := Level(p, side[i].size + size)]
    ensures Holds(r, k, m[p := At(m, p) + size])
  {
    TopBump(side[..k], m, |side|, i, size);
    assert r[..k] == side[..k][i := Level(p, side[i].size + size)];
  }

  /** An insertion that makes a new level. */
  lemma InsertNew(side: Side, k: nat, m: Depth, i: nat, p: real, size: int, r: Side)
    requires Holds(side, k, m) && i <= k && i < |side| && size > 0
    requires r == ShiftIn(side, i, Level(p, size)) || (i == k && r == side[k := Level(p, size)])
    requires forall j :: 0 <= j < i ==> side[j].price > p
    requires forall j :: i <= j < k ==> side[j].price < p
    ensures Holds(r, if k < |side| then k + 1 else k, m[p := At(m, p) + size])
  {
    TopPutIn(side[..k], m, |side|, i, p, size);
    NewLevels(side, k, i, Level(p, size), r);
  }

  /** An insertion that is not among the n best. */
  lemma InsertDrop(side: Side, k: nat, m: Depth, p: real, size: int)
    requires Holds(side, k, m) && k == |side|
    requires forall j :: 0 <= j < k ==> side[j].price > p
    ensures Holds(side, k, m[p := At(m, p) + size])
  {
    TopDrop(side[..k], m, |side|, p, At(m, p) + size);
  }

  lemma NewLevels(side: Side, k: nat, i: nat, l: Level, r: Side)
    requires Filled(side, k) && i <= k && i < |side| && l.size > 0
    requires r == ShiftIn(side, i, l) || (i == k && r == side[k := l])
    ensures var k' := if k < |side| then k + 1 else k;
            Filled(r, k') && r[..k'] == PutIn(side[..k], i, l, |side|)
  {
    var k', x := if k < |side| then k + 1 else k, side[..k];
    var y := PutIn(x, i, l, |side|);
    forall j | 0 <= j < k' ensures r[j] == y[j] {
      if j < i {
        assert y[j] == x[j] == side[j];
      } else if j > i {
        assert y[j] == x[j - 1] == side[j - 1];
      }
    }
  }

  /** The side holds the n best of m, however many levels that takes. */
  ghost predicate IsBestOf(side: Side, m: Depth) { exists k :: Holds(side, k, m) }

  /** One insertion on the grid keeps the side the n best of what went in. */
  lemma InsertKeepsTop(side: Side, m: Depth, p: real, size: int, r: Side)
    requires IsBestOf(side, m) && size > 0 && Clear(side, p) && r == Insert(side, p, size)
    ensures IsBestOf(r, m[p := At(m, p) + size])
  {
    var i := Find(side, p);
    var k :| Holds(side, k, m);
    FindInLive(side, k, p);
    if i == |side| {
      InsertDrop(side, k, m, p, size);
    } else if i < k && side[i].price == p {
      InsertBump(side, k, m, i, p, size, r);
    } else {
      InsertNew(side, k, m, i, p, size, r);
    }
  }

  // ----- Whole sides -----

  ghost predicate LivePricesIn(t: seq<Level>, g: set<real>) {
    forall i :: 0 <= i < |t| && t[i].size > 0 ==> t[i].price in g
  }

  lemma OnGridClear(side: Side, p: real, g: set<real>)
    requires OnGrid(g) && PricesIn(side, g) && p in g
    ensures Clear(side, p)
  {
    forall j | 0 <= j < |side| && side[j].price != p ensures Abs(side[j].price - p) > EPS {
      assert FarApart(side[j].price, p);
    }
  }

  lemma InsertPrices(side: Side, p: real, size: int, g: set<real>)
    requires PricesIn(side, g) && p in g
    ensures PricesIn(Insert(side, p, size), g)
  {
  }

  lemma PlusStep(a: Depth, b: Depth, p: real, size: int)
    ensures Plus(a, b[p := At(b, p) + size]) == Plus(a, b)[p := At(Plus(a, b), p) + size]
  {
    var x, y := Plus(a, b[p := At(b, p) + size]), Plus(a, b)[p := At(Plus(a, b), p) + size];
    assert x.Keys == y.Keys;
    assert forall q :: q in x ==> x[q] == y[q];
  }

  lemma {:induction false} AddedIsPlus(m: Depth, t: seq<Level>)
    ensures Added(m, t) == Plus(m, DepthOf(t))
  {
    if t == [] {
      assert Plus(m, map[]) == m;
    } else {
      var t', l := t[..|t| - 1], t[|t| - 1];
      AddedIsPlus(m, t');
      if l.size > 0 {
        PlusStep(m, DepthOf(t'), l.price, l.size);
      }
    }
  }

  /** What every level of t keeps, all of t keeps. */
  lemma {:induction false} MergeKeeps(side: Side, m: Depth, t: seq<Level>, p: (Side, Depth) -> bool)
    requires p(side, m)
    requires forall s, d, i {:trigger p(NextSide(s, t[i]), NextDepth(d, t[i]))} ::
      0 <= i < |t| && p(s, d) ==> p(NextSide(s, t[i]), NextDepth(d, t[i]))
    ensures p(MergeSide(side, t), Added(m, t))
  {
    if t != [] {
      var n := |t| - 1;
      var t' := t[..n];
      forall s, d, i | 0 <= i < |t'| && p(s, d)
        ensures p(NextSide(s, t'[i]), NextDepth(d, t'[i]))
      {
        assert t'[i] == t[i];
        assert p(NextSide(s, t[i]), NextDepth(d, t[i]));
      }
      MergeKeeps(side, m, t', p);
      assert p(NextSide(MergeSide(side, t'), t[n]), NextDepth(Added(m, t'), t[n]));
    }
  }

  lemma NextHolds(side: Side, m: Depth, l: Level)
    requires IsBestOf(side, m) && (l.size > 0 ==> Clear(side, l.price))
    ensures IsBestOf(NextSide(side, l), NextDepth(m, l))
  {
    if l.size > 0 {
      InsertKeepsTop(side, m, l.price, l.size, Insert(side, l.price, l.size));
    }
  }

  lemma NextPrices(side: Side, l: Level, g: set<real>)
    requires OnGrid(g) && PricesIn(side, g) && (l.size > 0 ==> l.price in g)
    ensures PricesIn(NextSide(side, l), g) && (l.size > 0 ==> Clear(side, l.price))
  {
    if l.size > 0 {
      OnGridClear(side, l.price, g);
      InsertPrices(side, l.price, l.size, g);
    }
  }

  /** The merge holds the n best of the summed sizes, whatever the order, gaps or duplicates of t. */
  lemma MergeHolds(side: Side, m: Depth, t: seq<Level>, g: set<real>)
    requires OnGrid(g) && LivePricesIn(t, g) && PricesIn(side, g) && IsBestOf(side, m)
    ensures PricesIn(MergeSide(side, t), g) && IsBestOf(MergeSide(side, t), Added(m, t))
  {
    var p := (s: Side, d: Depth) => PricesIn(s, g) && IsBestOf(s, d);
    forall s, d, i | 0 <= i < |t| && p(s, d)
      ensures p(NextSide(s, t[i]), NextDepth(d, t[i]))
    {
      NextPrices(s, t[i], g);
      NextHolds(s, d, t[i]);
    }
    MergeKeeps(side, m, t, p);
    assert p(MergeSide(side, t), Added(m, t));
  }

  lemma {:induction false} DescendingDepth(x: seq<Level>)
    requires Descending(x) && forall i :: 0 <= i < |x| ==> x[i].size > 0
    ensures forall i :: 0 <= i < |x| ==> x[i].price in DepthOf(x) && DepthOf(x)[x[i].price] == x[i].size
    ensures forall p :: p in DepthOf(x) ==> Lists(x, p)
  {
    if x != [] {
      var y, l := x[..|x| - 1], x[|x| - 1];
      DescendingDepth(y);
      assert !Lists(y, l.price);
      forall p | p in DepthOf(x) ensures Lists(x, p) {
        if p == l.price {
          assert x[|x| - 1].price == p;
        } else {
          assert Lists(y, p);
          var i :| 0 <= i < |y| && y[i].price == p;
          assert x[i].price == p;
        }
      }
    }
  }

  lemma {:induction false} DeadAddsNothing(side: Side, k: nat)
    requires Filled(side, k)
    ensures DepthOf(side) == DepthOf(side[..k])
  {
    if k == |side| {
      assert side[..k] == side;
    } else {
      var s' := side[..|side| - 1];
      assert s'[..k] == side[..k];
      DeadAddsNothing(s', k);
    }
  }

  /** A ranked side holds all its own depth. */
  lemma RankedHolds(side: Side)
    requires Ranked(side)
    ensures Holds(side, Count(side), DepthOf(side))
  {
    var k := Count(side);
    DescendingDepth(side[..k]);
    DeadAddsNothing(side, k);
  }

  // ----- The n best prices are unique, and found by rank -----

  /** If x and y agree before j, then y goes on at j with a price as good as x[j]. */
  lemma TopGoesOn(x: seq<Level>, y: seq<Level>, m: Depth, n: nat, j: nat)
    requires IsTop(x, m, n) && IsTop(y, m, n) && j < |x|
    requires forall i :: 0 <= i < j && i < |y| ==> x[i] == y[i]
    ensures j < |y| && y[j].price >= x[j].price
  {
    var p := x[j].price;
    assert p in m;
    if Lists(y, p) {
      var i :| 0 <= i < |y| && y[i].price == p;
    }
  }

  lemma TopsAgree(x: seq<Level>, y: seq<Level>, m: Depth, n: nat, j: nat)
    requires IsTop(x, m, n) && IsTop(y, m, n) && j < |x|
    requires forall i :: 0 <= i < j && i < |y| ==> x[i] == y[i]
    ensures j < |y| && x[j] == y[j]
  {
    TopGoesOn(x, y, m, n, j);
    TopGoesOn(y, x, m, n, j);
  }

  lemma {:induction false} TopsAgreeAt(x: seq<Level>, y: seq<Level>, m: Depth, n: nat, j: nat)
    requires IsTop(x, m, n) && IsTop(y, m, n) && j < |x|
    ensures j < |y| && x[j] == y[j]
    decreases j
  {
    forall i | 0 <= i < j && i < |y|
      ensures x[i] == y[i]
    {
      TopsAgreeAt(x, y, m, n, i);
    }
    TopsAgree(x, y, m, n, j);
  }

  lemma TopIsUnique(x: seq<Level>, y: seq<Level>, m: Depth, n: nat)
    requires IsTop(x, m, n) && IsTop(y, m, n)
    ensures x == y
  {
    forall j | 0 <= j < |x|
      ensures j < |y| && x[j] == y[j]
    {
      TopsAgreeAt(x, y, m, n, j);
    }
    if |y| > |x| {
      TopsAgreeAt(y, x, m, n, |x|);
    } else if |x| > |y| {
      TopsAgreeAt(x, y, m, n, |y|);
    }
  }

  function Prices(x: seq<Level>): set<real> { set i | 0 <= i < |x| :: x[i].price }

  lemma {:induction false} PricesSize(x: seq<Level>)
    requires Descending(x)
    ensures |Prices(x)| == |x|
  {
    if x != [] {
      var y, p := x[..|x| - 1], x[|x| - 1].price;
      PricesSize(y);
      assert p !in Prices(y);
      assert Prices(x) == Prices(y) + {p} by {
        forall q | q in Prices(x) ensures q in Prices(y) + {p} {
          var i :| 0 <= i < |x| && x[i].price == q;
          assert i < |y| ==> y[i].price == q;
        }
        forall q | q in Prices(y) ensures q in Prices(x) {
          var i :| 0 <= i < |y| && y[i].price == q;
          assert x[i].price == q;
        }
      }
    }
  }

  lemma SubsetSize(a: set<real>, b: set<real>)
    requires a <= b
    ensures |a| <= |b| && (a != b ==> |a| < |b|)
  {
    assert b == a + (b - a);
  }

  /** A price ranks n or worse exactly when n listed levels are all better. */
  lemma RankFull(x: seq<Level>, m: Depth, n: nat, p: real)
    requires IsTop(x, m, n)
    ensures Rank(m, p) >= n <==> |x| == n && forall i :: 0 <= i < n ==> x[i].price > p
  {
    PricesSize(x);
    if |x| == n && forall i :: 0 <= i < n ==> x[i].price > p {
      SubsetSize(Prices(x), Better(m, p));
    } else {
      forall q | q in Better(m, p) ensures q in Prices(x) {
        assert Lists(x, q);
      }
      SubsetSize(Better(m, p), Prices(x));
      if |x| == n {
        var i :| 0 <= i < n && x[i].price <= p;
        assert x[i].price in Prices(x) && x[i].price !in Better(m, p);
      }
    }
  }

  // ----- Merging one side: exact, commutative, associative -----

  lemma BestOfIsTop(side: Side, m: Depth)
    requires IsBestOf(side, m)
    ensures Ranked(side) && IsTop(Live(side), m, |side|)
  {
    var k :| Holds(side, k, m);
    CountIs(side, k);
  }

  /** One side of a merge lists exactly the best prices of the two sides together. */
  lemma SideIsTop(s: Side, t: seq<Level>, g: set<real>)
    requires Ranked(s) && OnGrid(g) && PricesIn(s, g) && LivePricesIn(t, g)
    ensures var r := MergeSide(s, t);
            Ranked(r) && PricesIn(r, g) && IsTop(Live(r), Plus(DepthOf(s), DepthOf(t)), |s|)
  {
    RankedHolds(s);
    MergeHolds(s, DepthOf(s), t, g);
    AddedIsPlus(DepthOf(s), t);
    BestOfIsTop(MergeSide(s, t), Plus(DepthOf(s), DepthOf(t)));
  }

  lemma {:induction false} MergeAppend(side: Side, t: seq<Level>, u: seq<Level>)
    ensures MergeSide(side, t + u) == MergeSide(MergeSide(side, t), u)
  {
    if u == [] {
      assert t + u == t;
    } else {
      assert (t + u)[..|t + u| - 1] == t + u[..|u| - 1];
      MergeAppend(side, t, u[..|u| - 1]);
    }
  }

  lemma {:induction false} AddedAppend(m: Depth, t: seq<Level>, u: seq<Level>)
    ensures Added(m, t + u) == Added(Added(m, t), u)
  {
    if u == [] {
      assert t + u == t;
    } else {
      assert (t + u)[..|t + u| - 1] == t + u[..|u| - 1];
      AddedAppend(m, t, u[..|u| - 1]);
    }
  }

  lemma MergeCommutes(a: Side, b: Side, g: set<real>)
    requires |a| == |b| && Ranked(a) && Ranked(b)
    requires OnGrid(g) && PricesIn(a, g) && PricesIn(b, g)
    ensures Live(MergeSide(a, b)) == Live(MergeSide(b, a))
  {
    SideIsTop(a, b, g);
    SideIsTop(b, a, g);
    assert Plus(DepthOf(a), DepthOf(b)) == Plus(DepthOf(b), DepthOf(a));
    TopIsUnique(Live(MergeSide(a, b)), Live(MergeSide(b, a)), Plus(DepthOf(a), DepthOf(b)), |a|);
  }

  /** The dead side is the unit, whatever stale prices it holds. */
  lemma {:induction false} MergeDead(a: Side, e: seq<Level>)
    requires forall i :: 0 <= i < |e| ==> e[i].size <= 0
    ensures MergeSide(a, e) == a
  {
    if e != [] {
      MergeDead(a, e[..|e| - 1]);
    }
  }

  lemma MergeUnit(a: Side, e: Side, g: set<real>)
    requires |a| == |e| && Ranked(a) && Filled(e, 0)
    requires OnGrid(g) && PricesIn(a, g) && PricesIn(e, g)
    ensures MergeSide(a, e) == a && Live(MergeSide(e, a)) == Live(a)
  {
    MergeDead(a, e);
    CountIs(e, 0);
    MergeCommutes(e, a, g);
  }

  /** A level that was cut off does not come back: the best of a sum needs only the best of each part. */
  lemma CutIsHarmless(x: seq<Level>, m: Depth, m': Depth, c: Depth, y: seq<Level>, n: nat)
    requires IsTop(x, m, n) && IsTop(x, m', n) && (forall p :: p in m' ==> Lists(x, p))
    requires IsTop(y, Plus(c, m), n)
    ensures IsTop(y, Plus(c, m'), n)
  {
    forall i | 0 <= i < |y| ensures y[i].price in Plus(c, m') && Plus(c, m')[y[i].price] == y[i].size {
      var p := y[i].price;
      if p in m && !Lists(x, p) {
        RankFull(x, m, n, p);
        RankFull(y, Plus(c, m), n, p);
        SubsetSize(Better(m, p), Better(Plus(c, m), p));
      }
    }
    forall p | p in m' ensures p in m {
      var i :| 0 <= i < |x| && x[i].price == p;
    }
  }

  lemma MergeAssociates(a: Side, b: Side, c: Side, g: set<real>)
    requires |a| == |b| == |c| && Ranked(a) && Ranked(b) && Ranked(c)
    requires OnGrid(g) && PricesIn(a, g) && PricesIn(b, g) && PricesIn(c, g)
    ensures Live(MergeSide(MergeSide(a, b), c)) == Live(MergeSide(a, MergeSide(b, c)))
  {
    var n, bc := |a|, MergeSide(b, c);
    var A, M := DepthOf(a), Plus(DepthOf(b), DepthOf(c));
    SideIsTop(b, c, g);
    SideIsTop(a, bc, g);
    SideIsTop(a, b + c, g);
    MergeAppend(a, b, c);
    AddedAppend(map[], b, c);
    AddedIsPlus(DepthOf(b), c);
    RankedHolds(bc);
    DescendingDepth(Live(bc));
    DeadAddsNothing(bc, Count(bc));
    CutIsHarmless(Live(bc), M, DepthOf(bc), A, Live(MergeSide(a, b + c)), n);
    TopIsUnique(Live(MergeSide(a, b + c)), Live(MergeSide(a, bc)), Plus(A, DepthOf(bc)), n);
  }

  // ----- The whole merge: bids and asks in one loop -----

  datatype Book = Book(bids: Side, asks: Side)

  /** Iteration d of the loop. When the bid finds no room, the ask of that depth is not looked at. */
  function Step(b: Book, bid: Level, ask: Level): Book {
    if bid.size > 0 && Find(b.bids, bid.price) == |b.bids| then b
    else Book(
      if bid.size > 0 then Insert(b.bids, bid.price, bid.size) else b.bids,
      if ask.size > 0 then Insert(b.asks, ask.price, ask.size) else b.asks)
  }

  function Merge(s: Book, t: Book, n: nat): (r: Book)
    requires n <= |t.bids| && n <= |t.asks|
    ensures |r.bids| == |s.bids| && |r.asks| == |s.asks|
  {
    if n == 0 then s else Step(Merge(s, t, n - 1), t.bids[n - 1], t.asks[n - 1])
  }

  /** Iteration d leaves the loop body early. */
  predicate Skips(s: Book, t: Book, d: nat)
    requires d < |t.bids|
  {
    t.bids[d].size > 0 && Find(MergeSide(s.bids, t.bids[..d]), t.bids[d].price) == |s.bids|
  }

  /** The asks the merge looks at; the others count as dead. */
  function Heard(s: Book, t: Book, n: nat): (u: seq<Level>)
    requires n <= |t.bids| && n <= |t.asks|
    ensures |u| == n
    ensures forall d :: 0 <= d < n ==> u[d] == if Skips(s, t, d) then t.asks[d].(size := 0) else t.asks[d]
  {
    if n == 0 then []
    else Heard(s, t, n - 1) + [if Skips(s, t, n - 1) then t.asks[n - 1].(size := 0) else t.asks[n - 1]]
  }

  lemma MergeOneMore(side: Side, t: seq<Level>, n: nat)
    requires 0 < n <= |t|
    ensures var prior := MergeSide(side, t[..n - 1]);
            MergeSide(side, t[..n]) ==
            if t[n - 1].size > 0 then Insert(prior, t[n - 1].price, t[n - 1].size) else prior
  {
    assert t[..n][..n - 1] == t[..n - 1];
  }

  lemma {:induction false} MergeBySide(s: Book, t: Book, n: nat)
    requires n <= |t.bids| && n <= |t.asks|
    ensures Merge(s, t, n) == Book(MergeSide(s.bids, t.bids[..n]), MergeSide(s.asks, Heard(s, t, n)))
  {
    if n > 0 {
      MergeBySide(s, t, n - 1);
      MergeOneMore(s.bids, t.bids, n);
      assert Heard(s, t, n)[..n - 1] == Heard(s, t, n - 1);
    }
  }

  /** All prices of both books, dead levels of s included, lie on one grid. */
  ghost predicate Quoted(s: Book, t: Book, g: set<real>) {
    && OnGrid(g) && Ranked(s.bids) && Ranked(s.asks)
    && PricesIn(s.bids, g) && PricesIn(s.asks, g) && LivePricesIn(t.bids, g) && LivePricesIn(t.asks, g)
    && |s.bids| == |s.asks| == |t.bids| == |t.asks|
  }

  /** The bids are always right. */
  lemma BidsAreTop(s: Book, t: Book, g: set<real>)
    requires Quoted(s, t, g)
    ensures IsTop(Live(Merge(s, t, |t.bids|).bids), Plus(DepthOf(s.bids), DepthOf(t.bids)), |s.bids|)
  {
    MergeBySide(s, t, |t.bids|);
    assert t.bids[..|t.bids|] == t.bids;
    SideIsTop(s.bids, t.bids, g);
  }

  // ----- Prices in ticks, and the tolerance in numbers -----

  function Ticks(j: int, tick: real): real { j as real * tick }

  /** Every price is a whole number of ticks. */
  ghost predicate InTicks(g: set<real>, tick: real) { forall p :: p in g ==> exists j :: p == Ticks(j, tick) }

  lemma TicksApart(j: int, k: int, tick: real)
    requires tick >= 0.000001 && j < k
    ensures FarApart(Ticks(j, tick), Ticks(k, tick))
  {
    var d := k - j;
    assert Ticks(k, tick) - Ticks(j, tick) == d as real * tick;
    assert (d - 1) as real * tick >= 0.0;
  }

  /** Whole multiples of a tick of a millionth or more are a grid. */
  lemma TicksAreGrid(g: set<real>, tick: real)
    requires tick >= 0.000001 && InTicks(g, tick)
    ensures OnGrid(g)
  {
    forall p, q | p in g && q in g && p != q
      ensures FarApart(p, q)
    {
      var j :| p == Ticks(j, tick);
      var k :| q == Ticks(k, tick);
      if j < k {
        TicksApart(j, k, tick);
      } else {
        TicksApart(k, j, tick);
      }
    }
  }

  /** A side with prices in ticks: after the merge it lists exactly the best prices of the two together. */
  lemma TickSideIsTop(s: Side, t: seq<Level>, tick: real)
    requires Ranked(s) && tick >= 0.000001 && InTicks(Prices(s), tick) && InTicks(Prices(t), tick)
    ensures var r := MergeSide(s, t);
            Ranked(r) && IsTop(Live(r), Plus(DepthOf(s), DepthOf(t)), |s|)
  {
    var g := Prices(s) + Prices(t);
    TicksAreGrid(g, tick);
    SideIsTop(s, t, g);
  }

  /** All prices of the book are whole numbers of ticks, and its sides have no gaps. */
  ghost predicate Ticked(b: Book, tick: real) {
    && Ranked(b.bids) && Ranked(b.asks) && |b.bids| == |b.asks|
    && InTicks(Prices(b.bids), tick) && InTicks(Prices(b.asks), tick)
  }

  function BookPrices(b: Book): set<real> { Prices(b.bids) + Prices(b.asks) }

  /** So the laws of merging hold for books in ticks: their prices are the grid. */
  lemma TickedArePaired(s: Book, t: Book, tick: real)
    requires Ticked(s, tick) && Ticked(t, tick) && |s.bids| == |t.bids| && tick >= 0.000001
    ensures Paired(s, t, BookPrices(s) + BookPrices(t))
  {
    TicksAreGrid(BookPrices(s) + BookPrices(t), tick);
  }

  lemma TickBidsAreTop(s: Book, t: Book, tick: real)
    requires Ticked(s, tick) && Ticked(t, tick) && |s.bids| == |t.bids| && tick >= 0.000001
    ensures IsTop(Live(Merge(s, t, |t.bids|).bids), Plus(DepthOf(s.bids), DepthOf(t.bids)), |s.bids|)
  {
    TickedArePaired(s, t, tick);
    BidsAreTop(s, t, BookPrices(s) + BookPrices(t));
  }

  /** The first level i that does not beat p by more than a hundred-millionth: p within that of it is the
      same level, whose size grows, and a better p is a level of its own. */
  lemma ToleranceIs(side: Side, i: nat, p: real, size: int)
    requires i < |side| && forall j :: 0 <= j <= i ==> side[j].size != 0
    requires forall j :: 0 <= j < i ==> side[j].price > p + 0.00000001
    ensures -0.00000001 <= side[i].price - p <= 0.00000001 ==>
              Insert(side, p, size) == side[i := Level(side[i].price, side[i].size + size)]
    ensures side[i].price - p < -0.00000001 ==> Insert(side, p, size) == ShiftIn(side, i, Level(p, size))
  {
    if side[i].price <= p + 0.00000001 {
      assert Find(side, p) == i;
    }
  }

  // ----- What is skipped -----

  /** Before the merge: iteration d will leave early. */
  ghost predicate BidRanksOut(s: Book, t: Book, d: nat)
    requires d < |t.bids|
  {
    t.bids[d].size > 0 && Rank(Plus(DepthOf(s.bids), DepthOf(t.bids[..d])), t.bids[d].price) >= |s.bids|
  }

  lemma SkipsByRank(s: Book, t: Book, g: set<real>, d: nat)
    requires Quoted(s, t, g) && d < |t.bids|
    ensures Skips(s, t, d) <==> BidRanksOut(s, t, d)
  {
    if t.bids[d].size > 0 {
      var p, r, m := t.bids[d].price, MergeSide(s.bids, t.bids[..d]), Plus(DepthOf(s.bids), DepthOf(t.bids[..d]));
      SideIsTop(s.bids, t.bids[..d], g);
      OnGridClear(r, p, g);
      RankFull(Live(r), m, |r|, p);
      FindInLive(r, Count(r), p);
      if Find(r, p) == |r| {
        assert forall j :: 0 <= j < |r| ==> Live(r)[j] == r[j];
      } else if Count(r) == |r| {
        assert Live(r)[Find(r, p)].price <= p;
      }
    }
  }

  /** u is t with some live levels killed. */
  ghost predicate Thinned(u: seq<Level>, t: seq<Level>) {
    |u| == |t| && forall i :: 0 <= i < |t| ==> u[i] == t[i] || u[i] == t[i].(size := 0)
  }

  ghost predicate Killed(u: seq<Level>, t: seq<Level>, p: real)
    requires Thinned(u, t)
  {
    exists i :: 0 <= i < |t| && t[i].price == p && t[i].size > 0 && u[i] != t[i]
  }

  lemma {:induction false} ThinnedDepth(u: seq<Level>, t: seq<Level>, p: real)
    requires Thinned(u, t)
    ensures 0 <= At(DepthOf(u), p) <= At(DepthOf(t), p)
    ensures p in DepthOf(u) <==> At(DepthOf(u), p) > 0
    ensures p in DepthOf(t) <==> At(DepthOf(t), p) > 0
    ensures At(DepthOf(u), p) < At(DepthOf(t), p) <==> Killed(u, t, p)
  {
    if t != [] {
      var n := |t| - 1;
      ThinnedDepth(u[..n], t[..n], p);
      if Killed(u[..n], t[..n], p) {
        var i :| 0 <= i < n && t[..n][i].price == p && t[..n][i].size > 0 && u[..n][i] != t[..n][i];
        assert t[i].price == p && t[i].size > 0 && u[i] != t[i];
      }
      if Killed(u, t, p) {
        var i :| 0 <= i <= n && t[i].price == p && t[i].size > 0 && u[i] != t[i];
        if i < n {
          assert t[..n][i] == t[i] && u[..n][i] == u[i];
        }
      }
    }
  }

  /** Every live ask that goes unheard, because its bid ranks out, ranks out itself. */
  ghost predicate UnheardRankOut(s: Book, t: Book, m: Depth)
    requires |t.bids| == |t.asks|
  {
    forall d :: 0 <= d < |t.asks| && BidRanksOut(s, t, d) && t.asks[d].size > 0 ==>
      Rank(m, t.asks[d].price) >= |s.asks|
  }

  /** The asks are right exactly under that condition on the two books. */
  lemma AsksAreTopIff(s: Book, t: Book, g: set<real>)
    requires Quoted(s, t, g)
    ensures var n, m := |s.asks|, Plus(DepthOf(s.asks), DepthOf(t.asks));
            IsTop(Live(Merge(s, t, n).asks), m, n) <==> UnheardRankOut(s, t, m)
  {
    var n, u := |s.asks|, Heard(s, t, |s.asks|);
    MergeBySide(s, t, n);
    SideIsTop(s.asks, u, g);
    HeardByRank(s, t, g, u);
    if UnheardRankOut(s, t, Plus(DepthOf(s.asks), DepthOf(t.asks))) {
      SideIsTop(s.asks, t.asks, g);
      ThinnedIsTop(DepthOf(s.asks), u, t.asks, Live(MergeSide(s.asks, u)), Live(MergeSide(s.asks, t.asks)), n);
    } else {
      var d :| 0 <= d < n && BidRanksOut(s, t, d) && t.asks[d].size > 0
               && Rank(Plus(DepthOf(s.asks), DepthOf(t.asks)), t.asks[d].price) < n;
      KilledNotTop(DepthOf(s.asks), u, t.asks, Live(MergeSide(s.asks, u)), n, d);
    }
  }

  lemma HeardByRank(s: Book, t: Book, g: set<real>, u: seq<Level>)
    requires Quoted(s, t, g) && u == Heard(s, t, |t.asks|)
    ensures Thinned(u, t.asks) && LivePricesIn(u, g)
    ensures forall d :: 0 <= d < |u| && t.asks[d].size > 0 ==> (u[d] != t.asks[d] <==> BidRanksOut(s, t, d))
  {
    forall d | 0 <= d < |u| ensures Skips(s, t, d) <==> BidRanksOut(s, t, d) {
      SkipsByRank(s, t, g, d);
    }
  }

  lemma ThinnedIsTop(a: Depth, u: seq<Level>, t: seq<Level>, x: seq<Level>, y: seq<Level>, n: nat)
    requires Thinned(u, t) && IsTop(x, Plus(a, DepthOf(u)), n) && IsTop(y, Plus(a, DepthOf(t)), n)
    requires forall d :: 0 <= d < |t| && t[d].size > 0 && u[d] != t[d] ==> Rank(Plus(a, DepthOf(t)), t[d].price) >= n
    ensures IsTop(x, Plus(a, DepthOf(t)), n)
  {
    ThinnedTop(a, u, t, y, n);
    TopIsUnique(x, y, Plus(a, DepthOf(u)), n);
  }

  lemma KilledNotTop(a: Depth, u: seq<Level>, t: seq<Level>, x: seq<Level>, n: nat, d: nat)
    requires Thinned(u, t) && IsTop(x, Plus(a, DepthOf(u)), n)
    requires d < |t| && u[d] != t[d] && t[d].size > 0 && Rank(Plus(a, DepthOf(t)), t[d].price) < n
    ensures !IsTop(x, Plus(a, DepthOf(t)), n)
  {
    var m, p := Plus(a, DepthOf(t)), t[d].price;
    assert Killed(u, t, p);
    ThinnedDepth(u, t, p);
    if IsTop(x, m, n) {
      RankFull(x, m, n, p);
      if Lists(x, p) {
        assert false;
      }
    }
  }

  lemma ThinnedTop(a: Depth, u: seq<Level>, t: seq<Level>, y: seq<Level>, n: nat)
    requires Thinned(u, t) && IsTop(y, Plus(a, DepthOf(t)), n)
    requires forall p :: Rank(Plus(a, DepthOf(t)), p) < n ==> !Killed(u, t, p)
    ensures IsTop(y, Plus(a, DepthOf(u)), n)
  {
    var m, m' := Plus(a, DepthOf(t)), Plus(a, DepthOf(u));
    forall i | 0 <= i < |y| ensures y[i].price in m' && m'[y[i].price] == y[i].size {
      RankFull(y, m, n, y[i].price);
      ThinnedDepth(u, t, y[i].price);
    }
    forall p | p in m' ensures p in m {
      ThinnedDepth(u, t, p);
    }
  }

  /** Five levels one tick apart, all of size 1, starting at p. */
  function Ladder(p: real): Side {
    [Level(p, 1), Level(p - 1.0, 1), Level(p - 2.0, 1), Level(p - 3.0, 1), Level(p - 4.0, 1)]
  }

  /** One live level and four dead ones. */
  function Single(p: real): Side {
    [Level(p, 1), Level(0.0, 0), Level(0.0, 0), Level(0.0, 0), Level(0.0, 0)]
  }

  /** A book where the condition fails: bids 10 to 6 and asks 20 to 24, merged with bid 5 and
      ask 19, stay as they are, and the new best ask is lost. */
  lemma BestAskLost()
    ensures var s, t := Book(Ladder(10.0), Ladder(-20.0)), Book(Single(5.0), Single(-19.0));
            && Merge(s, t, 5) == s
            && !IsTop(Live(s.asks), Plus(DepthOf(s.asks), DepthOf(t.asks)), 5)
  {
    var s, t := Book(Ladder(10.0), Ladder(-20.0)), Book(Single(5.0), Single(-19.0));
    NoRoom(s, t);
    StaysPut(s, t, 5);
    DeadAddsNothing(t.asks, 1);
    CountIs(s.asks, 5);
    DescendingDepth(t.asks[..1]);
    assert t.asks[..1][0].price in Plus(DepthOf(s.asks), DepthOf(t.asks)) && Live(s.asks)[0].price == -20.0;
  }

  lemma NoRoom(s: Book, t: Book)
    requires s.bids == Ladder(10.0) && t.bids == Single(5.0) && |t.asks| >= 1
    ensures Merge(s, t, 1) == s
  {
    assert Find(s.bids, 5.0) == 5;
    assert Merge(s, t, 0) == s;
  }

  lemma {:induction false} StaysPut(s: Book, t: Book, n: nat)
    requires 1 <= n <= |t.bids| && n <= |t.asks|
    requires forall d :: 1 <= d < n ==> t.bids[d].size == 0 && t.asks[d].size == 0
    ensures Merge(s, t, n) == Merge(s, t, 1)
  {
    if n > 1 {
      StaysPut(s, t, n - 1);
    }
  }

  // ----- Order and grouping of whole books -----

  /** Every price of both books, stale ones included, lies on one grid, and both books have n levels. */
  ghost predicate Paired(s: Book, t: Book, g: set<real>) { Quoted(s, t, g) && Quoted(t, s, g) }

  /** t's asks without those whose bid ranks out. */
  ghost function Unskipped(s: Book, t: Book): (u: seq<Level>)
    requires |t.bids| == |t.asks|
    ensures |u| == |t.asks|
    ensures forall d :: 0 <= d < |u| ==> u[d] == if BidRanksOut(s, t, d) then t.asks[d].(size := 0) else t.asks[d]
  {
    seq(|t.asks|, d requires 0 <= d < |t.asks| => if BidRanksOut(s, t, d) then t.asks[d].(size := 0) else t.asks[d])
  }

  /** What the merged asks are the top of. */
  ghost function AskDepth(s: Book, t: Book): Depth
    requires |t.bids| == |t.asks|
  {
    Plus(DepthOf(s.asks), DepthOf(Unskipped(s, t)))
  }

  lemma MergedAsks(s: Book, t: Book, g: set<real>, r: Book)
    requires Quoted(s, t, g) && r == Merge(s, t, |t.bids|)
    ensures Ranked(r.asks) && PricesIn(r.asks, g) && IsTop(Live(r.asks), AskDepth(s, t), |s.asks|)
    ensures r.asks == MergeSide(s.asks, Unskipped(s, t))
  {
    var u := Heard(s, t, |t.asks|);
    forall d | 0 <= d < |u|
      ensures u[d] == Unskipped(s, t)[d]
    {
      SkipsByRank(s, t, g, d);
    }
    assert u == Unskipped(s, t);
    MergeBySide(s, t, |t.bids|);
    SideIsTop(s.asks, u, g);
  }

  lemma MergedBids(s: Book, t: Book, g: set<real>, r: Book)
    requires Quoted(s, t, g) && r == Merge(s, t, |t.bids|)
    ensures r.bids == MergeSide(s.bids, t.bids) && Ranked(r.bids) && PricesIn(r.bids, g)
    ensures IsTop(Live(r.bids), Plus(DepthOf(s.bids), DepthOf(t.bids)), |s.bids|)
  {
    MergeBySide(s, t, |t.bids|);
    assert t.bids[..|t.bids|] == t.bids;
    SideIsTop(s.bids, t.bids, g);
  }

  /** The bids of two books come out the same whichever is merged into the other. */
  lemma BidsCommute(s: Book, t: Book, g: set<real>)
    requires Paired(s, t, g)
    ensures Live(Merge(s, t, |t.bids|).bids) == Live(Merge(t, s, |s.bids|).bids)
  {
    MergedBids(s, t, g, Merge(s, t, |t.bids|));
    MergedBids(t, s, g, Merge(t, s, |s.bids|));
    MergeCommutes(s.bids, t.bids, g);
  }

  /** The bids of three books come out the same however the merges are grouped. */
  lemma BidsAssociate(s: Book, t: Book, u: Book, g: set<real>)
    requires Paired(s, t, g) && Paired(t, u, g)
    ensures var n := |s.bids|;
      Live(Merge(Merge(s, t, n), u, n).bids) == Live(Merge(s, Merge(t, u, n), n).bids)
  {
    var n := |s.bids|;
    var st, tu := Merge(s, t, n), Merge(t, u, n);
    MergeQuoted(s, t, u, g, st);
    QuotedMerge(s, t, u, g, tu);
    MergedBids(s, t, g, st);
    MergedBids(t, u, g, tu);
    MergedBids(st, u, g, Merge(st, u, n));
    MergedBids(s, tu, g, Merge(s, tu, n));
    MergeAssociates(s.bids, t.bids, u.bids, g);
  }

  lemma MergeQuoted(s: Book, t: Book, u: Book, g: set<real>, st: Book)
    requires Paired(s, t, g) && Paired(t, u, g) && st == Merge(s, t, |t.bids|)
    ensures Quoted(st, u, g)
  {
    MergedBids(s, t, g, st);
    MergedAsks(s, t, g, st);
  }

  lemma QuotedMerge(s: Book, t: Book, u: Book, g: set<real>, tu: Book)
    requires Paired(s, t, g) && Paired(t, u, g) && tu == Merge(t, u, |t.bids|)
    ensures Quoted(s, tu, g)
  {
    MergedBids(t, u, g, tu);
    MergedAsks(t, u, g, tu);
  }

  /** Two totals agree on every price that ranks above n in either. */
  ghost predicate AgreeAbove(a: Depth, b: Depth, n: nat) {
    forall p :: (p in a && Rank(a, p) < n) || (p in b && Rank(b, p) < n) ==> p in a && p in b && a[p] == b[p]
  }

  lemma RankedIsListed(x: seq<Level>, m: Depth, n: nat, p: real)
    requires IsTop(x, m, n)
    ensures Lists(x, p) <==> p in m && Rank(m, p) < n
  {
    RankFull(x, m, n, p);
    if Lists(x, p) {
      var i :| 0 <= i < |x| && x[i].price == p;
    }
  }

  /** A price that is listed in y is listed in x if the totals agree above n. */
  lemma ListedInBoth(x: seq<Level>, y: seq<Level>, a: Depth, b: Depth, n: nat, p: real)
    requires IsTop(x, a, n) && IsTop(y, b, n) && AgreeAbove(a, b, n) && Lists(y, p)
    ensures Lists(x, p) && p in b && p in a && a[p] == b[p]
  {
    RankedIsListed(y, b, n, p);
    if !Lists(x, p) {
      forall q | q in Prices(x)
        ensures q in Better(b, p)
      {
        assert Lists(x, q);
        RankedIsListed(x, a, n, q);
      }
      PricesSize(x);
      SubsetSize(Prices(x), Better(b, p));
    }
  }

  lemma AgreeingTop(x: seq<Level>, y: seq<Level>, a: Depth, b: Depth, n: nat)
    requires IsTop(x, a, n) && IsTop(y, b, n) && AgreeAbove(a, b, n)
    ensures IsTop(x, b, n)
  {
    forall i | 0 <= i < |x|
      ensures x[i].price in b && b[x[i].price] == x[i].size
    {
      assert Lists(x, x[i].price);
      ListedInBoth(y, x, b, a, n, x[i].price);
    }
    forall p | p in b && !Lists(x, p)
      ensures |x| == n && forall i :: 0 <= i < n ==> x[i].price > p
    {
      if Lists(y, p) {
        ListedInBoth(x, y, a, b, n, p);
      }
      SamePrices(x, y, a, b, n);
      forall i | 0 <= i < |x|
        ensures x[i].price > p
      {
        assert x[i].price in Prices(y);
      }
    }
  }

  lemma SamePrices(x: seq<Level>, y: seq<Level>, a: Depth, b: Depth, n: nat)
    requires IsTop(x, a, n) && IsTop(y, b, n) && AgreeAbove(a, b, n)
    ensures Prices(x) == Prices(y) && |x| == |y|
  {
    forall p | p in Prices(x) || p in Prices(y)
      ensures p in Prices(x) && p in Prices(y)
    {
      if p in Prices(y) {
        assert Lists(y, p);
        ListedInBoth(x, y, a, b, n, p);
      } else {
        assert Lists(x, p);
        ListedInBoth(y, x, b, a, n, p);
      }
    }
    PricesSize(x);
    PricesSize(y);
  }

  /** The n best of two totals are the same exactly when the totals agree above n. */
  lemma TopsEqualIff(x: seq<Level>, y: seq<Level>, a: Depth, b: Depth, n: nat)
    requires IsTop(x, a, n) && IsTop(y, b, n)
    ensures x == y <==> AgreeAbove(a, b, n)
  {
    if AgreeAbove(a, b, n) {
      AgreeingTop(x, y, a, b, n);
      TopIsUnique(x, y, b, n);
    } else if x == y {
      forall p | (p in a && Rank(a, p) < n) || (p in b && Rank(b, p) < n)
        ensures p in a && p in b && a[p] == b[p]
      {
        RankedIsListed(x, a, n, p);
        RankedIsListed(x, b, n, p);
        var i :| 0 <= i < |x| && x[i].price == p;
      }
    }
  }

  /** The asks come out the same both ways round exactly when the two totals of heard asks agree
      on the prices that rank above n. */
  lemma AsksCommuteIff(s: Book, t: Book, g: set<real>)
    requires Paired(s, t, g)
    ensures Live(Merge(s, t, |t.bids|).asks) == Live(Merge(t, s, |s.bids|).asks)
       <==> AgreeAbove(AskDepth(s, t), AskDepth(t, s), |s.asks|)
  {
    var st, ts := Merge(s, t, |t.bids|), Merge(t, s, |s.bids|);
    MergedAsks(s, t, g, st);
    MergedAsks(t, s, g, ts);
    TopsEqualIff(Live(st.asks), Live(ts.asks), AskDepth(s, t), AskDepth(t, s), |s.asks|);
  }

  /** It is enough that no ask is skipped that belongs among the n best. */
  lemma AsksCommuteIfHeard(s: Book, t: Book, g: set<real>)
    requires Paired(s, t, g)
    requires UnheardRankOut(s, t, Plus(DepthOf(s.asks), DepthOf(t.asks)))
    requires UnheardRankOut(t, s, Plus(DepthOf(t.asks), DepthOf(s.asks)))
    ensures Live(Merge(s, t, |t.bids|).asks) == Live(Merge(t, s, |s.bids|).asks)
  {
    AsksAreTopIff(s, t, g);
    AsksAreTopIff(t, s, g);
    var m := Plus(DepthOf(s.asks), DepthOf(t.asks));
    assert m == Plus(DepthOf(t.asks), DepthOf(s.asks));
    TopIsUnique(Live(Merge(s, t, |t.bids|).asks), Live(Merge(t, s, |s.bids|).asks), m, |s.asks|);
  }

  // Three books. When u is merged into s + t, its asks are judged by the bids of s, t and u; when t + u
  // is merged into s, an ask of t + u is judged by the bid that ranks with it.

  /** Merging u into s + t, iteration d will leave early. */
  ghost predicate RanksOutAfter(s: Book, t: Book, u: Book, d: nat)
    requires d < |u.bids|
  {
    u.bids[d].size > 0 && Rank(Plus(DepthOf(s.bids), DepthOf(t.bids + u.bids[..d])), u.bids[d].price) >= |s.bids|
  }

  ghost function UnskippedAfter(s: Book, t: Book, u: Book): (v: seq<Level>)
    requires |u.bids| == |u.asks|
    ensures |v| == |u.asks|
    ensures forall d :: 0 <= d < |v| ==> v[d] == if RanksOutAfter(s, t, u, d) then u.asks[d].(size := 0) else u.asks[d]
  {
    seq(|u.asks|, d requires 0 <= d < |u.asks| => if RanksOutAfter(s, t, u, d) then u.asks[d].(size := 0) else u.asks[d])
  }

  /** What the asks of (s + t) + u are the top of. */
  ghost function AsksFromLeft(s: Book, t: Book, u: Book): Depth
    requires |t.bids| == |t.asks| && |u.bids| == |u.asks|
  {
    Plus(AskDepth(s, t), DepthOf(UnskippedAfter(s, t, u)))
  }

  /** The sum of the bids of two books. */
  function BidDepth(t: Book, u: Book): Depth { Plus(DepthOf(t.bids), DepthOf(u.bids)) }

  /** t + u has a bid of rank d, and it ranks out when s is added. */
  ghost predicate RankedBidOut(s: Book, t: Book, u: Book, d: nat) {
    RankedOut(BidDepth(t, u), DepthOf(s.bids), |s.bids|, d)
  }

  /** m has a price of rank d, and with c added it ranks n or worse. */
  ghost predicate RankedOut(m: Depth, c: Depth, n: nat, d: nat) {
    exists q :: q in m && Rank(m, q) == d && Rank(Plus(c, m), q) >= n
  }

  /** The best of m by rank, without those that `out` rules out. */
  ghost function BestBut(m: Depth, n: nat, out: nat -> bool): Depth {
    map p | p in m && Rank(m, p) < n && !out(Rank(m, p)) :: m[p]
  }

  ghost function RankedBidsOut(s: Book, t: Book, u: Book): nat -> bool { (d: nat) => RankedBidOut(s, t, u, d) }

  /** The asks of t + u that the merge into s looks at: no more than n, and not those whose bid ranks out. */
  ghost function RankedAsks(s: Book, t: Book, u: Book): Depth
    requires |u.bids| == |u.asks|
  {
    BestBut(AskDepth(t, u), |s.asks|, RankedBidsOut(s, t, u))
  }

  /** What the asks of s + (t + u) are the top of. */
  ghost function AsksFromRight(s: Book, t: Book, u: Book): Depth
    requires |u.bids| == |u.asks|
  {
    Plus(DepthOf(s.asks), RankedAsks(s, t, u))
  }

  lemma RanksOutAfterIs(s: Book, t: Book, u: Book, g: set<real>, st: Book, d: nat)
    requires Paired(s, t, g) && Paired(t, u, g) && st == Merge(s, t, |t.bids|) && d < |u.bids|
    ensures BidRanksOut(st, u, d) <==> RanksOutAfter(s, t, u, d)
  {
    var v := u.bids[..d];
    MergedBids(s, t, g, st);
    SideIsTop(st.bids, v, g);
    SideIsTop(s.bids, t.bids + v, g);
    MergeAppend(s.bids, t.bids, v);
    var x := Live(MergeSide(st.bids, v));
    RankFull(x, Plus(DepthOf(st.bids), DepthOf(v)), |s.bids|, u.bids[d].price);
    RankFull(x, Plus(DepthOf(s.bids), DepthOf(t.bids + v)), |s.bids|, u.bids[d].price);
  }

  lemma PlusAssociates(a: Depth, b: Depth, c: Depth)
    ensures Plus(Plus(a, b), c) == Plus(a, Plus(b, c))
  {
  }

  lemma UnskippedAfterIs(s: Book, t: Book, u: Book, g: set<real>, st: Book)
    requires Paired(s, t, g) && Paired(t, u, g) && st == Merge(s, t, |t.bids|)
    ensures Unskipped(st, u) == UnskippedAfter(s, t, u)
  {
    var v, w := Unskipped(st, u), UnskippedAfter(s, t, u);
    forall d | 0 <= d < |w|
      ensures v[d] == w[d]
    {
      RanksOutAfterIs(s, t, u, g, st, d);
    }
  }

  /** Merging v and then w is merging what they add up to. */
  lemma TwoMerges(a: Side, v: seq<Level>, w: seq<Level>, g: set<real>)
    requires Ranked(a) && OnGrid(g) && PricesIn(a, g) && LivePricesIn(v, g) && LivePricesIn(w, g)
    ensures IsTop(Live(MergeSide(MergeSide(a, v), w)), Plus(Plus(DepthOf(a), DepthOf(v)), DepthOf(w)), |a|)
  {
    MergeAppend(a, v, w);
    SideIsTop(a, v + w, g);
    AddedAppend(map[], v, w);
    AddedIsPlus(DepthOf(v), w);
    PlusAssociates(DepthOf(a), DepthOf(v), DepthOf(w));
  }

  lemma UnskippedOnGrid(s: Book, t: Book, g: set<real>)
    requires |t.bids| == |t.asks| && LivePricesIn(t.asks, g)
    ensures LivePricesIn(Unskipped(s, t), g)
  {
  }

  lemma LeftAsks(s: Book, t: Book, u: Book, g: set<real>, st: Book, r: Book)
    requires Paired(s, t, g) && Paired(t, u, g) && st == Merge(s, t, |t.bids|) && r == Merge(st, u, |u.bids|)
    ensures IsTop(Live(r.asks), AsksFromLeft(s, t, u), |s.asks|)
  {
    MergeQuoted(s, t, u, g, st);
    MergedAsks(s, t, g, st);
    MergedAsks(st, u, g, r);
    UnskippedAfterIs(s, t, u, g, st);
    UnskippedOnGrid(s, t, g);
    UnskippedOnGrid(st, u, g);
    TwoMerges(s.asks, Unskipped(s, t), Unskipped(st, u), g);
  }

  /** The i-th of the best has rank i. */
  lemma RankOfListed(x: seq<Level>, m: Depth, n: nat, i: nat)
    requires IsTop(x, m, n) && i < |x|
    ensures x[i].price in m && Rank(m, x[i].price) == i
  {
    var p := x[i].price;
    forall q | q in Better(m, p)
      ensures q in Prices(x[..i])
    {
      assert Lists(x, q);
      var j :| 0 <= j < |x| && x[j].price == q;
      assert x[..i][j].price == q;
    }
    forall q | q in Prices(x[..i])
      ensures q in Better(m, p)
    {
      var j :| 0 <= j < i && x[..i][j].price == q;
      assert x[j].price == q;
    }
    assert Better(m, p) == Prices(x[..i]);
    PricesSize(x[..i]);
  }

  lemma ListedKeys(x: seq<Level>, d: nat)
    requires Descending(x) && d <= |x| && forall i :: 0 <= i < |x| ==> x[i].size > 0
    ensures forall q :: q in DepthOf(x[..d]) <==> exists i :: 0 <= i < d && x[i].price == q
  {
    DescendingDepth(x[..d]);
    forall q
      ensures q in DepthOf(x[..d]) <==> exists i :: 0 <= i < d && x[i].price == q
    {
      if q in DepthOf(x[..d]) {
        var i :| 0 <= i < d && x[..d][i].price == q;
        assert x[i].price == q;
      }
      if i :| 0 <= i < d && x[i].price == q {
        assert x[..d][i].price == q;
      }
    }
  }

  /** Above the d-th best of m, the first d of them are all there is of m. */
  lemma AboveListed(x: seq<Level>, m: Depth, c: Depth, n: nat, d: nat)
    requires IsTop(x, m, n) && d < |x| && forall i :: 0 <= i < |x| ==> x[i].size > 0
    ensures Rank(Plus(c, DepthOf(x[..d])), x[d].price) == Rank(Plus(c, m), x[d].price)
  {
    var p, a, b := x[d].price, Plus(c, DepthOf(x[..d])), Plus(c, m);
    ListedKeys(x, d);
    forall q | q > p
      ensures q in DepthOf(x[..d]) <==> q in m
    {
      if q in m {
        assert Lists(x, q);
        var i :| 0 <= i < |x| && x[i].price == q;
      }
    }
    assert Better(a, p) == Better(b, p);
  }

  lemma RankedOutIs(x: seq<Level>, m: Depth, c: Depth, n: nat, d: nat)
    requires IsTop(x, m, n) && d < |x| && forall i :: 0 <= i < |x| ==> x[i].size > 0
    ensures RankedOut(m, c, n, d) <==> Rank(Plus(c, DepthOf(x[..d])), x[d].price) >= n
  {
    RankOfListed(x, m, n, d);
    AboveListed(x, m, c, n, d);
    if RankedOut(m, c, n, d) {
      var q :| q in m && Rank(m, q) == d && Rank(Plus(c, m), q) >= n;
      OneOfRank(x, m, n, d, q);
    }
  }

  /** Only the d-th best has rank d; past the end, nothing has. */
  lemma OneOfRank(x: seq<Level>, m: Depth, n: nat, d: nat, q: real)
    requires IsTop(x, m, n) && q in m && Rank(m, q) == d < n
    ensures d < |x| && x[d].price == q
  {
    RankedIsListed(x, m, n, q);
    var i :| 0 <= i < |x| && x[i].price == q;
    RankOfListed(x, m, n, i);
  }

  lemma RankedBidIs(s: Book, t: Book, u: Book, tu: Book, d: nat)
    requires Ranked(tu.bids) && IsTop(Live(tu.bids), BidDepth(t, u), |tu.bids|) && d < |s.bids| == |tu.bids|
    ensures BidRanksOut(s, tu, d) <==> RankedBidOut(s, t, u, d)
  {
    var n, x, m := |s.bids|, Live(tu.bids), BidDepth(t, u);
    if d < |x| {
      RankedOutIs(x, m, DepthOf(s.bids), n, d);
      assert x[..d] == tu.bids[..d];
    } else if RankedBidOut(s, t, u, d) {
      var q :| q in m && Rank(m, q) == d && Rank(Plus(DepthOf(s.bids), m), q) >= n;
      OneOfRank(x, m, n, d, q);
    }
  }

  /** No two live levels have the same price. */
  ghost predicate DistinctPrices(u: seq<Level>) {
    forall i, j :: 0 <= i < j < |u| && u[i].size > 0 && u[j].size > 0 ==> u[i].price != u[j].price
  }

  ghost predicate ListsLive(u: seq<Level>, p: real) {
    exists i :: 0 <= i < |u| && u[i].size > 0 && u[i].price == p
  }

  lemma {:induction false} DistinctDepth(u: seq<Level>)
    requires DistinctPrices(u)
    ensures forall i :: 0 <= i < |u| && u[i].size > 0 ==> u[i].price in DepthOf(u) && DepthOf(u)[u[i].price] == u[i].size
    ensures forall p :: p in DepthOf(u) ==> ListsLive(u, p)
  {
    if u != [] {
      var v, l := u[..|u| - 1], u[|u| - 1];
      DistinctDepth(v);
      assert l.size > 0 ==> !ListsLive(v, l.price);
      forall p | p in DepthOf(u)
        ensures ListsLive(u, p)
      {
        if l.size > 0 && p == l.price {
          assert u[|u| - 1].price == p;
        } else {
          assert ListsLive(v, p);
          var i :| 0 <= i < |v| && v[i].size > 0 && v[i].price == p;
          assert u[i].price == p;
        }
      }
    }
  }

  /** w is x, with dead levels for what `out` rules out and after the end. */
  ghost predicate KeepsBut(w: seq<Level>, x: seq<Level>, out: nat -> bool) {
    && |x| <= |w| && Descending(x) && (forall i :: 0 <= i < |x| ==> x[i].size > 0)
    && forall d :: 0 <= d < |w| ==> if d < |x| && !out(d) then w[d] == x[d] else w[d].size == 0
  }

  lemma KeptPrices(w: seq<Level>, x: seq<Level>, out: nat -> bool)
    requires KeepsBut(w, x, out)
    ensures DistinctPrices(w)
  {
  }

  lemma KeptIsBest(w: seq<Level>, x: seq<Level>, m: Depth, out: nat -> bool, d: nat)
    requires IsTop(x, m, |w|) && KeepsBut(w, x, out) && d < |w| && w[d].size > 0
    ensures w[d].price in BestBut(m, |w|, out) && BestBut(m, |w|, out)[w[d].price] == w[d].size
  {
    RankOfListed(x, m, |w|, d);
  }

  lemma BestIsKept(w: seq<Level>, x: seq<Level>, m: Depth, out: nat -> bool, p: real)
    requires IsTop(x, m, |w|) && KeepsBut(w, x, out) && p in BestBut(m, |w|, out)
    ensures ListsLive(w, p)
  {
    RankedIsListed(x, m, |w|, p);
    var d :| 0 <= d < |x| && x[d].price == p;
    RankOfListed(x, m, |w|, d);
    assert w[d] == x[d];
  }

  lemma SameDepth(w: seq<Level>, b: Depth)
    requires DistinctPrices(w) && forall p :: p in b ==> ListsLive(w, p)
    requires forall d :: 0 <= d < |w| && w[d].size > 0 ==> w[d].price in b && b[w[d].price] == w[d].size
    ensures DepthOf(w) == b
  {
    DistinctDepth(w);
    forall p | p in DepthOf(w)
      ensures p in b && DepthOf(w)[p] == b[p]
    {
      assert ListsLive(w, p);
      var i :| 0 <= i < |w| && w[i].size > 0 && w[i].price == p;
    }
    forall p | p in b
      ensures p in DepthOf(w)
    {
      var i :| 0 <= i < |w| && w[i].size > 0 && w[i].price == p;
    }
  }

  lemma BestButDepth(w: seq<Level>, x: seq<Level>, m: Depth, out: nat -> bool)
    requires IsTop(x, m, |w|) && KeepsBut(w, x, out)
    ensures DepthOf(w) == BestBut(m, |w|, out)
  {
    KeptPrices(w, x, out);
    forall d | 0 <= d < |w| && w[d].size > 0
      ensures w[d].price in BestBut(m, |w|, out) && BestBut(m, |w|, out)[w[d].price] == w[d].size
    {
      KeptIsBest(w, x, m, out, d);
    }
    forall p | p in BestBut(m, |w|, out)
      ensures ListsLive(w, p)
    {
      BestIsKept(w, x, m, out, p);
    }
    SameDepth(w, BestBut(m, |w|, out));
  }

  lemma HeardKeepsBut(s: Book, t: Book, u: Book, tu: Book)
    requires Ranked(tu.bids) && Ranked(tu.asks) && |s.bids| == |tu.bids| == |tu.asks|
    requires IsTop(Live(tu.bids), BidDepth(t, u), |tu.bids|)
    ensures KeepsBut(Unskipped(s, tu), Live(tu.asks), RankedBidsOut(s, t, u))
  {
    var w, x, out := Unskipped(s, tu), Live(tu.asks), RankedBidsOut(s, t, u);
    forall d | 0 <= d < |w|
      ensures if d < |x| && !out(d) then w[d] == x[d] else w[d].size == 0
    {
      RankedBidIs(s, t, u, tu, d);
    }
  }

  /** The asks of t + u that are heard, as the merge sees them and by rank. */
  lemma RankedAsksAre(s: Book, t: Book, u: Book, g: set<real>, tu: Book)
    requires Paired(s, t, g) && Paired(t, u, g) && tu == Merge(t, u, |t.bids|)
    ensures DepthOf(Unskipped(s, tu)) == RankedAsks(s, t, u)
  {
    MergedAsks(t, u, g, tu);
    MergedBids(t, u, g, tu);
    HeardKeepsBut(s, t, u, tu);
    BestButDepth(Unskipped(s, tu), Live(tu.asks), AskDepth(t, u), RankedBidsOut(s, t, u));
  }

  /** The asks come out the same however three books are grouped exactly when the asks heard from the
      left and from the right agree on the prices that rank above n. */
  lemma AsksAssociateIff(s: Book, t: Book, u: Book, g: set<real>)
    requires Paired(s, t, g) && Paired(t, u, g)
    ensures var n := |s.bids|;
      Live(Merge(Merge(s, t, n), u, n).asks) == Live(Merge(s, Merge(t, u, n), n).asks)
      <==> AgreeAbove(AsksFromLeft(s, t, u), AsksFromRight(s, t, u), n)
  {
    var n := |s.bids|;
    var st, tu := Merge(s, t, n), Merge(t, u, n);
    var x, y := Merge(st, u, n), Merge(s, tu, n);
    LeftAsks(s, t, u, g, st, x);
    QuotedMerge(s, t, u, g, tu);
    MergedAsks(s, tu, g, y);
    RankedAsksAre(s, t, u, g, tu);
    TopsEqualIff(Live(x.asks), Live(y.asks), AsksFromLeft(s, t, u), AsksFromRight(s, t, u), n);
  }

  lemma {:induction false} KeysAreListed(t: seq<Level>)
    ensures DepthOf(t).Keys <= Prices(t) && |Prices(t)| <= |t|
  {
    if t != [] {
      var n := |t| - 1;
      KeysAreListed(t[..n]);
      PricesGrow(t);
    } else {
      assert Prices(t) == {};
    }
  }

  lemma PricesGrow(t: seq<Level>)
    requires t != []
    ensures Prices(t) == Prices(t[..|t| - 1]) + {t[|t| - 1].price}
  {
    var n := |t| - 1;
    forall p | p in Prices(t)
      ensures p in Prices(t[..n]) + {t[n].price}
    {
      var i :| 0 <= i < |t| && t[i].price == p;
      assert i < n ==> t[..n][i].price == p;
    }
    forall p | p in Prices(t[..n])
      ensures p in Prices(t)
    {
      var i :| 0 <= i < n && t[..n][i].price == p;
      assert t[i].price == p;
    }
    assert t[n].price in Prices(t);
  }

  lemma DeadHasNoDepth(e: Side)
    requires Filled(e, 0)
    ensures DepthOf(e) == map[]
  {
    CountIs(e, 0);
    DeadAddsNothing(e, 0);
    assert e[..0] == [];
  }

  lemma DeadAskDepth(s: Book, e: Book)
    requires |s.bids| == |e.bids| == |s.asks| && Filled(e.bids, 0) && Filled(e.asks, 0)
    ensures AskDepth(e, s) == DepthOf(s.asks)
  {
    DeadHasNoDepth(e.bids);
    DeadHasNoDepth(e.asks);
    AllHeardByDead(s, e);
    assert Unskipped(e, s) == s.asks;
    assert Plus(map[], DepthOf(s.asks)) == DepthOf(s.asks);
  }

  lemma DeadHearsAll(s: Book, e: Book, g: set<real>, r: Book)
    requires Paired(s, e, g) && Filled(e.bids, 0) && Filled(e.asks, 0) && r == Merge(e, s, |s.bids|)
    ensures Live(r.asks) == Live(s.asks)
  {
    DeadAskDepth(s, e);
    MergedAsks(e, s, g, r);
    RankedHolds(s.asks);
    TopIsUnique(Live(r.asks), Live(s.asks), DepthOf(s.asks), |s.asks|);
  }

  lemma DeadAddsNothingToBook(s: Book, e: Book, n: nat)
    requires Filled(e.bids, 0) && Filled(e.asks, 0) && n <= |e.bids| && n <= |e.asks|
    ensures Merge(s, e, n) == s
  {
    MergeBySide(s, e, n);
    MergeDead(s.bids, e.bids[..n]);
    MergeDead(s.asks, Heard(s, e, n));
  }

  /** The dead book is a unit: merged in it changes nothing, and merged into it nothing is lost,
      since no bid is ever without room. */
  lemma DeadBookIsUnit(s: Book, e: Book, g: set<real>)
    requires Paired(s, e, g) && Filled(e.bids, 0) && Filled(e.asks, 0)
    ensures Merge(s, e, |e.bids|) == s
    ensures var r := Merge(e, s, |s.bids|); Live(r.bids) == Live(s.bids) && Live(r.asks) == Live(s.asks)
  {
    DeadAddsNothingToBook(s, e, |e.bids|);
    BidsCommute(s, e, g);
    DeadHearsAll(s, e, g, Merge(e, s, |s.bids|));
  }

  lemma AllHeardByDead(s: Book, e: Book)
    requires |s.bids| == |e.bids| && DepthOf(e.bids) == map[]
    ensures forall d :: 0 <= d < |s.bids| ==> !BidRanksOut(e, s, d)
  {
    forall d | 0 <= d < |s.bids|
      ensures !BidRanksOut(e, s, d)
    {
      var m, p := Plus(DepthOf(e.bids), DepthOf(s.bids[..d])), s.bids[d].price;
      KeysAreListed(s.bids[..d]);
      SubsetSize(Better(m, p), Prices(s.bids[..d]));
    }
  }

  lemma {:induction false} BestStays(side: Side, t: seq<Level>)
    requires side != [] && side[0].size > 0
    requires forall i :: 0 <= i < |t| && t[i].size > 0 ==> t[i].price < side[0].price - EPS
    ensures MergeSide(side, t)[0] == side[0]
  {
    if t != [] {
      BestStays(side, t[..|t| - 1]);
    }
  }

  /** If every ask of s is worse than the best ask of t, merging s into t keeps that one in front. */
  lemma BestAskStays(t: Book, s: Book, n: nat)
    requires n <= |s.bids| && n <= |s.asks| && t.asks != [] && t.asks[0].size > 0
    requires forall i :: 0 <= i < n && s.asks[i].size > 0 ==> s.asks[i].price < t.asks[0].price - EPS
    ensures Merge(t, s, n).asks[0] == t.asks[0]
  {
    MergeBySide(t, s, n);
    BestStays(t.asks, Heard(t, s, n));
  }

  /** The two books of the lost ask, merged the other way round, keep it: so the asks do not commute. */
  lemma AsksDoNotCommute()
    ensures var s, t := Book(Ladder(10.0), Ladder(-20.0)), Book(Single(5.0), Single(-19.0));
      && Merge(s, t, 5).asks[0] == Level(-20.0, 1)
      && Merge(t, s, 5).asks[0] == Level(-19.0, 1)
  {
    BestAskLost();
    BestAskStays(Book(Single(5.0), Single(-19.0)), Book(Ladder(10.0), Ladder(-20.0)), 5);
  }

  /** Two books of one level each, the second with the better bid: its ask goes behind the other. */
  lemma TwoSingles(t: Book, u: Book, r: Book)
    requires t == Book(Single(5.0), Single(-19.0)) && u == Book(Single(11.0), Single(-25.0)) && r == Merge(t, u, 5)
    ensures |r.bids| == |r.asks| == 5 && r.bids[0] == Level(11.0, 1)
    ensures r.asks[0] == Level(-19.0, 1) && r.asks[1] == Level(-25.0, 1)
    ensures r.asks[2] == r.asks[3] == r.asks[4] == Level(0.0, 0)
  {
    StaysPut(t, u, 5);
    assert Merge(t, u, 0) == t;
    assert Find(t.bids, 11.0) == 0;
    assert Find(t.asks, -25.0) == 1 by {
      assert t.asks[0].price > -25.0 + EPS && t.asks[1].size == 0;
    }
  }

  lemma OneLevel(side: Side, l: Level)
    ensures MergeSide(side, [l]) == NextSide(side, l)
  {
    assert [l][..0] == [] && MergeSide(side, []) == side;
  }

  /** With the better bid on top, the best ask is let in. */
  lemma LetIn(s: Book, tu: Book)
    requires s == Book(Ladder(10.0), Ladder(-20.0)) && |tu.bids| == |tu.asks| == 5
    requires tu.bids[0] == Level(11.0, 1) && tu.asks[0] == Level(-19.0, 1)
    requires forall i :: 1 <= i < 5 && tu.asks[i].size > 0 ==> tu.asks[i].price < -20.0
    ensures Merge(s, tu, 5).asks[0] == Level(-19.0, 1)
  {
    var h := Heard(s, tu, 5);
    assert Find(s.bids, 11.0) == 0 && tu.bids[..0] == [];
    assert h[0] == tu.asks[0];
    assert h == [h[0]] + h[1..];
    assert Find(s.asks, -19.0) == 0;
    OneLevel(s.asks, h[0]);
    var front := MergeSide(s.asks, [h[0]]);
    MergeAppend(s.asks, [h[0]], h[1..]);
    BestStays(front, h[1..]);
    MergeBySide(s, tu, 5);
  }

  lemma LossStays(s: Book, t: Book, u: Book)
    requires s == Book(Ladder(10.0), Ladder(-20.0)) && t == Book(Single(5.0), Single(-19.0))
    requires u == Book(Single(11.0), Single(-25.0))
    ensures Merge(Merge(s, t, 5), u, 5).asks[0] == Level(-20.0, 1)
  {
    BestAskLost();
    BestAskStays(s, u, 5);
  }

  lemma LossAverted(s: Book, t: Book, u: Book, tu: Book)
    requires s == Book(Ladder(10.0), Ladder(-20.0)) && t == Book(Single(5.0), Single(-19.0))
    requires u == Book(Single(11.0), Single(-25.0)) && tu == Merge(t, u, 5)
    ensures Merge(s, tu, 5).asks[0] == Level(-19.0, 1)
  {
    TwoSingles(t, u, tu);
    LetIn(s, tu);
  }

  /** A third book with one better bid, merged first with the second, saves the ask that is lost when it
      comes last: so the asks do not associate. */
  lemma AsksDoNotAssociate() returns (s: Book, t: Book, u: Book)
    ensures s == Book(Ladder(10.0), Ladder(-20.0)) && t == Book(Single(5.0), Single(-19.0))
    ensures u == Book(Single(11.0), Single(-25.0))
    ensures Merge(Merge(s, t, 5), u, 5).asks[0] == Level(-20.0, 1)
    ensures Merge(s, Merge(t, u, 5), 5).asks[0] == Level(-19.0, 1)
  {
    s, t := Book(Ladder(10.0), Ladder(-20.0)), Book(Single(5.0), Single(-19.0));
    u := Book(Single(11.0), Single(-25.0));
    LossStays(s, t, u);
    LossAverted(s, t, u, Merge(t, u, 5));
  }

  // ----- Depth consistency -----

  /** IsGood's depth check on one side: each live level is at least EPS worse than the one before. */
  ghost predicate Spaced(side: Side) {
    forall i :: 1 <= i < |side| && side[i].size > 0 ==> side[i].price <= side[i - 1].price - EPS
  }

  /** From level i on, the stored prices fall by at least EPS each until, if ever, they do not fall. */
  predicate DeadSpaced(side: Side, i: nat)
    requires 1 <= i
    decreases |side| - i
  {
    i >= |side|
    || side[i].price >= side[i - 1].price
    || (side[i].price <= side[i - 1].price - EPS && DeadSpaced(side, i + 1))
  }

  lemma {:induction false} DeadSpacedShift(side: Side, r: Side, i: nat)
    requires 1 <= i && |r| == |side| && DeadSpaced(side, i)
    requires forall j :: i <= j < |side| ==> r[j].price == side[j - 1].price
    ensures DeadSpaced(r, i + 1)
    decreases |side| - i
  {
    if i + 1 < |side| && side[i].price < side[i - 1].price {
      DeadSpacedShift(side, r, i + 1);
    }
  }

  lemma {:induction false} DeadSpacedSame(side: Side, r: Side, i: nat)
    requires 1 <= i && |r| == |side| && DeadSpaced(side, i)
    requires forall j :: 0 <= j < |side| ==> r[j].price == side[j].price
    ensures DeadSpaced(r, i)
    decreases |side| - i
  {
    if i < |side| && side[i].price < side[i - 1].price {
      DeadSpacedSame(side, r, i + 1);
    }
  }

  /** A non-empty gap-free side that is spaced in its live and sound in its dead levels. */
  ghost predicate Tidy(side: Side, k: nat) {
    1 <= k && Filled(side, k) && Spaced(side) && DeadSpaced(side, k)
  }

  lemma SpacedFalls(side: Side, k: nat, i: nat, j: nat)
    requires Filled(side, k) && Spaced(side) && i < j < k
    ensures side[j].price <= side[i].price - EPS
    decreases j
  {
    if i < j - 1 {
      SpacedFalls(side, k, i, j - 1);
    }
  }

  /** Any insertion, on or off the grid, keeps a side tidy. */
  lemma InsertTidy(side: Side, k: nat, p: real, size: int) returns (k': nat)
    requires Tidy(side, k) && size > 0
    ensures k' >= 1 && Tidy(Insert(side, p, size), k')
  {
    var i, r := Find(side, p), Insert(side, p, size);
    assert k < |side| ==> side[k].size == 0;
    assert i <= k;
    if i == |side| {
      return k;
    } else if Abs(side[i].price - p) > EPS {
      TidyShift(side, k, i, Level(p, size), r);
      return if k < |side| then k + 1 else k;
    } else if i < k {
      DeadSpacedSame(side, r, k);
      return k;
    } else {
      assert side[k].price < side[k - 1].price;
      DeadSpacedSame(side, r, k + 1);
      return k + 1;
    }
  }

  lemma TidyShift(side: Side, k: nat, i: nat, l: Level, r: Side)
    requires Tidy(side, k) && i <= k && i < |side| && l.size > 0 && r == ShiftIn(side, i, l)
    requires i > 0 ==> side[i - 1].price > l.price + EPS
    requires side[i].size == 0 || side[i].price <= l.price + EPS
    requires Abs(side[i].price - l.price) > EPS
    ensures Tidy(r, if k < |side| then k + 1 else k)
  {
    assert Filled(r, if k < |side| then k + 1 else k);
    SpacedShift(side, k, i, l, r);
    if i < k {
      DeadSpacedShift(side, r, k);
    } else if k + 1 < |side| && side[k].price < l.price {
      DeadSpacedShift(side, r, k + 1);
    }
  }

  lemma SpacedShift(side: Side, k: nat, i: nat, l: Level, r: Side)
    requires Filled(side, k) && Spaced(side) && i <= k && i < |side| && r == ShiftIn(side, i, l)
    requires i > 0 ==> side[i - 1].price > l.price + EPS
    requires i < k ==> side[i].price < l.price - EPS
    ensures Spaced(r)
  {
    forall j | 1 <= j < |r| && r[j].size > 0 ensures r[j].price <= r[j - 1].price - EPS {
      if j > i + 1 {
        assert r[j] == side[j - 1] && r[j - 1] == side[j - 2];
      } else if j == i + 1 {
        assert r[j] == side[i];
      }
    }
  }

  lemma {:induction false} MergeTidy(side: Side, k: nat, t: seq<Level>) returns (k': nat)
    requires Tidy(side, k)
    ensures Tidy(MergeSide(side, t), k')
  {
    if t == [] {
      return k;
    }
    var l := t[|t| - 1];
    k' := MergeTidy(side, k, t[..|t| - 1]);
    if l.size > 0 {
      k' := InsertTidy(MergeSide(side, t[..|t| - 1]), k', l.price, l.size);
    }
  }

  /** Levels that fall on the dead slots from k on, up to the first pair that is too close. */
  function Wakers(side: Side, k: nat): (t: seq<Level>)
    requires 1 <= k <= |side| && !DeadSpaced(side, k)
    ensures |t| <= |side| - k
    decreases |side| - k
  {
    [Level(side[k].price - EPS, 1)]
    + if side[k].price <= side[k - 1].price - EPS then Wakers(side, k + 1) else []
  }

  /** A level just under the first dead slot wakes it up with the price stored there. */
  lemma WakeOne(side: Side, k: nat, p: real, r: Side)
    requires 1 <= k < |side| && Filled(side, k) && Spaced(side) && side[k].price < side[k - 1].price
    requires p == side[k].price - EPS && r == side[k := Level(side[k].price, 1)]
    ensures MergeSide(side, [Level(p, 1)]) == r
  {
    forall j | 0 <= j < k ensures side[j].price > p + EPS {
      if j < k - 1 {
        SpacedFalls(side, k, j, k - 1);
      }
    }
    assert Find(side, p) == k;
    assert Insert(side, p, 1) == r;
    assert [Level(p, 1)][..0] == [];
  }

  /** If it wakes up at a proper distance, the next dead slot is the first one. */
  lemma WakeNext(side: Side, k: nat, r: Side)
    requires 1 <= k < |side| && Filled(side, k) && Spaced(side) && !DeadSpaced(side, k)
    requires side[k].price <= side[k - 1].price - EPS && r == side[k := Level(side[k].price, 1)]
    ensures Filled(r, k + 1) && Spaced(r) && !DeadSpaced(r, k + 1) && !DeadSpaced(side, k + 1)
  {
    if DeadSpaced(r, k + 1) {
      DeadSpacedSame(r, side, k + 1);
    }
  }

  lemma {:induction false} WakersWake(side: Side, k: nat, t: seq<Level>)
    requires 1 <= k && Filled(side, k) && Spaced(side) && !DeadSpaced(side, k) && t == Wakers(side, k)
    ensures !Spaced(MergeSide(side, t))
    decreases |side| - k
  {
    var p, r := side[k].price - EPS, side[k := Level(side[k].price, 1)];
    WakeOne(side, k, p, r);
    if side[k].price <= side[k - 1].price - EPS {
      var u := Wakers(side, k + 1);
      WakeNext(side, k, r);
      WakersSame(side, r, k + 1);
      WakersWake(r, k + 1, u);
      MergeAppend(side, [Level(p, 1)], u);
      assert t == [Level(p, 1)] + u;
    } else {
      assert t == [Level(p, 1)];
      assert r[k].size > 0 && r[k].price > r[k - 1].price - EPS;
    }
  }

  lemma {:induction false} WakersSame(side: Side, r: Side, k: nat)
    requires 1 <= k <= |side| == |r| && !DeadSpaced(side, k) && !DeadSpaced(r, k)
    requires forall j :: 0 <= j < |side| ==> r[j].price == side[j].price
    ensures Wakers(side, k) == Wakers(r, k)
    decreases |side| - k
  {
    if side[k].price <= side[k - 1].price - EPS {
      WakersSame(side, r, k + 1);
    }
  }

  /** Merging keeps the levels of a consistent side apart, whatever is merged in, exactly when
      the stale prices in its dead slots are not too close below each other or the last level. */
  lemma SpacingKeptIff(side: Side, k: nat)
    requires 1 <= k && Filled(side, k) && Spaced(side)
    ensures DeadSpaced(side, k) <==> forall t: seq<Level> {:trigger MergeSide(side, t)} | |t| <= |side| :: Spaced(MergeSide(side, t))
  {
    if DeadSpaced(side, k) {
      forall t: seq<Level> {:trigger MergeSide(side, t)} | |t| <= |side|
        ensures Spaced(MergeSide(side, t))
      {
        var k' := MergeTidy(side, k, t);
      }
    } else {
      WakersWake(side, k, Wakers(side, k));
    }
  }

  /** IsGood on the sides of an initialized snapshot. */
  ghost predicate Good(b: Book, checkDepth: bool)
    requires |b.bids| == |b.asks| >= 1
  {
    && b.bids[0].size > 0 && b.asks[0].size > 0 && !Crossed(b)
    && (checkDepth ==> Spaced(b.bids) && Spaced(b.asks))
  }

  ghost predicate Crossed(b: Book)
    requires |b.bids| == |b.asks| >= 1
  {
    b.bids[0].price - EPS > -b.asks[0].price
  }

  /** Merging anything into a good book without gaps, whose stale prices are spaced on both sides, gives a
      good book, unless the tops cross. */
  lemma MergeIsGood(s: Book, t: Book, n: nat)
    requires |s.bids| == |s.asks| >= 1 && n <= |t.bids| && n <= |t.asks|
    requires Good(s, true) && Filled(s.bids, Count(s.bids)) && Filled(s.asks, Count(s.asks))
    requires Count(s.bids) >= 1 ==> DeadSpaced(s.bids, Count(s.bids))
    requires Count(s.asks) >= 1 ==> DeadSpaced(s.asks, Count(s.asks))
    ensures Good(Merge(s, t, n), true) <==> !Crossed(Merge(s, t, n))
  {
    MergeBySide(s, t, n);
    var kb := MergeTidy(s.bids, Count(s.bids), t.bids[..n]);
    var ka := MergeTidy(s.asks, Count(s.asks), Heard(s, t, n));
  }

  lemma {:induction false} WakersAreLow(side: Side, k: nat)
    requires 1 <= k <= |side| && !DeadSpaced(side, k)
    ensures forall i :: 0 <= i < |Wakers(side, k)| ==> Wakers(side, k)[i].price < side[k - 1].price - EPS
    decreases |side| - k
  {
    if side[k].price <= side[k - 1].price - EPS {
      WakersAreLow(side, k + 1);
    }
  }

  function DeadLevels(n: nat): (t: seq<Level>)
    ensures |t| == n && forall i :: 0 <= i < n ==> t[i] == Level(0.0, 0)
  {
    seq(n, _ => Level(0.0, 0))
  }

  lemma WakersBelowTop(side: Side, k: nat)
    requires 1 <= k <= |side| && Filled(side, k) && Spaced(side) && !DeadSpaced(side, k)
    ensures forall i :: 0 <= i < |Wakers(side, k)| ==> Wakers(side, k)[i].price < side[0].price - EPS
  {
    WakersAreLow(side, k);
    if k > 1 {
      SpacedFalls(side, k, 0, k - 1);
    }
  }

  /** A side of full length that wakes stale levels up too close, below the top. */
  lemma FullWakers(side: Side, k: nat) returns (t: Side)
    requires 1 <= k && Filled(side, k) && Spaced(side) && !DeadSpaced(side, k)
    ensures |t| == |side| && !Spaced(MergeSide(side, t)) && MergeSide(side, t)[0] == side[0]
  {
    var u := Wakers(side, k);
    var dead := DeadLevels(|side| - |u|);
    t := u + dead;
    WakersWake(side, k, u);
    MergeAppend(side, u, dead);
    MergeDead(MergeSide(side, u), dead);
    WakersBelowTop(side, k);
    BestStays(side, u);
  }

  /** A good book without gaps. */
  ghost predicate Sound(s: Book) {
    && |s.bids| == |s.asks| >= 1 && Good(s, true)
    && Filled(s.bids, Count(s.bids)) && Filled(s.asks, Count(s.asks)) && Count(s.bids) >= 1 && Count(s.asks) >= 1
  }

  ghost predicate StaysGood(s: Book, t: Book)
    requires |s.bids| == |s.asks| == |t.bids| == |t.asks| >= 1
  {
    Good(Merge(s, t, |t.bids|), true) || Crossed(Merge(s, t, |t.bids|))
  }

  lemma {:induction false} BidsOnly(s: Book, t: Book, r: Book)
    requires |t.bids| == |t.asks| && r == Merge(s, t, |t.bids|)
    requires forall d :: 0 <= d < |t.asks| ==> t.asks[d].size == 0
    ensures r == Book(MergeSide(s.bids, t.bids), s.asks)
  {
    MergeBySide(s, t, |t.bids|);
    assert t.bids[..|t.bids|] == t.bids;
    MergeDead(s.asks, Heard(s, t, |t.bids|));
  }

  lemma {:induction false} AsksOnly(s: Book, t: Book, r: Book)
    requires |t.bids| == |t.asks| && r == Merge(s, t, |t.bids|)
    requires forall d :: 0 <= d < |t.bids| ==> t.bids[d].size == 0
    ensures r == Book(s.bids, MergeSide(s.asks, t.asks))
  {
    MergeBySide(s, t, |t.bids|);
    MergeDead(s.bids, t.bids[..|t.bids|]);
    assert Heard(s, t, |t.bids|) == t.asks;
  }

  /** A book that spoils s without crossing it, if the stale prices of a side are not spaced. */
  lemma Spoiler(s: Book) returns (t: Book)
    requires Sound(s) && !(DeadSpaced(s.bids, Count(s.bids)) && DeadSpaced(s.asks, Count(s.asks)))
    ensures |t.bids| == |t.asks| == |s.bids| && !StaysGood(s, t)
  {
    var n := |s.bids|;
    if !DeadSpaced(s.bids, Count(s.bids)) {
      var u := FullWakers(s.bids, Count(s.bids));
      t := Book(u, DeadLevels(n));
      BidsOnly(s, t, Merge(s, t, n));
    } else {
      var u := FullWakers(s.asks, Count(s.asks));
      t := Book(DeadLevels(n), u);
      AsksOnly(s, t, Merge(s, t, n));
    }
  }

  ghost predicate AlwaysStaysGood(s: Book)
    requires |s.bids| == |s.asks| >= 1
  {
    forall t: Book {:trigger StaysGood(s, t)} | |t.bids| == |t.asks| == |s.bids| :: StaysGood(s, t)
  }

  lemma SpacedStaysGood(s: Book, t: Book)
    requires Sound(s) && DeadSpaced(s.bids, Count(s.bids)) && DeadSpaced(s.asks, Count(s.asks))
    requires |t.bids| == |t.asks| == |s.bids|
    ensures StaysGood(s, t)
  {
    MergeIsGood(s, t, |t.bids|);
  }

  lemma SpacedAlwaysGood(s: Book)
    requires Sound(s) && DeadSpaced(s.bids, Count(s.bids)) && DeadSpaced(s.asks, Count(s.asks))
    ensures AlwaysStaysGood(s)
  {
    forall t: Book | |t.bids| == |t.asks| == |s.bids|
      ensures StaysGood(s, t)
    {
      SpacedStaysGood(s, t);
    }
  }

  /** A good book without gaps stays good unless it crosses, whatever book of its depth is merged in,
      exactly when the stale prices of both its sides are spaced. */
  lemma StaysGoodIff(s: Book)
    requires Sound(s)
    ensures AlwaysStaysGood(s) <==> DeadSpaced(s.bids, Count(s.bids)) && DeadSpaced(s.asks, Count(s.asks))
  {
    if DeadSpaced(s.bids, Count(s.bids)) && DeadSpaced(s.asks, Count(s.asks)) {
      SpacedAlwaysGood(s);
    } else {
      var t := Spoiler(s);
      assert !StaysGood(s, t);
    }
  }

  // ----- The loops on the arrays of a snapshot -----

  function Bids(prices: seq<real>, sizes: seq<int>): (side: Side)
    requires |prices| == |sizes|
    ensures |side| == |prices| && forall i :: 0 <= i < |side| ==> side[i] == Level(prices[i], sizes[i])
  {
    seq(|prices|, i requires 0 <= i < |prices| == |sizes| => Level(prices[i], sizes[i]))
  }

  /** On ask arrays prices rise. */
  function Asks(prices: seq<real>, sizes: seq<int>): (side: Side)
    requires |prices| == |sizes|
    ensures |side| == |prices| && forall i :: 0 <= i < |side| ==> side[i] == Level(-prices[i], sizes[i])
  {
    seq(|prices|, i requires 0 <= i < |prices| == |sizes| => Level(-prices[i], sizes[i]))
  }

  ghost function BidSide(prices: array<real>, sizes: array<int>): Side
    requires prices.Length == sizes.Length
    reads prices, sizes
  {
    Bids(prices[..], sizes[..])
  }

  ghost function AskSide(prices: array<real>, sizes: array<int>): Side
    requires prices.Length == sizes.Length
    reads prices, sizes
  {
    Asks(prices[..], sizes[..])
  }

  /** Moves the entries from idx on up by one, losing the last one; the entry at idx stays. */
  method ShiftDown(prices: array<real>, sizes: array<int>, idx: nat)
    requires prices.Length == sizes.Length && idx < prices.Length
    modifies prices, sizes
    ensures prices[..] == old(ShiftIn(prices[..], idx, prices[idx])) && sizes[..] == old(ShiftIn(sizes[..], idx, sizes[idx]))
  {
    var i := prices.Length - 1;
    while i >= idx + 1
      invariant idx <= i < prices.Length
      invariant forall j :: 0 <= j <= i ==> prices[j] == old(prices[j]) && sizes[j] == old(sizes[j])
      invariant forall j :: i < j < prices.Length ==> prices[j] == old(prices[j - 1]) && sizes[j] == old(sizes[j - 1])
    {
      prices[i] := prices[i - 1];
      sizes[i] := sizes[i - 1];
      i := i - 1;
    }
  }

  lemma SidesShift(prices: seq<real>, sizes: seq<int>, i: nat, p: real, size: int)
    requires |prices| == |sizes| && i < |prices|
    ensures Bids(ShiftIn(prices, i, p), ShiftIn(sizes, i, size)) == ShiftIn(Bids(prices, sizes), i, Level(p, size))
    ensures Asks(ShiftIn(prices, i, p), ShiftIn(sizes, i, size)) == ShiftIn(Asks(prices, sizes), i, Level(-p, size))
  {
  }

  lemma SidesGrow(prices: seq<real>, sizes: seq<int>, i: nat, size: int)
    requires |prices| == |sizes| && i < |prices|
    ensures var bids, asks := Bids(prices, sizes), Asks(prices, sizes);
      && Bids(prices, sizes[i := sizes[i] + size]) == bids[i := bids[i].(size := bids[i].size + size)]
      && Asks(prices, sizes[i := sizes[i] + size]) == asks[i := asks[i].(size := asks[i].size + size)]
  {
  }

  method ShiftAndPut(prices: array<real>, sizes: array<int>, idx: nat, p: real, size: int)
    requires prices.Length == sizes.Length && idx < prices.Length
    modifies prices, sizes
    ensures prices[..] == ShiftIn(old(prices[..]), idx, p) && sizes[..] == ShiftIn(old(sizes[..]), idx, size)
  {
    ShiftDown(prices, sizes, idx);
    prices[idx] := p;
    sizes[idx] := size;
  }

  method PlaceAt(prices: array<real>, sizes: array<int>, idx: nat, p: real, size: int)
    requires prices.Length == sizes.Length && idx < prices.Length
    modifies prices, sizes
    ensures BidSide(prices, sizes) == Place(old(BidSide(prices, sizes)), idx, Level(p, size))
    ensures AskSide(prices, sizes) == Place(old(AskSide(prices, sizes)), idx, Level(-p, size))
  {
    ghost var ps, zs := prices[..], sizes[..];
    if Abs(prices[idx] - p) > EPS {
      ShiftAndPut(prices, sizes, idx, p, size);
      SidesShift(ps, zs, idx, p, size);
    } else {
      sizes[idx] := sizes[idx] + size;
      SidesGrow(ps, zs, idx, size);
      assert sizes[..] == zs[idx := zs[idx] + size];
    }
  }

  method InsertBid(prices: array<real>, sizes: array<int>, p: real, size: int) returns (fits: bool)
    requires prices.Length == sizes.Length
    modifies prices, sizes
    ensures fits == (Find(old(BidSide(prices, sizes)), p) < prices.Length)
    ensures BidSide(prices, sizes) == Insert(old(BidSide(prices, sizes)), p, size)
  {
    ghost var side := BidSide(prices, sizes);
    var idx := 0;
    while idx < prices.Length
      invariant 0 <= idx <= prices.Length
      invariant forall j :: 0 <= j < idx ==> side[j].size != 0 && side[j].price > p + EPS
    {
      if sizes[idx] == 0 || prices[idx] <= p + EPS {
        break;
      }
      idx := idx + 1;
    }
    assert Find(side, p) == idx;
    if idx >= prices.Length {
      return false;
    }
    PlaceAt(prices, sizes, idx, p, size);
    return true;
  }

  method InsertAsk(prices: array<real>, sizes: array<int>, p: real, size: int) returns (fits: bool)
    requires prices.Length == sizes.Length
    modifies prices, sizes
    ensures fits == (Find(old(AskSide(prices, sizes)), -p) < prices.Length)
    ensures AskSide(prices, sizes) == Insert(old(AskSide(prices, sizes)), -p, size)
  {
    ghost var side := AskSide(prices, sizes);
    var idx := 0;
    while idx < prices.Length
      invariant 0 <= idx <= prices.Length
      invariant forall j :: 0 <= j < idx ==> side[j].size != 0 && side[j].price > -p + EPS
    {
      if sizes[idx] == 0 || prices[idx] >= p - EPS {
        break;
      }
      idx := idx + 1;
    }
    assert Find(side, -p) == idx;
    if idx >= prices.Length {
      return false;
    }
    PlaceAt(prices, sizes, idx, p, size);
    return true;
  }

  /** Each live price lies beyond the one before it, down or up by the sign, by a hundred-millionth. */
  ghost predicate Deepens(prices: seq<real>, sizes: seq<int>, sign: real)
    requires |prices| == |sizes|
  {
    forall i :: 1 <= i < |prices| && sizes[i] > 0 ==> sign * (prices[i] - prices[i - 1]) >= 0.00000001
  }

  /** The book part of a MarketSnapshot. */
  class MarketSnapshot {
    const bids: array<real>
    const asks: array<real>
    const bidSizes: array<int>
    const askSizes: array<int>
    var isInitialized: bool

    ghost predicate Valid() {
      && 1 <= bids.Length == asks.Length == bidSizes.Length == askSizes.Length
      && bids != asks && bidSizes != askSizes
    }

    ghost function View(): (b: Book)
      requires Valid()
      reads bids, asks, bidSizes, askSizes
    {
      Book(BidSide(bids, bidSizes), AskSide(asks, askSizes))
    }

    /** An empty snapshot of the given depth. */
    constructor (depth: nat)
      requires depth >= 1
      ensures Valid() && bids.Length == depth && !isInitialized
      ensures fresh(bids) && fresh(asks) && fresh(bidSizes) && fresh(askSizes)
      ensures forall i :: 0 <= i < depth ==> View().bids[i] == View().asks[i] == Level(0.0, 0)
    {
      bids := new real[depth](_ => 0.0);
      asks := new real[depth](_ => 0.0);
      bidSizes := new int[depth](_ => 0);
      askSizes := new int[depth](_ => 0);
      isInitialized := false;
    }

    constructor Copy(s: MarketSnapshot)
      requires s.Valid()
      ensures Valid() && View() == s.View() && isInitialized == s.isInitialized
      ensures fresh(bids) && fresh(asks) && fresh(bidSizes) && fresh(askSizes)
    {
      bids := new real[s.bids.Length](i requires 0 <= i < s.bids.Length reads s.bids => s.bids[i]);
      asks := new real[s.asks.Length](i requires 0 <= i < s.asks.Length reads s.asks => s.asks[i]);
      bidSizes := new int[s.bidSizes.Length](i requires 0 <= i < s.bidSizes.Length reads s.bidSizes => s.bidSizes[i]);
      askSizes := new int[s.askSizes.Length](i requires 0 <= i < s.askSizes.Length reads s.askSizes => s.askSizes[i]);
      isInitialized := s.isInitialized;
    }

    method IsGood(checkDepth: bool) returns (good: bool)
      requires Valid()
      ensures good <==> isInitialized && Good(View(), checkDepth)
      ensures good <==>
        && isInitialized && bidSizes[0] > 0 && askSizes[0] > 0 && bids[0] <= asks[0] + 0.00000001
        && (checkDepth ==> Deepens(bids[..], bidSizes[..], -1.0) && Deepens(asks[..], askSizes[..], 1.0))
    {
      if bidSizes[0] <= 0 || askSizes[0] <= 0 {
        return false;
      }
      if bids[0] - EPS > asks[0] {
        return false;
      }
      if !isInitialized {
        return false;
      }
      if checkDepth {
        var i := 1;
        while i < bids.Length
          invariant 1 <= i <= bids.Length
          invariant forall j :: 1 <= j < i && bidSizes[j] > 0 ==> bids[j] <= bids[j - 1] - EPS
          invariant forall j :: 1 <= j < i && askSizes[j] > 0 ==> asks[j] >= asks[j - 1] + EPS
        {
          if bidSizes[i] > 0 && bids[i] > bids[i - 1] - EPS {
            assert !Spaced(View().bids);
            return false;
          }
          if askSizes[i] > 0 && asks[i] < asks[i - 1] + EPS {
            assert View().asks[i].price > View().asks[i - 1].price - EPS;
            assert !Spaced(View().asks);
            return false;
          }
          i := i + 1;
        }
      }
      return true;
    }
  }

  method MergeSnapshots(s: MarketSnapshot, t: MarketSnapshot) returns (r: MarketSnapshot)
    requires s.Valid() && t.Valid() && s.bids.Length == t.bids.Length
    ensures fresh(r) && r.Valid() && r.isInitialized == s.isInitialized
    ensures r.View() == Merge(s.View(), t.View(), t.bids.Length)
  {
    ghost var rv, tv := s.View(), t.View();
    r := new MarketSnapshot.Copy(s);
    MergeInto(r, t, rv, tv, Merge(rv, tv, t.bids.Length));
  }

  ghost predicate Apart(r: MarketSnapshot, t: MarketSnapshot) {
    {r.bids, r.asks} !! {t.bids, t.asks} && {r.bidSizes, r.askSizes} !! {t.bidSizes, t.askSizes}
  }

  lemma MergeNext(s: Book, t: Book, d: nat, soFar: Book)
    requires d < |t.bids| && d < |t.asks| && soFar == Merge(s, t, d)
    ensures Step(soFar, t.bids[d], t.asks[d]) == Merge(s, t, d + 1)
  {
  }

  /** The loop, on the copy. */
  method MergeInto(r: MarketSnapshot, t: MarketSnapshot, ghost rv: Book, ghost tv: Book, ghost merged: Book)
    requires r.Valid() && t.Valid() && Apart(r, t) && r.View() == rv && t.View() == tv
    requires merged == Merge(rv, tv, t.bids.Length)
    modifies r.bids, r.bidSizes, r.asks, r.askSizes
    ensures r.View() == merged
  {
    var d := 0;
    ghost var soFar := rv;
    while d < t.bids.Length
      invariant 0 <= d <= t.bids.Length && soFar == Merge(rv, tv, d)
      invariant t.View() == tv && r.View() == soFar
    {
      ghost var next := Step(soFar, tv.bids[d], tv.asks[d]);
      MergeLevel(r, t, d, soFar, tv, next);
      MergeNext(rv, tv, d, soFar);
      d, soFar := d + 1, next;
    }
  }

  /** One iteration on r, which shares no array with t. */
  method MergeLevel(r: MarketSnapshot, t: MarketSnapshot, d: nat, ghost soFar: Book, ghost tv: Book, ghost next: Book)
    requires r.Valid() && t.Valid() && Apart(r, t) && d < t.bids.Length && tv == t.View() && r.View() == soFar
    requires next == Step(soFar, tv.bids[d], tv.asks[d])
    modifies r.bids, r.bidSizes, r.asks, r.askSizes
    ensures t.View() == tv && r.View() == next
  {
    ghost var bids, bidSizes, asks, askSizes := t.bids[..], t.bidSizes[..], t.asks[..], t.askSizes[..];
    InsertBoth(r, t.bids[d], t.bidSizes[d], t.asks[d], t.askSizes[d], tv.bids[d], tv.asks[d]);
    assert t.bids[..] == bids && t.bidSizes[..] == bidSizes;
    assert t.asks[..] == asks && t.askSizes[..] == askSizes;
  }

  /** The loop body. The early return is the `continue` of the bid part. */
  method InsertBoth(r: MarketSnapshot, bid: real, bidSize: int, ask: real, askSize: int, ghost b: Level, ghost a: Level)
    requires r.Valid() && b == Level(bid, bidSize) && a == Level(-ask, askSize)
    modifies r.bids, r.bidSizes, r.asks, r.askSizes
    ensures r.View() == Step(old(r.View()), b, a)
  {
    ghost var asks, askSizes := r.asks[..], r.askSizes[..];
    if bidSize > 0 {
      var fits := InsertBid(r.bids, r.bidSizes, bid, bidSize);
      assert r.asks[..] == asks && r.askSizes[..] == askSizes;
      if !fits {
        return;
      }
    }
    ghost var bids, bidSizes := r.bids[..], r.bidSizes[..];
    if askSize > 0 {
      var fits := InsertAsk(r.asks, r.askSizes, ask, askSize);
      assert r.bids[..] == bids && r.bidSizes[..] == bidSizes;
    }
  }
}
