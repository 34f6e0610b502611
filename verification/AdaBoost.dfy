/** The boosting trainer of python/adaboost/2.py over real numbers: the search for the best
    one-column rule, the reweighting loop, and the judge. The exponential is any function with the
    laws of one; nothing else about it is used. */
module AdaBoost {
  type Vec = seq<real>

  function Both(x: real, y: real): real { x + y }

  ghost predicate ExpLaws(exp: real -> real) {
    && (forall x :: exp(x) > 0.0)
    && (forall x :: x >= 0.0 ==> exp(x) >= 1.0)
    && exp(0.0) == 1.0
    && forall x, y {:trigger Both(x, y)} :: exp(Both(x, y)) == exp(x) * exp(y)
  }

  // ----- Vectors -----

  function Sum(v: Vec): real { if v == [] then 0.0 else Sum(v[..|v| - 1]) + v[|v| - 1] }

  function Constant(n: nat, x: real): (r: Vec)
    ensures |r| == n && forall i :: 0 <= i < n ==> r[i] == x
  {
    seq(n, _ => x)
  }

  lemma {:induction false} SumAtMost(a: Vec, b: Vec)
    requires |a| == |b| && forall i :: 0 <= i < |a| ==> a[i] <= b[i]
    ensures Sum(a) <= Sum(b)
  {
    if a != [] {
      SumAtMost(a[..|a| - 1], b[..|a| - 1]);
    }
  }

  // Products are named, so that the verifier compares them by name where their value does not matter.
  function Mul(x: real, y: real): real { x * y }

  function Linear(k: real, x: real, l: real, y: real): real { k * x + l * y }

  lemma {:induction false} SumLinear(a: Vec, b: Vec, c: Vec, k: real, l: real)
    requires |a| == |b| == |c| && forall i :: 0 <= i < |a| ==> c[i] == Linear(k, a[i], l, b[i])
    ensures Sum(c) == Linear(k, Sum(a), l, Sum(b))
  {
    if a != [] {
      var n := |a| - 1;
      SumLinear(a[..n], b[..n], c[..n], k, l);
      LinearAdds(k, Sum(a[..n]), a[n], l, Sum(b[..n]), b[n]);
    }
  }

  lemma LinearAdds(k: real, x: real, x': real, l: real, y: real, y': real)
    ensures Linear(k, x + x', l, y + y') == Linear(k, x, l, y) + Linear(k, x', l, y')
  {
  }

  lemma SumScaled(u: Vec, r: Vec, k: real)
    requires |r| == |u| && forall i :: 0 <= i < |u| ==> r[i] == Mul(k, u[i])
    ensures Sum(r) == Mul(k, Sum(u))
  {
    forall i | 0 <= i < |u|
      ensures r[i] == Linear(k, u[i], 0.0, u[i])
    {
      OnlyScaled(k, u[i]);
    }
    SumLinear(u, u, r, k, 0.0);
    OnlyScaled(k, Sum(u));
  }

  lemma OnlyScaled(k: real, x: real)
    ensures Linear(k, x, 0.0, x) == Mul(k, x)
  {
  }

  lemma Distribute(k: real, x: real, y: real)
    ensures k * (x + y) == k * x + k * y
  {
  }

  lemma {:induction false} SumConstant(n: nat, x: real)
    ensures Sum(Constant(n, x)) == n as real * x
  {
    if n > 0 {
      assert Constant(n, x)[..n - 1] == Constant(n - 1, x);
      SumConstant(n - 1, x);
      Distribute(x, (n - 1) as real, 1.0);
    }
  }

  // ----- Rules on one column -----

  datatype Mode = Above | Below

  datatype Stump = Stump(mode: Mode, value: real, col: int)

  function Vote(s: Stump, x: real): real {
    if (s.mode == Above && x > s.value) || (s.mode == Below && x < s.value) then 1.0 else -1.0
  }

  /** Rows of equal width, each with a label of 1 or -1. */
  datatype Task = Task(rows: seq<Vec>, labels: Vec, cols: nat) {
    ghost predicate Valid() {
      && |rows| == |labels| > 0
      && (forall i :: 0 <= i < |rows| ==> |rows[i]| == cols)
      && forall i :: 0 <= i < |labels| ==> labels[i] == 1.0 || labels[i] == -1.0
    }
  }

  function Predict(t: Task, s: Stump): (r: Vec)
    requires t.Valid() && 0 <= s.col < t.cols
    ensures |r| == |t.rows| && forall i :: 0 <= i < |r| ==> r[i] == Vote(s, t.rows[i][s.col])
  {
    seq(|t.rows|, i requires 0 <= i < |t.rows| => Vote(s, t.rows[i][s.col]))
  }

  /** The weights of the rows on which prediction and label disagree. */
  function Wrong(pred: Vec, labels: Vec, w: Vec): (r: Vec)
    requires |pred| == |labels| == |w|
    ensures |r| == |w| && forall i :: 0 <= i < |w| ==> r[i] == if pred[i] * labels[i] < 0.0 then w[i] else 0.0
  {
    seq(|w|, i requires 0 <= i < |w| => if pred[i] * labels[i] < 0.0 then w[i] else 0.0)
  }

  function Error(t: Task, s: Stump, w: Vec): real
    requires t.Valid() && 0 <= s.col < t.cols && |w| == |t.rows|
  {
    Sum(Wrong(Predict(t, s), t.labels, w))
  }

  ghost predicate Weights(t: Task, w: Vec) {
    |w| == |t.rows| && (forall i :: 0 <= i < |w| ==> w[i] > 0.0) && Sum(w) == 1.0
  }

  lemma ErrorInRange(t: Task, s: Stump, w: Vec)
    requires t.Valid() && 0 <= s.col < t.cols && Weights(t, w)
    ensures 0.0 <= Error(t, s, w) <= 1.0
  {
    var wrong := Wrong(Predict(t, s), t.labels, w);
    SumAtMost(wrong, w);
    SumConstant(|w|, 0.0);
    SumAtMost(Constant(|w|, 0.0), wrong);
  }

  // ----- The search for the best rule -----

  /** A rule in the order of the search: column, step, and the mode above before below. */
  datatype Cand = Cand(col: int, step: int, below: bool)

  function Threshold(step: int, gap: real): real { (step + 1) as real * gap }

  function Rule(c: Cand, gap: real): Stump { Stump(if c.below then Below else Above, Threshold(c.step, gap), c.col) }

  predicate Before(c: Cand, d: Cand) {
    c.col < d.col || (c.col == d.col && (c.step < d.step || (c.step == d.step && !c.below && d.below)))
  }

  predicate InRange(t: Task, steps: nat, c: Cand) { 0 <= c.col < t.cols && 0 <= c.step < steps }

  /** The candidates that come before a point of the search. */
  predicate Passed(t: Task, steps: nat, c: Cand, i: int, j: int, m: int) {
    && InRange(t, steps, c)
    && (c.col < i || (c.col == i && (c.step < j || (c.step == j && (m == 2 || (m == 1 && !c.below))))))
  }

  /** `best` is the first among the candidates passed whose error is least, if that is below 1.1. */
  ghost predicate BestSoFar(t: Task, w: Vec, gap: real, steps: nat, best: Cand, err: real, i: int, j: int, m: int)
    requires t.Valid() && |w| == |t.rows|
  {
    if best.col == -1 then
      err == 1.1 && forall c :: Passed(t, steps, c, i, j, m) ==> Error(t, Rule(c, gap), w) >= 1.1
    else
      && Passed(t, steps, best, i, j, m) && err == Error(t, Rule(best, gap), w) < 1.1
      && forall c :: Passed(t, steps, c, i, j, m) ==>
           err <= Error(t, Rule(c, gap), w) && (Before(c, best) ==> err < Error(t, Rule(c, gap), w))
  }

  /** The first of the rules whose weighted error is least. */
  ghost predicate FirstBest(t: Task, w: Vec, gap: real, steps: nat, best: Cand)
    requires t.Valid() && |w| == |t.rows|
  {
    && InRange(t, steps, best)
    && forall c :: InRange(t, steps, c) ==>
         && Error(t, Rule(best, gap), w) <= Error(t, Rule(c, gap), w)
         && (Before(c, best) ==> Error(t, Rule(best, gap), w) < Error(t, Rule(c, gap), w))
  }

  /** Nothing to search, or no rule below the limit: column -1 and a vote of 1 for every row. */
  ghost predicate Reported(t: Task, gap: real, best: Cand, s: Stump, pred: Vec)
    requires t.Valid()
  {
    && s.col == best.col >= -1
    && if s.col == -1 then s == Stump(Above, -1.0, -1) && pred == Constant(|t.rows|, 1.0)
       else s == Rule(best, gap) && s.col < t.cols && pred == Predict(t, s)
  }

  /** The variables of the search say which candidate was best before a point of it. */
  ghost predicate SoFar(
      t: Task, w: Vec, gap: real, steps: nat, err: real, s: Stump, pred: Vec, i: nat, j: nat, m: nat)
    requires t.Valid() && |w| == |t.rows|
  {
    exists best :: BestSoFar(t, w, gap, steps, best, err, i, j, m) && Reported(t, gap, best, s, pred)
  }

  method GenerateClassifier(t: Task, w: Vec, gap: real, steps: nat)
    returns (bestErr: real, bestMode: Mode, bestValue: real, bestCol: int, bestPred: Vec, ghost best: Cand)
    requires t.Valid() && |w| == |t.rows|
    ensures BestSoFar(t, w, gap, steps, best, bestErr, t.cols, 0, 0)
    ensures Reported(t, gap, best, Stump(bestMode, bestValue, bestCol), bestPred)
    ensures forall c :: InRange(t, steps, c) ==> bestErr <= Error(t, Rule(c, gap), w)
    ensures var s := Stump(bestMode, bestValue, bestCol);
      if bestCol == -1 then bestErr == 1.1 && s == Stump(Above, -1.0, -1) && bestPred == Constant(|t.rows|, 1.0)
      else 0 <= bestCol < t.cols && bestPred == Predict(t, s) && bestErr == Error(t, s, w) < 1.1
  {
    bestErr, bestMode, bestValue, bestCol := 1.1, Above, -1.0, -1;
    bestPred := Constant(|t.rows|, 1.0);
    SearchStart(t, w, gap, steps);
    var i := 0;
    while i < t.cols
      invariant 0 <= i <= t.cols
      invariant SoFar(t, w, gap, steps, bestErr, Stump(bestMode, bestValue, bestCol), bestPred, i, 0, 0)
    {
      var j := 0;
      while j < steps
        invariant 0 <= j <= steps
        invariant SoFar(t, w, gap, steps, bestErr, Stump(bestMode, bestValue, bestCol), bestPred, i, j, 0)
      {
        var m := 0;
        while m < 2
          invariant 0 <= m <= 2
          invariant SoFar(t, w, gap, steps, bestErr, Stump(bestMode, bestValue, bestCol), bestPred, i, j, m)
        {
          var mode := if m == 0 then Above else Below;
          var value := Threshold(j, gap);
          var pred := Predict(t, Stump(mode, value, i));
          var err := Sum(Wrong(pred, t.labels, w));
          SearchStep(t, w, gap, steps, bestErr, Stump(bestMode, bestValue, bestCol), bestPred, i, j, m,
                     err, Stump(mode, value, i), pred);
          if err < bestErr {
            bestMode, bestErr, bestCol, bestValue, bestPred := mode, err, i, value, pred;
          }
          m := m + 1;
        }
        SearchTurns(t, w, gap, steps, bestErr, Stump(bestMode, bestValue, bestCol), bestPred, i, j, 2, i, j + 1);
        j := j + 1;
      }
      SearchTurns(t, w, gap, steps, bestErr, Stump(bestMode, bestValue, bestCol), bestPred, i, steps, 0, i + 1, 0);
      i := i + 1;
    }
    best :| BestSoFar(t, w, gap, steps, best, bestErr, t.cols, 0, 0)
         && Reported(t, gap, best, Stump(bestMode, bestValue, bestCol), bestPred);
    SearchResult(t, w, gap, steps, best, bestErr, Stump(bestMode, bestValue, bestCol), bestPred);
  }

  lemma SearchStart(t: Task, w: Vec, gap: real, steps: nat)
    requires t.Valid() && |w| == |t.rows|
    ensures SoFar(t, w, gap, steps, 1.1, Stump(Above, -1.0, -1), Constant(|t.rows|, 1.0), 0, 0, 0)
  {
    assert BestSoFar(t, w, gap, steps, Cand(-1, 0, false), 1.1, 0, 0, 0);
  }

  lemma SearchResult(t: Task, w: Vec, gap: real, steps: nat, best: Cand, err: real, s: Stump, pred: Vec)
    requires t.Valid() && |w| == |t.rows| && BestSoFar(t, w, gap, steps, best, err, t.cols, 0, 0)
    requires Reported(t, gap, best, s, pred)
    ensures forall c :: InRange(t, steps, c) ==> err <= Error(t, Rule(c, gap), w)
    ensures s.col == -1 ==> err == 1.1 && s == Stump(Above, -1.0, -1) && pred == Constant(|t.rows|, 1.0)
    ensures s.col != -1 ==> 0 <= s.col < t.cols && pred == Predict(t, s) && err == Error(t, s, w) < 1.1
  {
    assert forall c :: InRange(t, steps, c) ==> Passed(t, steps, c, t.cols, 0, 0);
  }

  /** The end of a step is the start of the next one, and the end of a column of the next column. */
  lemma SearchTurns(
      t: Task, w: Vec, gap: real, steps: nat, err: real, s: Stump, pred: Vec, i: nat, j: nat, m: nat, i': nat, j': nat)
    requires t.Valid() && |w| == |t.rows| && SoFar(t, w, gap, steps, err, s, pred, i, j, m)
    requires (m == 2 && i' == i && j' == j + 1) || (m == 0 && j == steps && i' == i + 1 && j' == 0)
    ensures SoFar(t, w, gap, steps, err, s, pred, i', j', 0)
  {
    var best :| BestSoFar(t, w, gap, steps, best, err, i, j, m) && Reported(t, gap, best, s, pred);
    assert forall c :: Passed(t, steps, c, i, j, m) <==> Passed(t, steps, c, i', j', 0);
    assert BestSoFar(t, w, gap, steps, best, err, i', j', 0);
  }

  /** One more candidate: the search goes on with the better of the two, the earlier one on a tie. */
  lemma SearchStep(
      t: Task, w: Vec, gap: real, steps: nat, err: real, s: Stump, pred: Vec, i: nat, j: nat, m: nat,
      err': real, s': Stump, pred': Vec)
    requires t.Valid() && |w| == |t.rows| && i < t.cols && j < steps && m < 2
    requires SoFar(t, w, gap, steps, err, s, pred, i, j, m)
    requires s' == Rule(Cand(i, j, m == 1), gap) && pred' == Predict(t, s') && err' == Sum(Wrong(pred', t.labels, w))
    ensures err' < err ==> SoFar(t, w, gap, steps, err', s', pred', i, j, m + 1)
    ensures err' >= err ==> SoFar(t, w, gap, steps, err, s, pred, i, j, m + 1)
  {
    var best :| BestSoFar(t, w, gap, steps, best, err, i, j, m) && Reported(t, gap, best, s, pred);
    var c := Cand(i, j, m == 1);
    assert err' == Error(t, Rule(c, gap), w);
    if err' < err {
      StepBest(t, w, gap, steps, best, err, i, j, m, c, err');
    } else {
      StepBest(t, w, gap, steps, best, err, i, j, m, best, err);
    }
  }

  lemma StepBest(
      t: Task, w: Vec, gap: real, steps: nat, best: Cand, err: real, i: nat, j: nat, m: nat, best': Cand, err': real)
    requires t.Valid() && |w| == |t.rows| && i < t.cols && j < steps && m < 2
    requires BestSoFar(t, w, gap, steps, best, err, i, j, m)
    requires var c := Cand(i, j, m == 1); var e := Error(t, Rule(c, gap), w);
      if e < err then best' == c && err' == e else best' == best && err' == err
    ensures BestSoFar(t, w, gap, steps, best', err', i, j, m + 1)
  {
    var d := Cand(i, j, m == 1);
    forall c
      ensures Passed(t, steps, c, i, j, m + 1) <==> Passed(t, steps, c, i, j, m) || c == d
    {
      assert c == Cand(c.col, c.step, c.below);
    }
  }

  /** On normalised weights some rule is always below the limit, so the search returns the first of
      the best over every column, threshold and mode. */
  lemma SearchFinds(t: Task, w: Vec, gap: real, steps: nat, best: Cand, err: real)
    requires t.Valid() && Weights(t, w) && t.cols > 0 && steps > 0 && best.col >= -1
    requires BestSoFar(t, w, gap, steps, best, err, t.cols, 0, 0)
    ensures FirstBest(t, w, gap, steps, best) && err == Error(t, Rule(best, gap), w)
  {
    ErrorInRange(t, Rule(Cand(0, 0, false), gap), w);
    assert Passed(t, steps, Cand(0, 0, false), t.cols, 0, 0);
    assert forall c :: InRange(t, steps, c) ==> Passed(t, steps, c, t.cols, 0, 0);
  }

  /** The weights of the rows that a yes-or-no answer gets wrong, with 1 meaning yes. */
  function Missed(t: Task, w: Vec, says: Vec -> bool): (v: Vec)
    requires t.Valid() && |w| == |t.rows|
    ensures |v| == |w|
    ensures forall i :: 0 <= i < |v| ==> v[i] == if says(t.rows[i]) == (t.labels[i] == 1.0) then 0.0 else w[i]
  {
    seq(|w|, i requires 0 <= i < |w| => if says(t.rows[i]) == (t.labels[i] == 1.0) then 0.0 else w[i])
  }

  function Multiple(k: nat, gap: real): real { k as real * gap }

  /** Is the entry above the value, or below it? */
  function Test(col: nat, x: real, below: bool): Vec -> bool {
    (row: Vec) => col < |row| && if below then row[col] < x else row[col] > x
  }

  lemma ErrorIs(t: Task, w: Vec, gap: real, col: nat, k: nat, below: bool)
    requires t.Valid() && |w| == |t.rows| && col < t.cols && k > 0
    ensures Error(t, Rule(Cand(col, k - 1, below), gap), w) == Sum(Missed(t, w, Test(col, Multiple(k, gap), below)))
  {
    var rule := Rule(Cand(col, k - 1, below), gap);
    assert Wrong(Predict(t, rule), t.labels, w) == Missed(t, w, Test(col, Multiple(k, gap), below));
  }

  /** The rule found misses no more weight than the test of any column against any multiple of the gap up
      to the last, in either direction. */
  lemma BeatsEveryTest(t: Task, w: Vec, gap: real, steps: nat, best: Cand, col: nat, k: nat, below: bool)
    requires t.Valid() && |w| == |t.rows| && FirstBest(t, w, gap, steps, best) && col < t.cols && 0 < k <= steps
    ensures Sum(Missed(t, w, Test(best.col, Multiple(best.step + 1, gap), best.below)))
         <= Sum(Missed(t, w, Test(col, Multiple(k, gap), below)))
  {
    ErrorIs(t, w, gap, col, k, below);
    ErrorIs(t, w, gap, best.col, best.step + 1, best.below);
    assert InRange(t, steps, Cand(col, k - 1, below));
  }

  /** The search does no worse than chance if some threshold is hit exactly by no row: above and
      below then vote against each other everywhere. */
  lemma NoWorseThanChance(t: Task, w: Vec, gap: real, steps: nat, best: Cand, c: Cand)
    requires t.Valid() && Weights(t, w) && FirstBest(t, w, gap, steps, best) && InRange(t, steps, c)
    requires forall i :: 0 <= i < |t.rows| ==> t.rows[i][c.col] != Rule(c, gap).value
    ensures Error(t, Rule(best, gap), w) <= 0.5
  {
    var above, below := Cand(c.col, c.step, false), Cand(c.col, c.step, true);
    var p, q := Predict(t, Rule(above, gap)), Predict(t, Rule(below, gap));
    var a, b := Wrong(p, t.labels, w), Wrong(q, t.labels, w);
    forall i | 0 <= i < |w|
      ensures w[i] == Linear(1.0, a[i], 1.0, b[i])
    {
      assert t.rows[i][c.col] != Rule(c, gap).value;
      assert p[i] == -q[i];
    }
    SumLinear(a, b, w, 1.0, 1.0);
    assert InRange(t, steps, above) && InRange(t, steps, below);
  }

  // ----- Reweighting -----

  /** matexp overwrites its argument. */
  method MatExp(mat: array2<real>, exp: real -> real)
    modifies mat
    ensures forall i, j :: 0 <= i < mat.Length0 && 0 <= j < mat.Length1 ==> mat[i, j] == exp(old(mat[i, j]))
  {
    for i := 0 to mat.Length0
      invariant forall k, j :: 0 <= k < i && 0 <= j < mat.Length1 ==> mat[k, j] == exp(old(mat[k, j]))
      invariant forall k, j :: i <= k < mat.Length0 && 0 <= j < mat.Length1 ==> mat[k, j] == old(mat[k, j])
    {
      for j := 0 to mat.Length1
        invariant forall k, l :: 0 <= k < i && 0 <= l < mat.Length1 ==> mat[k, l] == exp(old(mat[k, l]))
        invariant forall l :: 0 <= l < j ==> mat[i, l] == exp(old(mat[i, l]))
        invariant forall l :: j <= l < mat.Length1 ==> mat[i, l] == old(mat[i, l])
        invariant forall k, l :: i < k < mat.Length0 && 0 <= l < mat.Length1 ==> mat[k, l] == old(mat[k, l])
      {
        mat[i, j] := exp(mat[i, j]);
      }
    }
  }

  function Exponent(alpha: real, y: real, h: real): real { -alpha * (y * h) }

  datatype Weak = Weak(stump: Stump, alpha: real)

  /** One round: its rule and factor, the weights before, the weights raised by the exponentials,
      their sum, and the weights after. */
  datatype Round = Round(weak: Weak, w: Vec, raised: Vec, z: real, next: Vec)

  /** The exponent for one row: minus alpha, times label, times vote. */
  function RowExponent(t: Task, s: Weak, i: nat): real
    requires t.Valid() && i < |t.rows| && 0 <= s.stump.col < t.cols
  {
    Exponent(s.alpha, t.labels[i], Vote(s.stump, t.rows[i][s.stump.col]))
  }

  ghost predicate RoundOk(exp: real -> real, t: Task, r: Round)
    requires t.Valid()
  {
    && 0 <= r.weak.stump.col < t.cols && |r.w| == |r.raised| == |r.next| == |t.rows|
    && (forall i :: 0 <= i < |t.rows| ==> r.raised[i] == Mul(r.w[i], exp(RowExponent(t, r.weak, i))))
    && r.z == Sum(r.raised) != 0.0
    && forall i :: 0 <= i < |t.rows| ==> r.next[i] == r.raised[i] / r.z
  }

  function Start(t: Task): Vec
    requires |t.rows| > 0
  {
    Constant(|t.rows|, 1.0 / |t.rows| as real)
  }

  /** The weights after the rounds: those after the last one, or the equal weights of the start. */
  function Now(t: Task, rs: seq<Round>): Vec
    requires |t.rows| > 0
  {
    if rs == [] then Start(t) else rs[|rs| - 1].next
  }

  /** A run: every round starts from where the one before it ended. Rules and alphas are arbitrary. */
  ghost predicate Run(exp: real -> real, t: Task, rs: seq<Round>) {
    && t.Valid() && ExpLaws(exp)
    && (forall k :: 0 <= k < |rs| ==> RoundOk(exp, t, rs[k]))
    && forall k :: 0 <= k < |rs| ==> Follows(t, rs, k)
  }

  ghost predicate Follows(t: Task, rs: seq<Round>, k: nat)
    requires |t.rows| > 0 && k < |rs|
  {
    rs[k].w == Now(t, rs[..k])
  }

  // ----- Weights stay weights -----

  lemma Quotient(x: real, s: real, k: real, r: real)
    requires x > 0.0 && s > 0.0 && k == 1.0 / s && r == x / s
    ensures r > 0.0 && r == Mul(k, x) && Mul(k, s) == 1.0
  {
  }

  lemma ProductPositive(x: real, y: real)
    requires x > 0.0 && y > 0.0
    ensures Mul(x, y) > 0.0
  {
  }

  lemma {:induction false} SumPositive(u: Vec)
    requires forall i :: 0 <= i < |u| ==> u[i] > 0.0
    ensures Sum(u) >= 0.0 && (u != [] ==> Sum(u) > 0.0)
  {
    if u != [] {
      SumPositive(u[..|u| - 1]);
    }
  }

  /** Dividing by the sum leaves positive numbers of sum 1. */
  lemma Normalised(u: Vec, s: real, r: Vec)
    requires |u| == |r| > 0 && s == Sum(u) && (forall i :: 0 <= i < |u| ==> u[i] > 0.0)
    requires s > 0.0 && forall i :: 0 <= i < |u| ==> r[i] == u[i] / s
    ensures (forall i :: 0 <= i < |r| ==> r[i] > 0.0) && Sum(r) == 1.0
  {
    var k := 1.0 / s;
    Quotient(s, s, k, 1.0);
    forall i | 0 <= i < |u|
      ensures r[i] > 0.0 && r[i] == Mul(k, u[i])
    {
      Quotient(u[i], s, k, r[i]);
    }
    SumScaled(u, r, k);
  }

  lemma RaisedPositive(exp: real -> real, t: Task, s: Weak, w: Vec, u: Vec)
    requires t.Valid() && ExpLaws(exp) && Weights(t, w) && 0 <= s.stump.col < t.cols && |u| == |t.rows|
    requires forall i :: 0 <= i < |t.rows| ==> u[i] == Mul(w[i], exp(RowExponent(t, s, i)))
    ensures (forall i :: 0 <= i < |u| ==> u[i] > 0.0) && Sum(u) > 0.0
  {
    forall i | 0 <= i < |u|
      ensures u[i] > 0.0
    {
      ProductPositive(w[i], exp(RowExponent(t, s, i)));
    }
    SumPositive(u);
  }

  lemma StartWeights(t: Task)
    requires t.Valid()
    ensures Weights(t, Start(t))
  {
    SumConstant(|t.rows|, 1.0 / |t.rows| as real);
  }

  lemma RoundKeepsWeights(exp: real -> real, t: Task, r: Round)
    requires t.Valid() && ExpLaws(exp) && RoundOk(exp, t, r) && Weights(t, r.w)
    ensures Weights(t, r.next) && r.z > 0.0
  {
    RaisedPositive(exp, t, r.weak, r.w, r.raised);
    Normalised(r.raised, r.z, r.next);
  }

  /** The weights stay positive and of sum 1 through any number of rounds, and so do the normalisers. */
  lemma {:induction false} WeightsStay(exp: real -> real, t: Task, rs: seq<Round>, k: nat, w: Vec)
    requires Run(exp, t, rs) && k <= |rs| && w == Now(t, rs[..k])
    ensures Weights(t, w) && (k > 0 ==> rs[k - 1].z > 0.0)
  {
    if k == 0 {
      StartWeights(t);
    } else {
      var r := rs[k - 1];
      assert Follows(t, rs, k - 1);
      WeightsStay(exp, t, rs, k - 1, r.w);
      RoundKeepsWeights(exp, t, r);
      assert w == r.next;
    }
  }

  // ----- The form of the weights -----

  function Prod(v: Vec): real { if v == [] then 1.0 else Mul(Prod(v[..|v| - 1]), v[|v| - 1]) }

  /** The normalisers of the rounds. */
  function Norms(rs: seq<Round>): (z: Vec)
    ensures |z| == |rs| && forall k :: 0 <= k < |rs| ==> z[k] == rs[k].z
  {
    seq(|rs|, k requires 0 <= k < |rs| => rs[k].z)
  }

  function Rules(rs: seq<Round>): (r: seq<Weak>)
    ensures |r| == |rs| && forall k :: 0 <= k < |rs| ==> r[k] == rs[k].weak
  {
    seq(|rs|, k requires 0 <= k < |rs| => rs[k].weak)
  }

  predicate Fits(cols: nat, cl: seq<Weak>) { forall k :: 0 <= k < |cl| ==> 0 <= cl[k].stump.col < cols }

  function AddVote(a: real, alpha: real, h: real): real { a + alpha * h }

  /** The weighted vote of all rules on one row. */
  function Agg(cl: seq<Weak>, row: Vec): real
    requires Fits(|row|, cl)
  {
    if cl == [] then 0.0
    else
      var s := cl[|cl| - 1];
      AddVote(Agg(cl[..|cl| - 1], row), s.alpha, Vote(s.stump, row[s.stump.col]))
  }

  /** The exponent of a row: minus its label times the vote. */
  function Margin(y: real, a: real): real { -(y * a) }

  lemma ChainStep(w0: real, w: real, p: real, q: real, w': real, z: real, x: real)
    requires Mul(w, p) == Mul(w0, q) && Mul(w', z) == Mul(w, x)
    ensures Mul(w', Mul(p, z)) == Mul(w0, Mul(q, x))
  {
    calc {
      w' * (p * z);
      (w' * z) * p;
      (w * x) * p;
      (w * p) * x;
      (w0 * q) * x;
    }
  }

  /** Each weight times its normaliser is the weight before times its factor. */
  lemma {:induction false} Chain(ws: Vec, zs: Vec, xs: Vec)
    requires |ws| == |zs| + 1 == |xs| + 1
    requires forall k :: 0 <= k < |zs| ==> Mul(ws[k + 1], zs[k]) == Mul(ws[k], xs[k])
    ensures Mul(ws[|zs|], Prod(zs)) == Mul(ws[0], Prod(xs))
  {
    var n := |zs| - 1;
    if n >= 0 {
      Chain(ws[..n + 1], zs[..n], xs[..n]);
      ChainStep(ws[0], ws[n], Prod(zs[..n]), Prod(xs[..n]), ws[n + 1], zs[n], xs[n]);
    }
  }

  lemma ExpOfSum(exp: real -> real, y: real, a: real, alpha: real, h: real)
    requires ExpLaws(exp)
    ensures exp(Margin(y, AddVote(a, alpha, h))) == Mul(exp(Margin(y, a)), exp(Exponent(alpha, y, h)))
  {
    Distribute(y, a, alpha * h);
    assert y * (alpha * h) == alpha * (y * h);
    assert Margin(y, AddVote(a, alpha, h)) == Both(Margin(y, a), Exponent(alpha, y, h));
  }

  /** The exponential turns the sum of the votes into the product of the factors. */
  lemma {:induction false} ExpOfVotes(exp: real -> real, cl: seq<Weak>, row: Vec, y: real, xs: Vec)
    requires ExpLaws(exp) && Fits(|row|, cl) && |xs| == |cl|
    requires forall k :: 0 <= k < |cl| ==>
      xs[k] == exp(Exponent(cl[k].alpha, y, Vote(cl[k].stump, row[cl[k].stump.col])))
    ensures exp(Margin(y, Agg(cl, row))) == Prod(xs)
  {
    var n := |cl| - 1;
    if n >= 0 {
      ExpOfVotes(exp, cl[..n], row, y, xs[..n]);
      ExpOfSum(exp, y, Agg(cl[..n], row), cl[n].alpha, Vote(cl[n].stump, row[cl[n].stump.col]));
    } else {
      assert Margin(y, 0.0) == 0.0;
    }
  }

  lemma Link(exp: real -> real, t: Task, r: Round, i: nat)
    requires t.Valid() && RoundOk(exp, t, r) && i < |t.rows|
    ensures Mul(r.next[i], r.z) == Mul(r.w[i], exp(RowExponent(t, r.weak, i)))
  {
  }

  /** The weight of one row before and after each round. */
  function History(t: Task, rs: seq<Round>, i: nat): (ws: Vec)
    requires t.Valid() && i < |t.rows| && forall k :: 0 <= k < |rs| ==> |rs[k].next| == |t.rows|
    ensures |ws| == |rs| + 1 && ws[0] == 1.0 / |t.rows| as real
    ensures forall k :: 0 <= k < |rs| ==> ws[k + 1] == rs[k].next[i]
  {
    [1.0 / |t.rows| as real] + seq(|rs|, k requires 0 <= k < |rs| => rs[k].next[i])
  }

  function Factors(exp: real -> real, t: Task, rs: seq<Round>, i: nat): (xs: Vec)
    requires t.Valid() && i < |t.rows| && forall k :: 0 <= k < |rs| ==> 0 <= rs[k].weak.stump.col < t.cols
    ensures |xs| == |rs| && forall k :: 0 <= k < |rs| ==> xs[k] == exp(RowExponent(t, rs[k].weak, i))
  {
    seq(|rs|, k requires 0 <= k < |rs| => exp(RowExponent(t, rs[k].weak, i)))
  }

  lemma HistoryLinks(exp: real -> real, t: Task, rs: seq<Round>, i: nat, ws: Vec, xs: Vec)
    requires Run(exp, t, rs) && i < |t.rows| && ws == History(t, rs, i) && |xs| == |rs|
    requires forall k :: 0 <= k < |rs| ==> xs[k] == exp(RowExponent(t, rs[k].weak, i))
    ensures forall k :: 0 <= k < |rs| ==> Mul(ws[k + 1], Norms(rs)[k]) == Mul(ws[k], xs[k])
    ensures |Now(t, rs)| == |t.rows| && Now(t, rs)[i] == ws[|rs|]
  {
    forall k | 0 <= k < |rs|
      ensures Mul(ws[k + 1], Norms(rs)[k]) == Mul(ws[k], xs[k])
    {
      assert Follows(t, rs, k) && rs[k] in rs;
      Link(exp, t, rs[k], i);
      assert k > 0 ==> rs[..k][k - 1] == rs[k - 1];
      assert ws[k] == rs[k].w[i];
    }
  }

  lemma Cleared(w: real, n: real, p: real, w0: real, e: real)
    requires n > 0.0 && w0 == 1.0 / n && Mul(w, p) == Mul(w0, e)
    ensures Mul(Mul(n, p), w) == e
  {
    assert w0 * n == 1.0;
    calc {
      (n * p) * w;
      n * (w * p);
      n * (w0 * e);
      (w0 * n) * e;
    }
  }

  /** For any rules and any alphas: the weight of a row, times the number of rows and the product of
      all normalisers, is the exponential of minus the label times the vote. */
  lemma WeightForm(exp: real -> real, t: Task, rs: seq<Round>, i: nat, w: Vec)
    requires Run(exp, t, rs) && i < |t.rows| && w == Now(t, rs)
    ensures |w| == |t.rows|
    ensures Mul(Mul(|t.rows| as real, Prod(Norms(rs))), w[i]) == exp(Margin(t.labels[i], Agg(Rules(rs), t.rows[i])))
  {
    var ws := History(t, rs, i);
    var xs := Factors(exp, t, rs, i);
    HistoryLinks(exp, t, rs, i, ws, xs);
    Chain(ws, Norms(rs), xs);
    ExpOfVotes(exp, Rules(rs), t.rows[i], t.labels[i], xs);
    Cleared(w[i], |t.rows| as real, Prod(Norms(rs)), ws[0], Prod(xs));
  }

  // ----- The training error -----

  /** The weighted vote on every row. */
  function Votes(t: Task, cl: seq<Weak>): (r: Vec)
    requires t.Valid() && Fits(t.cols, cl)
    ensures |r| == |t.rows| && forall i :: 0 <= i < |r| ==> r[i] == Agg(cl, t.rows[i])
  {
    seq(|t.rows|, i requires 0 <= i < |t.rows| => Agg(cl, t.rows[i]))
  }

  /** The fraction of rows on which the accumulated prediction has the wrong sign. */
  function ErrRate(t: Task, lastPred: Vec): real
    requires t.Valid() && |lastPred| == |t.rows|
  {
    Sum(Wrong(lastPred, t.labels, Constant(|t.rows|, 1.0))) / |t.rows| as real
  }

  // Both error counts, as numbers of rows.

  function Ones(v: Vec): set<nat> { set i: nat | i < |v| && v[i] == 1.0 }

  lemma {:induction false} SumOfOnes(v: Vec)
    requires forall i :: 0 <= i < |v| ==> v[i] == 0.0 || v[i] == 1.0
    ensures Sum(v) == |Ones(v)| as real
  {
    if v == [] {
      assert Ones(v) == {};
    } else {
      var n := |v| - 1;
      SumOfOnes(v[..n]);
      assert Ones(v) == if v[n] == 1.0 then Ones(v[..n]) + {n} else Ones(v[..n]);
    }
  }

  /** The rows on which the prediction has the wrong sign. */
  function WrongRows(t: Task, p: Vec): set<nat>
    requires t.Valid() && |p| == |t.rows|
  {
    set i: nat | i < |t.rows| && p[i] * t.labels[i] < 0.0
  }

  /** The error rate is the share of those rows. */
  lemma ErrRateCounts(t: Task, p: Vec)
    requires t.Valid() && |p| == |t.rows|
    ensures ErrRate(t, p) == |WrongRows(t, p)| as real / |t.rows| as real
  {
    var v := Wrong(p, t.labels, Constant(|t.rows|, 1.0));
    SumOfOnes(v);
    assert Ones(v) == WrongRows(t, p);
  }

  /** The rows that the rules together misjudge, by the sign of their vote. */
  function MisjudgedRows(t: Task, cl: seq<Weak>): set<nat>
    requires t.Valid() && Fits(t.cols, cl)
  {
    set i: nat | i < |t.rows| && (Agg(cl, t.rows[i]) > 0.0) != (t.labels[i] == 1.0)
  }

  lemma MisjudgedCounts(t: Task, cl: seq<Weak>)
    requires t.Valid() && Fits(t.cols, cl)
    ensures Sum(Misjudged(t.labels, Votes(t, cl))) == |MisjudgedRows(t, cl)| as real
  {
    var v := Misjudged(t.labels, Votes(t, cl));
    SumOfOnes(v);
    assert Ones(v) == MisjudgedRows(t, cl);
  }

  function Opinion(a: real): real { if a > 0.0 then 1.0 else -1.0 }

  /** One for each row that Judge gets wrong. */
  function Misjudged(labels: Vec, votes: Vec): (r: Vec)
    requires |labels| == |votes|
    ensures |r| == |votes| && forall i :: 0 <= i < |r| ==> r[i] == if Opinion(votes[i]) == labels[i] then 0.0 else 1.0
  {
    seq(|votes|, i requires 0 <= i < |votes| => if Opinion(votes[i]) == labels[i] then 0.0 else 1.0)
  }

  lemma MarginTells(exp: real -> real, y: real, a: real)
    requires ExpLaws(exp) && (y == 1.0 || y == -1.0)
    ensures exp(Margin(y, a)) > 0.0
    ensures a * y < 0.0 || Opinion(a) != y ==> exp(Margin(y, a)) >= 1.0
  {
  }

  lemma Bound(s: real, n: real, p: real, one: real)
    requires n > 0.0 && one == 1.0 && s <= Mul(Mul(n, p), one)
    ensures s / n <= p
  {
    assert (s / n) * n == s <= p * n;
  }

  /** Against weights of sum 1, numbers at most n p w[i] have a mean of at most p. */
  lemma MeanAtMost(w: Vec, miss: Vec, e: Vec, n: real, p: real)
    requires Sum(w) == 1.0 && n > 0.0 && |w| == |miss| == |e|
    requires forall i :: 0 <= i < |w| ==> e[i] == Mul(Mul(n, p), w[i]) && miss[i] <= e[i]
    ensures Sum(miss) / n <= p
  {
    SumAtMost(miss, e);
    SumScaled(w, e, Mul(n, p));
    Bound(Sum(miss), n, p, Sum(w));
  }

  function Margins(exp: real -> real, labels: Vec, votes: Vec): (e: Vec)
    requires |labels| == |votes|
    ensures |e| == |votes| && forall i :: 0 <= i < |e| ==> e[i] == exp(Margin(labels[i], votes[i]))
  {
    seq(|votes|, i requires 0 <= i < |votes| => exp(Margin(labels[i], votes[i])))
  }

  lemma MarginWeights(exp: real -> real, t: Task, rs: seq<Round>, w: Vec, e: Vec, np: real)
    requires Run(exp, t, rs) && w == Now(t, rs) && |w| == |t.rows| && np == Mul(|t.rows| as real, Prod(Norms(rs)))
    requires e == Margins(exp, t.labels, Votes(t, Rules(rs)))
    ensures forall i :: 0 <= i < |w| ==> e[i] == Mul(np, w[i])
  {
    forall i | 0 <= i < |w|
      ensures e[i] == Mul(np, w[i])
    {
      WeightForm(exp, t, rs, i, w);
    }
  }

  lemma CountBound(exp: real -> real, t: Task, rs: seq<Round>, miss: Vec, e: Vec, n: real, p: real)
    requires Run(exp, t, rs) && |miss| == |t.rows| && e == Margins(exp, t.labels, Votes(t, Rules(rs)))
    requires forall i :: 0 <= i < |t.rows| ==> miss[i] <= e[i]
    requires n == |t.rows| as real && p == Prod(Norms(rs))
    ensures Sum(miss) / n <= p
  {
    var w := CurrentWeights(exp, t, rs);
    MarginWeights(exp, t, rs, w, e, Mul(n, p));
    MeanAtMost(w, miss, e, n, p);
  }

  lemma CurrentWeights(exp: real -> real, t: Task, rs: seq<Round>) returns (w: Vec)
    requires Run(exp, t, rs)
    ensures w == Now(t, rs) && |w| == |t.rows| > 0 && Sum(w) == 1.0
  {
    assert rs[..|rs|] == rs;
    w := Now(t, rs);
    WeightsStay(exp, t, rs, |rs|, w);
  }

  /** The training error of the accumulated prediction, and that of Judge, are at most the product
      of the normalisers: for any number of rounds, any rules and any alphas. */
  lemma TrainingErrorBound(exp: real -> real, t: Task, rs: seq<Round>)
    requires Run(exp, t, rs)
    ensures ErrRate(t, Votes(t, Rules(rs))) == |WrongRows(t, Votes(t, Rules(rs)))| as real / |t.rows| as real
    ensures ErrRate(t, Votes(t, Rules(rs))) <= Prod(Norms(rs))
    ensures |MisjudgedRows(t, Rules(rs))| as real / |t.rows| as real <= Prod(Norms(rs))
  {
    var votes := Votes(t, Rules(rs));
    var miss := Wrong(votes, t.labels, Constant(|t.rows|, 1.0));
    var e := Margins(exp, t.labels, votes);
    forall i | 0 <= i < |t.rows|
      ensures miss[i] <= e[i] && Misjudged(t.labels, votes)[i] <= e[i]
    {
      MarginTells(exp, t.labels[i], votes[i]);
    }
    CountBound(exp, t, rs, miss, e, |t.rows| as real, Prod(Norms(rs)));
    CountBound(exp, t, rs, Misjudged(t.labels, votes), e, |t.rows| as real, Prod(Norms(rs)));
    ErrRateCounts(t, votes);
    MisjudgedCounts(t, Rules(rs));
  }

  // ----- What one round gains -----

  /** The normaliser is (1 - e) exp(-alpha) + e exp(alpha), with e the weighted error of the rule. */
  lemma NormaliserForm(exp: real -> real, t: Task, r: Round)
    requires t.Valid() && ExpLaws(exp) && RoundOk(exp, t, r) && Weights(t, r.w)
    ensures var e := Error(t, r.weak.stump, r.w);
      r.z == Linear(1.0 - e, exp(-r.weak.alpha), e, exp(r.weak.alpha))
  {
    var s := r.weak.stump;
    var wrong := Wrong(Predict(t, s), t.labels, r.w);
    var lo, hi := exp(-r.weak.alpha), exp(r.weak.alpha);
    forall i | 0 <= i < |r.w|
      ensures r.raised[i] == Linear(lo, r.w[i], hi - lo, wrong[i])
    {
      RaisedForm(exp, t, r, i, wrong[i]);
    }
    SumLinear(r.w, wrong, r.raised, lo, hi - lo);
    Regroup(Sum(wrong), lo, hi);
  }

  lemma Regroup(e: real, lo: real, hi: real)
    ensures Linear(lo, 1.0, hi - lo, e) == Linear(1.0 - e, lo, e, hi)
  {
  }

  lemma RaisedForm(exp: real -> real, t: Task, r: Round, i: nat, wrong: real)
    requires t.Valid() && RoundOk(exp, t, r) && i < |t.rows|
    requires var h := Vote(r.weak.stump, t.rows[i][r.weak.stump.col]);
      wrong == if h * t.labels[i] < 0.0 then r.w[i] else 0.0
    ensures r.raised[i] == Linear(exp(-r.weak.alpha), r.w[i], exp(r.weak.alpha) - exp(-r.weak.alpha), wrong)
  {
    var y, h := t.labels[i], Vote(r.weak.stump, t.rows[i][r.weak.stump.col]);
    assert RowExponent(t, r.weak, i) == if y == h then -r.weak.alpha else r.weak.alpha;
  }

  ghost predicate LogLaw(exp: real -> real, log: real -> real) { forall x :: x > 0.0 ==> exp(log(x)) == x }

  function Floored(e: real): real { if e > 0.001 then e else 0.001 }

  function AlphaOf(log: real -> real, e: real): real { 0.5 * log((1.0 - e) / Floored(e)) }

  /** What the chosen alpha makes of the square of a normaliser; below an error of 0.001 the floor
      takes part. */
  function Gain(e: real): real {
    if e >= 0.001 then 4.0 * e * (1.0 - e) else (1.0 - e) * (1.0 + 1000.0 * e) * (1.0 + 1000.0 * e) / 1000.0
  }

  lemma Opposite(exp: real -> real, x: real)
    requires ExpLaws(exp)
    ensures exp(x) * exp(-x) == 1.0
  {
    assert Both(x, -x) == 0.0;
  }

  lemma ChosenAlpha(exp: real -> real, log: real -> real, e: real)
    requires ExpLaws(exp) && LogLaw(exp, log) && 0.0 <= e < 1.0
    ensures var a := exp(AlphaOf(log, e)); a * a * Floored(e) == 1.0 - e
  {
    var q := (1.0 - e) / Floored(e);
    assert q > 0.0 && q * Floored(e) == 1.0 - e;
    assert Both(AlphaOf(log, e), AlphaOf(log, e)) == log(q);
  }

  lemma NotNegative(x: real, y: real)
    requires x >= 0.0 && y >= 0.0
    ensures x * y >= 0.0
  {
  }

  /** With ab = 1 and a a m = c: b b c = m. */
  lemma OtherSquare(a: real, b: real, u: real, m: real, c: real)
    requires u == a * b && u == 1.0 && c == a * a * m
    ensures b * b * c == m
  {
    calc {
      b * b * c;
      b * b * (a * a * m);
      (a * b) * (a * b) * m;
      u * u * m;
      m;
    }
  }

  lemma SquareOf(a: real, b: real, e: real, m: real, c: real, z: real)
    requires a * b == 1.0 && a * a * m == c && c == 1.0 - e && z == Linear(c, b, e, a)
    ensures z * z * m == c * ((m + e) * (m + e))
  {
    OtherSquare(a, b, a * b, m, c);
    ExpandSquare(a, b, e, m, c, z, b * b * c, a * b, a * a * m);
  }

  lemma ExpandSquare(a: real, b: real, e: real, m: real, c: real, z: real, bbc: real, ab: real, aam: real)
    requires bbc == b * b * c && ab == a * b && aam == a * a * m && z == Linear(c, b, e, a)
    requires bbc == m && ab == 1.0 && aam == c
    ensures z * z * m == c * ((m + e) * (m + e))
  {
    calc {
      z * z * m;
      (c * b + e * a) * (c * b + e * a) * m;
      c * m * (b * b * c) + 2.0 * (c * e * m) * (a * b) + e * e * (a * a * m);
      c * m * bbc + 2.0 * (c * e * m) * ab + e * e * aam;
      c * m * m + 2.0 * (c * e * m) + e * e * c;
      c * ((m + e) * (m + e));
    }
  }

  lemma GainFits(e: real, zz: real)
    requires zz * Floored(e) == (1.0 - e) * ((Floored(e) + e) * (Floored(e) + e))
    ensures zz == Gain(e)
  {
    if e > 0.001 {
      assert zz * e == (4.0 * e * (1.0 - e)) * e;
    }
  }

  lemma SquareIsGain(a: real, b: real, e: real, z: real)
    requires a * b == 1.0 && a * a * Floored(e) == 1.0 - e && z == Linear(1.0 - e, b, e, a)
    ensures Mul(z, z) == Gain(e)
  {
    SquareOf(a, b, e, Floored(e), 1.0 - e, z);
    GainFits(e, z * z);
  }

  /** The square of the normaliser under the chosen alpha. */
  lemma RoundGain(exp: real -> real, log: real -> real, t: Task, r: Round, e: real)
    requires t.Valid() && ExpLaws(exp) && LogLaw(exp, log) && RoundOk(exp, t, r) && Weights(t, r.w)
    requires e == Error(t, r.weak.stump, r.w) && e < 1.0 && r.weak.alpha == AlphaOf(log, e)
    ensures Mul(r.z, r.z) == Gain(e)
  {
    var alpha := r.weak.alpha;
    ErrorInRange(t, r.weak.stump, r.w);
    NormaliserForm(exp, t, r);
    Opposite(exp, alpha);
    ChosenAlpha(exp, log, e);
    SquareIsGain(exp(alpha), exp(-alpha), e, r.z);
  }

  lemma SmallGain(e: real, d: real)
    requires 0.0 <= e < 0.001 && d == 1.0 + 1000.0 * e
    ensures 0.0 <= (1.0 - e) * d * d < 4.0
  {
    var c := 1.0 - e;
    NotNegative(c, d);
    NotNegative(1.0 - c, d);
    NotNegative(c * d, d);
    NotNegative(2.0 - c * d, d);
  }

  lemma LargeGain(e: real, g: real, d: real)
    requires 0.0 <= e <= 1.0 && g == 4.0 * e * (1.0 - e) && d == 1.0 - 2.0 * e
    ensures 0.0 <= g == 1.0 - Mul(d, d)
  {
    NotNegative(e, 1.0 - e);
  }

  lemma SameSquare(d: real, m: real)
    requires m == -d
    ensures Mul(d, d) == Mul(m, m)
  {
  }

  lemma PositiveSquare(d: real, q: real)
    requires d > 0.0 && q == Mul(d, d)
    ensures q > 0.0
  {
    ProductPositive(d, d);
  }

  lemma Square(d: real, q: real)
    requires q == Mul(d, d)
    ensures q >= 0.0 && (q == 0.0 <==> d == 0.0)
  {
    if d == 0.0 {
      assert q == Mul(0.0, 0.0);
    } else if d > 0.0 {
      PositiveSquare(d, q);
    } else {
      SameSquare(d, -d);
      PositiveSquare(-d, q);
    }
  }

  lemma BelowOne(e: real, g: real, q: real)
    requires 0.0 <= g == 1.0 - q && q >= 0.0 && (q == 0.0 <==> 1.0 - 2.0 * e == 0.0)
    ensures 0.0 <= g <= 1.0 && (g == 1.0 <==> e == 0.5)
  {
  }

  /** Every round gains unless its rule is exactly at chance. */
  lemma GainBelowOne(e: real)
    requires 0.0 <= e <= 1.0
    ensures 0.0 <= Gain(e) <= 1.0 && (Gain(e) == 1.0 <==> e == 0.5)
  {
    if e >= 0.001 {
      var d := 1.0 - 2.0 * e;
      LargeGain(e, Gain(e), d);
      Square(d, Mul(d, d));
      BelowOne(e, Gain(e), Mul(d, d));
    } else {
      SmallGain(e, 1.0 + 1000.0 * e);
    }
  }

  // ----- The whole training -----

  /** The rule is the first of the best on the weights of the round. */
  ghost predicate BestRule(t: Task, gap: real, steps: nat, s: Stump, w: Vec)
    requires t.Valid() && |w| == |t.rows|
  {
    exists best :: FirstBest(t, w, gap, steps, best) && s == Rule(best, gap)
  }

  ghost predicate Greedy(log: real -> real, t: Task, gap: real, steps: nat, r: Round)
    requires t.Valid()
  {
    && |r.w| == |t.rows| && 0 <= r.weak.stump.col < t.cols && BestRule(t, gap, steps, r.weak.stump, r.w)
    && r.weak.alpha == AlphaOf(log, Error(t, r.weak.stump, r.w))
  }

  /** A run in which each rule is the best on the weights of its round, and its alpha the one for its error. */
  ghost predicate Boosted(exp: real -> real, log: real -> real, t: Task, gap: real, steps: nat, rs: seq<Round>) {
    Run(exp, t, rs) && AllGreedy(log, t, gap, steps, rs)
  }

  ghost predicate AllGreedy(log: real -> real, t: Task, gap: real, steps: nat, rs: seq<Round>) {
    t.Valid() && forall r :: r in rs ==> Greedy(log, t, gap, steps, r)
  }

  /** A run whose rules have the given errors, each with the alpha chosen for its error. */
  ghost predicate Tuned(exp: real -> real, log: real -> real, t: Task, rs: seq<Round>, errors: Vec) {
    && Run(exp, t, rs) && |errors| == |rs|
    && forall k :: 0 <= k < |rs| ==>
         errors[k] == Error(t, rs[k].weak.stump, rs[k].w) && rs[k].weak.alpha == AlphaOf(log, errors[k])
  }

  function Gains(errors: Vec): (g: Vec)
    ensures |g| == |errors| && forall k :: 0 <= k < |g| ==> g[k] == Gain(errors[k])
  {
    seq(|errors|, k requires 0 <= k < |errors| => Gain(errors[k]))
  }

  lemma SquareOfProduct(p: real, z: real)
    ensures Mul(Mul(p, z), Mul(p, z)) == Mul(Mul(p, p), Mul(z, z))
  {
    calc {
      (p * z) * (p * z);
      (p * p) * (z * z);
    }
  }

  lemma {:induction false} ProductSquared(zs: Vec, gs: Vec)
    requires |zs| == |gs| && forall k :: 0 <= k < |zs| ==> Mul(zs[k], zs[k]) == gs[k]
    ensures Mul(Prod(zs), Prod(zs)) == Prod(gs)
  {
    var n := |zs| - 1;
    if n >= 0 {
      ProductSquared(zs[..n], gs[..n]);
      SquareOfProduct(Prod(zs[..n]), zs[n]);
    }
  }

  lemma SquareMonotone(x: real, y: real)
    requires 0.0 <= x <= y
    ensures Mul(x, x) <= Mul(y, y)
  {
    NotNegative(x, y - x);
    NotNegative(y, y - x);
  }

  lemma RateNotNegative(t: Task, pred: Vec)
    requires t.Valid() && |pred| == |t.rows|
    ensures ErrRate(t, pred) >= 0.0
  {
    var n := |t.rows|;
    SumConstant(n, 0.0);
    SumAtMost(Constant(n, 0.0), Wrong(pred, t.labels, Constant(n, 1.0)));
  }

  lemma TunedGain(exp: real -> real, log: real -> real, t: Task, rs: seq<Round>, errors: Vec, k: nat)
    requires Tuned(exp, log, t, rs, errors) && LogLaw(exp, log) && k < |rs| && errors[k] < 1.0
    ensures Mul(rs[k].z, rs[k].z) == Gain(errors[k])
  {
    assert Follows(t, rs, k);
    WeightsStay(exp, t, rs, k, rs[k].w);
    RoundGain(exp, log, t, rs[k], errors[k]);
  }

  /** With the chosen alphas, the square of the training error is at most the product of the gains:
      4e(1 - e) for a round of error e, or a little more below the floor. */
  lemma TrainingErrorGain(
      exp: real -> real, log: real -> real, t: Task, rs: seq<Round>, errors: Vec, rate: real)
    requires Tuned(exp, log, t, rs, errors) && LogLaw(exp, log)
    requires forall k :: 0 <= k < |errors| ==> errors[k] < 1.0
    requires rate == ErrRate(t, Votes(t, Rules(rs)))
    ensures Mul(rate, rate) <= Prod(Gains(errors))
  {
    TrainingErrorBound(exp, t, rs);
    RateNotNegative(t, Votes(t, Rules(rs)));
    forall k | 0 <= k < |rs|
      ensures Mul(Norms(rs)[k], Norms(rs)[k]) == Gains(errors)[k]
    {
      TunedGain(exp, log, t, rs, errors, k);
    }
    ProductSquared(Norms(rs), Gains(errors));
    SquareMonotone(rate, Prod(Norms(rs)));
  }

  /** The vote of the rules on one row against its label; a vote of 0 counts as -1. */
  method Judge(row: Vec, y: real, cl: seq<Weak>) returns (ok: bool)
    requires Fits(|row|, cl)
    ensures ok <==> y == if Agg(cl, row) > 0.0 then 1.0 else -1.0
  {
    var aggv := 0.0;
    for i := 0 to |cl|
      invariant aggv == Agg(cl[..i], row)
    {
      assert cl[..i + 1][..i] == cl[..i];
      var s := cl[i].stump;
      if s.mode == Above {
        if row[s.col] > s.value {
          aggv := aggv + cl[i].alpha;
        } else {
          aggv := aggv - cl[i].alpha;
        }
      } else {
        if row[s.col] < s.value {
          aggv := aggv + cl[i].alpha;
        } else {
          aggv := aggv - cl[i].alpha;
        }
      }
    }
    assert cl[..|cl|] == cl;
    var estimate := if aggv > 0.0 then 1.0 else -1.0;
    ok := estimate == y;
  }

  lemma RunExtends(exp: real -> real, t: Task, rs: seq<Round>, r: Round, all: seq<Round>)
    requires Run(exp, t, rs) && RoundOk(exp, t, r) && r.w == Now(t, rs) && all == rs + [r]
    ensures Run(exp, t, all)
  {
    forall k | 0 <= k < |all|
      ensures Follows(t, all, k)
    {
      if k < |rs| {
        assert Follows(t, rs, k) && all[k] == rs[k] && all[..k] == rs[..k];
      } else {
        assert all[..k] == rs;
      }
    }
  }

  lemma RulesExtend(t: Task, rs: seq<Round>, r: Round, all: seq<Round>)
    requires |t.rows| > 0 && all == rs + [r]
    ensures Rules(all) == Rules(rs) + [r.weak] && Now(t, all) == r.next
  {
    assert all[..|rs|] == rs;
  }

  lemma VotesExtend(t: Task, cl: seq<Weak>, s: Weak, all: seq<Weak>, v: Vec)
    requires t.Valid() && Fits(t.cols, cl) && 0 <= s.stump.col < t.cols && all == cl + [s] && |v| == |t.rows|
    requires forall i :: 0 <= i < |v| ==> v[i] == AddVote(Agg(cl, t.rows[i]), s.alpha, Vote(s.stump, t.rows[i][s.stump.col]))
    ensures Fits(t.cols, all) && v == Votes(t, all)
  {
    assert all[..|cl|] == cl;
  }

  /** The weights raised by the exponentials of one round, and normalised. */
  method Reweight(exp: real -> real, t: Task, w: Vec, s: Weak, pred: Vec) returns (next: Vec, ghost r: Round)
    requires t.Valid() && ExpLaws(exp) && Weights(t, w) && 0 <= s.stump.col < t.cols && pred == Predict(t, s.stump)
    ensures RoundOk(exp, t, r) && r.w == w && r.weak == s && r.next == next
    ensures Weights(t, next)
  {
    var n := |t.rows|;
    var exon := new real[n, 1];
    for i := 0 to n
      invariant forall k :: 0 <= k < i ==> exon[k, 0] == RowExponent(t, s, k)
    {
      exon[i, 0] := Exponent(s.alpha, t.labels[i], pred[i]);
    }
    MatExp(exon, exp);
    var raised := seq(n, i requires 0 <= i < n reads exon => Mul(w[i], exon[i, 0]));
    RaisedPositive(exp, t, s, w, raised);
    var z := Sum(raised);
    next := seq(n, i requires 0 <= i < n => raised[i] / z);
    r := Round(s, w, raised, z, next);
    RoundKeepsWeights(exp, t, r);
  }

  /** The best rule on the weights, and the alpha for its error. */
  method Choose(log: real -> real, t: Task, gap: real, steps: nat, w: Vec) returns (s: Weak, pred: Vec)
    requires t.Valid() && Weights(t, w) && t.cols > 0 && steps > 0
    ensures 0 <= s.stump.col < t.cols && pred == Predict(t, s.stump)
    ensures BestRule(t, gap, steps, s.stump, w) && s.alpha == AlphaOf(log, Error(t, s.stump, w))
  {
    ghost var best;
    var err, mode, value, col;
    err, mode, value, col, pred, best := GenerateClassifier(t, w, gap, steps);
    SearchFinds(t, w, gap, steps, best, err);
    s := Weak(Stump(mode, value, col), AlphaOf(log, err));
  }

  /** The variables of the loop after the rounds. */
  ghost predicate Trained(
      exp: real -> real, log: real -> real, t: Task, gap: real, steps: nat,
      rs: seq<Round>, classifier: seq<Weak>, weight: Vec, lastPred: Vec)
  {
    && Boosted(exp, log, t, gap, steps, rs)
    && classifier == Rules(rs) && weight == Now(t, rs)
    && Fits(t.cols, classifier) && lastPred == Votes(t, classifier)
  }

  /** The weighted errors that the rules of the rounds had when they were chosen. */
  function Errors(t: Task, rs: seq<Round>): (e: Vec)
    requires t.Valid()
    requires forall k :: 0 <= k < |rs| ==> |rs[k].w| == |t.rows| && 0 <= rs[k].weak.stump.col < t.cols
    ensures |e| == |rs| && forall k :: 0 <= k < |rs| ==> e[k] == Error(t, rs[k].weak.stump, rs[k].w)
  {
    seq(|rs|, k requires 0 <= k < |rs| => Error(t, rs[k].weak.stump, rs[k].w))
  }

  lemma RoundsAreGreedy(exp: real -> real, log: real -> real, t: Task, gap: real, steps: nat, rs: seq<Round>, k: nat)
    requires Boosted(exp, log, t, gap, steps, rs) && k < |rs|
    ensures Greedy(log, t, gap, steps, rs[k]) && Weights(t, rs[k].w)
  {
    assert rs[k] in rs && Follows(t, rs, k);
    WeightsStay(exp, t, rs, k, rs[k].w);
  }

  /** What the trainer returns: the square of its training error is at most the product of the gains
      of the rules it chose, no gain is above 1, and only a rule at chance has gain 1. */
  lemma TrainedGain(
      exp: real -> real, log: real -> real, t: Task, gap: real, steps: nat,
      rs: seq<Round>, classifier: seq<Weak>, weight: Vec, lastPred: Vec, errors: Vec, rate: real)
    requires Trained(exp, log, t, gap, steps, rs, classifier, weight, lastPred) && LogLaw(exp, log)
    requires errors == Errors(t, rs) && rate == ErrRate(t, lastPred)
    requires forall k :: 0 <= k < |errors| ==> errors[k] < 1.0
    ensures Mul(rate, rate) <= Prod(Gains(errors))
    ensures forall k :: 0 <= k < |errors| ==>
              0.0 <= Gains(errors)[k] <= 1.0 && (Gains(errors)[k] == 1.0 <==> errors[k] == 0.5)
  {
    forall k | 0 <= k < |rs|
      ensures rs[k].weak.alpha == AlphaOf(log, errors[k])
      ensures 0.0 <= Gain(errors[k]) <= 1.0 && (Gain(errors[k]) == 1.0 <==> errors[k] == 0.5)
    {
      RoundsAreGreedy(exp, log, t, gap, steps, rs, k);
      ErrorInRange(t, rs[k].weak.stump, rs[k].w);
      GainBelowOne(errors[k]);
    }
    TrainingErrorGain(exp, log, t, rs, errors, rate);
  }

  /** If some threshold is hit exactly by no row, every rule the trainer chooses errs at most half of
      the time, so that the bound applies. */
  lemma TrainedBeatsChance(
      exp: real -> real, log: real -> real, t: Task, gap: real, steps: nat,
      rs: seq<Round>, classifier: seq<Weak>, weight: Vec, lastPred: Vec, c: Cand, k: nat)
    requires Trained(exp, log, t, gap, steps, rs, classifier, weight, lastPred)
    requires InRange(t, steps, c) && k < |rs|
    requires forall i :: 0 <= i < |t.rows| ==> t.rows[i][c.col] != Rule(c, gap).value
    ensures Errors(t, rs)[k] <= 0.5
  {
    RoundsAreGreedy(exp, log, t, gap, steps, rs, k);
    var best :| FirstBest(t, rs[k].w, gap, steps, best) && rs[k].weak.stump == Rule(best, gap);
    NoWorseThanChance(t, rs[k].w, gap, steps, best, c);
  }

  lemma GreedyExtends(
      log: real -> real, t: Task, gap: real, steps: nat, rs: seq<Round>, r: Round, all: seq<Round>)
    requires AllGreedy(log, t, gap, steps, rs) && Greedy(log, t, gap, steps, r) && all == rs + [r]
    ensures AllGreedy(log, t, gap, steps, all)
  {
  }

  lemma TrainedExtends(
      exp: real -> real, log: real -> real, t: Task, gap: real, steps: nat,
      rs: seq<Round>, cl: seq<Weak>, w: Vec, v: Vec, r: Round, rs': seq<Round>, cl': seq<Weak>, w': Vec, v': Vec)
    requires Trained(exp, log, t, gap, steps, rs, cl, w, v)
    requires RoundOk(exp, t, r) && r.w == w && r.next == w' && Greedy(log, t, gap, steps, r)
    requires rs' == rs + [r] && cl' == cl + [r.weak] && |v'| == |t.rows|
    requires forall i :: 0 <= i < |v'| ==> v'[i] == AddVote(v[i], r.weak.alpha, Predict(t, r.weak.stump)[i])
    ensures Trained(exp, log, t, gap, steps, rs', cl', w', v')
  {
    GreedyExtends(log, t, gap, steps, rs, r, rs');
    RunExtends(exp, t, rs, r, rs');
    RulesExtend(t, rs, r, rs');
    VotesExtend(t, cl, r.weak, cl', v');
  }

  /** One pass through the boosting loop. */
  method Boost(
      exp: real -> real, log: real -> real, t: Task, gap: real, steps: nat,
      ghost rs: seq<Round>, classifier: seq<Weak>, weight: Vec, lastPred: Vec)
    returns (ghost rs': seq<Round>, classifier': seq<Weak>, weight': Vec, lastPred': Vec)
    requires Trained(exp, log, t, gap, steps, rs, classifier, weight, lastPred) && t.cols > 0 && steps > 0
    ensures Trained(exp, log, t, gap, steps, rs', classifier', weight', lastPred')
    ensures |classifier'| == |classifier| + 1 && classifier'[..|classifier|] == classifier
  {
    assert rs[..|rs|] == rs;
    WeightsStay(exp, t, rs, |rs|, weight);
    var s, pred := Choose(log, t, gap, steps, weight);
    ghost var r;
    weight', r := Reweight(exp, t, weight, s, pred);
    lastPred' := seq(|t.rows|, k requires 0 <= k < |t.rows| => AddVote(lastPred[k], s.alpha, pred[k]));
    classifier' := classifier + [s];
    rs' := rs + [r];
    TrainedExtends(exp, log, t, gap, steps, rs, classifier, weight, lastPred, r, rs', classifier', weight', lastPred');
  }

  /** Fewer than one row in ten thousand has the wrong sign. */
  ghost predicate GoodEnough(t: Task, p: Vec)
    requires t.Valid() && |p| == |t.rows|
  {
    10000 * |WrongRows(t, p)| < |t.rows|
  }

  lemma StopsWhenGoodEnough(t: Task, p: Vec)
    requires t.Valid() && |p| == |t.rows|
    ensures ErrRate(t, p) < 0.0001 <==> GoodEnough(t, p)
  {
    ErrRateCounts(t, p);
    Share(|WrongRows(t, p)|, |t.rows|);
  }

  lemma Share(k: nat, n: nat)
    requires n > 0
    ensures k as real / n as real < 0.0001 <==> 10000 * k < n
  {
    var r := k as real / n as real;
    assert r * n as real == k as real;
    if r < 0.0001 {
      ProductPositive(0.0001 - r, n as real);
    } else {
      NotNegative(r - 0.0001, n as real);
    }
  }

  /** No shorter run, of fewer than m rounds but at least one, was good enough to stop. */
  ghost predicate NotBefore(t: Task, cl: seq<Weak>, m: nat)
    requires t.Valid() && m <= |cl| + 1
  {
    Fits(t.cols, cl) && forall k :: 0 < k < m ==> !GoodEnough(t, Votes(t, cl[..k]))
  }

  lemma StillNotBefore(t: Task, cl: seq<Weak>, cl': seq<Weak>)
    requires t.Valid() && NotBefore(t, cl, |cl| + 1) && Fits(t.cols, cl')
    requires |cl'| == |cl| + 1 && cl'[..|cl|] == cl
    ensures NotBefore(t, cl', |cl'|)
  {
    forall k | 0 < k < |cl'|
      ensures !GoodEnough(t, Votes(t, cl'[..k]))
    {
      assert cl'[..k] == cl[..k];
    }
  }

  lemma GoesOn(t: Task, cl: seq<Weak>, lastPred: Vec)
    requires t.Valid() && NotBefore(t, cl, |cl|) && lastPred == Votes(t, cl) && !GoodEnough(t, lastPred)
    ensures NotBefore(t, cl, |cl| + 1)
  {
    assert cl[..|cl|] == cl;
  }

  /** The boosting loop: rule after rule, until the rounds are used up or the accumulated prediction
      is right on all but one in ten thousand of the rows. */
  method Train(exp: real -> real, log: real -> real, t: Task, gap: real, steps: nat, rounds: nat)
    returns (classifier: seq<Weak>, weight: Vec, lastPred: Vec, ghost rs: seq<Round>)
    requires t.Valid() && ExpLaws(exp) && t.cols > 0 && steps > 0
    ensures Trained(exp, log, t, gap, steps, rs, classifier, weight, lastPred)
    ensures |classifier| <= rounds && (|classifier| < rounds ==> GoodEnough(t, lastPred))
    ensures NotBefore(t, classifier, |classifier|)
  {
    classifier, weight, lastPred, rs := [], Start(t), Constant(|t.rows|, 0.0), [];
    while |classifier| < rounds
      invariant |classifier| <= rounds && Trained(exp, log, t, gap, steps, rs, classifier, weight, lastPred)
      invariant NotBefore(t, classifier, |classifier| + 1)
      decreases rounds - |classifier|
    {
      ghost var before := classifier;
      rs, classifier, weight, lastPred := Boost(exp, log, t, gap, steps, rs, classifier, weight, lastPred);
      StillNotBefore(t, before, classifier);
      StopsWhenGoodEnough(t, lastPred);
      if ErrRate(t, lastPred) < 0.0001 {
        break;
      }
      GoesOn(t, classifier, lastPred);
    }
  }
}
