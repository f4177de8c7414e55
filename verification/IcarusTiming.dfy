// The timing estimate of the Icarus driver: sums over windows of data points and the line fitted
// through them.  Doubles are idealised as real numbers.

module IcarusTiming {

  const INFO_HISTORY := 10
  const MIN_DATA_COUNT := 5
  const MAX_MIN_DATA_COUNT := 100
  // One minute, in microseconds.
  const HISTORY_TIME := 60_000_000

  // A completed work: when it started, how many hashes it took and how long.
  datatype Point = Point(start: int, hashCount: nat, t: real)

  datatype Sums = Sums(sumXiTi: real, sumXi: real, sumTi: real, sumXi2: real,
                       values: nat, hashCountMin: nat, hashCountMax: nat)

  datatype History = History(finish: int, sums: Sums)

  const ZERO_SUMS := Sums(0.0, 0.0, 0.0, 0.0, 0, 0, 0)
  const ZERO_HISTORY := History(0, ZERO_SUMS)

  // The fitted line; dividing nought by nought gives no number.
  datatype Fit = Line(hs: real, w: real) | NotANumber

  // ---------- sums of points ----------

  function X(p: Point): real { p.hashCount as real }

  function Low(a: nat, b: nat): nat { if a > b || a == 0 then b else a }

  function High(a: nat, b: nat): nat { if a < b then b else a }

  function WithPoint(s: Sums, p: Point): Sums
  {
    Joined(s, Single(p))
  }

  function Single(p: Point): Sums
  {
    Sums(X(p) * p.t, X(p), p.t, X(p) * X(p), 1, p.hashCount, p.hashCount)
  }

  function Joined(s: Sums, u: Sums): Sums
  {
    Sums(s.sumXiTi + u.sumXiTi, s.sumXi + u.sumXi, s.sumTi + u.sumTi, s.sumXi2 + u.sumXi2,
         s.values + u.values, Low(s.hashCountMin, u.hashCountMin), High(s.hashCountMax, u.hashCountMax))
  }

  function SumsOf(ps: seq<Point>): Sums
  {
    if ps == [] then ZERO_SUMS else WithPoint(SumsOf(ps[..|ps| - 1]), ps[|ps| - 1])
  }

  predicate Counted(ps: seq<Point>) { forall i :: 0 <= i < |ps| ==> ps[i].hashCount > 0 }

  lemma SumsOfOneMore(ps: seq<Point>, p: Point)
    ensures SumsOf(ps + [p]) == WithPoint(SumsOf(ps), p)
  {
    var more := ps + [p];
    assert more[..|more| - 1] == ps && more[|more| - 1] == p;
  }

  lemma {:induction false} SumsOfValues(ps: seq<Point>)
    ensures SumsOf(ps).values == |ps|
  {
    if ps != [] { SumsOfValues(ps[..|ps| - 1]); }
  }

  // The least and the greatest hash count, which are points of the data.
  lemma {:induction false} SumsOfRange(ps: seq<Point>)
    requires Counted(ps) && ps != []
    ensures var s := SumsOf(ps);
            && 0 < s.hashCountMin <= s.hashCountMax
            && (forall i :: 0 <= i < |ps| ==> s.hashCountMin <= ps[i].hashCount <= s.hashCountMax)
            && (exists i :: 0 <= i < |ps| && ps[i].hashCount == s.hashCountMin)
            && (exists i :: 0 <= i < |ps| && ps[i].hashCount == s.hashCountMax)
    decreases |ps|
  {
    var front := ps[..|ps| - 1];
    if front != [] {
      SumsOfRange(front);
      assert forall i :: 0 <= i < |front| ==> front[i] == ps[i];
    }
  }

  lemma JoinedTwice(s: Sums, u: Sums, v: Sums)
    requires u.hashCountMin > 0 && v.hashCountMin > 0
    ensures Joined(Joined(s, u), v) == Joined(s, Joined(u, v))
  {
  }

  // The sums of two sets of points are those of the points together.
  lemma {:induction false} JoinedIsTogether(a: seq<Point>, b: seq<Point>)
    requires Counted(a) && Counted(b) && b != []
    ensures SumsOf(a + b) == Joined(SumsOf(a), SumsOf(b))
    decreases |b|
  {
    var front, p := b[..|b| - 1], b[|b| - 1];
    assert a + b == (a + front) + [p];
    SumsOfOneMore(a + front, p);
    if front == [] {
      assert a + front == a;
      assert SumsOf(b) == WithPoint(ZERO_SUMS, p);
    } else {
      JoinedIsTogether(a, front);
      SumsOfRange(front);
      JoinedTwice(SumsOf(a), SumsOf(front), Single(p));
    }
  }

  // ---------- the window of completed sets, newest first ----------

  function Window(completed: seq<seq<Point>>, k: nat): seq<Point>
  {
    if k == 0 then [] else if k <= |completed| then Window(completed, k - 1) + completed[k - 1]
    else Window(completed, k - 1)
  }

  // How many points a set needs, after so many completed sets.
  function DataCount(sets: nat): (c: nat)
    ensures MIN_DATA_COUNT <= c < 2 * MAX_MIN_DATA_COUNT
  {
    if sets == 0 then MIN_DATA_COUNT
    else
      var c := DataCount(sets - 1);
      if c < MAX_MIN_DATA_COUNT then 2 * c else c
  }

  predicate Completes(completed: seq<seq<Point>>, current: seq<Point>)
  {
    current != [] && |current| >= DataCount(|completed|)
    && current[|current| - 1].start > current[0].start + HISTORY_TIME
  }

  // The completed sets and the current one after one more point.
  function Fed(completed: seq<seq<Point>>, current: seq<Point>, p: Point): (seq<seq<Point>>, seq<Point>)
  {
    var more := current + [p];
    if Completes(completed, more) then ([more] + completed, []) else (completed, more)
  }

  function FedAll(ps: seq<Point>): (seq<seq<Point>>, seq<Point>)
  {
    if ps == [] then ([], [])
    else
      var (completed, current) := FedAll(ps[..|ps| - 1]);
      Fed(completed, current, ps[|ps| - 1])
  }

  function Chronicle(completed: seq<seq<Point>>): seq<Point>
  {
    if completed == [] then [] else Chronicle(completed[1..]) + completed[0]
  }

  // A completed set has enough points and spans more than a minute.
  ghost predicate WellCompleted(completed: seq<seq<Point>>)
  {
    completed != [] ==>
      && |completed[0]| >= DataCount(|completed| - 1)
      && completed[0][|completed[0]| - 1].start > completed[0][0].start + HISTORY_TIME
      && WellCompleted(completed[1..])
  }

  lemma FedKeeps(completed: seq<seq<Point>>, current: seq<Point>, p: Point)
    requires WellCompleted(completed)
    ensures var (completed', current') := Fed(completed, current, p);
            WellCompleted(completed') &&
            Chronicle(completed') + current' == Chronicle(completed) + current + [p]
  {
    var more := current + [p];
    if Completes(completed, more) {
      assert ([more] + completed)[1..] == completed;
    }
    assert Chronicle(completed) + more == Chronicle(completed) + current + [p];
  }

  // Every point is in exactly one set, in order; the completed sets are as they should be.
  lemma {:induction false} NoPointLost(ps: seq<Point>)
    ensures var (completed, current) := FedAll(ps);
            Chronicle(completed) + current == ps && WellCompleted(completed)
    decreases |ps|
  {
    if ps != [] {
      var front, p := ps[..|ps| - 1], ps[|ps| - 1];
      NoPointLost(front);
      var (completed, current) := FedAll(front);
      FedKeeps(completed, current, p);
      assert ps == front + [p];
    }
  }

  // The points a set needs: five at first, twice as many after each completed set, at most 160.
  function Needed(sets: nat): nat
  {
    if sets == 0 then 5 else if sets == 1 then 10 else if sets == 2 then 20 else if sets == 3 then 40
    else if sets == 4 then 80 else 160
  }

  lemma {:induction false} DataCountIsNeeded(sets: nat)
    ensures DataCount(sets) == Needed(sets)
  {
    if sets > 0 { DataCountIsNeeded(sets - 1); }
  }

  lemma FewSets(sets: nat)
    ensures DataCount(sets) < MAX_MIN_DATA_COUNT <==> sets < 5
  {
    DataCountIsNeeded(sets);
  }

  // The points up to the m-th are too few, or span at most a minute.
  predicate NotDue(ps: seq<Point>, m: nat, sets: nat)
    requires m < |ps|
  {
    m + 1 < Needed(sets) || ps[m].start <= ps[0].start + 60_000_000
  }

  // A set that was completed with its last point, when there were so many completed sets.
  predicate CompletedInTime(ps: seq<Point>, sets: nat)
  {
    && ps != [] && !NotDue(ps, |ps| - 1, sets)
    && forall m :: 0 <= m < |ps| - 1 ==> NotDue(ps, m, sets)
  }

  predicate AllInTime(completed: seq<seq<Point>>)
  {
    forall i :: 0 <= i < |completed| ==> CompletedInTime(completed[i], |completed| - 1 - i)
  }

  predicate NoneDue(current: seq<Point>, sets: nat)
  {
    forall m :: 0 <= m < |current| ==> NotDue(current, m, sets)
  }

  // Sets are completed as soon as they may: each with the first point that makes it long enough
  // and large enough, and the current one is not due with any of its points.
  lemma {:induction false} CompletedWhenDue(ps: seq<Point>)
    ensures AllInTime(FedAll(ps).0) && NoneDue(FedAll(ps).1, |FedAll(ps).0|)
    decreases |ps|
  {
    if ps != [] {
      var front := ps[..|ps| - 1];
      CompletedWhenDue(front);
      DueNext(FedAll(front).0, FedAll(front).1, ps[|ps| - 1]);
    }
  }

  lemma DueNext(completed: seq<seq<Point>>, current: seq<Point>, p: Point)
    requires AllInTime(completed) && NoneDue(current, |completed|)
    ensures var fed := Fed(completed, current, p);
            AllInTime(fed.0) && NoneDue(fed.1, |fed.0|)
  {
    var more, n := current + [p], |completed|;
    DataCountIsNeeded(n);
    forall m | 0 <= m < |more| - 1 ensures NotDue(more, m, n) {
      assert NotDue(current, m, n) && more[m] == current[m] && more[0] == current[0];
    }
    assert Completes(completed, more) <==> !NotDue(more, |more| - 1, n);
    if Completes(completed, more) {
      var sets := [more] + completed;
      forall i | 0 <= i < |sets| ensures CompletedInTime(sets[i], |sets| - 1 - i) {
        if i > 0 { assert sets[i] == completed[i - 1]; }
      }
    }
  }

  // ---------- the line of best fit ----------

  function Numerator(s: Sums): real { s.values as real * s.sumXiTi - s.sumXi * s.sumTi }

  function Denominator(s: Sums): real { s.values as real * s.sumXi2 - s.sumXi * s.sumXi }

  function Times(a: real, b: real): real { a * b }

  function Square(a: real): real { Times(a, a) }

  function FitOf(s: Sums): Fit
  {
    if s.values == 0 || Denominator(s) == 0.0 then NotANumber
    else
      var n := s.values as real;
      var hs := Numerator(s) / Denominator(s);
      Line(hs, s.sumTi / n - hs * s.sumXi / n)
  }

  // What the line y = a x + b misses the points by, squared and added up.
  function Missed(ps: seq<Point>, a: real, b: real): real
  {
    if ps == [] then 0.0
    else Missed(ps[..|ps| - 1], a, b) + Miss(ps[|ps| - 1], a, b)
  }

  function Miss(p: Point, a: real, b: real): real { Square(p.t - a * X(p) - b) }

  function Height(p: Point, a: real, b: real): real { Square(a * X(p) + b) }

  // The squares of a x + b added up.
  function Heights(ps: seq<Point>, a: real, b: real): real
  {
    if ps == [] then 0.0 else Heights(ps[..|ps| - 1], a, b) + Height(ps[|ps| - 1], a, b)
  }

  predicate AllEqual(ps: seq<Point>) { forall i :: 0 <= i < |ps| ==> ps[i].hashCount == ps[0].hashCount }

  // The line y = a x + b is at nought over the point.
  predicate AtNought(p: Point, a: real, b: real) { a * X(p) + b == 0.0 }

  lemma HeightPositive(p: Point, a: real, b: real)
    ensures Height(p, a, b) >= 0.0 && (Height(p, a, b) == 0.0 <==> AtNought(p, a, b))
  {
    SquarePositive(a * X(p) + b);
  }

  lemma SquarePositive(y: real)
    ensures Square(y) >= 0.0 && (Square(y) == 0.0 <==> y == 0.0)
  {
    TimesSign(y, y);
  }

  lemma TimesSign(x: real, y: real)
    ensures (x > 0.0 && y > 0.0) || (x < 0.0 && y < 0.0) ==> Times(x, y) > 0.0
    ensures x == 0.0 ==> Times(x, y) == 0.0
  {
  }

  lemma {:induction false} HeightsPositive(ps: seq<Point>, a: real, b: real)
    ensures Heights(ps, a, b) >= 0.0
    ensures Heights(ps, a, b) == 0.0 <==> forall i :: 0 <= i < |ps| ==> AtNought(ps[i], a, b)
    decreases |ps|
  {
    if ps != [] {
      var front, p := ps[..|ps| - 1], ps[|ps| - 1];
      HeightsPositive(front, a, b);
      HeightPositive(p, a, b);
      assert forall i :: 0 <= i < |front| ==> front[i] == ps[i];
    }
  }

  lemma NoughtTwice(p: Point, q: Point, a: real, b: real)
    requires AtNought(p, a, b) && AtNought(q, a, b) && p.hashCount != q.hashCount
    ensures a == 0.0 && b == 0.0
  {
    Distribute(a, X(p) - X(q), X(q));
    assert a * (X(p) - X(q)) == 0.0;
  }

  // The sum of squares in terms of the kept sums.
  lemma {:induction false} HeightsFromSums(ps: seq<Point>, a: real, b: real)
    ensures Heights(ps, a, b) == Quadratic(SumsOf(ps), a, b)
    decreases |ps|
  {
    if ps != [] {
      var front, p := ps[..|ps| - 1], ps[|ps| - 1];
      HeightsFromSums(front, a, b);
      QuadraticGrows(SumsOf(front), p, a, b);
      assert SumsOf(ps) == WithPoint(SumsOf(front), p);
    }
  }

  function Quadratic(s: Sums, a: real, b: real): real
  {
    (a * a) * s.sumXi2 + 2.0 * (a * b) * s.sumXi + s.values as real * (b * b)
  }

  lemma QuadraticGrows(s: Sums, p: Point, a: real, b: real)
    ensures Quadratic(WithPoint(s, p), a, b) == Quadratic(s, a, b) + Height(p, a, b)
  {
    Distribute(a * a, s.sumXi2, X(p) * X(p));
    Distribute(2.0 * (a * b), s.sumXi, X(p));
    Distribute(b * b, s.values as real, 1.0);
    SquareOfSum(a * X(p), b);
    Regroup(a, X(p), a, X(p));
    Regroup(a, X(p), b, 1.0);
  }

  lemma Distribute(k: real, x: real, y: real)
    ensures k * (x + y) == k * x + k * y
    ensures (x + y) * k == x * k + y * k
  {
  }

  lemma Regroup(a: real, x: real, b: real, y: real)
    ensures (a * x) * (b * y) == (a * b) * (x * y)
  {
  }

  lemma SquareOfSum(x: real, y: real)
    ensures Square(x + y) == x * x + 2.0 * (x * y) + y * y
    ensures Square(x - y) == x * x - 2.0 * (x * y) + y * y
  {
  }

  // One more point adds to the denominator its squared distances from the others.
  lemma DenominatorGrows(ps: seq<Point>, p: Point)
    ensures Denominator(SumsOf(ps + [p])) == Denominator(SumsOf(ps)) + Heights(ps, 1.0, -X(p))
  {
    SumsOfOneMore(ps, p);
    HeightsFromSums(ps, 1.0, -X(p));
    DenominatorStep(SumsOf(ps), p);
  }

  lemma DenominatorStep(s: Sums, p: Point)
    ensures Denominator(WithPoint(s, p)) == Denominator(s) + Quadratic(s, 1.0, -X(p))
  {
    var x := X(p);
    SquareOfSum(s.sumXi, x);
    ProductOfSums(s.values as real, 1.0, s.sumXi2, x * x);
    Regroup(-1.0, x, -1.0, x);
    Regroup(-1.0, x, 1.0, s.sumXi);
  }

  lemma ProductOfSums(a: real, b: real, x: real, y: real)
    ensures (a + b) * (x + y) == a * x + a * y + b * x + b * y
  {
  }

  // The denominator is never negative, and nought exactly when all hash counts are equal.
  lemma {:induction false} DenominatorPositive(ps: seq<Point>)
    ensures Denominator(SumsOf(ps)) >= 0.0
    ensures Denominator(SumsOf(ps)) > 0.0 <==> !AllEqual(ps)
    decreases |ps|
  {
    if ps != [] {
      var front, p := ps[..|ps| - 1], ps[|ps| - 1];
      assert ps == front + [p];
      DenominatorPositive(front);
      DenominatorGrows(front, p);
      HeightsPositive(front, 1.0, -X(p));
      assert forall i :: 0 <= i < |front| ==> front[i] == ps[i];
    }
  }

  // Moving from one line to another, by what it misses and the heights between the two lines.
  lemma {:induction false} MissedMoved(ps: seq<Point>, a: real, b: real, da: real, db: real)
    ensures Missed(ps, a + da, b + db) == Missed(ps, a, b) + Heights(ps, da, db)
              - Pull(SumsOf(ps), a, b, da, db)
    decreases |ps|
  {
    if ps != [] {
      var s, p := SumsOf(ps[..|ps| - 1]), ps[|ps| - 1];
      var front := ps[..|ps| - 1];
      MissedMoved(front, a, b, da, db);
      MissMoved(p, a, b, da, db);
      PullGrows(s, p, a, b, da, db);
      assert SumsOf(ps) == WithPoint(s, p);
    }
  }

  // How the sum of squares changes with the slope and the level of the line.
  function SlopePull(s: Sums, a: real, b: real): real { s.sumXiTi - a * s.sumXi2 - b * s.sumXi }

  function LevelPull(s: Sums, a: real, b: real): real { s.sumTi - a * s.sumXi - s.values as real * b }

  function Pull(s: Sums, a: real, b: real, da: real, db: real): real
  {
    2.0 * Times(da, SlopePull(s, a, b)) + 2.0 * Times(db, LevelPull(s, a, b))
  }

  function Tug(p: Point, a: real, b: real, da: real, db: real): real
  {
    2.0 * Times(da, X(p) * (p.t - a * X(p) - b)) + 2.0 * Times(db, p.t - a * X(p) - b)
  }

  lemma PullGrows(s: Sums, p: Point, a: real, b: real, da: real, db: real)
    ensures Pull(WithPoint(s, p), a, b, da, db) == Pull(s, a, b, da, db) + Tug(p, a, b, da, db)
  {
    PullParts(s, p, a, b);
    TimesSum(da, SlopePull(s, a, b), X(p) * (p.t - a * X(p) - b));
    TimesSum(db, LevelPull(s, a, b), p.t - a * X(p) - b);
  }

  lemma TimesSum(k: real, x: real, y: real)
    ensures Times(k, x + y) == Times(k, x) + Times(k, y)
  {
  }

  lemma PullParts(s: Sums, p: Point, a: real, b: real)
    ensures SlopePull(WithPoint(s, p), a, b) == SlopePull(s, a, b) + X(p) * (p.t - a * X(p) - b)
    ensures LevelPull(WithPoint(s, p), a, b) == LevelPull(s, a, b) + (p.t - a * X(p) - b)
  {
    var x := X(p);
    Distribute(a, s.sumXi2, x * x);
    Distribute(b, s.sumXi, x);
    Distribute(a, s.sumXi, x);
    Distribute(b, s.values as real, 1.0);
    ResidualTimes(x, p.t, a, b);
  }

  lemma ResidualTimes(x: real, t: real, a: real, b: real)
    ensures x * (t - a * x - b) == x * t - a * (x * x) - b * x
  {
  }

  lemma MissMoved(p: Point, a: real, b: real, da: real, db: real)
    ensures Miss(p, a + da, b + db) == Miss(p, a, b) + Height(p, da, db) - Tug(p, a, b, da, db)
  {
    var x := X(p);
    var u, v := p.t - a * x - b, da * x + db;
    Distribute(x, a, da);
    assert p.t - (a + da) * x - (b + db) == u - v;
    SquareOfSum(u, v);
    Distribute(u, da * x, db);
    Regroup(da, x, 1.0, u);
  }

  // The fitted line solves the normal equations.
  lemma NormalEquations(s: Sums)
    requires FitOf(s).Line?
    ensures var (a, b) := (FitOf(s).hs, FitOf(s).w);
            SlopePull(s, a, b) == 0.0 && LevelPull(s, a, b) == 0.0
  {
    var n, d, hs, w := s.values as real, Denominator(s), FitOf(s).hs, FitOf(s).w;
    Divided(Numerator(s), d, hs);
    Divided(s.sumTi - hs * s.sumXi, n, w);
    assert n * (s.sumXiTi - hs * s.sumXi2 - w * s.sumXi) == 0.0;
  }

  lemma Divided(a: real, d: real, q: real)
    requires d != 0.0 && q == a / d
    ensures q * d == a
  {
  }

  // The fitted line misses the points by less than every other line.
  lemma LeastSquares(ps: seq<Point>, a: real, b: real)
    requires !AllEqual(ps)
    ensures var fit := FitOf(SumsOf(ps));
            && fit.Line?
            && Missed(ps, fit.hs, fit.w) <= Missed(ps, a, b)
            && (Missed(ps, fit.hs, fit.w) == Missed(ps, a, b) <==> fit == Line(a, b))
  {
    DenominatorPositive(ps);
    SumsOfValues(ps);
    var s := SumsOf(ps);
    var fit := FitOf(s);
    var da, db := a - fit.hs, b - fit.w;
    NormalEquations(s);
    MissedMoved(ps, fit.hs, fit.w, da, db);
    HeightsPositive(ps, da, db);
    assert fit.hs + da == a && fit.w + db == b && Pull(s, fit.hs, fit.w, da, db) == 0.0;
    if forall i :: 0 <= i < |ps| ==> AtNought(ps[i], da, db) {
      var i :| 0 <= i < |ps| && ps[i].hashCount != ps[0].hashCount;
      NoughtTwice(ps[i], ps[0], da, db);
    }
  }

  // There is a line exactly when not all hash counts are equal.
  lemma FitDefined(ps: seq<Point>)
    ensures FitOf(SumsOf(ps)).Line? <==> !AllEqual(ps)
  {
    DenominatorPositive(ps);
    SumsOfValues(ps);
  }

  lemma {:induction false} EqualSums(ps: seq<Point>, c: nat)
    requires forall i :: 0 <= i < |ps| ==> ps[i].hashCount == c
    ensures var s := SumsOf(ps);
            s.sumXi == Times(s.values as real, c as real) && s.sumXiTi == Times(c as real, s.sumTi)
    decreases |ps|
  {
    if ps != [] {
      var front, p := ps[..|ps| - 1], ps[|ps| - 1];
      assert forall i :: 0 <= i < |front| ==> front[i] == ps[i];
      EqualSums(front, c);
      TimesOneMore(SumsOf(front).values as real, c as real);
      TimesSum(c as real, SumsOf(front).sumTi, p.t);
      assert Single(p).sumXiTi == Times(c as real, p.t) by { assert X(p) == c as real; }
    }
  }

  lemma TimesOneMore(n: real, x: real)
    ensures Times(n + 1.0, x) == Times(n, x) + x
  {
  }

  // With all hash counts equal the slope is nought divided by nought.
  lemma NoughtByNought(ps: seq<Point>)
    requires AllEqual(ps)
    ensures Numerator(SumsOf(ps)) == 0.0 && Denominator(SumsOf(ps)) == 0.0
  {
    var c := if ps == [] then 0 else ps[0].hashCount;
    EqualSums(ps, c);
    NoughtAbove(SumsOf(ps), c as real);
    NoughtBelow(ps);
  }

  lemma NoughtAbove(s: Sums, x: real)
    requires s.sumXi == Times(s.values as real, x) && s.sumXiTi == Times(x, s.sumTi)
    ensures Numerator(s) == 0.0
  {
    Reordered(s.values as real, x, s.sumTi);
  }

  lemma NoughtBelow(ps: seq<Point>)
    requires AllEqual(ps)
    ensures Denominator(SumsOf(ps)) == 0.0
  {
    DenominatorPositive(ps);
  }

  lemma Reordered(n: real, x: real, t: real)
    ensures n * Times(x, t) == Times(n, x) * t
  {
  }

  // The line of the points is the best one, or there is none because all hash counts are equal.
  ghost predicate BestLine(fit: Fit, ps: seq<Point>)
  {
    if AllEqual(ps) then fit == NotANumber
    else
      && fit.Line?
      && (forall a: real, b: real :: Missed(ps, fit.hs, fit.w) <= Missed(ps, a, b))
      && (forall a: real, b: real :: Missed(ps, a, b) == Missed(ps, fit.hs, fit.w) ==> fit == Line(a, b))
  }

  lemma FitIsBest(ps: seq<Point>)
    ensures BestLine(FitOf(SumsOf(ps)), ps)
  {
    FitDefined(ps);
    if !AllEqual(ps) {
      var fit := FitOf(SumsOf(ps));
      forall a: real, b: real
        ensures Missed(ps, fit.hs, fit.w) <= Missed(ps, a, b)
        ensures Missed(ps, a, b) == Missed(ps, fit.hs, fit.w) ==> fit == Line(a, b)
      {
        LeastSquares(ps, a, b);
      }
    }
  }

  method Solve(s: Sums) returns (fit: Fit)
    ensures fit == FitOf(s)
  {
    var n, d := s.values as real, s.values as real * s.sumXi2 - s.sumXi * s.sumXi;
    if s.values == 0 || d == 0.0 { return NotANumber; }
    var hs := (n * s.sumXiTi - s.sumXi * s.sumTi) / d;
    fit := Line(hs, s.sumTi / n - hs * s.sumXi / n);
  }

  // ---------- the driver's record ----------

  // The sums in place i of the history: those of the i-th newest completed set.
  function Past(completed: seq<seq<Point>>, i: nat): Sums
  {
    if 1 <= i <= |completed| then SumsOf(completed[i - 1]) else ZERO_SUMS
  }

  predicate Complete(ps: seq<Point>) { |ps| >= MIN_DATA_COUNT && Counted(ps) }

  predicate AllComplete(completed: seq<seq<Point>>)
  {
    forall i :: 0 <= i < |completed| ==> Complete(completed[i])
  }

  // The points of some sets in a row.
  function Together(sets: seq<seq<Point>>): seq<Point>
  {
    if sets == [] then [] else Together(sets[..|sets| - 1]) + sets[|sets| - 1]
  }

  // The points of the ten newest sets, or of all if there are fewer.
  function LastTen(completed: seq<seq<Point>>): seq<Point>
  {
    Together(if |completed| < 10 then completed else completed[..10])
  }

  lemma {:induction false} WindowIsTogether(completed: seq<seq<Point>>, k: nat)
    ensures Window(completed, k) == Together(if |completed| < k then completed else completed[..k])
  {
    if k > 0 {
      WindowIsTogether(completed, k - 1);
      if k <= |completed| {
        assert completed[..k][..k - 1] == completed[..k - 1];
      } else {
        assert completed[..|completed|] == completed;
      }
    } else {
      assert completed[..0] == [];
    }
  }

  lemma LastTenIsWindow(completed: seq<seq<Point>>)
    ensures LastTen(completed) == Window(completed, INFO_HISTORY)
  {
    WindowIsTogether(completed, 10);
  }

  // One more place of the history joins the sums of the window.
  lemma WindowGrows(completed: seq<seq<Point>>, k: nat)
    requires AllComplete(completed) && k > 0
    ensures SumsOf(Window(completed, k)) ==
      if Past(completed, k).values >= MIN_DATA_COUNT
      then Joined(SumsOf(Window(completed, k - 1)), Past(completed, k)) else SumsOf(Window(completed, k - 1))
    ensures Past(completed, k).values >= MIN_DATA_COUNT <==> k <= |completed|
  {
    if k <= |completed| {
      assert Complete(completed[k - 1]);
      SumsOfValues(completed[k - 1]);
      WindowCounted(completed, k - 1);
      JoinedIsTogether(Window(completed, k - 1), completed[k - 1]);
    }
  }

  lemma {:induction false} WindowCounted(completed: seq<seq<Point>>, k: nat)
    requires AllComplete(completed)
    ensures Counted(Window(completed, k))
  {
    if k > 0 {
      WindowCounted(completed, k - 1);
      if k <= |completed| { assert Complete(completed[k - 1]); }
    }
  }

  class IcarusInfo {
    var history: array<History>
    var minDataCount: nat
    var doIcarusTiming: bool
    var modeShort: bool
    var fit: Fit
    var count: nat
    var values: nat
    var hashCountRange: int
    ghost var completed: seq<seq<Point>>
    ghost var current: seq<Point>

    ghost predicate Valid()
      reads this, history
    {
      && history.Length == INFO_HISTORY + 1
      && minDataCount == DataCount(|completed|)
      && history[0].sums == SumsOf(current)
      && (current != [] ==> history[0].finish == current[0].start + HISTORY_TIME)
      && Counted(current)
      && AllComplete(completed)
      && HistoryKept()
      && (completed != [] ==> fit == FitOf(SumsOf(LastTen(completed))))
    }

    ghost predicate HistoryKept()
      reads this, history
      requires history.Length == INFO_HISTORY + 1
    {
      forall i :: 1 <= i <= INFO_HISTORY ==> history[i].sums == Past(completed, i)
    }

    // The figures shown beside the line are those of the ten newest sets.
    ghost predicate Estimated()
      reads this
    {
      var window := SumsOf(LastTen(completed));
      && values == window.values && hashCountRange == window.hashCountMax - window.hashCountMin
      && count == if |completed| < 10 then |completed| else 10
    }

    constructor (timing: bool, short: bool)
      ensures Valid() && completed == [] && current == [] && fresh(history)
      ensures doIcarusTiming == timing && modeShort == short
    {
      history := new History[INFO_HISTORY + 1](_ => ZERO_HISTORY);
      minDataCount, doIcarusTiming, modeShort := MIN_DATA_COUNT, timing, short;
      fit, count, values, hashCountRange := NotANumber, 0, 0, 0;
      completed, current := [], [];
    }

    // The point is added to the current data set.
    method Collect(p: Point)
      requires Valid() && p.hashCount > 0
      modifies this`current, history
      ensures Valid() && current == old(current) + [p]
    {
      var h := history[0];
      SumsOfValues(current);
      SumsOfOneMore(current, p);
      if h.sums.values == 0 { h := h.(finish := p.start + HISTORY_TIME); }
      history[0] := h.(sums := WithPoint(h.sums, p));
      current := current + [p];
    }

    // The current data set becomes the newest completed one; the oldest is thrown off the end.
    method Shift()
      requires Valid() && Complete(current)
      modifies this`current, this`completed, history
      ensures history[0] == ZERO_HISTORY && completed == old([current] + completed) && current == []
      ensures AllComplete(completed) && HistoryKept()
    {
      ghost var before, sets, now := history[..], completed, current;
      var i := INFO_HISTORY;
      while i > 0
        invariant 0 <= i <= INFO_HISTORY
        invariant completed == sets && current == now
        invariant forall j :: 0 <= j <= i ==> history[j] == before[j]
        invariant forall j :: i < j <= INFO_HISTORY ==> history[j] == before[j - 1]
      {
        history[i] := history[i - 1];
        i := i - 1;
      }
      history[0] := ZERO_HISTORY;
      completed, current := [current] + completed, [];
      forall j | 1 < j <= INFO_HISTORY ensures history[j].sums == Past(completed, j) {
        assert history[j] == before[j - 1] && before[j - 1].sums == Past(sets, j - 1);
      }
    }

    // The sums of the whole history, in the place of the current set.
    method Summarise()
      requires history.Length == INFO_HISTORY + 1 && history[0] == ZERO_HISTORY
      requires AllComplete(completed) && HistoryKept()
      modifies this`count, history
      ensures history[0] == History(0, SumsOf(LastTen(completed))) && history[1..] == old(history[1..])
      ensures count == if |completed| < 10 then |completed| else 10
    {
      count := 0;
      var i := 1;
      while i <= INFO_HISTORY
        invariant 1 <= i <= INFO_HISTORY + 1
        invariant history[0] == History(0, SumsOf(Window(completed, i - 1)))
        invariant HistoryKept() && history[1..] == old(history[1..])
        invariant count == if |completed| < i - 1 then |completed| else i - 1
      {
        WindowGrows(completed, i);
        var h := history[i].sums;
        if h.values >= MIN_DATA_COUNT {
          count := count + 1;
          history[0] := History(0, Joined(history[0].sums, h));
        }
        i := i + 1;
      }
      LastTenIsWindow(completed);
    }

    // The estimate made anew from the whole history.
    method Estimate()
      requires history.Length == INFO_HISTORY + 1 && history[0] == ZERO_HISTORY
      requires AllComplete(completed) && HistoryKept()
      modifies this`fit, this`count, this`values, this`hashCountRange, history
      ensures history[0] == ZERO_HISTORY && HistoryKept()
      ensures fit == FitOf(SumsOf(LastTen(completed))) && Estimated()
    {
      Summarise();
      var h := history[0].sums;
      values, hashCountRange := h.values, h.hashCountMax - h.hashCountMin;
      fit := Solve(h);
      assert forall i :: 1 <= i <= INFO_HISTORY ==> history[i] == history[1..][i - 1];
      history[0] := ZERO_HISTORY;
    }

    method Reestimate()
      requires Valid() && Complete(current)
      modifies this`current, this`completed, this`fit, this`count, this`values, this`hashCountRange, history
      ensures completed == old([current] + completed) && current == []
      ensures history[0] == ZERO_HISTORY && AllComplete(completed) && HistoryKept()
      ensures fit == FitOf(SumsOf(LastTen(completed))) && Estimated()
    {
      Shift();
      Estimate();
    }

    // After the given number of completed sets comes one more.
    method RaiseMinimum(ghost sets: nat)
      requires minDataCount == DataCount(sets)
      modifies this`minDataCount, this`doIcarusTiming
      ensures minDataCount == DataCount(sets + 1)
      ensures doIcarusTiming == (old(doIcarusTiming) && (sets < 5 || !modeShort))
    {
      FewSets(sets);
      if minDataCount < MAX_MIN_DATA_COUNT {
        minDataCount := minDataCount * 2;
      } else if modeShort {
        doIcarusTiming := false;
      }
    }

    // The current data set is complete: the estimate is made anew, and the next set needs more
    // points, or, in short mode, none is measured any more.
    method CompleteSet()
      requires Valid() && Complete(current)
      modifies this, history
      ensures Valid() && history == old(history) && modeShort == old(modeShort)
      ensures completed == old([current] + completed) && current == []
      ensures Estimated()
      ensures doIcarusTiming == old(doIcarusTiming && (|completed| < 5 || !modeShort))
    {
      ghost var sets := |completed|;
      Reestimate();
      RaiseMinimum(sets);
      assert |completed| == sets + 1;
    }

    method Timed(p: Point)
      requires Valid() && p.hashCount > 0
      modifies this, history
      ensures Valid() && history == old(history) && modeShort == old(modeShort)
      ensures (completed, current) == Fed(old(completed), old(current), p)
      ensures if completed == old(completed)
        then fit == old(fit) && values == old(values) && doIcarusTiming == old(doIcarusTiming)
        else Estimated() && doIcarusTiming == old(doIcarusTiming && (|completed| < 5 || !modeShort))
    {
      Collect(p);
      SumsOfValues(current);
      if history[0].sums.values >= minDataCount && p.start > history[0].finish { CompleteSet(); }
    }

    // One measured work.  When it completes a data set, the estimate is made anew from the last
    // ten completed sets.
    method Measured(start: int, hashCount: nat, ti: real)
      requires Valid() && hashCount > 0
      modifies this, history
      ensures Valid() && history == old(history) && modeShort == old(modeShort)
      ensures !old(doIcarusTiming) ==> completed == old(completed) && current == old(current)
      ensures old(doIcarusTiming) ==>
        (completed, current) == Fed(old(completed), old(current), Point(start, hashCount, ti))
      ensures completed == old(completed) ==>
        fit == old(fit) && values == old(values) && doIcarusTiming == old(doIcarusTiming)
      ensures completed != [] ==> BestLine(fit, LastTen(completed))
      ensures completed != old(completed) ==>
        Estimated() && doIcarusTiming == (old(|completed|) < 5 || !modeShort)
    {
      if doIcarusTiming { Timed(Point(start, hashCount, ti)); }
      FitIsBest(LastTen(completed));
    }
  }
}
