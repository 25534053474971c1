/**
 * `computeAverage` of lib/firestore.ts: a coefficient-weighted mean when some
 * grade carries a positive coefficient, a plain mean otherwise, rounded to two
 * decimals, and 0 for an empty list. Numbers are exact reals.
 */
module GradeAverage {

  import opened Wrappers

  /** The part of a stored grade the average reads: its value and optional coefficient. */
  datatype Grade = Grade(value: real, coef: Option<real>)

  /** `Math.round(x * 100) / 100`; `Math.round` rounds halves upwards. */
  function Round2(x: real): (r: real)
    ensures IsCents(r)
    ensures x - 0.005 < r <= x + 0.005
  {
    var k := (x * 100.0 + 0.5).Floor;
    assert (k as real / 100.0) * 100.0 == k as real;
    k as real / 100.0
  }

  /** Rounding leaves a whole number of hundredths unchanged. */
  lemma Round2OfCents(k: int)
    ensures Round2(k as real / 100.0) == k as real / 100.0
  {
    var x := k as real / 100.0;
    assert x * 100.0 == k as real;
    assert (x * 100.0 + 0.5).Floor == k;
  }

  /** `r` is an integral number of hundredths. */
  predicate IsCents(r: real) {
    (r * 100.0).Floor as real == r * 100.0
  }

  lemma Round2Bounds(x: real, lo: int, hi: int)
    requires lo as real <= x <= hi as real
    ensures lo as real <= Round2(x) <= hi as real
  {
    var k := (x * 100.0 + 0.5).Floor;
    assert lo * 100 <= k <= hi * 100;
  }

  /** `g.coef && g.coef > 0`: present and positive (0 is falsy). */
  predicate PositiveCoef(g: Grade) {
    g.coef.Some? && g.coef.value > 0.0
  }

  /** `grades.some(g => g.coef && g.coef > 0)`. */
  predicate HasPositiveCoef(grades: seq<Grade>) {
    exists g | g in grades :: PositiveCoef(g)
  }

  function Value(g: Grade): real { g.value }

  /** `g.coef ?? 1`: only an absent coefficient is replaced; an explicit 0 stays 0. */
  function Weight(g: Grade): real { g.coef.GetOr(1.0) }

  function WeightedValue(g: Grade): real { g.value * Weight(g) }

  /** Left-to-right sum of `f` over `s`, as `reduce` accumulates it. */
  function Total(s: seq<Grade>, f: Grade -> real): real {
    if s == [] then 0.0 else Total(s[..|s| - 1], f) + f(s[|s| - 1])
  }

  /** The average as lib/firestore.ts computes it. */
  function Average(grades: seq<Grade>): (r: real)
    ensures grades == [] ==> r == 0.0
    ensures IsCents(r)
  {
    if grades == [] then 0.0
    else if !HasPositiveCoef(grades) then Round2(Total(grades, Value) / |grades| as real)
    else if Total(grades, Weight) == 0.0 then 0.0
    else Round2(Total(grades, WeightedValue) / Total(grades, Weight))
  }

  /** computeAverage with the weighted branch's accumulator loop (`acc.total += …; acc.coefSum += …`). */
  method ComputeAverage(grades: seq<Grade>) returns (avg: real)
    ensures avg == Average(grades)
  {
    if |grades| == 0 {
      return 0.0;
    }
    var hasCoef := exists g | g in grades :: PositiveCoef(g);
    if !hasCoef {
      return Round2(Total(grades, Value) / |grades| as real);
    }
    var total, coefSum := 0.0, 0.0;
    var i := 0;
    while i < |grades|
      invariant 0 <= i <= |grades|
      invariant total == Total(grades[..i], WeightedValue)
      invariant coefSum == Total(grades[..i], Weight)
    {
      var c := grades[i].coef.GetOr(1.0);
      total := total + grades[i].value * c;
      coefSum := coefSum + c;
      assert grades[..i + 1][..i] == grades[..i];
      i := i + 1;
    }
    assert grades[..i] == grades;
    if coefSum == 0.0 {
      return 0.0;
    }
    avg := Round2(total / coefSum);
  }

  lemma {:induction false} TotalAppend(a: seq<Grade>, b: seq<Grade>, f: Grade -> real)
    ensures Total(a + b, f) == Total(a, f) + Total(b, f)
    decreases |b|
  {
    if b == [] {
      assert a + b == a;
    } else {
      assert (a + b)[..|a + b| - 1] == a + b[..|b| - 1];
      TotalAppend(a, b[..|b| - 1], f);
    }
  }

  /** Sums agree when the terms agree position by position. */
  lemma {:induction false} TotalPointwise(s: seq<Grade>, t: seq<Grade>, f: Grade -> real)
    requires |s| == |t| && forall i | 0 <= i < |s| :: f(s[i]) == f(t[i])
    ensures Total(s, f) == Total(t, f)
    decreases |s|
  {
    if s != [] {
      TotalPointwise(s[..|s| - 1], t[..|t| - 1], f);
    }
  }

  lemma TotalSingleton(x: Grade, f: Grade -> real)
    ensures Total([x], f) == f(x)
  {
    assert [x][..0] == [];
  }

  lemma TotalRemove(s: seq<Grade>, i: nat, f: Grade -> real)
    requires i < |s|
    ensures Total(s, f) == f(s[i]) + Total(s[..i] + s[i + 1..], f)
  {
    var a, x, b := s[..i], s[i], s[i + 1..];
    assert s == a + ([x] + b);
    TotalAppend(a, [x] + b, f);
    TotalAppend([x], b, f);
    TotalAppend(a, b, f);
    TotalSingleton(x, f);
  }

  /** A sum does not depend on the order of its terms. */
  lemma {:induction false} TotalPermutation(s: seq<Grade>, t: seq<Grade>, f: Grade -> real)
    requires multiset(s) == multiset(t)
    ensures Total(s, f) == Total(t, f)
    decreases |s|
  {
    if s == [] {
      assert |t| == |multiset(t)| == 0;
    } else {
      var x := s[|s| - 1];
      assert x in multiset(t);
      var i :| 0 <= i < |t| && t[i] == x;
      var t' := t[..i] + t[i + 1..];
      assert t == t[..i] + [t[i]] + t[i + 1..];
      assert s == s[..|s| - 1] + [x];
      assert multiset(t) == multiset(t[..i]) + multiset{x} + multiset(t[i + 1..]);
      assert multiset(s) == multiset(s[..|s| - 1]) + multiset{x};
      assert multiset(t') == multiset(t[..i]) + multiset(t[i + 1..]);
      assert multiset(s[..|s| - 1]) == multiset(s) - multiset{x};
      assert multiset(t') == multiset(t) - multiset{x};
      TotalPermutation(s[..|s| - 1], t', f);
      TotalRemove(t, i, f);
    }
  }

  /** The average does not depend on the order of the grades. */
  lemma AverageIsOrderIndependent(a: seq<Grade>, b: seq<Grade>)
    requires multiset(a) == multiset(b)
    ensures Average(a) == Average(b)
  {
    assert |a| == |multiset(a)| == |multiset(b)| == |b|;
    forall g ensures g in a <==> g in b {
      assert g in a <==> g in multiset(a);
      assert g in b <==> g in multiset(b);
    }
    assert HasPositiveCoef(a) == HasPositiveCoef(b);
    TotalPermutation(a, b, Value);
    TotalPermutation(a, b, Weight);
    TotalPermutation(a, b, WeightedValue);
  }

  /** Without a positive coefficient the result is the rounded plain mean. */
  lemma UnweightedWhenNoPositiveCoef(grades: seq<Grade>)
    requires grades != [] && forall i | 0 <= i < |grades| :: !PositiveCoef(grades[i])
    ensures Average(grades) == Round2(Total(grades, Value) / |grades| as real)
  {
  }

  /**
   * In weighted mode a grade given an explicit coefficient 0 changes nothing,
   * whereas a grade without a coefficient would weigh 1.
   */
  lemma ZeroCoefIgnoredInWeightedMode(grades: seq<Grade>, g: Grade)
    requires HasPositiveCoef(grades)
    requires g.coef == Some(0.0)
    ensures Average(grades + [g]) == Average(grades)
  {
    var h :| h in grades && PositiveCoef(h);
    assert h in grades + [g];
    TotalAppend(grades, [g], Weight);
    TotalAppend(grades, [g], WeightedValue);
    assert [g][..0] == [];
  }

  /** Every coefficient is either absent or exactly 1. */
  predicate UnitCoefs(s: seq<Grade>) {
    forall i | 0 <= i < |s| :: s[i].coef.None? || s[i].coef == Some(1.0)
  }

  lemma {:induction false} UnitCoefTotals(s: seq<Grade>)
    requires UnitCoefs(s)
    ensures Total(s, Weight) == |s| as real
    ensures Total(s, WeightedValue) == Total(s, Value)
    decreases |s|
  {
    if s != [] {
      UnitCoefTotals(s[..|s| - 1]);
    }
  }

  /**
   * An absent coefficient weighs 1: when every coefficient is absent or 1, the
   * weighted branch (taken as soon as one of them is 1) yields the plain mean.
   */
  lemma UnitCoefsGivePlainMean(grades: seq<Grade>)
    requires grades != [] && UnitCoefs(grades)
    ensures Average(grades) == Round2(Total(grades, Value) / |grades| as real)
  {
    UnitCoefTotals(grades);
  }

  predicate InScale(s: seq<Grade>) {
    forall i | 0 <= i < |s| :: 0.0 <= s[i].value <= 20.0
  }

  predicate NonNegativeCoefs(s: seq<Grade>) {
    forall i | 0 <= i < |s| :: s[i].coef.Some? ==> s[i].coef.value >= 0.0
  }

  lemma {:induction false} ValueTotalBounds(s: seq<Grade>)
    requires InScale(s)
    ensures 0.0 <= Total(s, Value) <= 20.0 * |s| as real
  {
    if s != [] {
      ValueTotalBounds(s[..|s| - 1]);
    }
  }

  lemma {:induction false} WeightTotalBounds(s: seq<Grade>)
    requires NonNegativeCoefs(s)
    ensures 0.0 <= Total(s, Weight)
    ensures HasPositiveCoef(s) ==> Total(s, Weight) > 0.0
  {
    if s != [] {
      var init, last := s[..|s| - 1], s[|s| - 1];
      WeightTotalBounds(init);
      if HasPositiveCoef(s) && !PositiveCoef(last) {
        var h :| h in s && PositiveCoef(h);
        assert s == init + [last];
        assert h in init;
      }
    }
  }

  lemma {:induction false} WeightedTotalBounds(s: seq<Grade>)
    requires InScale(s) && NonNegativeCoefs(s)
    ensures 0.0 <= Total(s, WeightedValue) <= 20.0 * Total(s, Weight)
  {
    if s != [] {
      var init, last := s[..|s| - 1], s[|s| - 1];
      WeightedTotalBounds(init);
      var w := Weight(last);
      assert 0.0 <= w;
      assert 0.0 <= last.value * w <= 20.0 * w;
      assert Total(s, WeightedValue) == Total(init, WeightedValue) + last.value * w;
      assert Total(s, Weight) == Total(init, Weight) + w;
    }
  }

  /** Grades within the /20 scale with non-negative coefficients average within [0, 20]. */
  lemma AverageInScale(grades: seq<Grade>)
    requires InScale(grades) && NonNegativeCoefs(grades)
    ensures 0.0 <= Average(grades) <= 20.0
  {
    ValueTotalBounds(grades);
    WeightTotalBounds(grades);
    WeightedTotalBounds(grades);
    if grades != [] {
      if !HasPositiveCoef(grades) {
        QuotientInScale(Total(grades, Value), |grades| as real);
        Round2Bounds(Total(grades, Value) / |grades| as real, 0, 20);
      } else {
        QuotientInScale(Total(grades, WeightedValue), Total(grades, Weight));
        Round2Bounds(Total(grades, WeightedValue) / Total(grades, Weight), 0, 20);
      }
    }
  }

  lemma QuotientInScale(t: real, d: real)
    requires d > 0.0 && 0.0 <= t <= 20.0 * d
    ensures 0.0 <= t / d <= 20.0
  {
    var m := t / d;
    assert m * d == t;
  }

  /** The zero-sum branch is reached only through negative coefficients. */
  lemma ZeroCoefSumNeedsNegativeCoef(grades: seq<Grade>)
    requires NonNegativeCoefs(grades) && HasPositiveCoef(grades)
    ensures Total(grades, Weight) > 0.0
  {
    WeightTotalBounds(grades);
  }

  /** [10, 15] without coefficients averages 12.5. */
  lemma PlainMeanExample()
    ensures Average([Grade(10.0, None), Grade(15.0, None)]) == 12.5
  {
    var gs := [Grade(10.0, None), Grade(15.0, None)];
    assert !PositiveCoef(gs[0]) && !PositiveCoef(gs[1]);
    assert gs[..1][..0] == [];
    assert Total(gs, Value) == 25.0;
  }

  /** [18 with coefficient 2, 12] averages (36 + 12) / 3 = 16. */
  lemma WeightedMeanExample()
    ensures Average([Grade(18.0, Some(2.0)), Grade(12.0, None)]) == 16.0
  {
    var gs := [Grade(18.0, Some(2.0)), Grade(12.0, None)];
    assert PositiveCoef(gs[0]) && gs[0] in gs;
    assert gs[..1][..0] == [];
    assert Total(gs, Weight) == 3.0;
    assert Total(gs, WeightedValue) == 48.0;
  }

  /** Coefficients 2 and -2 sum to zero and the average is 0. */
  lemma ZeroCoefSumExample()
    ensures Average([Grade(10.0, Some(2.0)), Grade(14.0, Some(-2.0))]) == 0.0
  {
    var gs := [Grade(10.0, Some(2.0)), Grade(14.0, Some(-2.0))];
    assert PositiveCoef(gs[0]) && gs[0] in gs;
    assert gs[..1][..0] == [];
    assert Total(gs, Weight) == 0.0;
  }
}
