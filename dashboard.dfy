/**
 * The helpers of app/dashboard/page.tsx: its own unweighted `computeAverage`,
 * the rule that shows an average as "avg/20" or a dash, and `formatDate`.
 */
module Dashboard {

  import opened Wrappers
  import opened GradeAverage

  /** A grade as the dashboard receives it from the grade listing: `value` may be missing, `coef` comes along unread. */
  datatype ListedGrade = ListedGrade(value: Option<real>, coef: Option<real>)

  /** `Number(g.value || 0)`: a missing value counts as 0. */
  function EffectiveValue(g: ListedGrade): real {
    g.value.GetOr(0.0)
  }

  function AsGrades(gs: seq<ListedGrade>): (r: seq<Grade>)
    ensures |r| == |gs|
    ensures forall i | 0 <= i < |gs| :: r[i] == Grade(EffectiveValue(gs[i]), gs[i].coef)
  {
    seq(|gs|, i requires 0 <= i < |gs| => Grade(EffectiveValue(gs[i]), gs[i].coef))
  }

  /** The dashboard's average: absent for no grades, otherwise the rounded plain mean. */
  function DashboardAverage(gs: seq<ListedGrade>): (r: Option<real>)
    ensures r.None? <==> gs == []
    ensures r.Some? ==> IsCents(r.value)
  {
    if gs == [] then None else Some(Round2(Total(AsGrades(gs), Value) / |gs| as real))
  }

  /** Coefficients play no part: lists with the same values have the same average. */
  lemma CoefficientsIgnored(a: seq<ListedGrade>, b: seq<ListedGrade>)
    requires |a| == |b| && forall i | 0 <= i < |a| :: EffectiveValue(a[i]) == EffectiveValue(b[i])
    ensures DashboardAverage(a) == DashboardAverage(b)
  {
    TotalPointwise(AsGrades(a), AsGrades(b), Value);
  }

  /** On a non-empty list without coefficients the dashboard agrees with the store's average. */
  lemma AgreesWithStoreAverage(gs: seq<ListedGrade>)
    requires gs != [] && forall i | 0 <= i < |gs| :: gs[i].coef.None?
    ensures DashboardAverage(gs) == Some(Average(AsGrades(gs)))
  {
  }

  /** With a coefficient the two averages differ: 15 on the dashboard, 16 in the store. */
  lemma DisagreesOnWeightedGrades()
    ensures DashboardAverage([ListedGrade(Some(18.0), Some(2.0)), ListedGrade(Some(12.0), None)]) == Some(15.0)
    ensures Average([Grade(18.0, Some(2.0)), Grade(12.0, None)]) == 16.0
  {
    var gs := [ListedGrade(Some(18.0), Some(2.0)), ListedGrade(Some(12.0), None)];
    var r := AsGrades(gs);
    assert r == [Grade(18.0, Some(2.0))] + [Grade(12.0, None)];
    assert Total(r, Value) == 30.0 by {
      assert r[..1] == [Grade(18.0, Some(2.0))] && r[..1][..0] == [];
      assert Total(r[..1], Value) == 18.0;
    }
    Round2OfCents(1500);
    WeightedMeanExample();
  }

  /** The two averages treat an empty list differently: absent here, 0 in the store. */
  lemma EmptyInputsDisagree()
    ensures DashboardAverage([]) == None && Average([]) == 0.0
  {
  }

  /** How the child card shows an average. */
  datatype AverageLabel = NoAverageShown | OutOf20(avg: real)

  /** `avg ? `${avg}/20` : '—'`: `null` and 0 are both falsy. */
  function ShowAverage(avg: Option<real>): (r: AverageLabel)
    ensures r.NoAverageShown? <==> avg.None? || avg.value == 0.0
    ensures r.OutOf20? ==> avg == Some(r.avg)
  {
    if avg.None? || avg.value == 0.0 then NoAverageShown else OutOf20(avg.value)
  }

  lemma {:induction false} ZeroValuesTotalZero(s: seq<Grade>)
    requires forall i | 0 <= i < |s| :: s[i].value == 0.0
    ensures Total(s, Value) == 0.0
    decreases |s|
  {
    if s != [] {
      ZeroValuesTotalZero(s[..|s| - 1]);
    }
  }

  /** A child whose grades are all 0 is shown with a dash, as if it had no grades. */
  lemma AllZeroGradesShowDash(gs: seq<ListedGrade>)
    requires gs != [] && forall i | 0 <= i < |gs| :: EffectiveValue(gs[i]) == 0.0
    ensures ShowAverage(DashboardAverage(gs)) == NoAverageShown
  {
    ZeroValuesTotalZero(AsGrades(gs));
    assert Round2(0.0) == 0.0;
  }

  /** The shapes `formatDate` distinguishes; `Object` carries the keys a Firestore timestamp may have. */
  datatype DateValue =
    | Null
    | Bool(b: bool)
    | Text(s: string)
    | Number(n: int)
    | Object(seconds: Option<int>, underscoreSeconds: Option<int>,
             nanoseconds: Option<int>, underscoreNanoseconds: Option<int>)

  /** What the date is rendered from: the argument passed to `new Date(...)` before `toLocaleString`. */
  datatype DateSource = ParsedText(s: string) | EpochMillis(ms: int)

  datatype ShownDate = Dash | Localized(source: DateSource)

  predicate Falsy(d: DateValue) {
    d.Null? || d == Bool(false) || d == Text("") || d == Number(0)
  }

  /** `seconds * 1000 + Math.floor(nanos / 1e6)`: whole seconds and the millisecond part are both recoverable. */
  function TimestampMillis(seconds: int, nanos: int): (ms: int)
    ensures 0 <= nanos < 1000000000 ==> ms / 1000 == seconds && ms % 1000 == nanos / 1000000
  {
    seconds * 1000 + nanos / 1000000
  }

  /** `formatDate`: a dash for falsy input and for shapes it does not know; otherwise what the date is built from. */
  function FormatDate(d: DateValue): (r: ShownDate)
    ensures r == Dash <==> Falsy(d) || d.Bool? || (d.Object? && d.seconds.None? && d.underscoreSeconds.None?)
    ensures d.Text? && d.s != "" ==> r == Localized(ParsedText(d.s))
    ensures d.Number? && d.n != 0 ==> r == Localized(EpochMillis(d.n))
    ensures d.Object? && (d.seconds.Some? || d.underscoreSeconds.Some?) ==>
      r == Localized(EpochMillis(TimestampMillis(
        d.seconds.GetOr(d.underscoreSeconds.GetOr(0)),
        d.nanoseconds.GetOr(d.underscoreNanoseconds.GetOr(0)))))
  {
    if Falsy(d) then Dash
    else match d
      case Text(s) => Localized(ParsedText(s))
      case Number(n) => Localized(EpochMillis(n))
      case Object(sec, sec', nanos, nanos') =>
        if sec.None? && sec'.None? then Dash
        else
          var seconds := if sec.Some? then sec.value else sec'.value;
          var ns := nanos.GetOr(nanos'.GetOr(0));
          Localized(EpochMillis(TimestampMillis(seconds, ns)))
      case _ => Dash
  }

  /**
   * A timestamp is shown at its own second: `seconds` wins over `_seconds`,
   * and the rendered millisecond value reads back as that second and the
   * millisecond part of the nanoseconds.
   */
  lemma TimestampShownAtItsSecond(seconds: int, shadowed: Option<int>, nanos: int)
    requires 0 <= nanos < 1000000000
    ensures var r := FormatDate(Object(Some(seconds), shadowed, Some(nanos), None));
      && r.Localized? && r.source.EpochMillis?
      && r.source.ms / 1000 == seconds
      && r.source.ms % 1000 == nanos / 1000000
  {
  }
}
