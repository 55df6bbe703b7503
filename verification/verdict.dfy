/** The verdict of a version campaign (jamodio-bench/src/campaign.rs): tolerances drawn from
    repeated runs, the comparison of one scenario with its reference, and the whole campaign. */
module Verdicts {
  import opened Options

  datatype Measure = Target | Holes | Invented

  datatype StreamMetrics = StreamMetrics(stream: string, target: Option<real>, holes: Option<real>, invented: Option<real>)
  {
    function Value(m: Measure): Option<real> {
      match m
      case Target => target
      case Holes => holes
      case Invented => invented
    }
  }

  datatype Precision = Sufficient | Watch | Insufficient | Unmeasured

  datatype Criterion = Fails | Met | Other

  datatype CriterionMetrics = CriterionMetrics(id: nat, verdict: Criterion)

  datatype Metrics = Metrics(
    scenario: string, fingerprint: string, complete: bool, precision: Precision,
    streams: seq<StreamMetrics>, criteria: seq<CriterionMetrics>)

  /** The gap tolerated for a stream. */
  datatype Tol = Tol(target: real, holes: real, invented: real)
  {
    function Limit(m: Measure): real {
      match m
      case Target => target
      case Holes => holes
      case Invented => invented
    }
  }

  const TOL_FLOOR := Tol(1.0, 0.5, 10.0)
  const NOISE_MARGIN: real := 2.0

  datatype Outcome = NoRegression | Regression | Inconclusive

  // ------------------------------------------------------------------ tolerances

  /** The first stream of that name. */
  function Find(streams: seq<StreamMetrics>, name: string): (found: Option<StreamMetrics>)
    ensures found.Some? ==> found.value in streams && found.value.stream == name
    ensures found.None? ==> forall s :: s in streams ==> s.stream != name
  {
    if streams == [] then None
    else if streams[0].stream == name then Some(streams[0])
    else Find(streams[1..], name)
  }

  /** It is the first one: those before it have other names. */
  lemma {:induction false} FindIsFirst(streams: seq<StreamMetrics>, name: string) returns (k: nat)
    ensures k <= |streams| && forall j :: 0 <= j < k ==> streams[j].stream != name
    ensures Find(streams, name) == if k < |streams| then Some(streams[k]) else None
    ensures k < |streams| ==> streams[k].stream == name
  {
    k := 0;
    if streams != [] && streams[0].stream != name {
      var rest := FindIsFirst(streams[1..], name);
      k := rest + 1;
    }
  }

  function ValueIn(run: Metrics, name: string, m: Measure): Option<real> {
    var s := Find(run.streams, name);
    if s.None? then None else s.value.Value(m)
  }

  function Measured(runs: seq<Metrics>, name: string, m: Measure): seq<real> {
    if runs == [] then [] else
    var before := Measured(runs[..|runs| - 1], name, m);
    var v := ValueIn(runs[|runs| - 1], name, m);
    if v.Some? then before + [v.value] else before
  }

  function Highest(values: seq<real>): (h: real)
    requires values != []
    ensures h in values && forall v :: v in values ==> v <= h
  {
    if |values| == 1 then values[0] else
    var h := Highest(values[1..]);
    assert forall v :: v in values ==> v == values[0] || v in values[1..];
    if values[0] > h then values[0] else h
  }

  function Lowest(values: seq<real>): (l: real)
    requires values != []
    ensures l in values && forall v :: v in values ==> l <= v
  {
    if |values| == 1 then values[0] else
    var l := Lowest(values[1..]);
    assert forall v :: v in values ==> v == values[0] || v in values[1..];
    if values[0] < l then values[0] else l
  }

  function Larger(a: real, b: real): real {
    if a < b then b else a
  }

  /** The margin times the largest gap seen, never under the floor. */
  function LimitFrom(values: seq<real>, floor: real): real {
    if |values| < 2 then floor else Larger(NOISE_MARGIN * (Highest(values) - Lowest(values)), floor)
  }

  function TolOf(runs: seq<Metrics>, name: string): Tol {
    Tol(LimitFrom(Measured(runs, name, Target), TOL_FLOOR.target),
        LimitFrom(Measured(runs, name, Holes), TOL_FLOOR.holes),
        LimitFrom(Measured(runs, name, Invented), TOL_FLOOR.invented))
  }

  ghost predicate Named(runs: seq<Metrics>, name: string) {
    exists k, i :: 0 <= k < |runs| && 0 <= i < |runs[k].streams| && runs[k].streams[i].stream == name
  }

  method MeasuredValues(runs: seq<Metrics>, name: string, m: Measure) returns (values: seq<real>)
    ensures values == Measured(runs, name, m)
  {
    values := [];
    for k := 0 to |runs|
      invariant values == Measured(runs[..k], name, m)
    {
      assert runs[..k + 1][..k] == runs[..k];
      var s := Find(runs[k].streams, name);
      if s.Some? && s.value.Value(m).Some? {
        values := values + [s.value.Value(m).value];
      }
    }
    assert runs[..|runs|] == runs;
  }

  /** The tolerances of one scenario. */
  method ScenarioTolerances(runs: seq<Metrics>) returns (streams: map<string, Tol>)
    ensures forall name :: name in streams <==> Named(runs, name)
    ensures forall name :: name in streams ==> streams[name] == TolOf(runs, name)
  {
    streams := map[];
    for k := 0 to |runs|
      invariant forall name :: name in streams <==>
        exists j, i :: 0 <= j < k && 0 <= i < |runs[j].streams| && runs[j].streams[i].stream == name
      invariant forall name :: name in streams ==> streams[name] == TolOf(runs, name)
    {
      ghost var before := streams;
      for i := 0 to |runs[k].streams|
        invariant forall name :: name in streams <==>
          name in before || exists h :: 0 <= h < i && runs[k].streams[h].stream == name
        invariant forall name :: name in streams ==> streams[name] == TolOf(runs, name)
      {
        var name := runs[k].streams[i].stream;
        var target := MeasuredValues(runs, name, Target);
        var holes := MeasuredValues(runs, name, Holes);
        var invented := MeasuredValues(runs, name, Invented);
        streams := streams[name := Tol(LimitFrom(target, TOL_FLOOR.target), LimitFrom(holes, TOL_FLOOR.holes),
                                       LimitFrom(invented, TOL_FLOOR.invented))];
      }
    }
  }

  method TolerancesFromRuns(runs: map<string, seq<Metrics>>) returns (scenarios: map<string, map<string, Tol>>)
    ensures scenarios.Keys == runs.Keys
    ensures forall sc, name :: sc in runs ==>
              (name in scenarios[sc] <==> Named(runs[sc], name))
              && (name in scenarios[sc] ==> scenarios[sc][name] == TolOf(runs[sc], name))
  {
    scenarios := map[];
    var todo := runs.Keys;
    while todo != {}
      invariant todo <= runs.Keys && scenarios.Keys == runs.Keys - todo
      invariant forall sc, name :: sc in scenarios ==>
              (name in scenarios[sc] <==> Named(runs[sc], name))
              && (name in scenarios[sc] ==> scenarios[sc][name] == TolOf(runs[sc], name))
    {
      var sc :| sc in todo;
      var streams := ScenarioTolerances(runs[sc]);
      scenarios := scenarios[sc := streams];
      todo := todo - {sc};
    }
  }

  // ------------------------------------------------------------------ one scenario

  datatype Comparison = Level | Worse | Better | Vanished | Uncompared

  function Compare(cur: Option<real>, ref: Option<real>, limit: real): Comparison {
    match (cur, ref)
    case (Some(c), Some(r)) => if c - r > limit then Worse else if r - c > limit then Better else Level
    case (None, Some(_)) => Vanished
    case (Some(_), None) => Uncompared
    case (None, None) => Level
  }

  datatype Finding =
    | NewStream(stream: string)
    | OfMeasure(stream: string, measure: Measure, how: Comparison)
    | LostCriterion(id: nat)

  predicate Comparable(current: Metrics, reference: Option<Metrics>) {
    && reference.Some? && current.complete && current.fingerprint == reference.value.fingerprint
    && current.precision != Insufficient && reference.value.precision != Insufficient
  }

  /** What stream `s` gives when compared with the reference. */
  predicate Gives(s: StreamMetrics, r: Metrics, tol: string -> Tol, f: Finding) {
    match f
    case NewStream(name) => s.stream == name && Find(r.streams, name).None?
    case OfMeasure(name, m, how) =>
      && s.stream == name && Find(r.streams, name).Some? && how != Level
      && how == Compare(s.Value(m), Find(r.streams, name).value.Value(m), tol(name).Limit(m))
    case LostCriterion(_) => false
  }

  predicate IsRegression(f: Finding) {
    f.NewStream? || f.LostCriterion? || f.how == Worse || f.how == Vanished
  }

  ghost predicate CriterionLost(current: Metrics, r: Metrics, id: nat) {
    && CriterionMetrics(id, Fails) in current.criteria
    && CriterionMetrics(id, Met) in r.criteria
  }

  ghost predicate GivenBy(streams: seq<StreamMetrics>, r: Metrics, tol: string -> Tol, f: Finding) {
    exists s :: s in streams && Gives(s, r, tol, f)
  }

  ghost predicate Found(current: Metrics, r: Metrics, tol: string -> Tol, f: Finding) {
    || GivenBy(current.streams, r, tol, f)
    || (f.LostCriterion? && CriterionLost(current, r, f.id))
  }

  ghost predicate Regresses(current: Metrics, r: Metrics, tol: string -> Tol) {
    exists f :: Found(current, r, tol, f) && IsRegression(f)
  }

  ghost predicate LeavesUncompared(current: Metrics, r: Metrics, tol: string -> Tol) {
    exists f :: Found(current, r, tol, f) && f.OfMeasure? && f.how == Uncompared
  }

  ghost function OutcomeOf(current: Metrics, reference: Option<Metrics>, tol: string -> Tol): Outcome {
    if !Comparable(current, reference) then Inconclusive
    else if Regresses(current, reference.value, tol) then Regression
    else if LeavesUncompared(current, reference.value, tol) then Inconclusive
    else NoRegression
  }

  datatype ScenarioVerdict = ScenarioVerdict(
    scenario: string, outcome: Outcome, regressions: seq<Finding>, uncompared: seq<Finding>, improvements: seq<Finding>)

  method CompareMeasure(s: StreamMetrics, rs: StreamMetrics, m: Measure, limit: real,
                        regressions: seq<Finding>, uncompared: seq<Finding>, improvements: seq<Finding>)
    returns (reg: seq<Finding>, unc: seq<Finding>, imp: seq<Finding>)
    ensures
      var found := FindingOf(s, rs, m, limit);
      && (forall f :: f in reg <==> f in regressions || (f == found && (f.how == Worse || f.how == Vanished)))
      && (forall f :: f in unc <==> f in uncompared || (f == found && f.how == Uncompared))
      && (forall f :: f in imp <==> f in improvements || (f == found && f.how == Better))
  {
    reg, unc, imp := regressions, uncompared, improvements;
    var f := OfMeasure(s.stream, m, Compare(s.Value(m), rs.Value(m), limit));
    match f.how {
      case Worse => reg := reg + [f];
      case Vanished => reg := reg + [f];
      case Better => imp := imp + [f];
      case Uncompared => unc := unc + [f];
      case Level =>
    }
  }

  method CompareStream(s: StreamMetrics, r: Metrics, tol: string -> Tol)
    returns (reg: seq<Finding>, unc: seq<Finding>, imp: seq<Finding>)
    ensures forall f :: f in reg <==> Gives(s, r, tol, f) && IsRegression(f)
    ensures forall f :: f in unc <==> Gives(s, r, tol, f) && f.OfMeasure? && f.how == Uncompared
    ensures forall f :: f in imp <==> Gives(s, r, tol, f) && f.OfMeasure? && f.how == Better
  {
    hide Gives, Compare;
    reg, unc, imp := [], [], [];
    var rs := Find(r.streams, s.stream);
    if rs.None? {
      reg := [NewStream(s.stream)];
      NewStreamOnly(s, r, tol);
      return;
    }
    var t := tol(s.stream);
    reg, unc, imp := CompareMeasure(s, rs.value, Target, t.target, reg, unc, imp);
    reg, unc, imp := CompareMeasure(s, rs.value, Holes, t.holes, reg, unc, imp);
    reg, unc, imp := CompareMeasure(s, rs.value, Invented, t.invented, reg, unc, imp);
    ThreeMeasures(s, r, tol);
  }

  function FindingOf(s: StreamMetrics, rs: StreamMetrics, m: Measure, limit: real): Finding {
    OfMeasure(s.stream, m, Compare(s.Value(m), rs.Value(m), limit))
  }

  lemma {:induction false} NewStreamOnly(s: StreamMetrics, r: Metrics, tol: string -> Tol)
    requires Find(r.streams, s.stream).None?
    ensures forall f :: Gives(s, r, tol, f) <==> f == NewStream(s.stream)
  {
  }

  lemma {:induction false} ThreeMeasures(s: StreamMetrics, r: Metrics, tol: string -> Tol)
    requires Find(r.streams, s.stream).Some?
    ensures
      var (rs, t) := (Find(r.streams, s.stream).value, tol(s.stream));
      forall f :: Gives(s, r, tol, f) <==>
        f.OfMeasure? && f.how != Level
        && (f == FindingOf(s, rs, Target, t.target) || f == FindingOf(s, rs, Holes, t.holes)
            || f == FindingOf(s, rs, Invented, t.invented))
  {
  }

  method LostCriteria(current: Metrics, r: Metrics) returns (lost: seq<Finding>)
    ensures forall f :: f in lost <==> f.LostCriterion? && CriterionLost(current, r, f.id)
  {
    lost := [];
    for k := 0 to |current.criteria|
      invariant forall f :: f in lost <==>
        f.LostCriterion? && CriterionMetrics(f.id, Fails) in current.criteria[..k] && CriterionMetrics(f.id, Met) in r.criteria
    {
      var c := current.criteria[k];
      assert forall x :: x in current.criteria[..k + 1] <==> x in current.criteria[..k] || x == c;
      if c.verdict == Fails && CriterionMetrics(c.id, Met) in r.criteria {
        lost := lost + [LostCriterion(c.id)];
      }
    }
    assert current.criteria[..|current.criteria|] == current.criteria;
  }

  /** The loop over the streams of the current run; those of the reference alone are not looked at. */
  method CompareStreams(current: Metrics, r: Metrics, tol: string -> Tol)
    returns (regressions: seq<Finding>, uncompared: seq<Finding>, improvements: seq<Finding>)
    ensures forall f :: f in regressions <==> GivenBy(current.streams, r, tol, f) && IsRegression(f)
    ensures forall f :: f in uncompared <==> GivenBy(current.streams, r, tol, f) && f.OfMeasure? && f.how == Uncompared
    ensures forall f :: f in improvements <==> GivenBy(current.streams, r, tol, f) && f.OfMeasure? && f.how == Better
  {
    hide Gives, IsRegression;
    regressions, uncompared, improvements := [], [], [];
    for k := 0 to |current.streams|
      invariant forall f :: f in regressions <==> GivenBy(current.streams[..k], r, tol, f) && IsRegression(f)
      invariant forall f :: f in uncompared <==>
        GivenBy(current.streams[..k], r, tol, f) && f.OfMeasure? && f.how == Uncompared
      invariant forall f :: f in improvements <==>
        GivenBy(current.streams[..k], r, tol, f) && f.OfMeasure? && f.how == Better
    {
      var reg, unc, imp := CompareStream(current.streams[k], r, tol);
      regressions, uncompared, improvements := regressions + reg, uncompared + unc, improvements + imp;
      GivenByOneMore(current.streams, k, r, tol);
    }
    assert current.streams[..|current.streams|] == current.streams;
  }

  lemma {:induction false} GivenByOneMore(streams: seq<StreamMetrics>, k: nat, r: Metrics, tol: string -> Tol)
    requires k < |streams|
    ensures forall f :: GivenBy(streams[..k + 1], r, tol, f) <==> GivenBy(streams[..k], r, tol, f) || Gives(streams[k], r, tol, f)
  {
    hide Gives;
    assert forall s :: s in streams[..k + 1] <==> s in streams[..k] || s == streams[k];
  }

  method CompareScenario(current: Metrics, reference: Option<Metrics>, tol: string -> Tol) returns (v: ScenarioVerdict)
    ensures v.scenario == current.scenario
    ensures v.outcome == OutcomeOf(current, reference, tol)
    ensures Comparable(current, reference) ==>
              && (forall f :: f in v.regressions <==> Found(current, reference.value, tol, f) && IsRegression(f))
              && (forall f :: f in v.uncompared <==>
                    Found(current, reference.value, tol, f) && f.OfMeasure? && f.how == Uncompared)
              && (forall f :: f in v.improvements <==>
                    Found(current, reference.value, tol, f) && f.OfMeasure? && f.how == Better)
  {
    if !Comparable(current, reference) {
      return ScenarioVerdict(current.scenario, Inconclusive, [], [], []);
    }
    var r := reference.value;
    var regressions, uncompared, improvements := CompareStreams(current, r, tol);
    var lost := LostCriteria(current, r);
    regressions := regressions + lost;
    var outcome := if regressions != [] then Regression else if uncompared != [] then Inconclusive else NoRegression;
    ListsDecide(current, r, tol, regressions, uncompared);
    v := ScenarioVerdict(current.scenario, outcome, regressions, uncompared, improvements);
  }

  lemma {:induction false} ListsDecide(current: Metrics, r: Metrics, tol: string -> Tol, regressions: seq<Finding>, uncompared: seq<Finding>)
    requires forall f :: f in regressions <==> Found(current, r, tol, f) && IsRegression(f)
    requires forall f :: f in uncompared <==> Found(current, r, tol, f) && f.OfMeasure? && f.how == Uncompared
    ensures regressions != [] <==> Regresses(current, r, tol)
    ensures uncompared != [] <==> LeavesUncompared(current, r, tol)
  {
    hide Found, IsRegression;
    if regressions != [] {
      assert regressions[0] in regressions;
    }
    if uncompared != [] {
      assert uncompared[0] in uncompared;
    }
  }

  // ------------------------------------------------------------------ what a verdict means

  /** Both measured and within the limit, or measured on neither side. */
  predicate Held(cur: Option<real>, ref: Option<real>, limit: real) {
    (cur.None? && ref.None?) || (cur.Some? && ref.Some? && cur.value - ref.value <= limit)
  }

  lemma {:induction false} NewStreamRegresses(current: Metrics, r: Metrics, tol: string -> Tol, s: StreamMetrics)
    requires s in current.streams && Find(r.streams, s.stream).None?
    ensures Regresses(current, r, tol)
  {
    assert Gives(s, r, tol, NewStream(s.stream));
    assert Found(current, r, tol, NewStream(s.stream));
  }

  lemma {:induction false} UnheldIsSeen(current: Metrics, r: Metrics, tol: string -> Tol, s: StreamMetrics, m: Measure)
    requires s in current.streams && Find(r.streams, s.stream).Some?
    requires !Held(s.Value(m), ValueIn(r, s.stream, m), tol(s.stream).Limit(m))
    ensures Regresses(current, r, tol) || LeavesUncompared(current, r, tol)
  {
    var how := Compare(s.Value(m), ValueIn(r, s.stream, m), tol(s.stream).Limit(m));
    assert Gives(s, r, tol, OfMeasure(s.stream, m, how));
    assert Found(current, r, tol, OfMeasure(s.stream, m, how));
  }

  lemma {:induction false} LostCriterionRegresses(current: Metrics, r: Metrics, tol: string -> Tol, id: nat)
    requires CriterionLost(current, r, id)
    ensures Regresses(current, r, tol)
  {
    assert Found(current, r, tol, LostCriterion(id));
  }

  /** Every current stream is in the reference and within tolerance on each measure, and no criterion
      is lost. */
  ghost predicate AllHeld(current: Metrics, r: Metrics, tol: string -> Tol) {
    && (forall s :: s in current.streams ==> Find(r.streams, s.stream).Some?)
    && (forall s, m :: s in current.streams ==> Held(s.Value(m), ValueIn(r, s.stream, m), tol(s.stream).Limit(m)))
    && (forall id :: !CriterionLost(current, r, id))
  }

  lemma {:induction false} HeldIsSilent(current: Metrics, r: Metrics, tol: string -> Tol)
    requires AllHeld(current, r, tol)
    ensures !Regresses(current, r, tol) && !LeavesUncompared(current, r, tol)
  {
  }

  /** `NoRegression` is said exactly of a complete run of the same scenario, on a bench precise enough both
      times, in which all is held. */
  lemma {:induction false} NoRegressionMeans(current: Metrics, reference: Option<Metrics>, tol: string -> Tol)
    ensures OutcomeOf(current, reference, tol) == NoRegression <==>
            && reference.Some? && current.complete && current.fingerprint == reference.value.fingerprint
            && current.precision != Insufficient && reference.value.precision != Insufficient
            && AllHeld(current, reference.value, tol)
  {
    hide Regresses, LeavesUncompared, Held, CriterionLost, Find, ValueIn;
    if Comparable(current, reference) {
      var r := reference.value;
      if AllHeld(current, r, tol) {
        HeldIsSilent(current, r, tol);
      } else if s :| s in current.streams && Find(r.streams, s.stream).None? {
        NewStreamRegresses(current, r, tol, s);
      } else if id :| CriterionLost(current, r, id) {
        LostCriterionRegresses(current, r, tol, id);
      } else {
        var s, m :| s in current.streams && !Held(s.Value(m), ValueIn(r, s.stream, m), tol(s.stream).Limit(m));
        UnheldIsSeen(current, r, tol, s, m);
      }
    }
  }

  /** A measure of the current run against the reference, read field by field. */
  predicate IsWorse(cur: Option<real>, ref: Option<real>, limit: real) {
    cur.Some? && ref.Some? && cur.value > ref.value + limit
  }

  predicate IsBetter(cur: Option<real>, ref: Option<real>, limit: real) {
    cur.Some? && ref.Some? && cur.value < ref.value - limit && !IsWorse(cur, ref, limit)
  }

  predicate Tells(how: Comparison, cur: Option<real>, ref: Option<real>, limit: real) {
    match how
    case Worse => IsWorse(cur, ref, limit)
    case Better => IsBetter(cur, ref, limit)
    case Vanished => cur.None? && ref.Some?
    case Uncompared => cur.Some? && ref.None?
    case Level => false
  }

  /** What a stream gives: nothing but its name when the reference has no stream of that name; otherwise,
      for each of its three measures, whether it is beyond its tolerance on either side, gone, or without
      a reference. */
  lemma {:induction false} FindingsMean(s: StreamMetrics, r: Metrics, tol: string -> Tol, f: Finding)
    ensures
      var absent := forall x :: x in r.streams ==> x.stream != s.stream;
      Gives(s, r, tol, f) <==>
      match f
      case NewStream(name) => name == s.stream && absent
      case LostCriterion(_) => false
      case OfMeasure(name, m, how) =>
        && name == s.stream && !absent
        && var rs := Find(r.streams, name).value;
           match m
           case Target => Tells(how, s.target, rs.target, tol(name).target)
           case Holes => Tells(how, s.holes, rs.holes, tol(name).holes)
           case Invented => Tells(how, s.invented, rs.invented, tol(name).invented)
  {
  }

  lemma {:induction false} GivenRegresses(current: Metrics, r: Metrics, tol: string -> Tol, f: Finding)
    requires GivenBy(current.streams, r, tol, f) && IsRegression(f)
    ensures Regresses(current, r, tol)
  {
    assert Found(current, r, tol, f);
  }

  /** A regression is a new stream, a measure beyond its tolerance or gone, or a criterion met in the
      reference and failed now; found in a complete run of the same scenario, on a bench precise enough
      both times. */
  lemma {:induction false} RegressionMeans(current: Metrics, reference: Option<Metrics>, tol: string -> Tol)
    ensures OutcomeOf(current, reference, tol) == Regression <==>
            && reference.Some? && current.complete && current.fingerprint == reference.value.fingerprint
            && current.precision != Insufficient && reference.value.precision != Insufficient
            && (|| (exists f :: GivenBy(current.streams, reference.value, tol, f)
                                && (f.NewStream? || (f.OfMeasure? && (f.how == Worse || f.how == Vanished))))
                || (exists id :: CriterionMetrics(id, Fails) in current.criteria
                                 && CriterionMetrics(id, Met) in reference.value.criteria))
  {
    hide Find, Compare;
    if Comparable(current, reference) {
      var r := reference.value;
      if Regresses(current, r, tol) {
        var f :| Found(current, r, tol, f) && IsRegression(f);
        if f.LostCriterion? {
          assert CriterionLost(current, r, f.id);
        } else {
          assert GivenBy(current.streams, r, tol, f);
        }
      } else {
        forall f
          ensures !(GivenBy(current.streams, r, tol, f) && IsRegression(f))
        {
          if GivenBy(current.streams, r, tol, f) && IsRegression(f) {
            GivenRegresses(current, r, tol, f);
          }
        }
        forall id
          ensures !(CriterionMetrics(id, Fails) in current.criteria && CriterionMetrics(id, Met) in r.criteria)
        {
          if CriterionLost(current, r, id) {
            LostCriterionRegresses(current, r, tol, id);
          }
        }
      }
    }
  }

  predicate Runs(m: Metrics, name: string) {
    exists k :: 0 <= k < |m.streams| && m.streams[k].stream == name
  }

  /** The streams of the reference that the current run has too. */
  function Present(streams: seq<StreamMetrics>, current: Metrics): seq<StreamMetrics> {
    if streams == [] then []
    else (if Runs(current, streams[0].stream) then [streams[0]] else []) + Present(streams[1..], current)
  }

  lemma {:induction false} PresentIsFound(streams: seq<StreamMetrics>, current: Metrics, name: string)
    requires Runs(current, name)
    ensures Find(Present(streams, current), name) == Find(streams, name)
  {
    if streams != [] {
      PresentIsFound(streams[1..], current, name);
      var rest := Present(streams[1..], current);
      if Runs(current, streams[0].stream) {
        assert ([streams[0]] + rest)[1..] == rest;
      } else {
        assert [] + rest == rest;
      }
    }
  }

  /** Streams that have vanished are not seen: whatever streams of the reference the current run
      lacks, taking them out of the reference changes neither a finding nor the verdict. */
  lemma {:induction false} VanishedStreamsAreNotSeen(current: Metrics, r: Metrics, tol: string -> Tol)
    ensures
      var kept := r.(streams := Present(r.streams, current));
      && (forall f :: Found(current, r, tol, f) <==> Found(current, kept, tol, f))
      && OutcomeOf(current, Some(r), tol) == OutcomeOf(current, Some(kept), tol)
  {
    var kept := r.(streams := Present(r.streams, current));
    forall s, f | s in current.streams
      ensures Gives(s, r, tol, f) <==> Gives(s, kept, tol, f)
    {
      SameGiven(current, r, tol, s, f);
    }
    SameFound(current, r, kept, tol);
    SameOutcome(current, r, kept, tol);
  }

  lemma {:induction false} SameGiven(current: Metrics, r: Metrics, tol: string -> Tol, s: StreamMetrics, f: Finding)
    requires s in current.streams
    ensures Gives(s, r, tol, f) <==> Gives(s, r.(streams := Present(r.streams, current)), tol, f)
  {
    var k :| 0 <= k < |current.streams| && current.streams[k] == s;
    assert Runs(current, s.stream);
    PresentIsFound(r.streams, current, s.stream);
  }

  lemma {:induction false} SameFound(current: Metrics, r: Metrics, kept: Metrics, tol: string -> Tol)
    requires kept == r.(streams := kept.streams)
    requires forall s, f :: s in current.streams ==> (Gives(s, r, tol, f) <==> Gives(s, kept, tol, f))
    ensures forall f :: Found(current, r, tol, f) <==> Found(current, kept, tol, f)
  {
    hide Gives;
  }

  lemma {:induction false} SameOutcome(current: Metrics, r: Metrics, kept: Metrics, tol: string -> Tol)
    requires kept == r.(streams := kept.streams)
    requires forall f :: Found(current, r, tol, f) <==> Found(current, kept, tol, f)
    ensures OutcomeOf(current, Some(r), tol) == OutcomeOf(current, Some(kept), tol)
  {
    hide Found;
  }

  /** Wider tolerances never turn a verdict into a regression. */
  lemma {:induction false} WideningNeverRegresses(current: Metrics, reference: Option<Metrics>,
                                                  narrow: string -> Tol, wide: string -> Tol)
    requires forall name, m :: narrow(name).Limit(m) <= wide(name).Limit(m)
    requires OutcomeOf(current, reference, wide) == Regression
    ensures OutcomeOf(current, reference, narrow) == Regression
  {
    var r := reference.value;
    var f :| Found(current, r, wide, f) && IsRegression(f);
    if !f.LostCriterion? {
      var s :| s in current.streams && Gives(s, r, wide, f);
      assert Gives(s, r, narrow, f);
      assert Found(current, r, narrow, f);
    } else {
      assert Found(current, r, narrow, f);
    }
  }

  // ------------------------------------------------------------------ noise is not a regression

  lemma {:induction false} MeasuredHas(runs: seq<Metrics>, i: nat, name: string, m: Measure)
    requires i < |runs| && ValueIn(runs[i], name, m).Some?
    ensures ValueIn(runs[i], name, m).value in Measured(runs, name, m)
  {
    var n := |runs| - 1;
    if i < n {
      MeasuredHas(runs[..n], i, name, m);
    }
  }

  lemma {:induction false} MeasuredTwice(runs: seq<Metrics>, i: nat, j: nat, name: string, m: Measure)
    requires i < j < |runs|
    requires ValueIn(runs[i], name, m).Some? && ValueIn(runs[j], name, m).Some?
    ensures |Measured(runs, name, m)| >= 2
  {
    var n := |runs| - 1;
    if j < n {
      MeasuredTwice(runs[..n], i, j, name, m);
    } else {
      MeasuredHas(runs[..n], i, name, m);
    }
  }

  lemma {:induction false} LimitIsPositive(values: seq<real>, floor: real)
    requires floor > 0.0
    ensures LimitFrom(values, floor) >= floor
  {
  }

  lemma {:induction false} MeasuredIsLevel(runs: seq<Metrics>, i: nat, j: nat, s: StreamMetrics, m: Measure)
    requires i < |runs| && j < |runs|
    requires Find(runs[i].streams, s.stream) == Some(s)
    requires s.Value(m).Some? && ValueIn(runs[j], s.stream, m).Some?
    ensures Compare(s.Value(m), ValueIn(runs[j], s.stream, m), TolOf(runs, s.stream).Limit(m)) == Level
  {
    var values := Measured(runs, s.stream, m);
    MeasuredHas(runs, i, s.stream, m);
    MeasuredHas(runs, j, s.stream, m);
    LimitIsPositive(values, TOL_FLOOR.Limit(m));
    if i != j {
      MeasuredTwice(runs, if i < j then i else j, if i < j then j else i, s.stream, m);
      var (c, r) := (s.Value(m).value, ValueIn(runs[j], s.stream, m).value);
      assert Lowest(values) <= c <= Highest(values) && Lowest(values) <= r <= Highest(values);
    }
  }

  /** One reading of a stream, and the readings of a run grouped by stream
      (jamodio-bench/src/report.rs, `instrument_rows`). */
  datatype Row<T> = Row(stream: string, data: T)

  datatype Group<T> = Group(stream: string, rows: seq<Row<T>>)

  function RowsOf<T>(rows: seq<Row<T>>, name: string): seq<Row<T>> {
    if rows == [] then [] else
    var n := |rows| - 1;
    RowsOf(rows[..n], name) + (if rows[n].stream == name then [rows[n]] else [])
  }

  function PlaceOf<T>(groups: seq<Group<T>>, name: string): (k: nat)
    ensures k <= |groups| && (k < |groups| ==> groups[k].stream == name)
    ensures forall j :: 0 <= j < k ==> groups[j].stream != name
  {
    if groups == [] || groups[0].stream == name then 0 else 1 + PlaceOf(groups[1..], name)
  }

  ghost predicate GroupsOf<T>(groups: seq<Group<T>>, rows: seq<Row<T>>) {
    && (forall i, j :: 0 <= i < j < |groups| ==> groups[i].stream != groups[j].stream)
    && (forall i :: 0 <= i < |groups| ==> groups[i].rows == RowsOf(rows, groups[i].stream))
    && (forall k :: 0 <= k < |rows| ==> PlaceOf(groups, rows[k].stream) < |groups|)
  }

  /** Each stream has one group, with its readings in order: a run names each stream once. */
  method GroupByStream<T>(rows: seq<Row<T>>) returns (groups: seq<Group<T>>)
    ensures GroupsOf(groups, rows)
  {
    groups := [];
    for n := 0 to |rows|
      invariant GroupsOf(groups, rows[..n])
    {
      var r := rows[n];
      var k := PlaceOf(groups, r.stream);
      ghost var before := groups;
      if k < |groups| {
        groups := groups[k := Group(r.stream, groups[k].rows + [r])];
      } else {
        groups := groups + [Group(r.stream, [r])];
      }
      OneMoreRow(before, groups, rows[..n], r);
      assert rows[..n + 1] == rows[..n] + [r];
    }
    assert rows[..|rows|] == rows;
  }

  lemma {:induction false} NoRowsOf<T>(rows: seq<Row<T>>, name: string)
    requires forall k :: 0 <= k < |rows| ==> rows[k].stream != name
    ensures RowsOf(rows, name) == []
  {
    if rows != [] {
      NoRowsOf(rows[..|rows| - 1], name);
    }
  }

  lemma {:induction false} OneMoreRow<T>(groups: seq<Group<T>>, after: seq<Group<T>>, rows: seq<Row<T>>, r: Row<T>)
    requires GroupsOf(groups, rows)
    requires
      var k := PlaceOf(groups, r.stream);
      after == if k < |groups| then groups[k := Group(r.stream, groups[k].rows + [r])] else groups + [Group(r.stream, [r])]
    ensures GroupsOf(after, rows + [r])
  {
    hide RowsOf;
    var longer := rows + [r];
    forall name
      ensures RowsOf(longer, name) == RowsOf(rows, name) + (if r.stream == name then [r] else [])
    {
      RowsOfLonger(rows, r, name);
    }
    var k := PlaceOf(groups, r.stream);
    if k == |groups| {
      forall h | 0 <= h < |rows|
        ensures rows[h].stream != r.stream
      {
        assert PlaceOf(groups, rows[h].stream) < |groups|;
      }
      NoRowsOf(rows, r.stream);
    }
    forall h | 0 <= h < |longer|
      ensures PlaceOf(after, longer[h].stream) < |after|
    {
      var place := PlaceOf(groups, longer[h].stream);
      assert after[if place < |groups| then place else k].stream == longer[h].stream;
    }
  }

  lemma {:induction false} RowsOfLonger<T>(rows: seq<Row<T>>, r: Row<T>, name: string)
    ensures RowsOf(rows + [r], name) == RowsOf(rows, name) + (if r.stream == name then [r] else [])
  {
    assert (rows + [r])[..|rows|] == rows;
  }

  /** The value a run has for a measure of a stream. */
  predicate RunHas(run: Metrics, name: string, m: Measure, v: real) {
    ValueIn(run, name, m) == Some(v)
  }

  lemma {:induction false} MeasuredIn(runs: seq<Metrics>, name: string, m: Measure, v: real)
    requires v in Measured(runs, name, m)
    ensures exists k :: 0 <= k < |runs| && RunHas(runs[k], name, m, v)
  {
    var n := |runs| - 1;
    if RunHas(runs[n], name, m, v) {
    } else {
      MeasuredIn(runs[..n], name, m, v);
      var k :| 0 <= k < n && RunHas(runs[..n][k], name, m, v);
      assert RunHas(runs[k], name, m, v);
    }
  }

  /** The floor under a tolerance: 1 ms of target, half a hole and ten invented frames a minute. */
  function FloorOf(m: Measure): real {
    match m
    case Target => 1.0
    case Holes => 0.5
    case Invented => 10.0
  }

  /** A tolerance is never under its floor nor under twice the gap between any two runs; and it is one of
      them, so it is the largest. */
  lemma {:induction false} ToleranceIsTwiceTheSpread(runs: seq<Metrics>, name: string, m: Measure)
    ensures
      var limit := TolOf(runs, name).Limit(m);
      && limit >= FloorOf(m)
      && (forall i, j, v, w :: 0 <= i < |runs| && 0 <= j < |runs| && RunHas(runs[i], name, m, v) && RunHas(runs[j], name, m, w) ==>
            2.0 * (v - w) <= limit)
      && (limit == FloorOf(m)
          || (exists i, j, v, w ::
                && 0 <= i < |runs| && 0 <= j < |runs|
                && RunHas(runs[i], name, m, v) && RunHas(runs[j], name, m, w) && limit == 2.0 * (v - w)))
  {
    hide Find, ValueIn, Highest, Lowest;
    var values := Measured(runs, name, m);
    forall i, j, v, w | 0 <= i < |runs| && 0 <= j < |runs| && RunHas(runs[i], name, m, v) && RunHas(runs[j], name, m, w)
      ensures 2.0 * (v - w) <= TolOf(runs, name).Limit(m)
    {
      MeasuredHas(runs, i, name, m);
      MeasuredHas(runs, j, name, m);
      if i != j {
        MeasuredTwice(runs, if i < j then i else j, if i < j then j else i, name, m);
      }
    }
    if |values| >= 2 {
      MeasuredIn(runs, name, m, Highest(values));
      MeasuredIn(runs, name, m, Lowest(values));
    }
  }

  /** What the bench writes: one entry for each group. */
  predicate DistinctNames(run: Metrics) {
    forall i, j :: 0 <= i < j < |run.streams| ==> run.streams[i].stream != run.streams[j].stream
  }

  lemma {:induction false} FindsItself(streams: seq<StreamMetrics>, k: nat)
    requires k < |streams|
    requires forall i, j :: 0 <= i < j < |streams| ==> streams[i].stream != streams[j].stream
    ensures Find(streams, streams[k].stream) == Some(streams[k])
  {
    if k > 0 {
      FindsItself(streams[1..], k - 1);
    }
  }

  /** With tolerances drawn from a set of runs, comparing any two of them finds no measure too high
      and none too low: a regression can only be a stream, a measure or a criterion that one of the
      two lacks. */
  lemma {:induction false} NoiseIsNoRegression(runs: seq<Metrics>, i: nat, j: nat, f: Finding)
    requires i < |runs| && j < |runs| && DistinctNames(runs[i])
    requires Found(runs[i], runs[j], name => TolOf(runs, name), f) && f.OfMeasure?
    ensures f.how != Worse && f.how != Better
  {
    var tol := name => TolOf(runs, name);
    var s :| s in runs[i].streams && Gives(s, runs[j], tol, f);
    var k :| 0 <= k < |runs[i].streams| && runs[i].streams[k] == s;
    FindsItself(runs[i].streams, k);
    if s.Value(f.measure).Some? && ValueIn(runs[j], s.stream, f.measure).Some? {
      MeasuredIsLevel(runs, i, j, s, f.measure);
    }
  }

  // ------------------------------------------------------------------ the campaign

  datatype Setup = Setup(input: Option<string>, output: Option<string>, remote: Option<string>, plugin: Option<string>)

  /** A scenario that was run: `measured` is `None` when its figures cannot be read. */
  datatype Entry = Entry(scenario: string, measured: Option<Metrics>)

  datatype Reference = Reference(setup: Setup, metrics: string -> Option<Metrics>)

  type CampaignTol = (string, string) -> Tol

  function TolFor(tol: CampaignTol, scenario: string): string -> Tol {
    (stream: string) => tol(scenario, stream)
  }

  predicate Judged(e: Entry, setup: Setup, reference: Option<Reference>) {
    e.measured.Some? && (reference.Some? ==> reference.value.setup == setup)
  }

  function RefFor(e: Entry, reference: Option<Reference>): Option<Metrics> {
    if reference.None? then None else reference.value.metrics(e.scenario)
  }

  ghost function EntryOutcome(e: Entry, setup: Setup, reference: Option<Reference>, tol: CampaignTol): Outcome {
    if Judged(e, setup, reference) then OutcomeOf(e.measured.value, RefFor(e, reference), TolFor(tol, e.scenario))
    else Inconclusive
  }

  /** The name a verdict is filed under: that of the figures, when they were compared. */
  function NameOf(e: Entry, setup: Setup, reference: Option<Reference>): string {
    if Judged(e, setup, reference) then e.measured.value.scenario else e.scenario
  }

  /** A planned scenario that appears nowhere in the campaign. */
  ghost predicate NotRun(entries: seq<Entry>, setup: Setup, reference: Option<Reference>, name: string) {
    forall e :: e in entries ==> e.scenario != name && NameOf(e, setup, reference) != name
  }

  /** An entry is free of regression exactly when its figures can be read, the reference was made with the
      same input, output, remote and plugin and has figures for that scenario, and all is held against
      these, each stream within the tolerance of that scenario. */
  lemma {:induction false} EntryMeans(e: Entry, setup: Setup, reference: Option<Reference>, tol: CampaignTol)
    ensures EntryOutcome(e, setup, reference, tol) == NoRegression <==>
            && e.measured.Some? && reference.Some?
            && reference.value.setup.input == setup.input && reference.value.setup.output == setup.output
            && reference.value.setup.remote == setup.remote && reference.value.setup.plugin == setup.plugin
            && var (cur, ref) := (e.measured.value, reference.value.metrics(e.scenario));
               && ref.Some? && cur.complete && cur.fingerprint == ref.value.fingerprint
               && cur.precision != Insufficient && ref.value.precision != Insufficient
               && AllHeld(cur, ref.value, (stream: string) => tol(e.scenario, stream))
    ensures EntryOutcome(e, setup, reference, tol) == Regression ==>
            e.measured.Some? && reference.Some? && reference.value.setup == setup
  {
    hide OutcomeOf, AllHeld;
    if e.measured.Some? {
      NoRegressionMeans(e.measured.value, RefFor(e, reference), TolFor(tol, e.scenario));
      RegressionMeans(e.measured.value, RefFor(e, reference), TolFor(tol, e.scenario));
    }
  }

  /** One verdict for each scenario that was run. */
  method JudgeEntries(entries: seq<Entry>, setup: Setup, reference: Option<Reference>, tol: CampaignTol)
    returns (outcomes: seq<Outcome>, names: seq<string>)
    ensures |outcomes| == |names| == |entries|
    ensures forall h :: 0 <= h < |entries| ==> outcomes[h] == EntryOutcome(entries[h], setup, reference, tol)
    ensures forall h :: 0 <= h < |entries| ==> names[h] == NameOf(entries[h], setup, reference)
  {
    hide OutcomeOf;
    outcomes, names := [], [];
    for k := 0 to |entries|
      invariant |outcomes| == |names| == k
      invariant forall h :: 0 <= h < k ==> outcomes[h] == EntryOutcome(entries[h], setup, reference, tol)
      invariant forall h :: 0 <= h < k ==> names[h] == NameOf(entries[h], setup, reference)
    {
      var e := entries[k];
      if Judged(e, setup, reference) {
        var v := CompareScenario(e.measured.value, RefFor(e, reference), TolFor(tol, e.scenario));
        outcomes, names := outcomes + [v.outcome], names + [v.scenario];
      } else {
        outcomes, names := outcomes + [Inconclusive], names + [e.scenario];
      }
    }
  }

  /** Files an inconclusive verdict for each planned scenario found neither among the entries nor
      among the verdicts. */
  method FileMissing(entries: seq<Entry>, planned: seq<string>, setup: Setup, reference: Option<Reference>, ran: seq<string>)
    returns (names: seq<string>, missing: nat)
    requires |ran| == |entries|
    requires forall h :: 0 <= h < |entries| ==> ran[h] == NameOf(entries[h], setup, reference)
    ensures missing > 0 <==> exists p :: p in planned && NotRun(entries, setup, reference, p)
    ensures |names| == |ran| + missing && names[..|ran|] == ran
    ensures forall p :: p in planned ==> p in names || exists e :: e in entries && e.scenario == p
  {
    hide NotRun;
    names, missing := ran, 0;
    for k := 0 to |planned|
      invariant |names| == |entries| + missing && names[..|entries|] == ran
      invariant missing > 0 <==> exists h :: 0 <= h < k && NotRun(entries, setup, reference, planned[h])
      invariant forall h :: |entries| <= h < |names| ==> NotRun(entries, setup, reference, names[h])
      invariant forall h :: 0 <= h < k ==> planned[h] in names || exists e :: e in entries && e.scenario == planned[h]
    {
      var inEntries := exists h :: 0 <= h < |entries| && entries[h].scenario == planned[k];
      if !inEntries && planned[k] !in names {
        PlannedMissing(entries, setup, reference, ran, planned[k]);
        names := names + [planned[k]];
        missing := missing + 1;
      } else {
        PlannedKnown(entries, setup, reference, names, planned[k], ran);
      }
    }
  }

  method CompareCampaign(entries: seq<Entry>, planned: seq<string>, setup: Setup, reference: Option<Reference>,
                         tol: CampaignTol)
    returns (outcome: Outcome, names: seq<string>)
    ensures outcome == Regression <==> exists e :: e in entries && EntryOutcome(e, setup, reference, tol) == Regression
    ensures outcome == NoRegression <==>
            && entries != []
            && (forall e :: e in entries ==> EntryOutcome(e, setup, reference, tol) == NoRegression)
            && (forall p :: p in planned ==> !NotRun(entries, setup, reference, p))
    ensures forall p :: p in planned ==> p in names || exists e :: e in entries && e.scenario == p
  {
    hide EntryOutcome, NotRun;
    var outcomes, ran := JudgeEntries(entries, setup, reference, tol);
    var missing;
    names, missing := FileMissing(entries, planned, setup, reference, ran);
    var regressed := exists h :: 0 <= h < |outcomes| && outcomes[h] == Regression;
    var inconclusive := exists h :: 0 <= h < |outcomes| && outcomes[h] == Inconclusive;
    outcome := if regressed then Regression
               else if |names| == 0 || missing > 0 || inconclusive then Inconclusive
               else NoRegression;
    if entries != [] {
      assert entries[0] in entries && EntryOutcome(entries[0], setup, reference, tol) == outcomes[0];
    }
  }

  lemma {:induction false} PlannedMissing(entries: seq<Entry>, setup: Setup, reference: Option<Reference>, ran: seq<string>, name: string)
    requires |ran| == |entries|
    requires forall h :: 0 <= h < |entries| ==> ran[h] == NameOf(entries[h], setup, reference)
    requires name !in ran && forall h :: 0 <= h < |entries| ==> entries[h].scenario != name
    ensures NotRun(entries, setup, reference, name)
  {
  }

  lemma {:induction false} PlannedKnown(entries: seq<Entry>, setup: Setup, reference: Option<Reference>, names: seq<string>, name: string,
                     ran: seq<string>)
    requires |ran| == |entries| <= |names| && names[..|entries|] == ran
    requires forall h :: 0 <= h < |entries| ==> ran[h] == NameOf(entries[h], setup, reference)
    requires forall h :: |entries| <= h < |names| ==> NotRun(entries, setup, reference, names[h])
    requires name in names || exists h :: 0 <= h < |entries| && entries[h].scenario == name
    ensures NotRun(entries, setup, reference, name) ==> exists h :: |entries| <= h < |names| && names[h] == name
  {
  }
}
