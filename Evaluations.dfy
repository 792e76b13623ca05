/** The evaluation strategies of evaluation/evaluations.py. The only concrete
    one, `DistributionComparisson`, scores every categorical, time-zone aware
    datetime and numeric column of the population against the same column of
    the sample, one column at a time. */
module Evaluations {
  import opened Wrappers
  import opened Tables
  import Metrics

  const DefaultAlpha: real := 0.05
  const DefaultTolerance: real := 0.05

  const CategoryBasedMessage: string :=
    "Cannot perform ``category_based_analytics`` as stratification is not implemented yet."
  const TimeSeriesMessage: string :=
    "Cannot perform ``time_series_analytics`` as it's not implemented yet."

  /** An evaluation strategy object: the base class, which only stores its
      thresholds, or a distribution comparison, which also stores its two flags. */
  datatype EvaluationStrategy =
    | EvaluationStrategy(alpha: real, tolerance: real)
    | DistributionComparisson(alpha: real, tolerance: real, timeSeriesAnalytics: bool, categoryBasedAnalytics: bool)

  /** `repr(strategy)`: the class name. */
  function Repr(s: EvaluationStrategy): string {
    match s
    case EvaluationStrategy(_, _) => "EvaluationStrategy"
    case DistributionComparisson(_, _, _, _) => "DistributionComparisson"
  }

  /** Two strategies print alike exactly when they are of the same class,
      whatever their configuration. */
  lemma ReprIsClassName(a: EvaluationStrategy, b: EvaluationStrategy)
    ensures Repr(a) == Repr(b) <==> a.EvaluationStrategy? == b.EvaluationStrategy?
  {
  }

  /** `EvaluationStrategy(alpha, tolerance)`: stores both thresholds. */
  function NewEvaluationStrategy(alpha: real := DefaultAlpha, tolerance: real := DefaultTolerance): (s: EvaluationStrategy)
    ensures s.EvaluationStrategy? && s.alpha == alpha && s.tolerance == tolerance
  {
    EvaluationStrategy(alpha, tolerance)
  }

  /** `DistributionComparisson(alpha, tolerance, time_series_analytics,
      category_based_analytics)`: both analytics modes are unsupported; the
      category flag is checked first, so it decides the error when both are set. */
  function NewDistributionComparisson(alpha: real := DefaultAlpha, tolerance: real := DefaultTolerance,
                                     timeSeriesAnalytics: bool := false, categoryBasedAnalytics: bool := false)
    : (r: Result<EvaluationStrategy, Error>)
    ensures categoryBasedAnalytics ==> r == Failure(NotImplementedError(CategoryBasedMessage))
    ensures !categoryBasedAnalytics && timeSeriesAnalytics ==> r == Failure(NotImplementedError(TimeSeriesMessage))
    ensures r.Success? <==> !timeSeriesAnalytics && !categoryBasedAnalytics
    ensures r.Success? ==>
      (r.value.DistributionComparisson? && r.value.alpha == alpha && r.value.tolerance == tolerance &&
       !r.value.timeSeriesAnalytics && !r.value.categoryBasedAnalytics)
  {
    var s := DistributionComparisson(alpha, tolerance, timeSeriesAnalytics, categoryBasedAnalytics);
    if s.categoryBasedAnalytics then Failure(NotImplementedError(CategoryBasedMessage))
    else if s.timeSeriesAnalytics then Failure(NotImplementedError(TimeSeriesMessage))
    else Success(s)
  }

  /** Called without arguments, both constructors keep the thresholds at 0.05,
      and the distribution comparison has both analytics modes off. */
  lemma DefaultConfiguration()
    ensures NewEvaluationStrategy() == EvaluationStrategy(0.05, 0.05)
    ensures NewDistributionComparisson() == Success(DistributionComparisson(0.05, 0.05, false, false))
  {
  }

  // ---------------------------------------------------------------------------
  // evaluate

  /** The collaborators `evaluate` cannot see into: the SciPy tests and the
      random numbers `RandomValueAssignment` draws for a column of a group. */
  datatype Externals = Externals(
    tests: Metrics.Tests,
    draws: (Dtype, string) -> (Metrics.Unit, Metrics.Unit))

  /** An evaluation result: a score per column name. */
  type Scores = map<string, real>

  /** How a group scores one column: from its name, its population values and
      its sample values. */
  type Scorer = (string, seq<Value>, seq<Value>) -> real

  /** No column after position `i` has the name of column `i`: the entry a dict
      comprehension keeps for a repeated key is the last one. */
  predicate LastOfName(cols: seq<Column>, i: int)
    requires 0 <= i < |cols|
  {
    forall j :: i < j < |cols| ==> cols[j].name != cols[i].name
  }

  /** Column `i` is the first of `cols` whose name the sample lacks in that group. */
  predicate FirstMissing(cols: seq<Column>, sample: Frame, kind: Dtype, i: int)
    requires 0 <= i < |cols|
  {
    Lookup(sample, kind, cols[i].name).None? && forall j :: 0 <= j < i ==> Lookup(sample, kind, cols[j].name).Some?
  }

  /** Every name of `cols` is carried by a column that is the last of its name. */
  lemma {:induction false} LastOfNameExists(cols: seq<Column>, k: string)
    requires k in NameSet(cols)
    ensures exists i :: 0 <= i < |cols| && cols[i].name == k && LastOfName(cols, i)
  {
    var i :| 0 <= i < |cols| && cols[i].name == k;
    if !LastOfName(cols, i) {
      var j :| i < j < |cols| && cols[j].name == k;
      LastOfNameExists(cols[j..], k);
      var m :| 0 <= m < |cols[j..]| && cols[j..][m].name == k && LastOfName(cols[j..], m);
      assert cols[j + m].name == k;
      assert LastOfName(cols, j + m) by {
        forall l | j + m < l < |cols| ensures cols[l].name != k {
          assert cols[l] == cols[j..][l - j];
        }
      }
    }
  }

  /** `{column: score(population[column], sample[column]) for column in columns}`
      over the population columns `cols` of one dtype group, looking each name up
      among the sample's columns of that group; a name the sample lacks raises
      KeyError. Its properties are the EvalFields lemmas below. */
  function EvalFields(cols: seq<Column>, sample: Frame, kind: Dtype, score: Scorer): Result<Scores, Error> {
    if cols == [] then Success(map[])
    else
      match Lookup(sample, kind, cols[0].name)
      case None => Failure(KeyError(cols[0].name))
      case Some(s) =>
        match EvalFields(cols[1..], sample, kind, score)
        case Failure(e) => Failure(e)
        case Success(rest) => Success(map[cols[0].name := score(cols[0].name, cols[0].values, s.values)] + rest)
  }

  /** The group evaluates exactly when the sample has every name of the group,
      and then scores exactly the group's names. */
  lemma {:induction false} EvalFieldsSucceeds(cols: seq<Column>, sample: Frame, kind: Dtype, score: Scorer)
    ensures var r := EvalFields(cols, sample, kind, score);
      (r.Success? <==> forall c :: c in cols ==> Lookup(sample, kind, c.name).Some?) &&
      (r.Success? ==> r.value.Keys == NameSet(cols))
  {
    if cols != [] {
      EvalFieldsSucceeds(cols[1..], sample, kind, score);
      assert forall c :: c in cols <==> c == cols[0] || c in cols[1..];
      assert NameSet(cols) == {cols[0].name} + NameSet(cols[1..]) by {
        forall k | k in NameSet(cols) ensures k in {cols[0].name} + NameSet(cols[1..]) {
          var i :| 0 <= i < |cols| && cols[i].name == k;
          if i > 0 { assert cols[1..][i - 1] == cols[i]; }
        }
      }
    }
  }

  /** Each name is scored from the last population column that carries it and
      the first same-named column of the sample's group. */
  lemma {:induction false} EvalFieldsScores(cols: seq<Column>, sample: Frame, kind: Dtype, score: Scorer, i: int)
    requires EvalFields(cols, sample, kind, score).Success?
    requires 0 <= i < |cols| && LastOfName(cols, i)
    ensures Lookup(sample, kind, cols[i].name).Some?
    ensures var r := EvalFields(cols, sample, kind, score).value;
      cols[i].name in r &&
      r[cols[i].name] == score(cols[i].name, cols[i].values, Lookup(sample, kind, cols[i].name).value.values)
  {
    EvalFieldsSucceeds(cols, sample, kind, score);
    EvalFieldsSucceeds(cols[1..], sample, kind, score);
    if i > 0 {
      assert cols[1..][i - 1] == cols[i];
      assert LastOfName(cols[1..], i - 1) by {
        forall j | i - 1 < j < |cols[1..]| ensures cols[1..][j].name != cols[i].name {
          assert cols[1..][j] == cols[j + 1];
        }
      }
      EvalFieldsScores(cols[1..], sample, kind, score, i - 1);
    } else if |cols| > 1 {
      assert cols[0].name !in NameSet(cols[1..]) by {
        forall j | 0 <= j < |cols[1..]| ensures cols[1..][j].name != cols[0].name {
          assert cols[1..][j] == cols[j + 1];
        }
      }
    }
  }

  /** When a name is missing from the sample's group, the error names the first
      population column of the group whose name is missing. */
  lemma {:induction false} EvalFieldsFailure(cols: seq<Column>, sample: Frame, kind: Dtype, score: Scorer)
    requires EvalFields(cols, sample, kind, score).Failure?
    ensures exists i :: 0 <= i < |cols| && FirstMissing(cols, sample, kind, i) &&
                        EvalFields(cols, sample, kind, score).error == KeyError(cols[i].name)
  {
    if Lookup(sample, kind, cols[0].name).None? {
      assert FirstMissing(cols, sample, kind, 0);
    } else {
      EvalFieldsFailure(cols[1..], sample, kind, score);
      var i :| 0 <= i < |cols[1..]| && FirstMissing(cols[1..], sample, kind, i) &&
        EvalFields(cols[1..], sample, kind, score).error == KeyError(cols[1..][i].name);
      assert cols[1..][i] == cols[i + 1];
      assert FirstMissing(cols, sample, kind, i + 1) by {
        forall j | 0 <= j < i + 1 ensures Lookup(sample, kind, cols[j].name).Some? {
          if j > 0 { assert cols[1..][j - 1] == cols[j]; }
        }
      }
    }
  }

  /** `RandomValueAssignment().measure(...)[0]` for a column of group `kind`. */
  function RandomScorer(ext: Externals, kind: Dtype): Scorer {
    (name, p, s) => Metrics.RandomValueAssignmentMeasure(ext.draws(kind, name), p, s).0
  }

  /** `KolmogorovSmirnov().measure(...)[0]`. */
  function KsScorer(ext: Externals): Scorer {
    (name, p, s) => Metrics.KolmogorovSmirnovMeasure(ext.tests, p, s).0
  }

  /** A group scored with random numbers gives every name its own first draw. */
  lemma RandomGroupScores(ext: Externals, cols: seq<Column>, sample: Frame, kind: Dtype)
    ensures var r := EvalFields(cols, sample, kind, RandomScorer(ext, kind));
      r.Success? ==> forall k :: k in r.value ==> r.value[k] == ext.draws(kind, k).0 && 0.0 <= r.value[k] < 1.0
  {
    var r := EvalFields(cols, sample, kind, RandomScorer(ext, kind));
    if r.Success? {
      EvalFieldsSucceeds(cols, sample, kind, RandomScorer(ext, kind));
      forall k | k in r.value ensures r.value[k] == ext.draws(kind, k).0 && 0.0 <= r.value[k] < 1.0 {
        LastOfNameExists(cols, k);
        var i :| 0 <= i < |cols| && cols[i].name == k && LastOfName(cols, i);
        EvalFieldsScores(cols, sample, kind, RandomScorer(ext, kind), i);
        var d := ext.draws(kind, k);
        assert 0.0 <= d.0 < 1.0;
      }
    }
  }

  /** `_eval_categoric_fields`: each `object` column gets the first of its two
      random numbers. */
  function EvalCategoricFields(ext: Externals, population: Frame, sample: Frame): (r: Result<Scores, Error>)
    ensures var cols := OfKind(population.columns, Categorical);
      (r.Success? <==> forall c :: c in cols ==> Lookup(sample, Categorical, c.name).Some?) &&
      (r.Success? ==> r.value.Keys == NameSet(cols)) &&
      (r.Success? ==> forall k :: k in r.value ==> r.value[k] == ext.draws(Categorical, k).0 && 0.0 <= r.value[k] < 1.0)
  {
    var cols := OfKind(population.columns, Categorical);
    EvalFieldsSucceeds(cols, sample, Categorical, RandomScorer(ext, Categorical));
    RandomGroupScores(ext, cols, sample, Categorical);
    EvalFields(cols, sample, Categorical, RandomScorer(ext, Categorical))
  }

  /** `_eval_datetime_fields`: each time-zone aware datetime column gets the
      first of its two random numbers. */
  function EvalDatetimeFields(ext: Externals, population: Frame, sample: Frame): (r: Result<Scores, Error>)
    ensures var cols := OfKind(population.columns, DatetimeTz);
      (r.Success? <==> forall c :: c in cols ==> Lookup(sample, DatetimeTz, c.name).Some?) &&
      (r.Success? ==> r.value.Keys == NameSet(cols)) &&
      (r.Success? ==> forall k :: k in r.value ==> r.value[k] == ext.draws(DatetimeTz, k).0 && 0.0 <= r.value[k] < 1.0)
  {
    var cols := OfKind(population.columns, DatetimeTz);
    EvalFieldsSucceeds(cols, sample, DatetimeTz, RandomScorer(ext, DatetimeTz));
    RandomGroupScores(ext, cols, sample, DatetimeTz);
    EvalFields(cols, sample, DatetimeTz, RandomScorer(ext, DatetimeTz))
  }

  /** A numeric group gives every name the KS statistic of its last column. */
  lemma KsGroupScores(ext: Externals, cols: seq<Column>, sample: Frame)
    ensures var r := EvalFields(cols, sample, Numeric, KsScorer(ext));
      r.Success? ==> forall i :: 0 <= i < |cols| && LastOfName(cols, i) ==>
        Lookup(sample, Numeric, cols[i].name).Some? && cols[i].name in r.value &&
        r.value[cols[i].name] == ext.tests.ks2samp(Lookup(sample, Numeric, cols[i].name).value.values, cols[i].values).0
  {
    var r := EvalFields(cols, sample, Numeric, KsScorer(ext));
    if r.Success? {
      forall i | 0 <= i < |cols| && LastOfName(cols, i)
        ensures Lookup(sample, Numeric, cols[i].name).Some? && cols[i].name in r.value
        ensures r.value[cols[i].name] == ext.tests.ks2samp(Lookup(sample, Numeric, cols[i].name).value.values, cols[i].values).0
      {
        EvalFieldsScores(cols, sample, Numeric, KsScorer(ext), i);
      }
    }
  }

  /** `_eval_numeric_fields`: each numeric column gets the statistic (only) of
      the Kolmogorov-Smirnov test of its sample values against its population
      values. */
  function EvalNumericFields(ext: Externals, population: Frame, sample: Frame): (r: Result<Scores, Error>)
    ensures var cols := OfKind(population.columns, Numeric);
      (r.Success? <==> forall c :: c in cols ==> Lookup(sample, Numeric, c.name).Some?) &&
      (r.Success? ==> r.value.Keys == NameSet(cols)) &&
      (r.Success? ==> forall i :: 0 <= i < |cols| && LastOfName(cols, i) ==>
        Lookup(sample, Numeric, cols[i].name).Some? && cols[i].name in r.value &&
        r.value[cols[i].name] == ext.tests.ks2samp(Lookup(sample, Numeric, cols[i].name).value.values, cols[i].values).0)
  {
    var cols := OfKind(population.columns, Numeric);
    EvalFieldsSucceeds(cols, sample, Numeric, KsScorer(ext));
    KsGroupScores(ext, cols, sample);
    EvalFields(cols, sample, Numeric, KsScorer(ext))
  }

  /** The names of the population columns `evaluate` scores: those of the
      categorical, datetime and numeric groups. */
  function ScoredNames(population: Frame): set<string> {
    set c | c in population.columns && c.kind != Other :: c.name
  }

  /** Every scored population column has a column of the same name and the same
      dtype group in the sample. */
  predicate Evaluable(population: Frame, sample: Frame) {
    forall c :: c in population.columns && c.kind != Other ==> Lookup(sample, c.kind, c.name).Some?
  }

  /** `evaluate(population, sample)`. The base class returns None; the
      distribution comparison merges the categorical, datetime and numeric
      scores in that order, so on a repeated name the later group wins. */
  function Evaluate(judge: EvaluationStrategy, ext: Externals, population: Frame, sample: Frame)
    : (r: Result<Option<Scores>, Error>)
    ensures judge.EvaluationStrategy? ==> r == Success(None)
    ensures judge.DistributionComparisson? ==> (r.Success? <==> Evaluable(population, sample))
    ensures judge.DistributionComparisson? && r.Success? ==>
      r.value.Some? && r.value.value.Keys == ScoredNames(population)
  {
    match judge
    case EvaluationStrategy(_, _) => Success(None)
    case DistributionComparisson(_, _, _, _) =>
      GroupsPartitionScored(population, sample);
      Merge(EvalCategoricFields(ext, population, sample), EvalDatetimeFields(ext, population, sample),
        EvalNumericFields(ext, population, sample))
  }

  /** `{**cat_eval, **dt_eval, **num_eval}`, the three groups evaluated in that
      order, the first failing one raising. */
  function Merge(cat: Result<Scores, Error>, dt: Result<Scores, Error>, num: Result<Scores, Error>)
    : (r: Result<Option<Scores>, Error>)
    ensures r.Success? <==> cat.Success? && dt.Success? && num.Success?
    ensures r.Success? ==> r.value.Some? && r.value.value.Keys == cat.value.Keys + dt.value.Keys + num.value.Keys
    ensures r.Success? ==> forall k :: k in r.value.value ==>
      r.value.value[k] == if k in num.value then num.value[k] else if k in dt.value then dt.value[k] else cat.value[k]
    ensures r.Failure? ==> r.error == if cat.Failure? then cat.error else if dt.Failure? then dt.error else num.error
  {
    if cat.Failure? then Failure(cat.error)
    else if dt.Failure? then Failure(dt.error)
    else if num.Failure? then Failure(num.error)
    else Success(Some(cat.value + dt.value + num.value))
  }

  /** A failed evaluation raises KeyError for a scored population column whose
      name the sample's group lacks. */
  lemma EvaluateFailure(judge: EvaluationStrategy, ext: Externals, population: Frame, sample: Frame)
    requires Evaluate(judge, ext, population, sample).Failure?
    ensures exists c :: c in population.columns && c.kind != Other &&
                        Lookup(sample, c.kind, c.name).None? && Evaluate(judge, ext, population, sample).error == KeyError(c.name)
  {
    var cat := EvalCategoricFields(ext, population, sample);
    var dt := EvalDatetimeFields(ext, population, sample);
    var kind := if cat.Failure? then Categorical else if dt.Failure? then DatetimeTz else Numeric;
    var cols := OfKind(population.columns, kind);
    var scorer := if kind == Numeric then KsScorer(ext) else RandomScorer(ext, kind);
    EvalFieldsFailure(cols, sample, kind, scorer);
    var i :| 0 <= i < |cols| && FirstMissing(cols, sample, kind, i) &&
      EvalFields(cols, sample, kind, scorer).error == KeyError(cols[i].name);
    assert cols[i] in cols;
  }

  /** The three dtype groups together are the scored columns. */
  lemma GroupsPartitionScored(population: Frame, sample: Frame)
    ensures ScoredNames(population) ==
      NameSet(OfKind(population.columns, Categorical)) + NameSet(OfKind(population.columns, DatetimeTz))
        + NameSet(OfKind(population.columns, Numeric))
    ensures Evaluable(population, sample) <==>
      (forall c :: c in OfKind(population.columns, Categorical) ==> Lookup(sample, Categorical, c.name).Some?) &&
      (forall c :: c in OfKind(population.columns, DatetimeTz) ==> Lookup(sample, DatetimeTz, c.name).Some?) &&
      (forall c :: c in OfKind(population.columns, Numeric) ==> Lookup(sample, Numeric, c.name).Some?)
  {
    GroupNamesCoverScored(population);
  }

  lemma GroupNamesCoverScored(population: Frame)
    ensures ScoredNames(population) ==
      NameSet(OfKind(population.columns, Categorical)) + NameSet(OfKind(population.columns, DatetimeTz))
        + NameSet(OfKind(population.columns, Numeric))
  {
    forall k | k in ScoredNames(population)
      ensures k in NameSet(OfKind(population.columns, Categorical)) + NameSet(OfKind(population.columns, DatetimeTz))
        + NameSet(OfKind(population.columns, Numeric))
    {
      var c :| c in population.columns && c.kind != Other && c.name == k;
      InGroupNames(population.columns, c);
    }
    GroupNamesAreScored(population, Categorical);
    GroupNamesAreScored(population, DatetimeTz);
    GroupNamesAreScored(population, Numeric);
  }

  lemma GroupNamesAreScored(population: Frame, kind: Dtype)
    requires kind != Other
    ensures NameSet(OfKind(population.columns, kind)) <= ScoredNames(population)
  {
    var group := OfKind(population.columns, kind);
    forall k | k in NameSet(group) ensures k in ScoredNames(population) {
      var i :| 0 <= i < |group| && group[i].name == k;
      assert group[i] in population.columns;
    }
  }

  lemma InGroupNames(cols: seq<Column>, c: Column)
    requires c in cols
    ensures c.name in NameSet(OfKind(cols, c.kind))
  {
    var group := OfKind(cols, c.kind);
    assert c in group;
    var i :| 0 <= i < |group| && group[i] == c;
  }

  /** A score of a column outside the numeric group is one of that column's
      random numbers, and so lies in [0, 1); chi-squared is never used. */
  lemma NonNumericScoresAreRandom(judge: EvaluationStrategy, ext: Externals, population: Frame, sample: Frame, k: string)
    requires judge.DistributionComparisson? && Evaluate(judge, ext, population, sample).Success?
    requires k in ScoredNames(population) && k !in NameSet(OfKind(population.columns, Numeric))
    ensures var s := Evaluate(judge, ext, population, sample).value.value;
      0.0 <= s[k] < 1.0 &&
      s[k] == if k in NameSet(OfKind(population.columns, DatetimeTz)) then ext.draws(DatetimeTz, k).0 else ext.draws(Categorical, k).0
  {
    GroupNamesCoverScored(population);
    var cat := EvalCategoricFields(ext, population, sample);
    var dt := EvalDatetimeFields(ext, population, sample);
    var num := EvalNumericFields(ext, population, sample);
    var r := Merge(cat, dt, num);
    assert Evaluate(judge, ext, population, sample) == r;
    assert cat.Success? && dt.Success? && num.Success?;
    assert k !in num.value;
    if k in dt.value {
      assert r.value.value[k] == dt.value[k];
    } else {
      assert k in cat.value;
      assert r.value.value[k] == cat.value[k];
    }
  }
}
