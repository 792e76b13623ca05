/** Properties of the evaluation orchestrator of evaluation/core.py: what one
    sweep records, when the table of a strategy exists and what its rows hold,
    and how a run stacks the tables of all strategies. */
module CoreProperties {
  import opened Wrappers
  import opened Tables
  import Evaluations
  import opened Core

  /** No population column is named like one of the two columns the sweep
      adds to the result. */
  predicate Unreserved(df: Frame) {
    "SampleSize" !in NameSet(df.columns) && "SamplingStrategy" !in NameSet(df.columns)
  }

  /** The `SampleSize` entries a sweep over `sizes` appends. */
  function SizeCells(sizes: seq<int>): (r: seq<Cell>)
    ensures |r| == |sizes|
  {
    if sizes == [] then [] else [Size(sizes[0])] + SizeCells(sizes[1..])
  }

  /** What the trial at size `n` appends to the list of column `k`. */
  function TrialCell(trials: Trials, k: string, n: int): seq<Cell> {
    var t := trials(n);
    if t.Success? && k in t.value then [Score(t.value[k])] else []
  }

  /** What a sweep over `sizes` appends to the list of column `k`. */
  function ScoreCells(trials: Trials, k: string, sizes: seq<int>): seq<Cell> {
    if sizes == [] then [] else TrialCell(trials, k, sizes[0]) + ScoreCells(trials, k, sizes[1..])
  }

  predicate AllTrialsSucceed(trials: Trials, sizes: seq<int>) {
    forall i :: 0 <= i < |sizes| ==> trials(sizes[i]).Success?
  }

  /** Every trial succeeds and scores column `k`. */
  predicate ScoreEvery(trials: Trials, k: string, sizes: seq<int>) {
    forall i :: 0 <= i < |sizes| ==> trials(sizes[i]).Success? && k in trials(sizes[i]).value
  }

  /** Every trial succeeds and scores exactly the columns in `names`. */
  predicate AllScore(trials: Trials, names: set<string>, sizes: seq<int>) {
    forall i :: 0 <= i < |sizes| ==> trials(sizes[i]).Success? && trials(sizes[i]).value.Keys == names
  }

  /** Every trial of the sweep `s` succeeds and scores every population column. */
  predicate Covered(s: Sweep, sizes: seq<int>) {
    forall i :: 0 <= i < |sizes| ==>
      Trial(s, sizes[i]).Success? && Trial(s, sizes[i]).value.Keys == NameSet(s.df.columns)
  }

  // ---------------------------------------------------------------------------
  // One sweep

  /** The sweep completes exactly when every trial succeeds. */
  lemma {:induction false} SweepSucceeds(trials: Trials, d: Columns, sizes: seq<int>)
    requires Ready(trials, d)
    ensures SweepFrom(trials, d, sizes).Success? <==> AllTrialsSucceed(trials, sizes)
    decreases |sizes|
  {
    if sizes != [] {
      match trials(sizes[0])
      case Failure(_) =>
      case Success(scores) =>
        SweepSucceeds(trials, Record(d, sizes[0], scores), sizes[1..]);
        if AllTrialsSucceed(trials, sizes[1..]) {
          forall i | 0 <= i < |sizes| ensures trials(sizes[i]).Success? {
            if i > 0 { assert sizes[i] == sizes[1..][i - 1]; }
          }
        }
    }
  }

  /** The sweep stops at the first failing trial and raises its error. */
  lemma {:induction false} SweepFailsAtFirstFailure(trials: Trials, d: Columns, sizes: seq<int>, i: int)
    requires Ready(trials, d) && 0 <= i < |sizes| && trials(sizes[i]).Failure?
    requires forall j :: 0 <= j < i ==> trials(sizes[j]).Success?
    ensures SweepFrom(trials, d, sizes) == Failure(trials(sizes[i]).error)
    decreases |sizes|
  {
    if i > 0 {
      var scores := trials(sizes[0]).value;
      assert trials(sizes[0]) == Success(scores);
      forall j | 0 <= j < i - 1 ensures trials(sizes[1..][j]).Success? {
        assert sizes[1..][j] == sizes[j + 1];
      }
      SweepFailsAtFirstFailure(trials, Record(d, sizes[0], scores), sizes[1..], i - 1);
    }
  }

  lemma AppendAssoc<T>(a: seq<T>, b: seq<T>, c: seq<T>)
    ensures (a + b) + c == a + (b + c)
  {
  }

  /** Recording a trial appends to the list of column `k` first the size, when
      `k` is `SampleSize`, then the score of `k`, when the trial scored it. A
      population column named `SampleSize` shares its list with the sizes, so
      that list receives both. */
  lemma RecordScore(d: Columns, n: int, scores: Evaluations.Scores, k: string)
    requires "SampleSize" in d.lists && scores.Keys <= d.lists.Keys && k in d.lists
    ensures Record(d, n, scores).lists[k] ==
      d.lists[k] + (if k == "SampleSize" then [Size(n)] else []) + (if k in scores then [Score(scores[k])] else [])
  {
  }

  /** The first turn of a sweep that succeeds appends the first size to
      `SampleSize`. */
  lemma SizeStep(trials: Trials, names: set<string>, d: Columns, sizes: seq<int>) returns (next: Columns)
    requires Ready(trials, d) && sizes != [] && SweepFrom(trials, d, sizes).Success?
    requires Within(trials, names) && "SampleSize" !in names
    ensures Ready(trials, next) && SweepFrom(trials, d, sizes) == SweepFrom(trials, next, sizes[1..])
    ensures next.lists["SampleSize"] == d.lists["SampleSize"] + [Size(sizes[0])]
  {
    var scores := trials(sizes[0]).value;
    next := Record(d, sizes[0], scores);
    RecordScore(d, sizes[0], scores, "SampleSize");
  }

  /** The first turn of a sweep that succeeds appends to the list of `k` what
      the first trial scored for `k`. */
  lemma ScoreStep(trials: Trials, d: Columns, sizes: seq<int>, k: string) returns (next: Columns)
    requires Ready(trials, d) && sizes != [] && SweepFrom(trials, d, sizes).Success?
    requires k in d.lists && k != "SampleSize"
    ensures Ready(trials, next) && k in next.lists && SweepFrom(trials, d, sizes) == SweepFrom(trials, next, sizes[1..])
    ensures next.lists[k] == d.lists[k] + TrialCell(trials, k, sizes[0])
  {
    var scores := trials(sizes[0]).value;
    next := Record(d, sizes[0], scores);
    RecordScore(d, sizes[0], scores, k);
  }

  /** After the sweep, `SampleSize` holds the sizes in order. */
  lemma {:induction false} SweepSizes(trials: Trials, names: set<string>, d: Columns, sizes: seq<int>, e: Columns)
    requires Ready(trials, d) && SweepFrom(trials, d, sizes) == Success(e)
    requires Within(trials, names) && "SampleSize" !in names
    ensures e.lists["SampleSize"] == d.lists["SampleSize"] + SizeCells(sizes)
    decreases |sizes|
  {
    if sizes != [] {
      var next := SizeStep(trials, names, d, sizes);
      SweepSizes(trials, names, next, sizes[1..], e);
      AppendAssoc(d.lists["SampleSize"], [Size(sizes[0])], SizeCells(sizes[1..]));
    }
  }

  /** After the sweep, every list but `SampleSize` holds, trial by trial, the
      score the trial gave its column. */
  lemma {:induction false} SweepScores(trials: Trials, d: Columns, sizes: seq<int>, k: string, e: Columns)
    requires Ready(trials, d) && SweepFrom(trials, d, sizes) == Success(e)
    requires k in d.lists && k != "SampleSize"
    ensures e.lists[k] == d.lists[k] + ScoreCells(trials, k, sizes)
    decreases |sizes|
  {
    if sizes != [] {
      var next := ScoreStep(trials, d, sizes, k);
      SweepScores(trials, next, sizes[1..], k, e);
      AppendAssoc(d.lists[k], TrialCell(trials, k, sizes[0]), ScoreCells(trials, k, sizes[1..]));
    }
  }

  lemma {:induction false} SizeCellsAt(sizes: seq<int>)
    ensures forall i :: 0 <= i < |sizes| ==> SizeCells(sizes)[i] == Size(sizes[i])
    decreases |sizes|
  {
    if sizes != [] {
      SizeCellsAt(sizes[1..]);
      forall i | 0 < i < |sizes| ensures SizeCells(sizes)[i] == Size(sizes[i]) {
        assert SizeCells(sizes)[i] == SizeCells(sizes[1..])[i - 1];
      }
    }
  }

  /** When every trial succeeds and scores column `k`, the list of `k` has one
      entry per size, entry i being the score of trial i. */
  lemma {:induction false} ScoreCellsCovered(trials: Trials, k: string, sizes: seq<int>)
    requires ScoreEvery(trials, k, sizes)
    ensures |ScoreCells(trials, k, sizes)| == |sizes|
    ensures forall i :: 0 <= i < |sizes| ==> ScoreCells(trials, k, sizes)[i] == Score(trials(sizes[i]).value[k])
    decreases |sizes|
  {
    if sizes != [] {
      assert ScoreEvery(trials, k, sizes[1..]) by {
        forall i | 0 <= i < |sizes| - 1
          ensures trials(sizes[1..][i]).Success? && k in trials(sizes[1..][i]).value
        {
          assert sizes[1..][i] == sizes[i + 1];
        }
      }
      ScoreCellsCovered(trials, k, sizes[1..]);
    }
  }

  lemma {:induction false} ScoreCellsAtMost(trials: Trials, k: string, sizes: seq<int>)
    ensures |ScoreCells(trials, k, sizes)| <= |sizes|
    decreases |sizes|
  {
    if sizes != [] {
      ScoreCellsAtMost(trials, k, sizes[1..]);
    }
  }

  /** A trial that leaves column `k` unscored leaves the list of `k` short. */
  lemma {:induction false} ScoreCellsShort(trials: Trials, k: string, sizes: seq<int>, i: int)
    requires 0 <= i < |sizes| && (trials(sizes[i]).Success? ==> k !in trials(sizes[i]).value)
    ensures |ScoreCells(trials, k, sizes)| < |sizes|
    decreases |sizes|
  {
    if i == 0 {
      ScoreCellsAtMost(trials, k, sizes[1..]);
    } else {
      assert sizes[1..][i - 1] == sizes[i];
      ScoreCellsShort(trials, k, sizes[1..], i - 1);
    }
  }

  // ---------------------------------------------------------------------------
  // The table of one strategy

  /** Row `row` is the one recorded for size `n`: the size, the strategy label
      and the score of every population column. */
  predicate RowRecords(s: Sweep, row: map<string, Cell>, n: int) {
    && Trial(s, n).Success?
    && DisplayName(s.strategy).Success?
    && row.Keys == NameSet(s.df.columns) + {"SampleSize", "SamplingStrategy"}
    && row["SampleSize"] == Size(n)
    && row["SamplingStrategy"] == Label(DisplayName(s.strategy).value)
    && forall k :: k in NameSet(s.df.columns) ==> k in Trial(s, n).value && row[k] == Score(Trial(s, n).value[k])
  }

  /** The dict after a covered sweep, before the label column is added. */
  lemma CoveredSweepLists(s: Sweep, sizes: seq<int>)
    requires ScoresColumns(s.df, s.evaluate) && Unreserved(s.df) && Covered(s, sizes)
    ensures SweepFrom(TrialsOf(s), InitColumns(s.df), sizes).Success?
    ensures var d := SweepFrom(TrialsOf(s), InitColumns(s.df), sizes).value;
      d.lists.Keys == NameSet(s.df.columns) + {"SampleSize"} &&
      d.order == InitColumns(s.df).order &&
      (forall k :: k in d.lists ==> |d.lists[k]| == |sizes|) &&
      (forall i :: 0 <= i < |sizes| ==> d.lists["SampleSize"][i] == Size(sizes[i])) &&
      (forall k, i :: k in NameSet(s.df.columns) && 0 <= i < |sizes| ==>
        d.lists[k][i] == Score(Trial(s, sizes[i]).value[k]))
  {
    var trials, init, names := TrialsOf(s), InitColumns(s.df), NameSet(s.df.columns);
    assert AllScore(trials, names, sizes);
    SweepSucceeds(trials, init, sizes);
    var d := SweepFrom(trials, init, sizes).value;
    assert d.lists["SampleSize"] == SizeCells(sizes) by {
      SweepSizes(trials, names, init, sizes, d);
      assert init.lists["SampleSize"] == [];
    }
    SizeCellsAt(sizes);
    forall k | k in names
      ensures |d.lists[k]| == |sizes|
      ensures forall i :: 0 <= i < |sizes| ==> d.lists[k][i] == Score(Trial(s, sizes[i]).value[k])
    {
      assert d.lists[k] == ScoreCells(trials, k, sizes) by {
        SweepScores(trials, init, sizes, k, d);
        assert init.lists[k] == [];
      }
      ScoreCellsCovered(trials, k, sizes);
    }
  }

  /** Labelling a dict whose lists all have `height` entries and turning it
      into a table gives `height` rows; row i holds the label and entry i of
      every other list. A list already under `SamplingStrategy` is replaced in
      its place; otherwise the label column comes last. */
  lemma LabelledTable(d: Columns, name: string, height: nat)
    requires HasFirst(d)
    requires forall k :: k in d.lists ==> |d.lists[k]| == height
    ensures ToTable(Labelled(d, name)).Success?
    ensures var t := ToTable(Labelled(d, name)).value;
      |t.rows| == height &&
      t.columns == (if "SamplingStrategy" in d.lists then d.order else d.order + ["SamplingStrategy"]) &&
      forall i :: 0 <= i < height ==>
        t.rows[i].Keys == d.lists.Keys + {"SamplingStrategy"} &&
        t.rows[i]["SamplingStrategy"] == Label(name) &&
        forall k :: k in d.lists && k != "SamplingStrategy" ==> t.rows[i][k] == d.lists[k][i]
  {
    var labelled := Labelled(d, name);
    assert labelled.lists == d.lists["SamplingStrategy" := seq(height, _ => Label(name))];
    assert forall k :: k in labelled.lists ==> |labelled.lists[k]| == height;
    var t := ToTable(labelled).value;
    forall i | 0 <= i < height ensures t.rows[i] == RowAt(labelled, height, i) {
    }
  }

  /** The rows built from the dict of a covered sweep record, row by row, the
      sizes of the sweep. */
  lemma RowsRecord(s: Sweep, sizes: seq<int>, d: Columns, t: Table)
    requires Covered(s, sizes) && DisplayName(s.strategy).Success?
    requires d.lists.Keys == NameSet(s.df.columns) + {"SampleSize"}
    requires forall k :: k in d.lists ==> |d.lists[k]| == |sizes|
    requires forall i :: 0 <= i < |sizes| ==> d.lists["SampleSize"][i] == Size(sizes[i])
    requires forall k, i :: k in NameSet(s.df.columns) && 0 <= i < |sizes| ==>
      d.lists[k][i] == Score(Trial(s, sizes[i]).value[k])
    requires |t.rows| == |sizes|
    requires forall i :: 0 <= i < |sizes| ==>
      t.rows[i].Keys == d.lists.Keys + {"SamplingStrategy"} &&
      t.rows[i]["SamplingStrategy"] == Label(DisplayName(s.strategy).value) &&
      forall k :: k in d.lists ==> t.rows[i][k] == d.lists[k][i]
    ensures forall i :: 0 <= i < |sizes| ==> RowRecords(s, t.rows[i], sizes[i])
  {
    var names := NameSet(s.df.columns);
    forall i | 0 <= i < |sizes| ensures RowRecords(s, t.rows[i], sizes[i]) {
      var row := t.rows[i];
      assert row.Keys == names + {"SampleSize", "SamplingStrategy"};
      assert row["SampleSize"] == d.lists["SampleSize"][i];
      forall k | k in names ensures k in Trial(s, sizes[i]).value && row[k] == Score(Trial(s, sizes[i]).value[k]) {
        assert row[k] == d.lists[k][i];
      }
    }
  }

  /** A covered sweep of a strategy with an alias gives a table with one row
      per size, each row recording that size. */
  lemma CoveredTable(s: Sweep, step: int)
    requires ScoresColumns(s.df, s.evaluate) && step != 0 && Unreserved(s.df) && s.strategy.alias.Some?
    requires Covered(s, SampleSizes(step, s.df.height).value)
    ensures StrategyTable(s, step).Success?
    ensures var sizes := SampleSizes(step, s.df.height).value;
      var t := StrategyTable(s, step).value;
      |t.rows| == |sizes| &&
      t.columns == InitColumns(s.df).order + ["SamplingStrategy"] &&
      forall i :: 0 <= i < |sizes| ==> RowRecords(s, t.rows[i], sizes[i])
  {
    var sizes := SampleSizes(step, s.df.height).value;
    CoveredSweepLists(s, sizes);
    var d := SweepFrom(TrialsOf(s), InitColumns(s.df), sizes).value;
    StrategyTableSweepSucceeds(s, step, sizes, d);
    var name := DisplayName(s.strategy).value;
    LabelledTable(d, name, |sizes|);
    RowsRecord(s, sizes, d, ToTable(Labelled(d, name)).value);
  }

  /** A table exists only for a strategy with an alias whose sweep is covered. */
  lemma TableNeedsCover(s: Sweep, step: int)
    requires ScoresColumns(s.df, s.evaluate) && step != 0 && Unreserved(s.df) && StrategyTable(s, step).Success?
    ensures s.strategy.alias.Some? && Covered(s, SampleSizes(step, s.df.height).value)
  {
    var sizes := SampleSizes(step, s.df.height).value;
    var trials, init := TrialsOf(s), InitColumns(s.df);
    SweepSucceeds(trials, init, sizes);
    var d := SweepFrom(trials, init, sizes).value;
    StrategyTableSweepSucceeds(s, step, sizes, d);
    SweepSizes(trials, NameSet(s.df.columns), init, sizes, d);
    var labelled := Labelled(d, DisplayName(s.strategy).value);
    var height := |labelled.lists[labelled.order[0]]|;
    assert forall k :: k in labelled.lists ==> |labelled.lists[k]| == height;
    assert labelled.lists["SampleSize"] == d.lists["SampleSize"];
    assert |d.lists["SampleSize"]| == |sizes|;
    forall i | 0 <= i < |sizes|
      ensures Trial(s, sizes[i]).Success? && Trial(s, sizes[i]).value.Keys == NameSet(s.df.columns)
    {
      forall k | k in NameSet(s.df.columns) ensures k in Trial(s, sizes[i]).value {
        if k !in Trial(s, sizes[i]).value {
          assert labelled.lists[k] == d.lists[k];
          SweepScores(trials, init, sizes, k, d);
          ScoreCellsShort(trials, k, sizes, i);
        }
      }
    }
  }

  /** The table of a strategy exists exactly when the strategy has an alias and
      every sample of the sweep is evaluated and scores every population column. */
  lemma StrategyTableSucceeds(s: Sweep, step: int)
    requires ScoresColumns(s.df, s.evaluate) && step != 0 && Unreserved(s.df)
    ensures StrategyTable(s, step).Success? <==>
      s.strategy.alias.Some? && Covered(s, SampleSizes(step, s.df.height).value)
  {
    if StrategyTable(s, step).Success? {
      TableNeedsCover(s, step);
    } else if s.strategy.alias.Some? && Covered(s, SampleSizes(step, s.df.height).value) {
      CoveredTable(s, step);
    }
  }

  /** A population of 500 rows swept with step 100 visits the sizes 100, 200,
      300 and 400. */
  lemma FiveHundredByHundred()
    ensures SampleSizes(100, 500) == Success([100, 200, 300, 400])
  {
    SampleSizesAreMultiples(100, 500);
    var sizes := SampleSizes(100, 500).value;
    assert |sizes| == 4;
    assert sizes[0] == 100 && sizes[1] == 200 && sizes[2] == 300 && sizes[3] == 400;
    assert sizes == [100, 200, 300, 400];
  }

  /** The rows of a strategy's table: row i records sample size (i + 1) * step,
      the strategy label and the score of every column at that size. */
  lemma StrategyTableRows(s: Sweep, step: int)
    requires ScoresColumns(s.df, s.evaluate) && step > 0 && Unreserved(s.df) && StrategyTable(s, step).Success?
    ensures var t := StrategyTable(s, step).value;
      |t.rows| == |SampleSizes(step, s.df.height).value| &&
      (t.rows == [] <==> step >= s.df.height) &&
      t.columns == InitColumns(s.df).order + ["SamplingStrategy"] &&
      forall i :: 0 <= i < |t.rows| ==> RowRecords(s, t.rows[i], (i + 1) * step)
  {
    TableNeedsCover(s, step);
    CoveredTable(s, step);
    SampleSizesAreMultiples(step, s.df.height);
  }

  /** With the base evaluation strategy, whose `evaluate` returns None, no
      table can be built once a sample is drawn. */
  lemma BaseStrategyTableFails(judge: Evaluations.EvaluationStrategy, ext: Evaluations.Externals, s: Sweep, step: int)
    requires judge.EvaluationStrategy? && s.evaluate == EvaluatorOf(judge, ext) && 0 < step < s.df.height
    requires s.strategy.sample(s.df, step, s.seed).Success?
    ensures StrategyTable(s, step) == Failure(AttributeError("items"))
  {
    var sizes := SampleSizes(step, s.df.height).value;
    RangeStep(step, s.df.height, step);
    assert Trial(s, sizes[0]) == Failure(AttributeError("items"));
    SweepFailsAtFirstFailure(TrialsOf(s), InitColumns(s.df), sizes, 0);
    StrategyTableSweepFails(s, step, sizes);
  }

  /** A sample that lacks a scored population column (or has it under another
      dtype group) makes the whole table fail. */
  lemma MissingColumnFailsTable(judge: Evaluations.EvaluationStrategy, ext: Evaluations.Externals, s: Sweep,
                                step: int, i: int)
    requires judge.DistributionComparisson? && s.evaluate == EvaluatorOf(judge, ext) && step != 0
    requires 0 <= i < |SampleSizes(step, s.df.height).value|
    requires var n := SampleSizes(step, s.df.height).value[i];
      s.strategy.sample(s.df, n, s.seed).Success? &&
      !Evaluations.Evaluable(s.df, s.strategy.sample(s.df, n, s.seed).value)
    ensures StrategyTable(s, step).Failure?
  {
    var sizes := SampleSizes(step, s.df.height).value;
    SweepSucceeds(TrialsOf(s), InitColumns(s.df), sizes);
    assert !TrialsOf(s)(sizes[i]).Success?;
    StrategyTableSweepFails(s, step, sizes);
  }

  /** A population column outside the categorical, datetime and numeric groups
      (a boolean column, say) is never scored, so its list stays shorter than
      `SampleSize`: once a size is visited no table can be built, and when
      every sample is evaluated and the strategy has an alias, it is
      `pd.DataFrame` that raises ValueError. */
  lemma UnscoredColumnFailsTable(judge: Evaluations.EvaluationStrategy, ext: Evaluations.Externals, s: Sweep,
                                 step: int, i: int)
    requires judge.DistributionComparisson? && s.evaluate == EvaluatorOf(judge, ext) && Unreserved(s.df)
    requires 0 < step < s.df.height
    requires 0 <= i < |s.df.columns| && s.df.columns[i].name !in Evaluations.ScoredNames(s.df)
    ensures StrategyTable(s, step).Failure?
    ensures s.strategy.alias.Some? && SweepFrom(TrialsOf(s), InitColumns(s.df), Range(step, s.df.height, step)).Success? ==>
      StrategyTable(s, step) == Failure(ValueError(UnequalLengthsMessage))
  {
    var sizes := SampleSizes(step, s.df.height).value;
    RangeStep(step, s.df.height, step);
    assert !Covered(s, sizes) by {
      if Trial(s, sizes[0]).Success? {
        assert s.df.columns[i].name in NameSet(s.df.columns);
      }
    }
    StrategyTableSucceeds(s, step);
    var trials, init := TrialsOf(s), InitColumns(s.df);
    if s.strategy.alias.Some? && SweepFrom(trials, init, sizes).Success? {
      StrategyTableSweepSucceeds(s, step, sizes, SweepFrom(trials, init, sizes).value);
    }
  }

  // ---------------------------------------------------------------------------
  // The run over all strategies

  lemma {:induction false} CollectInOrder(df: Frame, evaluate: Evaluator,
                                          done: seq<Table>, rest: seq<SamplingStrategy>, step: int, seed: Option<Seed>,
                                          ts: seq<Table>)
    requires ScoresColumns(df, evaluate) && |ts| == |rest|
    requires forall i :: 0 <= i < |rest| ==> StrategyTable(Sweep(df, evaluate, rest[i], seed), step) == Success(ts[i])
    ensures CollectFrom(df, evaluate, done, rest, step, seed) == Success(done + ts)
    decreases |rest|
  {
    if rest == [] {
      assert done + ts == done;
    } else {
      assert StrategyTable(Sweep(df, evaluate, rest[0], seed), step) == Success(ts[0]);
      forall i | 0 <= i < |rest| - 1
        ensures StrategyTable(Sweep(df, evaluate, rest[1..][i], seed), step) == Success(ts[1..][i])
      {
        assert rest[1..][i] == rest[i + 1] && ts[1..][i] == ts[i + 1];
      }
      CollectInOrder(df, evaluate, done + [ts[0]], rest[1..], step, seed, ts[1..]);
      assert done + [ts[0]] + ts[1..] == done + ts;
    }
  }

  lemma {:induction false} CollectFailsAtFirstFailure(df: Frame, evaluate: Evaluator, done: seq<Table>,
                                                      rest: seq<SamplingStrategy>, step: int, seed: Option<Seed>, i: int)
    requires ScoresColumns(df, evaluate)
    requires 0 <= i < |rest| && StrategyTable(Sweep(df, evaluate, rest[i], seed), step).Failure?
    requires forall j :: 0 <= j < i ==> StrategyTable(Sweep(df, evaluate, rest[j], seed), step).Success?
    ensures CollectFrom(df, evaluate, done, rest, step, seed)
         == Failure(StrategyTable(Sweep(df, evaluate, rest[i], seed), step).error)
    decreases |rest|
  {
    if i > 0 {
      var t := StrategyTable(Sweep(df, evaluate, rest[0], seed), step).value;
      assert StrategyTable(Sweep(df, evaluate, rest[0], seed), step) == Success(t);
      forall j | 0 <= j < i - 1 ensures StrategyTable(Sweep(df, evaluate, rest[1..][j], seed), step).Success? {
        assert rest[1..][j] == rest[j + 1];
      }
      assert rest[1..][i - 1] == rest[i];
      CollectFailsAtFirstFailure(df, evaluate, done + [t], rest[1..], step, seed, i - 1);
    }
  }

  lemma {:induction false} AllRowsCount(ts: seq<Table>)
    ensures |AllRows(ts)| == TotalRows(ts)
    decreases |ts|
  {
    if ts != [] {
      AllRowsCount(ts[1..]);
    }
  }

  /** The union keeps the first list as a prefix and holds exactly the columns
      of both. */
  lemma {:induction false} UnionColumnsHolds(a: seq<string>, b: seq<string>)
    ensures |UnionColumns(a, b)| >= |a| && UnionColumns(a, b)[..|a|] == a
    ensures forall x :: x in UnionColumns(a, b) <==> x in a || x in b
    decreases |b|
  {
    if b != [] {
      var a' := if b[0] in a then a else a + [b[0]];
      UnionColumnsHolds(a', b[1..]);
      assert a'[..|a|] == a;
      assert UnionColumns(a, b)[..|a|] == UnionColumns(a', b[1..])[..|a'|][..|a|];
      assert forall x :: x in b <==> x == b[0] || x in b[1..];
    }
  }

  /** `pd.concat` stacks the rows of the tables in order; its columns are those
      of the first table followed by the new columns of the later ones. */
  lemma {:induction false} ConcatAllStacks(ts: seq<Table>)
    requires ts != []
    ensures ConcatAll(ts).rows == AllRows(ts)
    ensures |ConcatAll(ts).columns| >= |ts[0].columns| && ConcatAll(ts).columns[..|ts[0].columns|] == ts[0].columns
    ensures forall x :: x in ConcatAll(ts).columns <==> exists i :: 0 <= i < |ts| && x in ts[i].columns
    decreases |ts|
  {
    if |ts| == 1 {
      assert AllRows(ts[1..]) == [];
    } else {
      var rest := ConcatAll(ts[1..]);
      ConcatAllStacks(ts[1..]);
      UnionColumnsHolds(ts[0].columns, rest.columns);
      forall x | x in ConcatAll(ts).columns ensures exists i :: 0 <= i < |ts| && x in ts[i].columns {
        if x !in ts[0].columns {
          var i :| 0 <= i < |ts| - 1 && x in ts[1..][i].columns;
          assert ts[i + 1] == ts[1..][i];
        }
      }
      forall x | exists i :: 0 <= i < |ts| && x in ts[i].columns ensures x in ConcatAll(ts).columns {
        var i :| 0 <= i < |ts| && x in ts[i].columns;
        if i > 0 {
          assert ts[1..][i - 1] == ts[i];
        }
      }
    }
  }

  /** A run succeeds exactly when there is a strategy and every strategy's
      table succeeds; it then stacks the tables in strategy order. */
  lemma RunStacksTables(df: Frame, evaluate: Evaluator,
                        strategies: seq<SamplingStrategy>, step: int, seed: Option<Seed>, ts: seq<Table>)
    requires ScoresColumns(df, evaluate) && |ts| == |strategies| > 0
    requires forall i :: 0 <= i < |strategies| ==>
      StrategyTable(Sweep(df, evaluate, strategies[i], seed), step) == Success(ts[i])
    ensures RunTable(df, evaluate, strategies, step, seed) == Success(ConcatAll(ts))
    ensures var t := ConcatAll(ts);
      t.rows == AllRows(ts) && |t.rows| == TotalRows(ts) &&
      forall x :: x in t.columns <==> exists i :: 0 <= i < |ts| && x in ts[i].columns
  {
    assert RunTable(df, evaluate, strategies, step, seed) == Success(ConcatAll(ts)) by {
      CollectInOrder(df, evaluate, [], strategies, step, seed, ts);
      assert [] + ts == ts;
    }
    ConcatAllStacks(ts);
    AllRowsCount(ts);
  }

  /** A run fails with the error of the first strategy whose table fails, and
      with ValueError when there is no strategy at all. */
  lemma RunFails(df: Frame, evaluate: Evaluator,
                 strategies: seq<SamplingStrategy>, step: int, seed: Option<Seed>, i: int)
    requires ScoresColumns(df, evaluate) && 0 <= i <= |strategies|
    requires forall j :: 0 <= j < i ==> StrategyTable(Sweep(df, evaluate, strategies[j], seed), step).Success?
    requires i < |strategies| ==> StrategyTable(Sweep(df, evaluate, strategies[i], seed), step).Failure?
    requires i == |strategies| ==> strategies == []
    ensures RunTable(df, evaluate, strategies, step, seed) ==
      if i < |strategies| then Failure(StrategyTable(Sweep(df, evaluate, strategies[i], seed), step).error)
      else Failure(ValueError(NothingToConcatenateMessage))
  {
    if i < |strategies| {
      CollectFailsAtFirstFailure(df, evaluate, [], strategies, step, seed, i);
    }
  }
}
