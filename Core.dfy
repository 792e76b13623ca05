/** The evaluation orchestrator of evaluation/core.py. For every sampling
    strategy it sweeps the sample sizes `step, 2*step, ...` below the population
    size, draws a sample of each size, evaluates it against the population and
    gathers the scores into a table; the per-strategy tables are then
    concatenated. Nothing is caught: the first error ends the run. */
module Core {
  import opened Wrappers
  import opened Tables
  import Evaluations

  const DefaultStep: int := 50
  const ZeroStepMessage: string := "range() arg 3 must not be zero"
  const UnequalLengthsMessage: string := "All arrays must be of the same length"
  const NothingToConcatenateMessage: string := "No objects to concatenate"

  /** A `random_state`: an int or a float, only passed on to the sampler. */
  datatype Seed = IntSeed(i: int) | FloatSeed(x: real)

  /** `strategy.sample(df, n, random_state)`: a sample frame, or what it raises. */
  type Sampler = (Frame, int, Option<Seed>) -> Result<Frame, Error>

  /** A sampling strategy object: its class name (which is its repr), its
      `alias` attribute and its `sample` method. The alias is None when the
      object has no such attribute, as for the base class and `RandomSampling`;
      an alias set to None or to any other falsy value is written `Some("")`,
      since the label is then the bare repr either way. */
  datatype SamplingStrategy = SamplingStrategy(className: string, alias: Option<string>, sample: Sampler)

  /** An entry of a result column: a sample size, a score or a strategy label. */
  datatype Cell = Size(n: int) | Score(x: real) | Label(s: string)

  /** A data frame of results: column names in order and one row per entry;
      each row maps column names to cells (a name a row lacks is NaN there). */
  datatype Table = Table(columns: seq<string>, rows: seq<map<string, Cell>>)

  /** The dict of lists built per strategy: its keys in insertion order and the
      list under each key. */
  datatype Columns = Columns(order: seq<string>, lists: map<string, seq<Cell>>)

  /** The keys in `order` are exactly those of `lists`, each once. */
  ghost predicate Shaped(d: Columns) {
    && (forall k :: k in d.lists <==> k in d.order)
    && (forall i, j :: 0 <= i < j < |d.order| ==> d.order[i] != d.order[j])
  }

  /** The dict has a first key, and a list under it. */
  predicate HasFirst(d: Columns) {
    d.order != [] && d.order[0] in d.lists
  }

  /** `d[k] = v`: a new key goes to the end, an existing one keeps its place. */
  function Put(d: Columns, k: string, v: seq<Cell>): Columns {
    Columns(if k in d.lists then d.order else d.order + [k], d.lists[k := v])
  }

  lemma PutKeepsShape(d: Columns, k: string, v: seq<Cell>)
    requires Shaped(d)
    ensures Shaped(Put(d, k, v)) && Put(d, k, v).lists.Keys == d.lists.Keys + {k}
  {
  }

  /** `{col: [] for col in df.columns}`: an empty list per column name, in order
      of first appearance. */
  function FromNames(cols: seq<Column>): (d: Columns)
    ensures d.lists.Keys == NameSet(cols)
    ensures forall k :: k in d.lists ==> d.lists[k] == []
    decreases |cols|
  {
    if cols == [] then Columns([], map[])
    else
      var front := cols[..|cols| - 1];
      assert NameSet(cols) == NameSet(front) + {cols[|cols| - 1].name} by {
        forall k | k in NameSet(cols) ensures k in NameSet(front) + {cols[|cols| - 1].name} {
          var i :| 0 <= i < |cols| && cols[i].name == k;
          if i < |cols| - 1 { assert front[i] == cols[i]; }
        }
        forall k | k in NameSet(front) ensures k in NameSet(cols) {
          var i :| 0 <= i < |front| && front[i].name == k;
          assert cols[i] == front[i];
        }
      }
      Put(FromNames(front), cols[|cols| - 1].name, [])
  }

  lemma {:induction false} FromNamesShaped(cols: seq<Column>)
    ensures Shaped(FromNames(cols))
    decreases |cols|
  {
    if cols != [] {
      FromNamesShaped(cols[..|cols| - 1]);
      PutKeepsShape(FromNames(cols[..|cols| - 1]), cols[|cols| - 1].name, []);
    }
  }

  /** With distinct column names, the keys come in column order. */
  lemma {:induction false} FromNamesInColumnOrder(cols: seq<Column>)
    requires forall i, j :: 0 <= i < j < |cols| ==> cols[i].name != cols[j].name
    ensures FromNames(cols).order == seq(|cols|, i requires 0 <= i < |cols| => cols[i].name)
    decreases |cols|
  {
    if cols != [] {
      var front := cols[..|cols| - 1];
      FromNamesInColumnOrder(front);
      assert cols[|cols| - 1].name !in NameSet(front) by {
        forall i | 0 <= i < |front| ensures front[i].name != cols[|cols| - 1].name {
          assert front[i] == cols[i];
        }
      }
    }
  }

  /** The dict before the sweep: one empty list per column, then `SampleSize`. */
  function InitColumns(df: Frame): (d: Columns)
    ensures d.lists.Keys == NameSet(df.columns) + {"SampleSize"}
    ensures forall k :: k in d.lists ==> d.lists[k] == []
    ensures HasFirst(d)
  {
    FromNamesShaped(df.columns);
    PutKeepsShape(FromNames(df.columns), "SampleSize", []);
    Put(FromNames(df.columns), "SampleSize", [])
  }

  lemma InitColumnsShaped(df: Frame)
    ensures Shaped(InitColumns(df))
  {
    FromNamesShaped(df.columns);
    PutKeepsShape(FromNames(df.columns), "SampleSize", []);
  }

  /** `pd.DataFrame(d)`: one row per list position, provided all lists have the
      length of the first one. */
  function ToTable(d: Columns): Result<Table, Error>
    requires HasFirst(d)
  {
    var height := |d.lists[d.order[0]]|;
    if forall k :: k in d.lists ==> |d.lists[k]| == height then
      Success(Table(d.order, seq(height, i requires 0 <= i < height => RowAt(d, height, i))))
    else
      Failure(ValueError(UnequalLengthsMessage))
  }

  function RowAt(d: Columns, height: nat, i: nat): map<string, Cell>
    requires forall k :: k in d.lists ==> |d.lists[k]| == height
    requires i < height
  {
    map k | k in d.lists :: d.lists[k][i]
  }

  // ---------------------------------------------------------------------------
  // Sample sizes

  /** `range(start, stop, step)` for a positive step. */
  function Range(start: int, stop: int, step: int): seq<int>
    requires step > 0
    decreases stop - start
  {
    if start >= stop then [] else [start] + Range(start + step, stop, step)
  }

  /** `range(step, population_size, step)`: a zero step raises, a negative one
      gives no sizes. */
  function SampleSizes(step: int, populationSize: int): Result<seq<int>, Error> {
    if step == 0 then Failure(ValueError(ZeroStepMessage))
    else if step < 0 then Success([])
    else Success(Range(step, populationSize, step))
  }

  /** The i-th size is start + i * step; all are below stop, and the next one
      would not be. */
  lemma {:induction false} RangeShape(start: int, stop: int, step: int)
    requires step > 0
    ensures var r := Range(start, stop, step);
      (forall i :: 0 <= i < |r| ==> r[i] == start + i * step && r[i] < stop) &&
      start + |r| * step >= stop &&
      (r == [] <==> start >= stop)
    decreases stop - start
  {
    if start < stop {
      RangeShape(start + step, stop, step);
      var r := Range(start, stop, step);
      var rest := Range(start + step, stop, step);
      forall i | 0 <= i < |r| ensures r[i] == start + i * step && r[i] < stop {
        if i > 0 {
          assert r[i] == rest[i - 1];
          assert start + step + (i - 1) * step == start + i * step;
        }
      }
      assert start + step + |rest| * step == start + |r| * step;
    }
  }

  /** A range below its stop starts at its start and goes on one step later. */
  lemma RangeStep(start: int, stop: int, step: int)
    requires step > 0 && start < stop
    ensures var r := Range(start, stop, step);
      r != [] && r[0] == start && r[1..] == Range(start + step, stop, step)
  {
  }

  /** The sizes the sweep visits are exactly step, 2*step, ... below the
      population size, in increasing order; there are none when the step is not
      below the population size. */
  lemma SampleSizesAreMultiples(step: int, populationSize: int)
    requires step > 0
    ensures var sizes := SampleSizes(step, populationSize).value;
      (forall i :: 0 <= i < |sizes| ==> sizes[i] == (i + 1) * step && sizes[i] < populationSize) &&
      (|sizes| + 1) * step >= populationSize &&
      (sizes == [] <==> step >= populationSize) &&
      (forall i, j :: 0 <= i < j < |sizes| ==> sizes[i] < sizes[j])
  {
    RangeShape(step, populationSize, step);
    var sizes := Range(step, populationSize, step);
    forall i | 0 <= i < |sizes| ensures sizes[i] == (i + 1) * step {
      assert step + i * step == (i + 1) * step;
    }
    forall i, j | 0 <= i < j < |sizes| ensures sizes[i] < sizes[j] {
      assert step + i * step < step + j * step;
    }
    assert step + |sizes| * step == (|sizes| + 1) * step;
  }

  // ---------------------------------------------------------------------------
  // One strategy

  /** `evaluation_strategy.evaluate(population, sample)`, as the orchestrator
      sees it: scores per column name, None, or an error. */
  type Evaluator = (Frame, Frame) -> Result<Option<Evaluations.Scores>, Error>

  /** The evaluator scores only columns of the population `df`. A score under
      another name would make the sweep's `results[k]` raise KeyError. */
  ghost predicate ScoresColumns(df: Frame, evaluate: Evaluator) {
    forall sample :: evaluate(df, sample).Success? && evaluate(df, sample).value.Some? ==>
      evaluate(df, sample).value.value.Keys <= NameSet(df.columns)
  }

  lemma ScoredNamesAreNames(df: Frame)
    ensures Evaluations.ScoredNames(df) <= NameSet(df.columns)
  {
    forall k | k in Evaluations.ScoredNames(df) ensures k in NameSet(df.columns) {
      var c :| c in df.columns && c.kind != Other && c.name == k;
      var i :| 0 <= i < |df.columns| && df.columns[i] == c;
    }
  }

  /** The `evaluate` of the evaluation strategies of evaluation/evaluations.py;
      it scores only population columns, whatever the population. */
  function EvaluatorOf(judge: Evaluations.EvaluationStrategy, ext: Evaluations.Externals): (f: Evaluator)
    ensures forall df :: ScoresColumns(df, f)
  {
    forall df ensures Evaluations.ScoredNames(df) <= NameSet(df.columns) {
      ScoredNamesAreNames(df);
    }
    (population, sample) => Evaluations.Evaluate(judge, ext, population, sample)
  }

  /** What a sweep over one strategy depends on: the population, the evaluation
      strategy's `evaluate`, the sampling strategy and the seed. */
  datatype Sweep = Sweep(df: Frame, evaluate: Evaluator, strategy: SamplingStrategy, seed: Option<Seed>)

  /** One step of the sweep: sample `n` rows with the caller's seed, evaluate
      the sample against the population; a `None` evaluation has no `items`. */
  function Trial(s: Sweep, n: int): Result<Evaluations.Scores, Error> {
    match s.strategy.sample(s.df, n, s.seed)
    case Failure(e) => Failure(e)
    case Success(sample) =>
      match s.evaluate(s.df, sample)
      case Failure(e) => Failure(e)
      case Success(None) => Failure(AttributeError("items"))
      case Success(Some(scores)) => Success(scores)
  }

  /** A successful trial scores only population columns. */
  lemma TrialScoresColumns(s: Sweep, n: int)
    requires ScoresColumns(s.df, s.evaluate) && Trial(s, n).Success?
    ensures Trial(s, n).value.Keys <= NameSet(s.df.columns)
  {
    var sample := s.strategy.sample(s.df, n, s.seed).value;
    assert s.evaluate(s.df, sample).Success? && s.evaluate(s.df, sample).value.Some?;
  }

  /** The outcome of the trial at each sample size. */
  type Trials = int -> Result<Evaluations.Scores, Error>

  /** Every successful trial scores only names in `names`. */
  ghost predicate Within(trials: Trials, names: set<string>) {
    forall n :: trials(n).Success? ==> trials(n).value.Keys <= names
  }

  /** The trials of the sweep `s`. */
  function TrialsOf(s: Sweep): (t: Trials)
    ensures forall n :: t(n) == Trial(s, n)
    ensures ScoresColumns(s.df, s.evaluate) ==> Within(t, NameSet(s.df.columns))
  {
    TrialsScoreColumns(s);
    n => Trial(s, n)
  }

  lemma TrialsScoreColumns(s: Sweep)
    ensures ScoresColumns(s.df, s.evaluate) ==>
      forall n :: Trial(s, n).Success? ==> Trial(s, n).value.Keys <= NameSet(s.df.columns)
  {
    if ScoresColumns(s.df, s.evaluate) {
      forall n | Trial(s, n).Success? ensures Trial(s, n).value.Keys <= NameSet(s.df.columns) {
        TrialScoresColumns(s, n);
      }
    }
  }

  /** The dict is ready for a sweep: it has a list for `SampleSize` and one for
      every column a trial may score. */
  ghost predicate Ready(trials: Trials, d: Columns) {
    "SampleSize" in d.lists && Within(trials, d.lists.Keys)
  }

  /** Append `n` to `SampleSize`, then each score to the list of its column. */
  function Record(d: Columns, n: int, scores: Evaluations.Scores): (r: Columns)
    requires "SampleSize" in d.lists && scores.Keys <= d.lists.Keys
    ensures r.order == d.order && r.lists.Keys == d.lists.Keys
  {
    var sized := d.lists["SampleSize" := d.lists["SampleSize"] + [Size(n)]];
    Columns(d.order, map k | k in sized :: if k in scores then sized[k] + [Score(scores[k])] else sized[k])
  }

  /** The sweep loop from dict `d` over the remaining `sizes`. */
  function SweepFrom(trials: Trials, d: Columns, sizes: seq<int>): (r: Result<Columns, Error>)
    requires Ready(trials, d)
    ensures r.Success? ==> Ready(trials, r.value) && r.value.order == d.order && r.value.lists.Keys == d.lists.Keys
    decreases |sizes|
  {
    if sizes == [] then Success(d)
    else
      match trials(sizes[0])
      case Failure(e) => Failure(e)
      case Success(scores) => SweepFrom(trials, Record(d, sizes[0], scores), sizes[1..])
  }

  /** One turn of the sweep loop when the trial succeeds: the scores are
      recorded and the sweep goes on with the next size. */
  lemma SweepStep(trials: Trials, d: Columns, n: int, next: int, stop: int, step: int, scores: Evaluations.Scores)
    requires step > 0 && n < stop && next == n + step && Ready(trials, d) && trials(n) == Success(scores)
    ensures scores.Keys <= d.lists.Keys && Ready(trials, Record(d, n, scores))
    ensures SweepFrom(trials, d, Range(n, stop, step)) == SweepFrom(trials, Record(d, n, scores), Range(next, stop, step))
  {
    RangeStep(n, stop, step);
    var sizes := Range(n, stop, step);
    assert sizes[0] == n && sizes[1..] == Range(next, stop, step);
  }

  /** One turn of the sweep loop when the trial fails: the sweep fails with it. */
  lemma SweepStepFails(trials: Trials, d: Columns, n: int, stop: int, step: int)
    requires step > 0 && n < stop && Ready(trials, d) && trials(n).Failure?
    ensures SweepFrom(trials, d, Range(n, stop, step)) == Failure(trials(n).error)
  {
    RangeStep(n, stop, step);
  }

  /** The inner loop of the sweep: the size goes to `SampleSize`, each score to
      the list of its column, one column at a time. */
  method AppendScores(d: Columns, n: int, scores: Evaluations.Scores) returns (r: Columns)
    requires "SampleSize" in d.lists && scores.Keys <= d.lists.Keys
    ensures r == Record(d, n, scores)
  {
    r := d.(lists := d.lists["SampleSize" := d.lists["SampleSize"] + [Size(n)]]);
    ghost var sized := r;
    var pending := scores.Keys;
    while pending != {}
      invariant pending <= scores.Keys
      invariant r.order == sized.order && r.lists.Keys == sized.lists.Keys
      invariant forall k :: k in r.lists ==>
        r.lists[k] == if k in scores && k !in pending then sized.lists[k] + [Score(scores[k])] else sized.lists[k]
      decreases pending
    {
      var column :| column in pending;
      r := r.(lists := r.lists[column := r.lists[column] + [Score(scores[column])]]);
      pending := pending - {column};
    }
  }

  /** The `SamplingStrategy` label: the class name followed by the alias when
      the alias is non-empty; an object without `alias` raises AttributeError. */
  function DisplayName(strategy: SamplingStrategy): (r: Result<string, Error>)
    ensures r.Failure? <==> strategy.alias.None?
    ensures r.Failure? ==> r.error == AttributeError("alias")
    ensures r.Success? ==> r.value == strategy.className + (if strategy.alias.value == "" then "" else strategy.alias.value)
  {
    match strategy.alias
    case None => Failure(AttributeError("alias"))
    case Some(alias) => Success(if alias != "" then strategy.className + alias else strategy.className)
  }

  /** `d['SamplingStrategy'] = [name] * len(first list of d)`. */
  function Labelled(d: Columns, name: string): (r: Columns)
    requires HasFirst(d)
    ensures HasFirst(r) && r.order[0] == d.order[0]
  {
    Put(d, "SamplingStrategy", seq(|d.lists[d.order[0]]|, _ => Label(name)))
  }

  /** `_evaluate_sampling_strategy(strategy, step, random_state)`. */
  function StrategyTable(s: Sweep, step: int): Result<Table, Error>
    requires ScoresColumns(s.df, s.evaluate)
  {
    match SampleSizes(step, s.df.height)
    case Failure(e) => Failure(e)
    case Success(sizes) =>
      match SweepFrom(TrialsOf(s), InitColumns(s.df), sizes)
      case Failure(e) => Failure(e)
      case Success(d) =>
        match DisplayName(s.strategy)
        case Failure(e) => Failure(e)
        case Success(name) => ToTable(Labelled(d, name))
  }

  /** `StrategyTable` when the sweep fails: the table fails with it. */
  lemma StrategyTableSweepFails(s: Sweep, step: int, sizes: seq<int>)
    requires ScoresColumns(s.df, s.evaluate)
    requires SampleSizes(step, s.df.height) == Success(sizes)
    requires SweepFrom(TrialsOf(s), InitColumns(s.df), sizes).Failure?
    ensures StrategyTable(s, step) == Failure(SweepFrom(TrialsOf(s), InitColumns(s.df), sizes).error)
  {
  }

  /** `StrategyTable` when the sweep succeeds: the label column is added and
      the dict becomes a table, unless the strategy has no alias. */
  lemma StrategyTableSweepSucceeds(s: Sweep, step: int, sizes: seq<int>, d: Columns)
    requires ScoresColumns(s.df, s.evaluate)
    requires SampleSizes(step, s.df.height) == Success(sizes)
    requires SweepFrom(TrialsOf(s), InitColumns(s.df), sizes) == Success(d)
    ensures HasFirst(d)
    ensures s.strategy.alias.None? ==> StrategyTable(s, step) == Failure(AttributeError("alias"))
    ensures s.strategy.alias.Some? ==> StrategyTable(s, step) == ToTable(Labelled(d, DisplayName(s.strategy).value))
  {
  }

  // ---------------------------------------------------------------------------
  // All strategies

  /** The per-strategy tables, strategy by strategy, after those already `done`. */
  function CollectFrom(df: Frame, evaluate: Evaluator, done: seq<Table>, rest: seq<SamplingStrategy>,
                       step: int, seed: Option<Seed>): Result<seq<Table>, Error>
    requires ScoresColumns(df, evaluate)
    decreases |rest|
  {
    if rest == [] then Success(done)
    else
      match StrategyTable(Sweep(df, evaluate, rest[0], seed), step)
      case Failure(e) => Failure(e)
      case Success(t) => CollectFrom(df, evaluate, done + [t], rest[1..], step, seed)
  }

  /** The union of two column lists: those of `a`, then the new ones of `b`. */
  function UnionColumns(a: seq<string>, b: seq<string>): seq<string>
    decreases |b|
  {
    if b == [] then a
    else UnionColumns(if b[0] in a then a else a + [b[0]], b[1..])
  }

  /** The rows of all tables, table by table. */
  function AllRows(ts: seq<Table>): seq<map<string, Cell>> {
    if ts == [] then [] else ts[0].rows + AllRows(ts[1..])
  }

  /** The sum of the row counts of all tables. */
  function TotalRows(ts: seq<Table>): nat {
    if ts == [] then 0 else |ts[0].rows| + TotalRows(ts[1..])
  }

  function ConcatAll(ts: seq<Table>): Table
    requires ts != []
    decreases |ts|
  {
    if |ts| == 1 then ts[0]
    else
      var rest := ConcatAll(ts[1..]);
      Table(UnionColumns(ts[0].columns, rest.columns), ts[0].rows + rest.rows)
  }

  /** `pd.concat(tables)`: an empty list raises. */
  function Concat(ts: seq<Table>): Result<Table, Error> {
    if ts == [] then Failure(ValueError(NothingToConcatenateMessage)) else Success(ConcatAll(ts))
  }

  /** `run(step, random_state)`. */
  function RunTable(df: Frame, evaluate: Evaluator, strategies: seq<SamplingStrategy>, step: int, seed: Option<Seed>)
    : Result<Table, Error>
    requires ScoresColumns(df, evaluate)
  {
    match CollectFrom(df, evaluate, [], strategies, step, seed)
    case Failure(e) => Failure(e)
    case Success(ts) => Concat(ts)
  }

  // ---------------------------------------------------------------------------
  // The orchestrator object

  class Evaluation {
    const df: Frame
    const strategies: seq<SamplingStrategy>
    const evaluationStrategy: Evaluations.EvaluationStrategy
    const externals: Evaluations.Externals
    /** The table of the last successful `run`; None before any. */
    var eval: Option<Table>

    constructor(df: Frame, strategies: seq<SamplingStrategy>, evaluationStrategy: Evaluations.EvaluationStrategy,
                externals: Evaluations.Externals)
      ensures this.df == df && this.strategies == strategies
      ensures this.evaluationStrategy == evaluationStrategy && this.externals == externals
      ensures eval == None
    {
      this.df := df;
      this.strategies := strategies;
      this.evaluationStrategy := evaluationStrategy;
      this.externals := externals;
      eval := None;
    }

    function SweepOf(strategy: SamplingStrategy, seed: Option<Seed>): (s: Sweep)
      ensures ScoresColumns(s.df, s.evaluate)
    {
      Sweep(df, EvaluatorOf(evaluationStrategy, externals), strategy, seed)
    }

    /** `_apply_sampling_strategy`: the strategy samples the population with
        exactly `n` and the caller's seed. */
    method ApplySamplingStrategy(strategy: SamplingStrategy, n: int, seed: Option<Seed>) returns (sample: Result<Frame, Error>)
      ensures sample == strategy.sample(df, n, seed)
    {
      sample := strategy.sample(df, n, seed);
    }

    /** `_evaluate_sample`: the evaluation strategy compares the sample with the
        whole population. */
    method EvaluateSample(sample: Frame) returns (result: Result<Option<Evaluations.Scores>, Error>)
      ensures result == Evaluations.Evaluate(evaluationStrategy, externals, df, sample)
    {
      result := Evaluations.Evaluate(evaluationStrategy, externals, df, sample);
    }

    /** `_evaluate_sampling_strategy`: the sweep loop for one strategy. */
    method EvaluateSamplingStrategy(strategy: SamplingStrategy, step: int, seed: Option<Seed>) returns (r: Result<Table, Error>)
      ensures r == StrategyTable(SweepOf(strategy, seed), step)
    {
      var populationSize := df.height;
      var results := FromNames(df.columns);
      results := Put(results, "SampleSize", []);
      if step == 0 {
        return Failure(ValueError(ZeroStepMessage));
      }
      ghost var s := SweepOf(strategy, seed);
      ghost var trials := TrialsOf(s);
      ghost var sizes: seq<int> := if step > 0 then Range(step, populationSize, step) else [];
      ghost var target := SweepFrom(trials, InitColumns(df), sizes);
      var n := step;
      while step > 0 && n < populationSize
        invariant Ready(trials, results)
        invariant step > 0 ==> SweepFrom(trials, results, Range(n, populationSize, step)) == target
        invariant step < 0 ==> results == InitColumns(df)
        decreases populationSize - n
      {
        var sample := ApplySamplingStrategy(strategy, n, seed);
        if sample.Failure? {
          SweepStepFails(trials, results, n, populationSize, step);
          StrategyTableSweepFails(s, step, sizes);
          return Failure(sample.error);
        }
        var result := EvaluateSample(sample.value);
        if result.Failure? {
          SweepStepFails(trials, results, n, populationSize, step);
          StrategyTableSweepFails(s, step, sizes);
          return Failure(result.error);
        }
        if result.value.None? {
          SweepStepFails(trials, results, n, populationSize, step);
          StrategyTableSweepFails(s, step, sizes);
          return Failure(AttributeError("items"));
        }
        var scores := result.value.value;
        assert trials(n) == Success(scores);
        var next := n + step;
        SweepStep(trials, results, n, next, populationSize, step, scores);
        results := AppendScores(results, n, scores);
        n := next;
      }
      StrategyTableSweepSucceeds(s, step, sizes, results);
      var display := DisplayName(strategy);
      if display.Failure? {
        return Failure(display.error);
      }
      results := Labelled(results, display.value);
      r := ToTable(results);
    }

    /** `run(step, random_state)`: the tables of all strategies, in order,
        concatenated; a successful run is remembered in `eval`, a failing one
        leaves `eval` as it was. */
    method Run(step: int := DefaultStep, seed: Option<Seed> := None) returns (r: Result<Table, Error>)
      modifies this`eval
      ensures r == RunTable(df, EvaluatorOf(evaluationStrategy, externals), strategies, step, seed)
      ensures r.Success? ==> eval == Some(r.value)
      ensures r.Failure? ==> eval == old(eval)
    {
      var results: seq<Table> := [];
      var i := 0;
      while i < |strategies|
        invariant 0 <= i <= |strategies|
        invariant CollectFrom(df, EvaluatorOf(evaluationStrategy, externals), results, strategies[i..], step, seed)
               == CollectFrom(df, EvaluatorOf(evaluationStrategy, externals), [], strategies, step, seed)
        invariant eval == old(eval)
      {
        var result := EvaluateSamplingStrategy(strategies[i], step, seed);
        if result.Failure? {
          return Failure(result.error);
        }
        results := results + [result.value];
        assert strategies[i..][1..] == strategies[i + 1..];
        i := i + 1;
      }
      r := Concat(results);
      if r.Success? {
        eval := Some(r.value);
      }
    }
  }
}
