/** The metric strategies of evaluation/metrics.py: each compares a population
    column with a sample column and yields a (statistic, p-value) pair. The
    statistical routines of SciPy and Python's random generator are not modelled;
    they are passed in as values. */
module Metrics {
  import opened Tables

  /** A number drawn by `random.random()`: a float in [0, 1). */
  type Unit = r: real | 0.0 <= r < 1.0

  /** The metric classes; `MetricStrategy` is the base class. */
  datatype Metric = MetricStrategy | RandomValueAssignment | KolmogorovSmirnov | ChiSquaredGoodnessOfFit

  /** `repr(metric)`: the class name of the metric. */
  function Repr(m: Metric): string {
    match m
    case MetricStrategy => "MetricStrategy"
    case RandomValueAssignment => "RandomValueAssignment"
    case KolmogorovSmirnov => "KolmogorovSmirnov"
    case ChiSquaredGoodnessOfFit => "ChiSquaredGoodnessOfFit"
  }

  /** The representation names the class and tells the metric classes apart. */
  lemma ReprIdentifiesClass(a: Metric, b: Metric)
    ensures Repr(a) == Repr(b) <==> a == b
    ensures |Repr(a)| > 0
  {
  }

  /** One row of the contingency table: the count of a category in the
      population column and in the sample column. */
  datatype Counts = Counts(population: nat, sample: nat)

  /** The SciPy routines: `ks_2samp(data1, data2)` and the first two results
      (statistic, p-value) of `chi2_contingency(table)`. */
  datatype Tests = Tests(
    ks2samp: (seq<Value>, seq<Value>) -> (real, real),
    chi2Contingency: map<Value, Counts> -> (real, real))

  /** `RandomValueAssignment.measure`: two fresh random numbers, whatever the
      columns are; `draws` stands for the two calls to `random.random()`. */
  function RandomValueAssignmentMeasure(draws: (Unit, Unit), population: seq<Value>, sample: seq<Value>): (r: (real, real))
    ensures 0.0 <= r.0 < 1.0 && 0.0 <= r.1 < 1.0
    ensures r.0 == draws.0 && r.1 == draws.1
  {
    (draws.0, draws.1)
  }

  /** `KolmogorovSmirnov.measure`: the two-sample test with the sample as the
      first data set and the population as the second. */
  function KolmogorovSmirnovMeasure(tests: Tests, population: seq<Value>, sample: seq<Value>): (r: (real, real))
    ensures r == tests.ks2samp(sample, population)
  {
    tests.ks2samp(sample, population)
  }

  /** `ChiSquaredGoodnessOfFit.measure`: the contingency test applied to the
      table of category counts of the two columns. */
  function ChiSquaredMeasure(tests: Tests, population: seq<Value>, sample: seq<Value>): (r: (real, real))
    ensures r == tests.chi2Contingency(ContingencyTable(population, sample))
  {
    tests.chi2Contingency(ContingencyTable(population, sample))
  }

  // ---------------------------------------------------------------------------
  // Counting categories (`Series.value_counts`, which drops missing values)

  /** The number of entries of `col` equal to `v`. */
  function Occurrences(col: seq<Value>, v: Value): nat {
    if col == [] then 0 else (if col[0] == v then 1 else 0) + Occurrences(col[1..], v)
  }

  /** The categories occurring in `col`, missing values left out. */
  function Present(col: seq<Value>): set<Value> {
    if col == [] then {} else (if col[0] == Missing then {} else {col[0]}) + Present(col[1..])
  }

  /** The number of entries of `col` that are not missing. */
  function NonMissing(col: seq<Value>): nat {
    if col == [] then 0 else (if col[0] == Missing then 0 else 1) + NonMissing(col[1..])
  }

  /** A category is present exactly when it occurs at least once. */
  lemma {:induction false} PresentMeansOccurs(col: seq<Value>)
    ensures Missing !in Present(col)
    ensures forall v :: v != Missing ==> (v in Present(col) <==> Occurrences(col, v) > 0)
  {
    if col != [] {
      PresentMeansOccurs(col[1..]);
    }
  }

  /** `col.value_counts()`: every category present in `col` with its count. */
  function ValueCounts(col: seq<Value>): (r: map<Value, nat>)
    ensures r.Keys == Present(col) && Missing !in r
    ensures forall v :: v in r ==> r[v] == Occurrences(col, v) && r[v] > 0
  {
    PresentMeansOccurs(col);
    map v | v in Present(col) :: Occurrences(col, v)
  }

  /** The contingency table of `_apply_chi_squared`: the two value counts
      aligned on the union of their categories, a category missing on one side
      counting 0 there (`fillna(0)`). */
  function ContingencyTable(population: seq<Value>, sample: seq<Value>): (t: map<Value, Counts>)
    ensures t.Keys == Present(population) + Present(sample)
    ensures Missing !in t
    ensures forall v :: v in t ==> t[v] == Counts(Occurrences(population, v), Occurrences(sample, v))
    ensures forall v :: v in t ==> t[v].population > 0 || t[v].sample > 0
  {
    var populationCounts := ValueCounts(population);
    var sampleCounts := ValueCounts(sample);
    PresentMeansOccurs(population);
    PresentMeansOccurs(sample);
    map v | v in populationCounts.Keys + sampleCounts.Keys ::
      Counts(if v in populationCounts then populationCounts[v] else 0,
             if v in sampleCounts then sampleCounts[v] else 0)
  }

  // ---------------------------------------------------------------------------
  // Column totals of the contingency table

  datatype Side = PopulationSide | SampleSide

  function Cell(c: Counts, side: Side): nat {
    match side
    case PopulationSide => c.population
    case SampleSide => c.sample
  }

  /** The sum of one column of `t` over the rows in `keys`. */
  ghost function ColumnTotal(t: map<Value, Counts>, keys: set<Value>, side: Side): nat
    requires keys <= t.Keys
    decreases keys
  {
    if keys == {} then 0
    else
      var v :| v in keys;
      Cell(t[v], side) + ColumnTotal(t, keys - {v}, side)
  }

  /** The number of non-missing entries of `col` that belong to `keys`. */
  function CountIn(col: seq<Value>, keys: set<Value>): nat {
    if col == [] then 0
    else (if col[0] != Missing && col[0] in keys then 1 else 0) + CountIn(col[1..], keys)
  }

  lemma {:induction false} CountInSplit(col: seq<Value>, keys: set<Value>, v: Value)
    requires v in keys && v != Missing
    ensures CountIn(col, keys) == Occurrences(col, v) + CountIn(col, keys - {v})
  {
    if col != [] {
      CountInSplit(col[1..], keys, v);
    }
  }

  lemma {:induction false} CountInNothing(col: seq<Value>)
    ensures CountIn(col, {}) == 0
  {
    if col != [] {
      CountInNothing(col[1..]);
    }
  }

  lemma {:induction false} CountInCovering(col: seq<Value>, keys: set<Value>)
    requires Present(col) <= keys
    ensures CountIn(col, keys) == NonMissing(col)
  {
    if col != [] {
      CountInCovering(col[1..], keys);
    }
  }

  lemma {:induction false} ColumnTotalIsCount(t: map<Value, Counts>, keys: set<Value>, side: Side, col: seq<Value>)
    requires keys <= t.Keys && Missing !in keys
    requires forall v :: v in keys ==> Cell(t[v], side) == Occurrences(col, v)
    ensures ColumnTotal(t, keys, side) == CountIn(col, keys)
    decreases keys
  {
    if keys != {} {
      var v :| v in keys && ColumnTotal(t, keys, side) == Cell(t[v], side) + ColumnTotal(t, keys - {v}, side);
      ColumnTotalIsCount(t, keys - {v}, side, col);
      CountInSplit(col, keys, v);
    } else {
      CountInNothing(col);
    }
  }

  /** The Population column of the contingency table sums to the number of
      non-missing population values, and the Sample column to the number of
      non-missing sample values. */
  lemma ContingencyColumnTotals(population: seq<Value>, sample: seq<Value>)
    ensures var t := ContingencyTable(population, sample);
      ColumnTotal(t, t.Keys, PopulationSide) == NonMissing(population) &&
      ColumnTotal(t, t.Keys, SampleSide) == NonMissing(sample)
  {
    var t := ContingencyTable(population, sample);
    ColumnTotalIsCount(t, t.Keys, PopulationSide, population);
    ColumnTotalIsCount(t, t.Keys, SampleSide, sample);
    CountInCovering(population, t.Keys);
    CountInCovering(sample, t.Keys);
  }
}
