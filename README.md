# Sampling evaluation — a Dafny model of the `evaluation` package

This project models the core of the `evaluation` package. That package measures how well a
sampling strategy represents a population table.

The orchestrator `Evaluation` (evaluation/core.py) works like this:
- For every sampling strategy, it sweeps the sample sizes `step, 2*step, ...` below the
  population size.
- At each size it asks the strategy for a sample. It asks the evaluation strategy to score
  the sample against the population, column by column.
- It gathers sizes and scores in a dict of lists, adds a `SamplingStrategy` label column,
  and turns the dict into a table.
- `run` concatenates the per-strategy tables and remembers the result in `eval`.

The only concrete evaluation strategy is `DistributionComparisson` (evaluation/evaluations.py):
- It splits the population's columns into a categorical group, a time-zone aware datetime
  group and a numeric group.
- It scores the numeric columns with the Kolmogorov-Smirnov statistic.
- It scores the other two groups with a random number.
- It merges the three dicts.

evaluation/metrics.py holds the metric classes. One of them, the chi-squared metric, builds
a contingency table of category counts.

Files:

- `Wrappers.dfy`: `Option` and `Result`. Python exceptions are `Failure` values.
- `Tables.dfy`: the data frames the package works on.
  - Each column carries an explicit dtype group (`Categorical`, `DatetimeTz`, `Numeric`,
    `Other`) in place of pandas' dtype inference.
  - `Lookup` models `frame.select_dtypes(...)[name]` for a label that is unique within its dtype group.
- `Metrics.dfy`: evaluation/metrics.py.
  - The metric `repr`s and the `measure` delegations.
  - The range contract of `RandomValueAssignment`.
  - The contingency table and its column totals.
- `Evaluations.dfy`: evaluation/evaluations.py.
  - The two constructors, with their flag validation.
  - The three `_eval_*` dict comprehensions (`EvalFields`).
  - `evaluate` and the merge of the three groups.
- `Core.dfy`: evaluation/core.py.
  - The class `Evaluation`, with its methods written as loops over the dict of lists and over
    the strategies.
  - The functions the loops are proved against. `StrategyTable` is the table of one strategy,
    through the sweep `SweepFrom`. `RunTable` is the result of `run`.
  - The sweep works on a trials function: the outcome at each sample size. `TrialsOf` gives
    the source's trial: sample with the caller's `random_state`, evaluate the sample against
    the population, and raise `AttributeError` when the evaluation is `None`.
- `CoreProperties.dfy`: what the sweep and `run` promise.
  - Which sizes are visited.
  - When a strategy's table exists, and what each of its rows holds.
  - How errors propagate.
  - How `run` stacks the tables.

Collaborators the code cannot see into are parameters:
- the SciPy tests `ks_2samp` and `chi2_contingency` (`Metrics.Tests`);
- the numbers `random.random()` returns (`Evaluations.Externals.draws`);
- each sampling strategy's `sample` method (`Core.SamplingStrategy.sample`);
- the evaluation strategy's `evaluate`, inside the sweep (`Core.Evaluator`).

For the two real evaluation strategies, `Core.EvaluatorOf` builds that evaluator from
`Evaluations.Evaluate`.

Where the package's docstrings and its code disagree, the model follows the code:
- The docstrings of `Evaluation`, `run` and `_evaluate_sampling_strategy` (evaluation/core.py:12,
  26 and 54) speak of every sample size between 1 and the size of `df`. The loop starts at
  `step` and stays strictly below the population size.
- The docstring of `DistributionComparisson` (evaluation/evaluations.py:26-27) says that it
  tests whether the category fields are distributed equally. Its `evaluate` scores categorical
  and datetime columns with `RandomValueAssignment`. The chi-squared metric is defined but
  never called.

Further behaviour of the code that the model states:
- Nothing is caught. A sampling or evaluation failure ends the strategy's sweep and the whole
  `run` with the same error.
- A sample that lacks a scored population column raises `KeyError`.
- A population column outside the categorical, datetime and numeric groups (a boolean column,
  say) is never scored. Its list stays shorter than `SampleSize`, so no table can be built
  once any size is visited (`CoreProperties.UnscoredColumnFailsTable`). With an alias and every
  sample evaluated, the error is `pd.DataFrame`'s `ValueError`. Otherwise the sweep's error, or
  the `AttributeError` for the missing alias, comes first.
- A contingency-table row has a non-zero count on at least one side (`Metrics.ContingencyTable`).

## Model

| member | source | states |
|---|---|---|
| Metrics.ReprIdentifiesClass | evaluation/metrics.py:10-12 | a metric's repr is a non-empty class name, and two metrics print alike exactly when they are of the same class |
| Metrics.RandomValueAssignmentMeasure | evaluation/metrics.py:30-32 | the pair is the two numbers drawn, each in [0, 1), whatever the columns |
| Metrics.KolmogorovSmirnovMeasure | evaluation/metrics.py:37-39 | the result is the two-sample test with the sample as first data set and the population as second |
| Metrics.ChiSquaredMeasure | evaluation/metrics.py:60-62 | the result is the contingency test applied to the contingency table of the two columns |
| Metrics.PresentMeansOccurs | evaluation/metrics.py:77-78 | a non-missing category is counted by `value_counts` exactly when it occurs; missing values are never counted |
| Metrics.ValueCounts | evaluation/metrics.py:77-78 | the keys are the categories present (no NaN), each with its positive number of occurrences |
| Metrics.ContingencyTable | evaluation/metrics.py:77-82 | rows are exactly the union of the categories of both columns; each cell is the category's count on that side, 0 when absent; no row is zero on both sides |
| Metrics.ContingencyColumnTotals | evaluation/metrics.py:77-82 | the Population column sums to the number of non-missing population values and the Sample column to the number of non-missing sample values |
| Evaluations.DefaultConfiguration | evaluation/evaluations.py:13-39 | constructed without arguments, both strategies hold alpha = tolerance = 0.05, and the distribution comparison has both analytics modes off |
| Evaluations.ReprIsClassName | evaluation/evaluations.py:17-18 | two evaluation strategies print alike exactly when they are of the same class, whatever their thresholds and flags |
| Evaluations.NewEvaluationStrategy | evaluation/evaluations.py:13-15 | the base strategy stores alpha and tolerance as given, 0.05 each by default |
| Evaluations.NewDistributionComparisson | evaluation/evaluations.py:30-39 | raises NotImplementedError for category-based analytics first, then for time-series analytics; succeeds exactly when both flags are off, storing alpha, tolerance and the flags; the defaults are 0.05, 0.05, off and off |
| Evaluations.EvalFieldsSucceeds | evaluation/evaluations.py:58-74 | a group's comprehension succeeds exactly when the sample's group has every population name, and then its keys are exactly the group's names |
| Evaluations.EvalFieldsScores | evaluation/evaluations.py:58-74 | each name is scored from the last population column of that name and the first same-named column of the sample's group (see Left out for repeated labels) |
| Evaluations.EvalFieldsFailure | evaluation/evaluations.py:58-74 | a failing comprehension raises KeyError naming the first population column whose name the sample's group lacks |
| Evaluations.RandomGroupScores | evaluation/evaluations.py:64-80 | a group scored by RandomValueAssignment gives every name the first draw for that name, a value in [0, 1) |
| Evaluations.EvalCategoricFields | evaluation/evaluations.py:70-74 | succeeds iff the sample has every object column; keys are exactly the object columns; each score is that column's first random draw in [0, 1) |
| Evaluations.EvalDatetimeFields | evaluation/evaluations.py:64-68 | the same for the time-zone aware datetime columns |
| Evaluations.KsGroupScores | evaluation/evaluations.py:58-62 | a numeric group gives each name the KS statistic of the sample's values against its last population column (see Left out for repeated labels) |
| Evaluations.EvalNumericFields | evaluation/evaluations.py:58-62 | succeeds iff the sample has every numeric column; keys are exactly the numeric columns; each score is the statistic only of the KS test (see Left out for repeated labels) |
| Evaluations.Evaluate | evaluation/evaluations.py:20-56 | the base class returns None; a distribution comparison succeeds exactly when the sample has every scored column in its group, and then its keys are exactly the categorical, datetime and numeric columns |
| Evaluations.Merge | evaluation/evaluations.py:55 | the merge has the keys of all three groups; on a clash numeric wins over datetime and datetime over categorical; the first failing group's error is raised |
| Evaluations.EvaluateFailure | evaluation/evaluations.py:41-74 | a failed evaluation raises KeyError for a scored population column that the sample's group lacks |
| Evaluations.GroupsPartitionScored | evaluation/evaluations.py:43-55 | the three dtype groups together are exactly the scored names; the sample is evaluable exactly when each group finds all its names |
| Evaluations.NonNumericScoresAreRandom | evaluation/evaluations.py:64-80 | a score outside the numeric group is the column's datetime draw if it is a datetime name and its categorical draw otherwise, in [0, 1); chi-squared is never used |
| Core.FromNames | evaluation/core.py:58 | the comprehension has exactly the population's column names as keys, each with an empty list |
| Core.FromNamesInColumnOrder | evaluation/core.py:58 | with distinct column names, the dict's keys come in the order of the population's columns |
| Core.InitColumns | evaluation/core.py:58-59 | the dict before the sweep has the column names plus `SampleSize`, all lists empty, and a first key |
| Core.InitColumnsShaped | evaluation/core.py:58-59 | its keys in order are exactly its dict keys, each once |
| Core.RangeShape | evaluation/core.py:61 | `range(start, stop, step)` has i-th element start + i*step, all below stop, and stops at the first one that is not |
| Core.SampleSizesAreMultiples | evaluation/core.py:61 | the visited sizes are step, 2*step, ... strictly below the population size, strictly increasing, and none when step >= the population size |
| Core.EvaluatorOf | evaluation/core.py:77-83 | the evaluation strategies' `evaluate` scores only population columns, whatever the population |
| Core.TrialScoresColumns | evaluation/core.py:62-68 | a successful trial scores only population columns, so each score finds its list |
| Core.TrialsOf | evaluation/core.py:62-63 | the trial at size n samples with exactly n and the caller's seed, then evaluates the sample against the population; its scores name population columns |
| Core.Record | evaluation/core.py:65-68 | recording a trial keeps the dict's keys and their order |
| Core.AppendScores | evaluation/core.py:65-68 | the append loop leaves the dict that `Record` describes |
| Core.SweepFrom | evaluation/core.py:61-68 | a completed sweep keeps the dict ready, its keys and their order |
| Core.SweepStep | evaluation/core.py:61-68 | one successful turn records the trial and continues at n + step |
| Core.SweepStepFails | evaluation/core.py:61-68 | one failing turn ends the sweep with the trial's error |
| Core.DisplayName | evaluation/core.py:70-73 | the label is the class name followed by the alias when the alias is non-empty, the class name alone when it is empty; a strategy without `alias` raises AttributeError |
| Core.Labelled | evaluation/core.py:70-73 | adding the label column keeps the dict's first key |
| Core.StrategyTableSweepFails | evaluation/core.py:51-75 | a failed sweep makes the strategy's table fail with its error |
| Core.StrategyTableSweepSucceeds | evaluation/core.py:51-75 | after a completed sweep the table is the labelled dict as a data frame, or AttributeError without an alias |
| Core.Evaluation.constructor | evaluation/core.py:15-20 | the object stores the population and the strategies, and `eval` starts as None |
| Core.Evaluation.SweepOf | evaluation/core.py:51-63 | the sweep of one strategy scores only population columns |
| Core.Evaluation.ApplySamplingStrategy | evaluation/core.py:85-91 | the strategy samples the population with exactly n and the caller's random_state |
| Core.Evaluation.EvaluateSample | evaluation/core.py:77-83 | the sample is evaluated against the whole population |
| Core.Evaluation.EvaluateSamplingStrategy | evaluation/core.py:51-75 | the loop returns exactly the strategy's table (see the CoreProperties rows for what it holds) |
| Core.Evaluation.Run | evaluation/core.py:22-37 | the loop returns exactly `RunTable`; on success `eval` holds the returned table; on failure `eval` is unchanged; `step` defaults to 50 and `random_state` to None |
| CoreProperties.SweepSucceeds | evaluation/core.py:61-68 | a sweep completes exactly when every trial succeeds |
| CoreProperties.SweepFailsAtFirstFailure | evaluation/core.py:61-68 | a sweep raises the error of its first failing trial |
| CoreProperties.RecordScore | evaluation/core.py:59-68 | recording a trial appends to a column's list the size, if the column is `SampleSize`, then the column's score, if the trial scored it; a population column named `SampleSize` shares its list with the sizes and receives both |
| CoreProperties.SweepSizes | evaluation/core.py:59-65 | after the sweep `SampleSize` is the list of visited sizes in visit order, provided no trial scores a column named `SampleSize` |
| CoreProperties.SweepScores | evaluation/core.py:67-68 | after the sweep each column's list other than `SampleSize` holds, trial by trial, the score each trial gave it |
| CoreProperties.ScoreCellsCovered | evaluation/core.py:67-68 | when every trial scores a column, its list has one entry per size, entry i being trial i's score |
| CoreProperties.ScoreCellsShort | evaluation/core.py:67-68 | a trial that leaves a column unscored leaves that column's list shorter than the number of sizes |
| CoreProperties.CoveredSweepLists | evaluation/core.py:58-68 | after a covered sweep the dict holds one list per column plus `SampleSize`, all as long as the sizes, entry i recording size i and its scores; no population column may be named `SampleSize` or `SamplingStrategy` |
| CoreProperties.LabelledTable | evaluation/core.py:70-75 | the label column repeats the label once per entry, and the frame has one row per entry holding the label and entry i of every other list; a list already under `SamplingStrategy` is replaced in its place, otherwise the label column comes last |
| CoreProperties.CoveredTable | evaluation/core.py:51-75 | a covered sweep of a strategy with an alias gives a table with one row per size, columns the population's then `SampleSize` then `SamplingStrategy`, each row recording its size, label and scores |
| CoreProperties.TableNeedsCover | evaluation/core.py:58-75 | a table exists only if the strategy has an alias and every trial succeeds and scores every column; a short list makes `pd.DataFrame` raise |
| CoreProperties.StrategyTableSucceeds | evaluation/core.py:51-75 | the strategy's table exists exactly when the strategy has an alias and every trial succeeds and scores exactly the population's columns |
| CoreProperties.FiveHundredByHundred | evaluation/core.py:61 | a 500-row population with step 100 is sampled at 100, 200, 300 and 400 |
| CoreProperties.StrategyTableRows | evaluation/core.py:61-75 | row i of a strategy's table records size (i + 1) * step, the label and the scores at that size; the table is empty exactly when step >= the population size; no population column may be named `SampleSize` or `SamplingStrategy` |
| CoreProperties.BaseStrategyTableFails | evaluation/core.py:63-68 | with the base evaluation strategy, whose `evaluate` returns None, the first sample makes the table raise AttributeError |
| CoreProperties.MissingColumnFailsTable | evaluation/core.py:62-68 | a sample lacking a scored column in its dtype group makes the strategy's table fail |
| CoreProperties.UnscoredColumnFailsTable | evaluation/core.py:58-75 | a population column outside the three scored dtype groups makes the strategy's table fail once a size is visited; with every sample evaluated and an alias present, the error is `pd.DataFrame`'s ValueError; no population column may be named `SampleSize` or `SamplingStrategy` |
| CoreProperties.CollectInOrder | evaluation/core.py:31-33 | when every strategy's table succeeds, they are collected in strategy order |
| CoreProperties.CollectFailsAtFirstFailure | evaluation/core.py:31-33 | the collection raises the error of the first strategy whose table fails |
| CoreProperties.AllRowsCount | evaluation/core.py:35 | the stacked rows number the sum of the tables' row counts |
| CoreProperties.UnionColumnsHolds | evaluation/core.py:35 | the concatenated columns keep the first table's columns as a prefix and hold exactly the columns of both |
| CoreProperties.ConcatAllStacks | evaluation/core.py:35 | `pd.concat` stacks the rows in table order; its columns start with the first table's and are exactly those of all tables |
| CoreProperties.RunStacksTables | evaluation/core.py:29-37 | with at least one strategy and every table succeeding, `run` returns their concatenation in strategy order, with as many rows as all tables together |
| CoreProperties.RunFails | evaluation/core.py:29-37 | `run` raises the first failing strategy's error, and ValueError when there are no strategies |

## Left out

- `Evaluation.plot` (evaluation/core.py:39-48) is left out: it displays plotly figures from an `_plot` method that no modelled file defines.
- The `print` calls of the `_eval_*` helpers are left out, because they are output only.
- The numerics of `stats.ks_2samp` and `stats.chi2_contingency` are left out. They are function parameters, and only the first two results (statistic, p) of `chi2_contingency` are modelled.
- Metrics.Tests: `ks_2samp` and `chi2_contingency` are assumed never to raise and always to return two real numbers. In SciPy, `chi2_contingency` raises ValueError for an empty table or a zero expected frequency (a column with only missing values), `ks_2samp` may raise on empty data, and either may return NaN. `Evaluations.Evaluate` (success exactly when the sample is evaluable), `Evaluations.EvaluateFailure` (KeyError is the only error) and `Metrics.ChiSquaredMeasure` rely on this assumption.
- `random.random()` is a parameter giving two numbers in [0, 1) per dtype group and column name. The model therefore does not capture that two evaluations of the same column draw different numbers.
- The concrete sampling strategies of evaluation/sampling.py and the driver eval.py are not part of this model. A sampler is a function of (frame, n, random_state) whose result or error the sweep passes on.
- pandas dtype inference is left out. Each column carries its dtype group explicitly.
- Metrics.ValueCounts, Metrics.ContingencyTable: categories are compared by `Value` equality. Python's `1 == 1.0 == True` would make `value_counts` on an object column merge a number and a flag of equal value; the model counts them apart.
- Dict insertion order is modelled only for the result dict (`Columns.order`). The evaluation results are maps, because only their keys and values matter to the sweep.
- pandas row indexes, NaN filling of missing cells by `pd.concat`, and cell dtypes are left out. A table is its column list and its rows.
- The strategies are a sequence. A one-shot iterable that `run` would exhaust is not modelled.
- Core.StrategyTable: requires the evaluator to score only population columns (`ScoresColumns`). A score under another name would raise KeyError in the source, and the model does not cover that case. Both evaluation strategies of the package meet the requirement (`Core.EvaluatorOf`).
- Core.RunTable: the same requirement as `Core.StrategyTable`.
- CoreProperties.CoveredTable, CoreProperties.TableNeedsCover and CoreProperties.StrategyTableSucceeds: these assume no population column is named `SampleSize` or `SamplingStrategy`. Such a column would share its list with the one the sweep adds.
- CoreProperties.SweepSizes: assumes no trial scores a column named `SampleSize`. When one does, that list interleaves sizes and scores (`CoreProperties.RecordScore` states one turn of this), and the model does not state the whole list.
- CoreProperties.SweepScores: states the list of every column except `SampleSize`, for the same reason.
- CoreProperties.CoveredSweepLists: assumes no population column is named `SampleSize` or `SamplingStrategy`, like `CoreProperties.CoveredTable`.
- CoreProperties.UnscoredColumnFailsTable: assumes no population column is named `SampleSize` or `SamplingStrategy`, like `CoreProperties.CoveredTable`.
- CoreProperties.StrategyTableRows: assumes no population column is named `SampleSize` or `SamplingStrategy`, like `CoreProperties.CoveredTable`.
- Evaluations.EvalFieldsScores, Evaluations.KsGroupScores, Evaluations.EvalNumericFields: these state the score for a population whose column labels are unique within a dtype group. Under a repeated label, pandas `population[column]` and `sample[column]` select every same-named column as a frame, and `ks_2samp` then receives frames. The model does not capture this. It pairs the last population column of the name with the first sample column of the name (`Tables.Lookup`).
