# Sherpa search algorithms in Dafny

This project models the bookkeeping and decision rules of the
hyperparameter search algorithms in `sherpa/algorithms.py`, and proves
properties about them:

- `RandomSearch` and `GridSearch`: a suggestion budget and the walk over
  the Cartesian grid of Choice values.
- `LocalSearch`: replayed seed configurations, then random ones, then a
  hill climb from the best row that resamples one parameter until the
  configuration is new.
- `MedianStoppingRule.should_trial_stop`: stop a trial whose best
  objective is worse than the NaN-ignoring median of its peers' bests.
- `BayesianOptimization`, without the Gaussian process:
  - the call counter and its budget;
  - the seed configurations (grid points of the Choice parameters, each
    completed with random values, then random padding);
  - the completed-row filter;
  - `_get_design_matrix`, which one-hot encodes Choice parameters and
    records per-column metadata (`xtypes`, `xnames`, `xscales`,
    `xbounds`).
- `PopulationBasedTraining`:
  - the generation counter and `load`;
  - choosing a parent from the best third of the previous generation;
  - the clamped perturbation of its values;
  - checkpoint lineage strings.
- `Genetic`: a budget, two parents from the best third (random parents
  while fewer than ten trials have completed), and a per-parameter choice
  between mutation, the first parent and the second parent.

Every random draw is an input of the model:
- parameter samples (`draws`, `gridDraws`, `padDraws`, `mutants`);
- `numpy.random` choices and indices (`idx`, `origins`, `ds`, `moves`);
- the order of the keys of a dictionary (`keys`);
- the key order sklearn's `ParameterGrid` uses (`keyOrder`, any
  permutation of the parameters);
- the row order of a pandas sort (`order`, any permutation sorted by
  objective).

NaN objectives are `None`. Python exceptions are `Err` values of a
`Result`. The classes keep the fields the source updates in place. Loops
become methods with invariants, proved against specification functions
that carry the lemmas.

Modules, one per file:

| Module | Contents |
|---|---|
| `Common` | values, parameters, rows, binding of draws |
| `Sampling` | RandomSearch, GridSearch, the grid |
| `Local` | LocalSearch |
| `Stopping` | MedianStoppingRule |
| `Ranking` | rank of a row in a table sorted by objective |
| `Design` | the column layout of the design matrix |
| `Bayesian` | BayesianOptimization |
| `Population` | PopulationBasedTraining |
| `Evolution` | Genetic |

The budget test of `BayesianOptimization.get_suggestion` is modelled as
written: it refuses the call whose counter equals `max_num_trials`, and
only that one (`BudgetAsWritten`, `BudgetCounterexample`).

## Model

| member | source | states |
|---|---|---|
| Common.Bind | sherpa/algorithms.py:59 | The suggestion `{p.name: p.sample()}` has exactly the parameter names as keys. When names are distinct, each name maps to its own draw. |
| Common.BindLegal | sherpa/algorithms.py:59 | Binding draws that lie in each parameter's range gives a configuration whose every value is legal for its parameter. |
| Common.Project | sherpa/algorithms.py:121-123 | Selecting the parameter columns of a row keeps exactly the parameter names, with the row's values. |
| Common.Exhausted | sherpa/algorithms.py:55 | A budget of `None` or `0` is never spent. A positive budget `n` is spent iff the counter is at least `n`. |
| Common.CompletedRows | sherpa/algorithms.py:340 | A row survives the filter iff it is in the table and its status is not INTERMEDIATE. The result is empty iff every row is INTERMEDIATE. |
| Common.NatToString | sherpa/algorithms.py:477 | `str(count)` is a non-empty string of decimal digits. |
| Common.ParseNat | sherpa/algorithms.py:483 | `int(s)` succeeds exactly on non-empty digit strings. |
| Common.ParseNatToString | sherpa/algorithms.py:483-484 | `int(str(n)) == n`: the save number round-trips through its string. |
| Sampling.BudgetedRun | sherpa/algorithms.py:55-58 | With a budget `n > 0`, call `i` from counter `count` succeeds iff `count + i < n`. The counter ends at `min(count + k, n)` and never passes `n`. |
| Sampling.UnlimitedRun | sherpa/algorithms.py:55 | A budget of `None` or `0` is no budget: every call succeeds and the counter counts every call. |
| Sampling.BudgetStep | sherpa/algorithms.py:55-58 | One call raises the counter by at most one. It never lifts the counter past a positive budget it has not yet passed, and it always counts the call when there is no budget. |
| Sampling.RandomSearch.constructor | sherpa/algorithms.py:50-52 | A fresh sampler keeps its budget and starts at count 0. |
| Sampling.RandomSearch.GetSuggestion | sherpa/algorithms.py:54-59 | Once the budget is spent it returns None and keeps the counter. Otherwise it returns the binding of the draws and counts one more call. |
| Sampling.Expand | sherpa/algorithms.py:84 | Extending each partial grid point by each value of one parameter gives `len(values) * len(rest)` points. |
| Sampling.Product | sherpa/algorithms.py:84 | The grid has as many points as the product of the range sizes. |
| Sampling.ExpandMembers | sherpa/algorithms.py:84 | A point is in the extended grid iff it maps the new name to one of its values and the rest of it is a point of the smaller grid. |
| Sampling.ProductKeys | sherpa/algorithms.py:84 | Every grid point has exactly the parameter names as keys. |
| Sampling.ProductMembers | sherpa/algorithms.py:84 | A configuration is a grid point iff it maps every parameter, and nothing else, to a value of that parameter's range. |
| Sampling.ProductDistinct | sherpa/algorithms.py:84 | No grid point repeats when names and range values are distinct. |
| Sampling.GridOfKeyOrder | sherpa/algorithms.py:83-84 | Whatever key order `ParameterGrid` uses, the grid holds the same points. |
| Sampling.GridSearch.constructor | sherpa/algorithms.py:76-78 | Starts at count 0 with no grid. |
| Sampling.GridSearch.GetSuggestion | sherpa/algorithms.py:80-90 | A non-Choice parameter gives AssertionError and changes nothing. The first call builds the grid. Each call hands out the next point and counts it. Once all points are out, it returns None and the counter stays at the grid size. |
| Local.ArgBest | sherpa/algorithms.py:115-116 | argmin/argmax skipping NaN: None iff every objective is NaN. Otherwise the index of a non-NaN objective that no row beats, and the first such index. |
| Local.BestIndex | sherpa/algorithms.py:114-123 | An empty table gives ValueError. A table of NaN objectives gives KeyError (the NaN label fails `.loc`). Otherwise the index of a best row. |
| Local.Perturbed | sherpa/algorithms.py:130-132 | Resampling one parameter of the best configuration changes that parameter only. |
| Local.FirstUnseen | sherpa/algorithms.py:129-133 | A found configuration is unseen. DrawsExhausted is returned only when every supplied retry hits a tried configuration. |
| Local.ClimbResult | sherpa/algorithms.py:124-135 | A result is always unseen. An unseen `best` is returned as it is. An error occurs only when `best` was already tried. |
| Local.Climb | sherpa/algorithms.py:129-133 | The resample-until-unseen loop returns exactly ClimbResult of its moves. |
| Local.FirstUnseenIsMove | sherpa/algorithms.py:129-133 | The retries stop at the first move whose perturbation matches no row. Every earlier move gave a configuration already in the table. |
| Local.FirstUnseenExhausted | sherpa/algorithms.py:129-133 | The supplied moves run out iff every one of them yields a configuration already in the table. |
| Local.BestIsSeen | sherpa/algorithms.py:121-129 | The best row's own configuration is in the table, so the loop runs at least once. |
| Local.ClimbNew | sherpa/algorithms.py:124-135 | The climb returns a configuration that matches no row. It is the start or one single-parameter perturbation of it, and it is not the start when the start was seen. |
| Local.LocalSearch.constructor | sherpa/algorithms.py:97-102 | Keeps seeds and seed count, starts at 0, and gives the fallback sampler a budget of `num_random_seeds`. |
| Local.LocalSearch.GetSuggestion | sherpa/algorithms.py:104-135 | Calls `1..len(seeds)` return the seeds in order. The next `num_random_seeds` calls return random draws. Later calls climb from the best row. On an empty table they fall back to the sampler, whose budget is then spent unless it is 0. A KeyError propagates. |
| Local.ClimbingSuggestion | sherpa/algorithms.py:121-135 | A hill-climbing suggestion differs from the best row's parameters in exactly one resampled parameter, and it matches no row of the results. |
| Stopping.TrialRows | sherpa/algorithms.py:192 | A trial's rows are empty iff no row carries its id. |
| Stopping.TrialRowsMembers | sherpa/algorithms.py:192 | A row is among a trial's rows iff it is in the table with that id. |
| Stopping.MaxIteration | sherpa/algorithms.py:194 | The max iteration is None iff there are no rows. Otherwise it is attained by a row and bounds every row. |
| Stopping.BestObjective | sherpa/algorithms.py:198 | NaN-skipping min/max: None iff every objective is NaN. Otherwise attained by a row and no worse than any non-NaN objective. |
| Stopping.RowsUpToKeepsAll | sherpa/algorithms.py:210-214 | Filtering a trial's rows by its own max iteration keeps every row. |
| Stopping.OtherTrialIds | sherpa/algorithms.py:204 | The peer ids are distinct, and they are exactly the ids in the table other than the target's. |
| Stopping.PeerEntry | sherpa/algorithms.py:207-216 | A peer is skipped iff it has rows and all of them are below `min_iterations`. A value it contributes is an objective of one of its rows. |
| Stopping.ComparisonVals | sherpa/algorithms.py:204-216 | There is at most one value per peer, and each value is what PeerEntry gives for some peer. |
| Stopping.ComparisonValsStep | sherpa/algorithms.py:207-216 | Each peer adds its best, which may be NaN, or nothing when it has not reached `min_iterations`. |
| Stopping.Insert | sherpa/algorithms.py:222 | Inserting into a sorted list keeps it sorted and adds exactly the one value. |
| Stopping.Sort | sherpa/algorithms.py:222 | The sort behind the median is sorted and a permutation of its input. |
| Stopping.Present | sherpa/algorithms.py:222 | The non-NaN peer values are exactly those present, and there are none iff all are NaN. |
| Stopping.MiddleOf | sherpa/algorithms.py:222 | The middle of a sorted list lies between its first and last value. |
| Stopping.NanMedian | sherpa/algorithms.py:222 | `nanmedian` is NaN iff every value is NaN. |
| Stopping.MedianBounds | sherpa/algorithms.py:222 | A defined `nanmedian` lies between two non-NaN peer values. |
| Stopping.MedianOfTwo | sherpa/algorithms.py:222 | The median of two values is their mean. |
| Stopping.StopDecision | sherpa/algorithms.py:189-202 | Not stopped: an empty table, a trial without rows, a trial below `min_iterations`. Stopped: a trial with rows whose objectives are all NaN once it reaches `min_iterations`. |
| Stopping.TooFewPeers | sherpa/algorithms.py:218-219 | Fewer qualifying peers than `min_trials`, NaN peers included: not stopped. |
| Stopping.StopIffWorseThanMedian | sherpa/algorithms.py:218-226 | With enough peers, the trial stops iff the median is defined and its best is strictly worse than the median. |
| Stopping.BestTrialKept | sherpa/algorithms.py:221-226 | A trial no worse than any peer is never stopped. |
| Stopping.WorstTrialStopped | sherpa/algorithms.py:221-226 | With enough peers, one of them non-NaN, a trial strictly worse than every non-NaN peer is stopped. |
| Stopping.NaNPeersNeverStop | sherpa/algorithms.py:222-224 | When every peer's best is NaN, the median is NaN and the trial is not stopped. |
| Stopping.MedianStoppingRule.constructor | sherpa/algorithms.py:175-177 | Keeps `min_iterations` and `min_trials`. |
| Stopping.MedianStoppingRule.CollectComparisonVals | sherpa/algorithms.py:204-216 | The peer loop builds exactly ComparisonVals. |
| Stopping.MedianStoppingRule.ShouldTrialStop | sherpa/algorithms.py:179-226 | Returns exactly StopDecision, whose cases the lemmas above characterise. |
| Stopping.ExampleOtherIds | tests/test_algorithms.py:14-21 | In the three-trial table of the test, the peers of trial 3 are trials 1 and 2. |
| Stopping.ExamplePeerVals | tests/test_algorithms.py:14-21 | The peers contribute their objectives when `min_iterations <= 3`, and nothing otherwise. |
| Stopping.ExampleDecisions | tests/test_algorithms.py:13-39 | Objectives `o1 < o2 < o3` with target 3: stopped for `(2, 1)`; not stopped for `min_iterations=4` or `min_trials=4`. |
| Ranking.CountBetterPermutation | sherpa/algorithms.py:503-505 | How many rows beat a value does not depend on their order. |
| Ranking.TopRank | sherpa/algorithms.py:503-505 | In a table sorted by objective, at most `idx` rows beat row `idx`. |
| Ranking.EliteRank | sherpa/algorithms.py:596-598 | Row `idx` of a sorted permutation is a row of the population, and at most `idx` of its rows beat it. |
| Design.OneHotColumns | sherpa/algorithms.py:378-382 | One indicator column per level of a Choice, in range order. |
| Design.ParamColumns | sherpa/algorithms.py:364-382 | Every column of a parameter reads that parameter. A non-Choice parameter has exactly one numeric column. A Choice has only indicator columns, and none iff it has at most one level. |
| Design.Columns | sherpa/algorithms.py:364-382 | Every numeric column belongs to a declared non-Choice parameter, and every non-Choice parameter has its numeric column. |
| Design.ColumnCount | sherpa/algorithms.py:361-383 | The matrix has one column per level of each Choice with more than one level plus one per other parameter, and fits `num_features`. |
| Design.ColumnsPrefix | sherpa/algorithms.py:364-382 | Each parameter's columns follow those of the parameters before it. |
| Design.ColumnsOfParam | sherpa/algorithms.py:364-382 | The columns of the parameters up to one parameter are a prefix of all columns. |
| Design.TypesAt | sherpa/algorithms.py:371-380 | `xtypes` is keyed by every column index. Each entry is 'continuous' only for a Continuous parameter's column, 'discrete' otherwise. |
| Design.NamesAt | sherpa/algorithms.py:373-381 | `xnames` is keyed by every column index, and holds the parameter name or `name_i`. |
| Design.XTypes | sherpa/algorithms.py:371-380 | `xtypes` is keyed by exactly the column positions. An entry is 'continuous' iff its column is a Continuous parameter's. |
| Design.XNames | sherpa/algorithms.py:373-381 | `xnames` is keyed by exactly the column positions. A numeric column is named after its parameter. |
| Design.XScales | sherpa/algorithms.py:372 | `xscales` is keyed by exactly the numeric columns and holds their parameter's scale. |
| Design.ScalesAt | sherpa/algorithms.py:372 | `xscales` is keyed exactly by the non-Choice columns and holds their parameter's scale. |
| Design.ScalesSkipIndicators | sherpa/algorithms.py:378-382 | Indicator columns record no scale. |
| Design.XBoundsPrefix | sherpa/algorithms.py:374-375 | Each parameter appends its bounds to `xbounds` in declaration order. |
| Design.XBounds | sherpa/algorithms.py:374-375 | `xbounds` has at most one entry per parameter. Each entry is the first two bounds of a Continuous parameter. |
| Design.BoundsPerContinuousColumn | sherpa/algorithms.py:371-375 | `xbounds` has one entry per 'continuous' column. |
| Design.OneHotNamesDistinct | sherpa/algorithms.py:381 | The indicator columns of one parameter have distinct names. |
| Design.Cell | sherpa/algorithms.py:368-379 | An indicator cell is 1.0 iff the value equals the level, 0.0 otherwise. In the model a numeric cell fails iff the value is a string, whether or not numpy could parse it (see Left out). |
| Design.ColumnError | sherpa/algorithms.py:368-375 | An indicator column never fails, and the only errors are ValueError and IndexError. A numeric column that does not fail holds a number in every row. A Continuous one also has the two bounds `xbounds` needs. |
| Design.FirstError | sherpa/algorithms.py:364-376 | No error iff no column fails. |
| Design.FirstErrorAppend | sherpa/algorithms.py:364-382 | The first error of the columns so far stops the fill before later columns. |
| Design.ColumnSources | sherpa/algorithms.py:364-382 | Every column reads a declared parameter. |
| Design.Indicators | sherpa/algorithms.py:379 | The indicator row of a value is 1.0 exactly at the levels equal to it. |
| Design.OneHotCells | sherpa/algorithms.py:378-379 | The cells of a Choice's columns for a row are the indicator row of its value. |
| Design.SumOfIndicators | sherpa/algorithms.py:379 | With distinct levels, the indicators of a value sum to 1.0 if it is a level and 0.0 otherwise. |
| Design.DecodeIndicators | sherpa/algorithms.py:379 | Decoding an indicator row gives a level of the range or nothing. |
| Design.DecodeEncode | sherpa/algorithms.py:379 | Decoding the indicator row of a value gives the value back iff it is a level. |
| Design.NumericCellLinear | sherpa/algorithms.py:367-368 | A linear-scale parameter has one column holding its value unchanged. |
| Bayesian.ColumnValues | sherpa/algorithms.py:368-370 | One value per row, each the cell of that row. |
| Bayesian.FillColumn | sherpa/algorithms.py:368-379 | Writing column `col` sets that column to the values and leaves every other entry as it was. |
| Bayesian.LeadingColumns | sherpa/algorithms.py:383 | `x[:, :col]` keeps every row and the first `col` columns. |
| Bayesian.ParamRows | sherpa/algorithms.py:341 | One configuration per completed row: its parameter columns. |
| Bayesian.Objectives | sherpa/algorithms.py:343 | `y` is the objective column of the completed rows, in order. |
| Bayesian.ChoiceParams | sherpa/algorithms.py:327 | Exactly the Choice parameters. |
| Bayesian.OtherParams | sherpa/algorithms.py:328 | Exactly the non-Choice parameters. |
| Bayesian.SplitNames | sherpa/algorithms.py:327-328 | Both halves have distinct names, and no name is in both. |
| Bayesian.GridSeeds | sherpa/algorithms.py:326-333 | One grid seed per grid point. There are none without Choice parameters, because the empty grid point is falsy. |
| Bayesian.GridSeedsIndex | sherpa/algorithms.py:329-333 | Grid seed `i` is grid point `i` updated with random draw `i` of the other parameters. |
| Bayesian.PadSeeds | sherpa/algorithms.py:335-337 | The padding is random draw `j` for position `j`, as many as are missing. |
| Bayesian.Seeds | sherpa/algorithms.py:325-337 | The grid seeds, padded up to `num_random_seeds`. |
| Bayesian.SeedAt | sherpa/algorithms.py:325-337 | The grid seeds come first, in grid order. |
| Bayesian.GridSeedAt | sherpa/algorithms.py:329-333 | Each grid seed is a legal configuration of all parameters that agrees with its grid point. |
| Bayesian.SeedsLegal | sherpa/algorithms.py:325-337 | Every seed is a legal configuration of all parameters. |
| Bayesian.SeedsCoverGrid | sherpa/algorithms.py:326-333 | With Choice parameters, every combination of their values appears in some seed. |
| Bayesian.NoChoiceSeeds | sherpa/algorithms.py:329-337 | Without Choice parameters, the seeds are exactly `num_random_seeds` random draws. |
| Bayesian.GridExhausted | sherpa/algorithms.py:330 | The seeding loop stops only after the last grid point, or at once when there are no Choice parameters. |
| Bayesian.NonEmptyPoint | sherpa/algorithms.py:330 | With Choice parameters no grid point is empty, so none ends the loop early. |
| Bayesian.NextPoint | sherpa/algorithms.py:333 | The next call of the grid searcher hands out the next point or reports exhaustion. |
| Bayesian.Response | sherpa/algorithms.py:299-323 | A call past the budget test never answers None. While seeds remain, the answer is a seed. An error arises only after the seeds, once some trial has completed, and it is the design-matrix error. |
| Bayesian.BudgetAsWritten | sherpa/algorithms.py:294-296 | With budget `n`, a call is refused iff its incremented counter equals `n`. Calls after it pass again. |
| Bayesian.BudgetHit | sherpa/algorithms.py:295 | The refusing test holds exactly at the first counter at which the `>=` test of the other samplers holds. |
| Bayesian.BudgetCounterexample | sherpa/algorithms.py:294-296 | Budget 2 from a fresh counter: the first call passes, the second is refused, the third passes. |
| Bayesian.PairsError | sherpa/algorithms.py:339-344 | KeyError when a completed row lacks a parameter column. Otherwise the first failing column of the design matrix. |
| Bayesian.FillOneHot | sherpa/algorithms.py:378-382 | Fills the indicator columns of a Choice and extends `xtypes`/`xnames`, leaving `xbounds` alone. |
| Bayesian.FillIndicator | sherpa/algorithms.py:379-382 | Fills one indicator column and records its type and name. |
| Bayesian.FillNumeric | sherpa/algorithms.py:367-376 | Fills a non-Choice column, or returns its error. Records type, scale and name, and appends bounds for a Continuous parameter. |
| Bayesian.FillChoice | sherpa/algorithms.py:365-382 | A single-valued Choice adds no column. Otherwise its indicator columns are filled. |
| Bayesian.FillParam | sherpa/algorithms.py:364-382 | Filling parameter `k` extends the filled prefix and the metadata to the columns of parameters `0..k`, or returns the error of its columns. |
| Bayesian.FillStep | sherpa/algorithms.py:364-382 | One parameter of the loop: its error is the matrix's first error, or the filled prefix grows by its columns. |
| Bayesian.FillColumns | sherpa/algorithms.py:362-382 | The loop returns the first error of the columns. Without one, every column is filled and the metadata is complete. |
| Bayesian.FilledEncodes | sherpa/algorithms.py:383 | The leading columns of a filled array form the design matrix. |
| Bayesian.DesignMatrix | sherpa/algorithms.py:355-383 | Returns the first column error, or a fresh matrix with one row per input row and one column per layout column, each entry its cell, together with the complete metadata. |
| Bayesian.BayesianOptimization.constructor | sherpa/algorithms.py:269-287 | Keeps the settings, starts at count 0 with no seeds and no metadata, and gives the random sampler no budget. |
| Bayesian.BayesianOptimization.Load | sherpa/algorithms.py:289-290 | Sets the counter and nothing else. |
| Bayesian.BayesianOptimization.GetDesignMatrix | sherpa/algorithms.py:355-383 | Fails iff a column fails, with that error. Otherwise returns the design matrix and records the metadata of its columns. |
| Bayesian.BayesianOptimization.GridSeed | sherpa/algorithms.py:331 | One grid point updated with a random draw of the other parameters is grid seed `i`. |
| Bayesian.BayesianOptimization.GridPhase | sherpa/algorithms.py:326-333 | The first loop leaves exactly the grid seeds. The counter and the column metadata are unchanged. |
| Bayesian.BayesianOptimization.PadPhase | sherpa/algorithms.py:335-337 | The second loop appends random draws until `num_random_seeds` is reached. The counter and the column metadata are unchanged. |
| Bayesian.BayesianOptimization.GenerateSeeds | sherpa/algorithms.py:325-337 | `_generate_seeds` leaves exactly Seeds and does not touch the counter or the column metadata. |
| Bayesian.BayesianOptimization.GetInputOutputPairs | sherpa/algorithms.py:339-344 | Fails iff PairsError does. Otherwise `x` is the design matrix of the completed rows, `y` their objectives, and `xtypes`, `xnames`, `xscales` and `xbounds` are those of the parameters' columns. A missing parameter column raises before the metadata is touched. |
| Bayesian.BayesianOptimization.Respond | sherpa/algorithms.py:303-323 | While `count <= len(seeds)`, returns seed `count - 1`. Then a random draw while nothing has completed. Then the design-matrix error or the model's pick. The seed and random answers leave the column metadata unchanged. A model answer records the metadata of the parameters' columns. |
| Bayesian.BayesianOptimization.GetSuggestion | sherpa/algorithms.py:292-323 | Counts the call. The refused call returns None and changes nothing else, the column metadata included. Any other call records `lower_is_better`, generates the seeds on the first call that finds none, and answers and updates the metadata as Respond does. |
| Population.GenerationAfter | sherpa/algorithms.py:467-470 | `k` calls raise the generation by at most `k`, and never lower it. |
| Population.GenerationStep | sherpa/algorithms.py:467-470 | Trial `n + 1` opens a new generation iff `(n + 1) % size == 1`. |
| Population.GenerationTracks | sherpa/algorithms.py:466-470 | From the generation of trial `n`, `k` more calls reach the generation of trial `n + k`. |
| Population.FreshGenerations | sherpa/algorithms.py:454-470 | From a fresh state, after `k` calls the generation is `(k - 1) // size + 1`. |
| Population.LoadGeneration | sherpa/algorithms.py:464 | `load(n)` as written picks the generation `g >= 1` with `(g - 1) * size <= n < g * size`. |
| Population.LoadAgreesUnlessMultiple | sherpa/algorithms.py:462-464 | `load(n)` as written agrees with a fresh run of `n` trials iff `n` is not a multiple of the population size. |
| Population.LoadCounterexample | sherpa/algorithms.py:462-470 | Population 2, `load(2)`, one more call: generation 3 where a fresh run has 2. |
| Population.LoadCorrected | sherpa/algorithms.py:462-470 | Starting from the generation of the last loaded trial, every later call agrees with a fresh run. |
| Population.Window | sherpa/algorithms.py:497-500 | A row is in the window iff it is in the table with Trial-ID in `[lo, hi]`. |
| Population.GetCandidate | sherpa/algorithms.py:489-509 | A parent has exactly the parameter names as parameter keys, and the drawn position is inside the sorted population. The only errors are ValueError, IndexError and KeyError. |
| Population.CandidateErrors | sherpa/algorithms.py:498-505 | ValueError iff the population is smaller than 3, since `randint(0, 0)` raises. IndexError iff the drawn index is past the previous generation's completed rows. |
| Population.CandidateIsElite | sherpa/algorithms.py:489-509 | The parent is a completed row of the previous generation's Trial-ID window that fewer than `size // 3` rows of the window beat. The trial copies its parameters and checkpoint columns. |
| Population.TruncTowardZero | sherpa/algorithms.py:522 | `int()` of a float truncates toward zero. |
| Population.IndexOf | sherpa/algorithms.py:532 | `values.index(v)` is the first position holding `v`. |
| Population.Bounds | sherpa/algorithms.py:525-531 | The range is non-empty iff the override or the declared range is. Any range other than the declared one is the non-empty override. |
| Population.Clamp | sherpa/algorithms.py:524-527 | The result lies in `[min, max]` of the range, and a value already inside is unchanged. |
| Population.PerturbParam | sherpa/algorithms.py:512-541 | Continuous and Discrete values end inside their range. An Ordinal moves to a value at most one index away. Choice is unchanged, any other kind is ValueError, and other keys are untouched. |
| Population.PerturbPrefix | sherpa/algorithms.py:511-543 | Perturbing a prefix of the parameters keeps the candidate's keys. A prefix of only Choice parameters leaves the candidate as it is. |
| Population.PrefixErr | sherpa/algorithms.py:512-541 | An error at one parameter is the result of the whole loop. |
| Population.PerturbAt | sherpa/algorithms.py:512-541 | With distinct names, a later parameter never changes an earlier one's value. |
| Population.PerturbFrame | sherpa/algorithms.py:511-543 | `_perturb` keeps the candidate's keys and leaves every other key unchanged, the checkpoint columns included. |
| Population.PerturbProperties | sherpa/algorithms.py:511-543 | After the whole loop: Continuous/Discrete values lie in their range, an Ordinal is one step or less from its old index, and Choice values are unchanged. |
| Population.Child | sherpa/algorithms.py:483-485 | Fails iff the parent's `save_to` is not a decimal number. |
| Population.ChildLineage | sherpa/algorithms.py:483-485 | The child loads the parent's checkpoint, is saved under its own count, and extends the lineage by the parent's number and a comma. |
| Population.Offspring | sherpa/algorithms.py:478-485 | A child has exactly the parameter names as parameter keys and is saved under the current count. It exists only when a parent was drawn. |
| Population.PopulationBasedTraining.constructor | sherpa/algorithms.py:454-460 | Keeps the settings and starts at generation 0, count 0. |
| Population.PopulationBasedTraining.Load | sherpa/algorithms.py:462-464 | Sets `count = n` and `generation = n // size + 1`. An empty population raises ZeroDivisionError after the counter is set. |
| Population.PopulationBasedTraining.ScaleAndClamp | sherpa/algorithms.py:513-527 | Multiplies by the chosen factor, truncates a Discrete value, and clamps into the range, as PerturbParam. |
| Population.PopulationBasedTraining.ShiftOrdinal | sherpa/algorithms.py:529-535 | Shifts the Ordinal index by the draw and clamps it to the list, as PerturbParam. |
| Population.PopulationBasedTraining.Perturb | sherpa/algorithms.py:511-543 | The loop over the parameters returns exactly PerturbPrefix of all of them. |
| Population.PopulationBasedTraining.Advance | sherpa/algorithms.py:467-470 | Counts the call and opens a generation when the new count is 1 modulo the size. |
| Population.PopulationBasedTraining.Breed | sherpa/algorithms.py:478-485 | From generation 2 on: parent, perturbation and checkpoint bookkeeping, as Offspring. |
| Population.PopulationBasedTraining.GetSuggestion | sherpa/algorithms.py:466-487 | Counts the call and moves the generation. Generation 1 gives a random trial with empty `load_from` and lineage, saved under its count. Later generations breed from the best third of the previous one. |
| Evolution.Candidate | sherpa/algorithms.py:579-600 | A parent has exactly the parameter names as keys. The only error is KeyError. |
| Evolution.CandidateRandom | sherpa/algorithms.py:587-595 | With fewer than ten completed rows, the parent is a legal random configuration. |
| Evolution.CandidateIsElite | sherpa/algorithms.py:596-600 | With ten or more, the parent is a completed row that fewer than a third of the completed rows beat. It succeeds iff that row has every parameter column, and is then its projection. |
| Evolution.OriginOf | sherpa/algorithms.py:567-575 | Mutation iff `u < rate`; the first parent iff `rate <= u < rate + (1 - rate) / 2`; the second parent otherwise. |
| Evolution.Cross | sherpa/algorithms.py:565-575 | The child only holds keys processed so far. |
| Evolution.CrossKeeps | sherpa/algorithms.py:566-575 | Processing one key never changes another key's value. |
| Evolution.CrossOrigin | sherpa/algorithms.py:566-575 | Each key's value is the mutation draw, the first parent's value or the second parent's, as its origin says. |
| Evolution.ChildLegal | sherpa/algorithms.py:552-577 | From legal parents and legal mutation draws, the child has exactly the parameter names and legal values. |
| Evolution.Genetic.constructor | sherpa/algorithms.py:547-550 | Keeps the rate and budget and starts at count 0. |
| Evolution.Genetic.SampleAll | sherpa/algorithms.py:592-595 | The random parent is the binding of the draws. |
| Evolution.Genetic.GetCandidate | sherpa/algorithms.py:579-600 | Returns exactly Candidate. |
| Evolution.Genetic.Mutate | sherpa/algorithms.py:569-571 | A value appears iff a parameter has that name, and it is that parameter's draw. |
| Evolution.Genetic.Crossover | sherpa/algorithms.py:565-575 | The crossover loop returns exactly Cross over all keys. |
| Evolution.Genetic.GetSuggestion | sherpa/algorithms.py:552-577 | A spent budget gives None. A parent error propagates with the counter unchanged. Otherwise the result is the crossover of the two parents, and the call is counted. |

## Left out

- The Gaussian process fit and prediction, the expected-improvement acquisition, `_generate_candidates` and the Nelder-Mead fine-tuning (sherpa/algorithms.py:310-323, 346-447) use sklearn, scipy and float numerics. The model's pick is the input `modelPick`.
- Floating point is `real`. `log10` is an uninterpreted input function, and the `10**` back-transform is not modelled.
- `Parameter.sample()` is not part of this model: sherpa/core.py is not available. Samples are inputs constrained to the parameter's range.
- The order of `numpy.random` draws, pandas `sort_values`, `ParameterGrid` and dict keys are inputs. Ties in the objective sort may be in any order.
- `get_sample_results_and_params` (CSV input), logging, and the base class `Algorithm` are not modelled.
- Local.LocalSearch.GetSuggestion: the resample loop may run forever in the original. The model takes a finite sequence of moves and answers DrawsExhausted when it runs out.
- Local.BestIndex: assumes the results table has the default integer row index, so a position is a label.
- Bayesian.BayesianOptimization.constructor: the assertion that the acquisition function is 'ei' is a precondition.
- Bayesian.BayesianOptimization.GetSuggestion: a `results` of None, which raises TypeError in `len`, is not modelled. `results` is always a table.
- Bayesian.BayesianOptimization.GenerateSeeds: builds the seeds in a local sequence and assigns the field once. The original appends to the field in place.
- Design.Cell: a string in a Continuous, Discrete or Ordinal column is always ValueError in the model; this also holds for ColumnError, FirstError, PairsError and DesignMatrix. The `numpy.array(df[p.name])` at sherpa/algorithms.py:368 would convert numeric strings such as "0.5", which the model does not.
- Bayesian.BayesianOptimization.GetInputOutputPairs: when the design matrix fails part-way, the model says nothing about `xtypes`, `xnames`, `xscales` and `xbounds`. The original leaves them partly rebuilt.
- Common.ParseNat: accepts only digit strings. Python's `int` also accepts signs, surrounding spaces and underscores; the `save_to` values the model produces are always digit strings.
- Population.PopulationBasedTraining.constructor: the population size is a natural number. A negative size is not modelled.
- Population.PerturbParam: a Discrete value is truncated by `Trunc` on reals. The `numpy` float-to-int conversion and the perturbation factors' float products are not modelled bit for bit.
- The non-repeating random search mode exercised by tests/test_algorithms.py:102-129 has no counterpart in the modelled constructor.

## Findings

| source | as written | input that shows it | evidently intended | confidence | as-written member | corrected member |
|---|---|---|---|---|---|---|
| sherpa/algorithms.py:464 | `load(n)` sets `generation = n // size + 1` | population size 2, `load(2)`, then one `get_suggestion`: the trial number 3 is put in generation 3, while a fresh run puts trial 3 in generation 2 | the generation of the last loaded trial, `(n - 1) // size + 1`, so a resumed run continues as a fresh one | not executed | Population.LoadCounterexample | Population.LoadCorrected |
