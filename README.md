# SimulaCovid core in Dafny

A Dafny model of the arithmetic and decision logic of the SimulaCovid hospital-capacity simulator. It covers four parts:

- **SEAPMDR model** (module `Seapmdr`). It has nine compartments:
  - S: susceptible;
  - E0 and E1: exposed, latent and pre-symptomatic;
  - I0 to I3: infected, asymptomatic, mild, severe and critical;
  - R: recovered;
  - D: deaths.

  The module covers:
  - the average infectious period;
  - the back-projection of the exposed population;
  - the initial state;
  - the progression rates and the back-solved transmission coefficients ("betas");
  - the right-hand side of the differential equations;
  - the entry point, which builds the time grid, runs the solver (a parameter here) and post-processes the result table.
- **Input preparation** from one row of the Farol table, in two versions:
  - `Prepare` for `simulacovid/prepare.py`;
  - `LegacyPrepare` for `code/prepare.py`.

  Both cover the recovered estimate, the notification-rate gate and the state-level Rt fallback for health regions.
- **Capacity scan** `get_dday` (module `Capacity`). It finds the first day on which demand for severe or critical beds exceeds supply, or returns -1. Both versions of the simulator define it with the same text, so one model serves both.
- **Scenario runner** `run_simulation`, in two versions:
  - `Simulator`, with a choice between the SEIR and SEAPMDR entry points;
  - `LegacySimulator`, with a single entry point.

  Each runs the worst and the best reproduction number for 90 days. It renumbers the rows from 1 and tags them.

Shared pieces:
- `Common` has `Option`/`Result` types and Python's `int()` (truncation toward zero) and ASCII `str.upper`.
- `Frames` models a pandas DataFrame as a value: an index, numeric columns and constant text columns.

Python's conventions are made explicit:
- A NaN cell is `None`.
- `int()` of a NaN raises ValueError. This is the `ConversionError` outcome.
- `sum()` over the confirmed-cases column skips NaN.
- "No projection" (NaN returned) is `NoProjection`.
- The caller's `population_params` dict keeps its insertion order. It is modelled as a sequence of items in the `PopulationDict` class, whose `del` the entry point performs.
- Looking up a missing key is a KeyError outcome.
- A model name the runner does not know leaves `res` unbound (UnboundLocalError). This is the `UnboundResult` outcome.

The growth factor `2 ** (1 / doubling_time)` with `doubling_time = log(2) / (Rt / t_avg)` is an input `growth`, because it is transcendental. The formulas use `growth - 1` exactly as the code does.

In a few places the code does less than its comments or names suggest. The model follows the code:
- The back-solved betas reproduce `(E1 + I1 + I2 + I3) * Rt / t_avg`. The code's numerator omits I0 (simulacovid/seapmdr.py:229-234), although the comment at simulacovid/seapmdr.py:189-190 includes it.
- The per-capita divisor is S + I0 + I1 + I2 + I3. The key list at simulacovid/seapmdr.py:254-257 names "E", which matches no compartment key, so E0 and E1 are not summed. R and D are not in the list.
- The exposed values divide by the reciprocal of a period, which multiplies by the period: pre-symptomatic = (g - 1)(I0 + I1) · presymptomatic period, and latent = (g - 1) · pre-symptomatic · (incubation - presymptomatic period).
- The code checks no denominator. Three divisions involve configuration values only: `1 / presymptomatic_period` (simulacovid/seapmdr.py:44 and 168), `1 / (incubation_period - presymptomatic_period)` (lines 52-53 and 166-167) and `1 / asymptomatic_duration` (line 171). These raise ZeroDivisionError when the value is 0. The other divisions involve numpy values and give inf or NaN instead. The model excludes every zero denominator with the `Derivable` precondition.
- The code checks neither a non-positive Rt nor a negative Susceptible residual, and the model does not either. A negative recovered estimate is possible too (`RecoveredMayBeNegative`).
- Each trajectory is tagged with the scenario "projection_current_rt" and, in the newer runner, the model name. The bound name appears only as the key of the result dict.

`code/prepare.py` does not parse as Python: line 61 is `rt_upper =` with nothing on the right. The other branch sets `rt_upper = None` (line 67). Neither value is ever read, because `rt_upper` is reassigned at line 117 before its only use at line 118. `LegacyPrepare` models the rest of the function as written.

## Model

| member | source | states |
|---|---|---|
| Common.Trunc | simulacovid/prepare.py:67-69 | `int()` of a float: for x ≥ 0 the result r is the floor (0 ≤ r ≤ x < r + 1); for x < 0 it is the ceiling |
| Common.TruncTowardZero | code/prepare.py:74-77 | truncation never increases the absolute value and keeps integral values |
| Common.Upper | simulacovid/simulator.py:68 | `model.upper()`: same length, every ASCII lower-case letter upper-cased, every other character kept |
| Common.UpperIdempotent | simulacovid/simulator.py:68 | upper-casing twice equals upper-casing once, and the result has no lower-case ASCII letter |
| Frames.Reindexed | simulacovid/simulator.py:93-94 | `reset_index(drop=True)` then `index += 1`: same columns and tags, rows labelled 1..n, well-formedness kept |
| Frames.WithLabel | simulacovid/simulator.py:96 | `res["model"] = model`: index and numeric columns unchanged, the tag set to the value, other tags kept |
| Seapmdr.AvgTime | simulacovid/seapmdr.py:6-21 | the severity-weighted infectious period is positive when the fractions are non-negative and not all zero and the durations are positive |
| Seapmdr.AvgTimeByStage | simulacovid/seapmdr.py:15-20 | when the fractions sum to 1, the average period is the pre-symptomatic period plus each later stage's duration times the share of cases reaching that stage |
| Seapmdr.CalculateExposed | simulacovid/seapmdr.py:24-60 | total = latent + pre-symptomatic; pre-symptomatic = (g-1)·I·(i0+i1)·t_E1; latent = (g-1)·pre-symptomatic·(incubation - t_E1) |
| Seapmdr.ExposedNonNegative | simulacovid/seapmdr.py:38-54 | with g ≥ 1, I ≥ 0, i0, i1 ≥ 0 and incubation > presymptomatic period > 0, all three exposed values are non-negative |
| Seapmdr.PrepareStates | simulacovid/seapmdr.py:63-124 | R and D copied; E0 and E1 are the latent and pre-symptomatic exposed; I0..I3 are I times each severity fraction; S is the residual N - R - D - I - exposed total; the nine compartments sum to N - I·(1 - Σfractions) |
| Seapmdr.PrepareStatesConserves | simulacovid/seapmdr.py:108-122 | when the severity fractions sum to 1, the initial compartments sum to N |
| Seapmdr.NosocomialProportion | simulacovid/seapmdr.py:222-226 | p is the place's nosocomial proportion (default: the health-care share), raised to 1e-6 if smaller: p ≥ 1e-6, p ≥ the given value, and p is one of the two |
| Seapmdr.BetaPopulation | simulacovid/seapmdr.py:254-257 | the beta population is the total less E0, E1, R and D, and never exceeds the total for non-negative compartments |
| Seapmdr.BackSolveBetas | simulacovid/seapmdr.py:228-245 | (E1+I0+I1)·βE = ((1-p)/p)·(I2+I3)·β2, and βE(E1+I0+I1) + β2(I2+I3) = (E1+I1+I2+I3)·Rt/t_avg |
| Seapmdr.PerCapitaBetas | simulacovid/seapmdr.py:253-264 | after dividing by S+I0+I1+I2+I3 both equations still hold: the ratio unchanged, the total divided by that population |
| Seapmdr.SplitExit | simulacovid/seapmdr.py:173-180 | a stage's two exit rates sum to 1/duration, and the onward rate times the duration is the onward fraction |
| Seapmdr.PrepareDiseaseParams | simulacovid/seapmdr.py:127-266 | sigma0 = 1/(incubation - t_E1), sigma1 = 1/t_E1, gamma0 = 1/t_I0, phi copied; gamma1+p1, gamma2+p2, gamma3+mu are the reciprocal stage durations; the onward rates times the durations are the fractions i2/(i1+i2), i3/(i2+i3) and fatality_ratio/i3; βE = β0 = β1 and β2 = β3; the betas apportion transmission (1-p):p and reproduce Rt at the initial state |
| Seapmdr.Derivatives | simulacovid/seapmdr.py:269-345 | the nine derivatives sum to zero for every state and every rate set (flow conservation) |
| Seapmdr.DerivativeSigns | simulacovid/seapmdr.py:296-345 | with non-negative state and rates: dD/dt ≥ 0, dR/dt ≥ 0, dS/dt ≤ 0; neither the time nor the `initial` flag changes the derivatives |
| Seapmdr.InitialExpositionRate | simulacovid/seapmdr.py:299-305 | at the initial state the force of infection with the derived betas is (E1+I1+I2+I3)·Rt/t_avg divided by the beta population |
| Seapmdr.ExpositionRate | simulacovid/seapmdr.py:299-305 | with non-negative compartments and rates the force of infection is non-negative |
| Seapmdr.Linspace | simulacovid/seapmdr.py:407 | `np.linspace(start, stop, num)` has `num` points and starts at `start` |
| Seapmdr.GridIsDays | simulacovid/seapmdr.py:407 | `linspace(0, n_days, n_days + 1)` is exactly the days 0, 1, ..., n_days |
| Seapmdr.ResultColumn | simulacovid/seapmdr.py:411-416 | column N is each row's total, column E is E0+E1, every other column is that compartment of the solver's rows |
| Seapmdr.PostProcess | simulacovid/seapmdr.py:411-418 | the table has one row per solver row, index 0..n-1, exactly the columns S..D, N and E, and the scenario tag |
| Seapmdr.PostProcessRows | simulacovid/seapmdr.py:415-416 | row by row, N is the sum of the nine compartment columns and E = E0 + E1 |
| Seapmdr.PostProcessConstantN | simulacovid/seapmdr.py:415 | if every solver row keeps the population n, column N is n throughout |
| Seapmdr.Lookup | simulacovid/seapmdr.py:109-112 | reading a dict key gives a value exactly when an item has that key, and the value is that item's |
| Seapmdr.Without | simulacovid/seapmdr.py:402 | `del d[k]` keeps exactly the items with other keys, with distinct keys kept distinct; an absent key leaves the items unchanged, and with distinct keys the item holding k is cut out with the others in their order |
| Seapmdr.PopulationDict.Delete | simulacovid/seapmdr.py:402 | the dict's items become the old items without k, and k is no longer present |
| Seapmdr.ObservedFrom | simulacovid/seapmdr.py:101-113 | the estimation reads I, N, R and D, and succeeds exactly when all four keys are present, with their values |
| Seapmdr.Entrypoint | simulacovid/seapmdr.py:348-420 | a missing key fails with KeyError and leaves the dict alone; cold start keeps the dict, continuation deletes N and needs nine values left; on success the table is the post-processed solver output on `linspace(0, n_days, n_days+1)` from the estimated (or remaining) state, with n_days+1 rows starting at 0 |
| Prepare.ConfirmedAdjusted | simulacovid/prepare.py:23 | the confirmed count (0 when NaN, as `sum()` skips it) divided by the notification rate and truncated by `int()` |
| Prepare.RecoveredEstimate | simulacovid/prepare.py:25-38 | 0 without confirmed cases; otherwise C - I - D, which accounts for every case, unless that is negative, when it is C - D |
| Prepare.RecoveredInRange | code/prepare.py:20-37 | with 0 ≤ I and 0 ≤ D ≤ C, the estimate lies in [0, C - D] and is either C - I - D or the fallback C - D |
| Prepare.RecoveredMayBeNegative | simulacovid/prepare.py:35-38 | the fallback C - D is negative when the deaths exceed the adjusted confirmed cases |
| Prepare.CalculateRecovered | simulacovid/prepare.py:5-40 | R becomes 0 when confirmed_adjusted is 0, else C - I - D, or C - D when that is negative; N, I and D unchanged and no other object touched |
| Prepare.LatestStateRows | simulacovid/prepare.py:110-117 | the selected rows are exactly the state's rows with the maximal last_updated, each as many times as in the table, and there are none exactly when the state has no row |
| Prepare.StateFallback | simulacovid/prepare.py:107-120 | no fallback exactly when the state has no row; otherwise best and worst are the Rt_most_likely and Rt_high_95 columns of the latest rows: non-empty, of one length, each pair from one latest row |
| Prepare.Projection | simulacovid/prepare.py:99-120 | no projection for a NaN or zero notification rate; the row's own (best, worst) when rt_most_likely is present; none for other places without Rt; the state fallback for health regions |
| Prepare.ProjectionSource | simulacovid/prepare.py:93-120 | a projection uses the row's own Rt pair, or a non-empty column of pairs each taken from one latest row of the row's state |
| Prepare.Available | simulacovid/prepare.py:89-92 | the bed count times the available share, NaN when the count is NaN |
| Prepare.DeathsOrZero | simulacovid/prepare.py:69 | D is 0 when deaths is NaN, `int(deaths)` otherwise |
| Prepare.PrepareSimulation | simulacovid/prepare.py:43-127 | ConversionError exactly when population or active cases is NaN; otherwise NoProjection exactly when the gate gives none; when ready: N, I, D truncated, R estimated, place values with the row's Rt, scaled beds, and R0 from the gate |
| LegacyPrepare.Symptomatic | code/prepare.py:73-80 | 1 when the active-case count is NaN, otherwise `int()` of the active cases less their asymptomatic share |
| LegacyPrepare.SymptomaticBounds | code/prepare.py:73-80 | with active cases ≥ 0 and the asymptomatic share in [0, 1], the symptomatic count lies between 0 and the active cases, and equals their floor when the share is 0 |
| LegacyPrepare.PrepareSimulation | code/prepare.py:40-135 | ConversionError exactly when the population is NaN; otherwise NoProjection exactly when the gate gives none; when ready: I is the symptomatic count (1 for NaN), D defaults to 0, R estimated, place rates without i0 or Rt, and R0 from the gate |
| Capacity.Max | simulacovid/simulator.py:40 | the maximum of a non-empty column is one of its values and no value exceeds it |
| Capacity.MaxExceeds | simulacovid/simulator.py:40 | the maximum exceeds the resource exactly when some value does |
| Capacity.FirstAbove | simulacovid/simulator.py:41 | the first position whose value strictly exceeds the resource, with no earlier one exceeding it; none when no value does |
| Capacity.Dday | simulacovid/simulator.py:38-43 | KeyError for a missing column, ValueError for an empty one; otherwise the index label of the first row strictly above the resource, or -1 when there is none |
| Capacity.DdayMeaning | code/simulator.py:38-41 | on rows numbered from 1: the d-day is -1 exactly when no value strictly exceeds the resource; otherwise it is k+1 for the first exceeding row k, with all earlier rows at or below the resource |
| Capacity.DdayMonotone | simulacovid/simulator.py:40-43 | a larger resource never brings the d-day earlier, and if it is exceeded the smaller one is too |
| Capacity.GetDday | simulacovid/simulator.py:13-45 | exactly the keys worst and best, each that scenario's d-day; otherwise the first error in the order worst, best |
| Simulator.Selected | simulacovid/simulator.py:88-91 | SEIR exactly when the upper-cased name is "SEIR", SEAPMDR exactly when it is "SEAPMDR", nothing otherwise |
| Simulator.SelectionIgnoresCase | simulacovid/simulator.py:68 | selecting by the upper-cased name equals selecting by the name |
| Simulator.CallFor | simulacovid/simulator.py:76-86 | each call has the bound's R0, scenario "projection_current_rt", 90 days, initial true, and the prepared population, place and disease values |
| Simulator.Shaped | simulacovid/simulator.py:93-96 | the entrypoint's columns kept, rows labelled 1..n, and the tags those of the result with "model" set to the upper-cased name |
| Simulator.RunSimulation | simulacovid/simulator.py:48-100 | fails exactly when the name selects no model; otherwise exactly the keys worst and best, each the selected entrypoint's frame for that bound, renumbered from 1 and tagged with the upper-cased name |
| Simulator.ShapedFrame | simulacovid/simulator.py:93-96 | a simulated frame keeps the model's columns, numbers its rows 1..n and has a "model" tag with no lower-case letter |
| Simulator.SimulatedDday | simulacovid/simulator.py:93-95 | the d-day of any demand column of a simulated frame is -1 or between 1 and the number of rows |
| LegacySimulator.CallFor | code/simulator.py:68-79 | each call has the bound's R0, scenario "projection_current_rt", 90 days, initial true, and the prepared values |
| LegacySimulator.RunSimulation | code/simulator.py:46-87 | exactly the keys worst and best, each the entrypoint's frame for that bound renumbered from 1 |
| LegacySimulator.RenumberedDday | code/simulator.py:81-85 | a renumbered frame keeps its tags, and its d-day for any demand column is -1 or between 1 and the number of rows |

## Left out

- `scipy.integrate.odeint` is a parameter of `Seapmdr.Entrypoint`. It is only required to return one row per grid point. Nothing is claimed about the trajectory (conservation or non-negativity over time), because both depend on the solver's floating-point integration.
- `np.log` and `2 ** x` in the doubling time are transcendental. The growth factor is an input.
- A non-positive Rt is not checked by the code and is not checked here.
- IEEE floating point: values are exact reals. NaN is `None` where the code tests for it. NaN inside the state Rt table and inside the result columns is not represented.
- Seapmdr.PrepareDiseaseParams: a `Derivable` precondition excludes the zero denominators. The most likely such case is a place with no active cases (I = 0): then I2 + I3 = 0 and the code computes 0/0 (NaN) betas (simulacovid/seapmdr.py:229-243) and integrates a NaN trajectory. The ZeroDivisionError that the configuration-only divisions raise (simulacovid/seapmdr.py:44, 52-53, 166-168, 171) is not modelled as an outcome, and neither are the inf and NaN values numpy gives for the other divisions.
- Seapmdr.Entrypoint: the reproduction number is a scalar. The code also accepts a pandas Series, which is what the state fallback produces, and then computes element-wise. That arithmetic is not modelled.
- Seapmdr.Entrypoint: the `print` of the derived rates is left out; it is a logging side effect. The index name "dias" and the order of columns in the tables are left out too; they are DataFrame mechanics.
- Reads of remote CSV files (`pd.read_csv`) are replaced by an input: the state Rt table as a sequence of records. The lookups in the place-parameter table (`place_specific_params.at[...]`, `.loc[...]`) are replaced by the looked-up rates as inputs.
- A "last_updated" date is a day number. `pd.to_datetime` parsing is not modelled.
- The configuration dict is replaced by the values read from it (the asymptomatic proportion, the available-resources proportion, the disease parameters).
- The SEIR entrypoint is not part of this model; it comes from a module that is not among the modelled files. Both runners take the model entrypoints as function parameters. So `RunSimulation` states what each frame is in terms of the entrypoint, not what the model computes.
- Common.Upper: `str.upper` is modelled for ASCII letters only.
- Capacity.Dday: Python's `max` over a column containing NaN depends on the order of the values; columns here have no NaN.
- Capacity.Dday: a column name that is a text column (such as "scenario") gives `MissingColumn` here. The code would raise TypeError when it compares the strings with the resource number.
- Prepare.CalculateRecovered: modelled once. `_calculate_recovered` has the same text in simulacovid/prepare.py:5-40 and code/prepare.py:2-37, and `LegacyPrepare.PrepareSimulation` uses the same member.
- Capacity.GetDday: modelled once. `get_dday` has the same text in simulacovid/simulator.py:13-45 and code/simulator.py:11-43.
- The `__main__` blocks and setup.py do nothing to model.
