# Seminar plotting and data helpers — decision logic in Dafny

This project models the pure decision logic of the `prep_package` teaching
helpers, with all plotting, fitting, statistics and randomness abstracted:

- **Panel pairing** (`plot_2d_scatter_with_fits`): `x` and `phenotype` are each
  a single array or a list/tuple of arrays (`Common.OneOrMany`). They are
  normalised to lists and resolved to an ordered list of (x, y) panel pairs,
  or a `ValueError`. `Pairing.ResolvePairs` is characterised by a broadcasting
  rule: a one-element side is reused for every panel, otherwise panels pair
  positionally. A single array never stretches to an empty list.
- **Figure layout and model dispatch** (same helper): the default figure
  size, the colour cycle, the `X1, X2, …` axis labels, and the per-panel model
  chosen from `models` = None | True | one model | list of models
  (`Scatter2D.ModelSetting`). Errors are raised at the first panel that has no
  model.
- **Plane model choice** (`plot_3d_scatter_with_plane`): `model` = None | True |
  fitted model.
- **Grouped comparison** (`plot_grouped_boxplots`): validation of the variable
  lengths, of the number of groups and of the test name. It builds two group
  masks, boolean-indexes every variable by them, and produces one
  (statistic, p-value) entry per panel.
- **Example functions**: `hello`, and the deterministic skeleton of
  `generate_random_phenotype`. That skeleton is the weights check, the noiseless
  linear combination computed column by column as the source does, and the
  noise-type dispatch.

Abstractions:
- Arrays and model objects are opaque type parameters.
- Fitting (`LinearRegression().fit`) is a function parameter `fit`.
- The scipy tests are a function parameter `stats`.
- The noise step is a function parameter `noise`.
- The random draws are inputs: the design matrix `X`, the Poisson weights
  (`numVars + 1` of them) and the Poisson bias. The shape of `X` and the
  number of drawn weights are preconditions, because the generator's own
  draws guarantee them.
- Arithmetic is over `real`, not floating point.

Points where the model follows the code rather than the prose around it:
- The docstring of `plot_2d_scatter_with_fits` says a model list must have
  exactly one entry per panel. The code accepts any list at least that long
  and ignores the extra entries, and so does `Scatter2D.ResolveModels`.
- A single array against an empty list (either side) is rejected with the
  length-mismatch error. Two empty lists give zero pairs.
- The model's per-panel model dispatch raises nothing for zero panels, because
  its loop has no panel to visit. The real helper never gets there, since
  creating a figure with zero subplots fails first (see "## Left out").
- Boolean groups put `True` first. Categorical groups put the smaller label
  first. So the same split coded as 0/1 integers orders the groups the other
  way (`GroupedBoxplots.CodingOrdersGroups`).
- Panels of the grouped comparison come from `zip(variables, var_labels)`. A
  caller-supplied title list shorter than the variables therefore yields
  fewer panels and fewer test results. With the default titles there is one
  per variable.

## Model

| member | source | states |
|---|---|---|
| `Common.AsList` | src/prep_package/plotting_functions.py:46-56 | a list/tuple argument is kept as is; a single array becomes a one-element list |
| `Decimal.NatToString` | src/prep_package/plotting_functions.py:71 | the printed panel number is a non-empty run of decimal digits with no leading zero |
| `Decimal.ParseNatToString` | src/prep_package/plotting_functions.py:71 | reading the printed number back gives the number, so the printing loses nothing |
| `Decimal.NatToStringInjective` | src/prep_package/plotting_functions.py:71 | different numbers print differently |
| `Pairing.ResolvePairs` | src/prep_package/plotting_functions.py:43-69 | a missing phenotype is rejected first; otherwise pairing succeeds exactly when the list lengths are equal or one side is a single array facing a non-empty list, and then the pairs are the broadcast of one side against the other; any other case is the length-mismatch error |
| `Pairing.PairingRules` | src/prep_package/plotting_functions.py:60-69 | single/single gives one pair; M>1 xs against one y gives M pairs in x order, all with that y; one x against K>1 ys gives K pairs in y order; two lists of different lengths (neither of length one) raise; two lists of equal length zip positionally |
| `Pairing.PairingEdgeCases` | src/prep_package/plotting_functions.py:58-69 | `[a]` with `[b]` gives one pair; an empty x list with a single phenotype raises, and so does a single x with an empty list; two empty lists give zero pairs |
| `Pairing.PanelCount` | src/prep_package/plotting_functions.py:60-75 | the panel count is the larger of the two list lengths, and when neither side is a single array the lengths are equal |
| `Scatter2D.PanelColor` | src/prep_package/plotting_functions.py:89 | each panel's colour is one of the five default colours |
| `Scatter2D.ColorCycle` | src/prep_package/plotting_functions.py:89 | panels 0-4 take the five default colours in order, the colours then repeat with period five, and they differ within any five consecutive panels |
| `Scatter2D.XLabel` | src/prep_package/plotting_functions.py:71 | the x-axis label is `X` followed by the canonical decimal digits (no leading zero) of i+1 |
| `Scatter2D.XLabelNumbering` | src/prep_package/plotting_functions.py:71 | the label of panel i carries i+1, so different panels have different labels |
| `Scatter2D.Panels` | src/prep_package/plotting_functions.py:88-91 | there is one panel per pair, in pair order; panel i draws pair i with the label `X<i+1>` and the i-th colour of the five-colour cycle |
| `Scatter2D.ResolveFigsize` | src/prep_package/plotting_functions.py:77-79 | a given size is kept; with `figsize=None` the figure is 3.5 high and 3.5 wide per panel |
| `Scatter2D.ModelFor` | src/prep_package/plotting_functions.py:97-109 | the model for panel i: True fits that panel's pair; a list yields its i-th entry and fails with the list error exactly when it has at most i entries; a single model is used as is and fails with the single-model error exactly when there is more than one panel. `Scatter2D.ResolveModels` and `Scatter2D.PlotScatter2D` pin this for every panel |
| `Scatter2D.ResolveModels` | src/prep_package/plotting_functions.py:84-125 | the returned models are None exactly when `models` is None; otherwise there is one model per panel in panel order: a fresh fit of each panel's pair for True, `models[i]` for a list, the same object for a single model. Dispatch fails exactly when a list is shorter than the panel count (list error) or a single model faces more than one panel (single-model error) |
| `Scatter2D.PlotScatter2D` | src/prep_package/plotting_functions.py:43-130 | pairing errors come first and pass through unchanged; a paired request fails exactly when the models do not cover the panels, with the list error for a model list and the single-model error otherwise; on success there is one panel per pair with that pair, label and colour, the figure size is resolved from the panel count, and the returned models are as in the dispatch |
| `Scatter3D.ResolvePlaneModel` | src/prep_package/plotting_functions.py:172-184 | the returned model is None exactly when `model` is None; True fits the plane on (x1, x2) against y; a given model is returned as is |
| `GroupedBoxplots.Smallest` | src/prep_package/plotting_functions.py:281-293 | the first unique group value is a label of the vector and no larger than any label |
| `GroupedBoxplots.Largest` | src/prep_package/plotting_functions.py:281-294 | the last unique group value is a label of the vector and no smaller than any label |
| `GroupedBoxplots.UniqueCount` | src/prep_package/plotting_functions.py:281-282 | a boolean group vector has two unique values exactly when it holds both True and False; any vector has none exactly when it is empty |
| `GroupedBoxplots.TwoValuesAreExtremes` | src/prep_package/plotting_functions.py:281-294 | with exactly two unique labels, the first is strictly smaller than the second and every label equals one of them |
| `GroupedBoxplots.Masks` | src/prep_package/plotting_functions.py:286-301 | both masks span the group vector and every observation is in exactly one group; boolean groups use the vector itself as the first mask; labelled groups put equal labels together and the smaller label first |
| `GroupedBoxplots.TrueCount` | src/prep_package/plotting_functions.py:334-335 | a mask has at most as many set entries as positions, and none exactly when every entry is unset |
| `GroupedBoxplots.Select` | src/prep_package/plotting_functions.py:334-335 | a boolean-indexed sample has one element per set mask entry, keeps every observation at a set position, holds nothing the variable does not, and of a one-element variable keeps it exactly when its entry is set |
| `GroupedBoxplots.SelectConcat` | src/prep_package/plotting_functions.py:334-335 | selection is piecewise: the sample of a concatenation is the concatenation of the samples, which with the one-element case fixes the sample and its order |
| `GroupedBoxplots.SplitIsPartition` | src/prep_package/plotting_functions.py:333-335 | splitting by two complementary masks keeps every observation exactly once: the two samples together are the variable, as a multiset and in count |
| `GroupedBoxplots.SplitVariable` | src/prep_package/plotting_functions.py:333-335 | the two samples of a variable are its boolean-indexed selections by the two masks and together are exactly its observations |
| `GroupedBoxplots.SelectTest` | src/prep_package/plotting_functions.py:320-328 | the test name is accepted exactly when it is None or one of `ranksums`, `ttest`, `mannwhitneyu`; None means no test, a name selects the test of that name, any other name is rejected naming it |
| `GroupedBoxplots.SelectTestName` | src/prep_package/plotting_functions.py:320-326 | each test's own name selects that test |
| `GroupedBoxplots.DefaultVarLabels` | src/prep_package/plotting_functions.py:304-305 | there is one default title per variable, and a lone variable is titled `Variable` |
| `GroupedBoxplots.DefaultVarLabelsNumbered` | src/prep_package/plotting_functions.py:305 | with several variables, title i is `Variable ` followed by the canonical decimal digits of i+1, so titles are pairwise different |
| `GroupedBoxplots.Titles` | src/prep_package/plotting_functions.py:304-305 | given titles are kept as they are; without them the titles are the default ones for the variable count |
| `GroupedBoxplots.Palette` | src/prep_package/plotting_functions.py:308-309 | given colours are kept as they are; without them the colours are blue then red |
| `GroupedBoxplots.ResolveBoxFigsize` | src/prep_package/plotting_functions.py:312-313 | a given size is kept; with `figsize=None` the figure is 4 high and 3.75 wide per variable |
| `GroupedBoxplots.FirstMismatch` | src/prep_package/plotting_functions.py:276-278 | finds the first variable whose length differs from the group vector's, and finds none exactly when all lengths match |
| `GroupedBoxplots.BuildComparisons` | src/prep_package/plotting_functions.py:330-360 | one panel per zipped (variable, title) pair, in order, each holding the two mask selections of its variable, which together are exactly its observations, and the requested test's result on them |
| `GroupedBoxplots.Outcome` | src/prep_package/plotting_functions.py:352-360 | without a test both results are None; with a test both are present and are that test's (statistic, p-value) on the two samples. `GroupedBoxplots.CompareGroups` pins this for every panel |
| `GroupedBoxplots.CompareGroups` | src/prep_package/plotting_functions.py:267-360 | fails with the length error exactly when some variable's length differs from the group vector's, naming the first such variable; with matching lengths, other than two unique group values is an error; then an unknown test name is the unknown-test error naming it; then, when there is a panel to draw, fewer than two colours is an index error; nothing else fails. On success the given or default (blue, red) colours are kept and there is one entry per zipped (variable, title) pair, one per variable with the default titles, holding both boolean-indexed samples, which together hold each of the variable's observations exactly once, and either (None, None) or the selected test's (statistic, p-value) on those samples |
| `GroupedBoxplots.CodingOrdersGroups` | src/prep_package/plotting_functions.py:286-294 | a boolean group vector puts True in the first group, while the same split as 0/1 integers puts 0 first |
| `ExampleFunctions.Hello` | src/prep_package/example_functions.py:3-4 | the greeting is `Hello, `, then the name, then `!` |
| `ExampleFunctions.GreetingRoundTrip` | src/prep_package/example_functions.py:4 | the name is recovered from its greeting, and any string read as a greeting of a name is exactly that name's greeting |
| `ExampleFunctions.NoiseTypeAliases` | src/prep_package/example_functions.py:34-41 | every alias of a noise kind is an accepted noise-type name |
| `ExampleFunctions.ParseNoiseType` | src/prep_package/example_functions.py:33-44 | a noise type is accepted exactly when it is one of gaussian, normal, poisson, exponential, uniform, and it selects a kind it is an alias of; anything else is the invalid-noise error |
| `ExampleFunctions.NoiseAliasesSelectTheirKind` | src/prep_package/example_functions.py:34 | every alias selects its own kind; `gaussian` and `normal` select the same branch |
| `ExampleFunctions.LinearPartUsesPrefix` | src/prep_package/example_functions.py:18-27 | a combination of k terms depends only on the first k weights, so the extra drawn weight never enters the sum |
| `ExampleFunctions.Predicted` | src/prep_package/example_functions.py:25-31 | the noiseless phenotype has one value per sample |
| `ExampleFunctions.NoiselessPhenotype` | src/prep_package/example_functions.py:25-31 | the column-by-column accumulation gives, for every sample r, the sum over i < numVars of w[i] * X[r][i], plus the bias |
| `ExampleFunctions.GeneratePhenotype` | src/prep_package/example_functions.py:6-46 | supplied weights of the wrong length are the weights error, before anything else; with acceptable weights an unknown noise type is the invalid-noise error and a known one succeeds; on success it returns X and the noise applied to the row-wise weighted sum plus bias, using the first numVars drawn weights when none were supplied |

## Left out

- Default argument values are not applied: every argument is passed explicitly. Omitting `figsize` in Python gives (7, 3.5) for the 2-D helper and (7.5, 4) for the boxplots, not the per-panel formula, which only `figsize=None` selects. The other defaults (`models=True`, `model=True`, `test='ranksums'`, `noise_type='gaussian'`, `noise_level=0.1`, `num_samples=100`, `num_independent_vars=2`, `random_seed=42`) are likewise the caller's choice here.
- Negative sample or variable counts are not modelled: `numSamples` and `numVars` are natural numbers, and NumPy rejects negative sizes in its draw.
- Scatter2D.PlotScatter2D: returns a result for zero panels (two empty lists). The real helper fails in `plt.subplots(1, 0)` at line 81, a foreign call.
- GroupedBoxplots.CompareGroups: for an empty variable list it returns Ok with no comparisons, or the unknown-test error. The real helper fails first in `plt.subplots(1, 0)` at line 316, a foreign call.
- ExampleFunctions.GeneratePhenotype: succeeds for every known noise type because the noise step is a total parameter. NumPy's normal and exponential draws reject a negative `noise_level` (lines 35 and 40), which is not modelled.
- Rendering: subplots, scatter, boxplot, surfaces, text, ticks, spines and view angles are user interface.
- `fig.savefig` and the `print` calls are I/O.
- `LinearRegression.fit`, `predict` and `score`, the statsmodels fallback in the 3-D helper, and the attribute introspection that builds the annotation text are foreign calls. Models are opaque and fitting is a parameter.
- The annotation dispatch between the two model capability shapes (coefficients and intercept versus a parameter vector) is foreign introspection, as is the silently swallowed annotation failure.
- `ranksums`, `ttest_ind` and `mannwhitneyu` are floating-point statistics from scipy. They are the parameter `stats`.
- Random draws, seeding and the noise distributions are randomness and floating point. This includes the `log(exp(.)+1)` transform, the multiplicative uniform branch and the additive exponential branch. Draws are inputs and noise is the parameter `noise`, so the determinism under a fixed seed is not modelled.
- Value ranges of the draws (uniform in [0, 10), Poisson weights and bias as non-negative integers) are not preconditions. The model holds for any reals.
- `linspace`/`meshgrid` grids and the fit-line ranges are floating-point plotting detail.
- Group labels and the y-axis label of the boxplots only label the drawing. Only the group colours' count is modelled, because indexing them can fail.
- A non-string `test` (say `1`) fails the helper's own name check like an unknown name. The model's `test` is a string, so such a value stands as any name outside the three.
- `models=False` is an ordinary single model object, `One(False)`: with several panels it gets the single-model error, as in the helper. With one panel its failure comes from `predict`, a foreign call.
- Weights that have no length (a scalar) fail in `len`, a foreign call, and are not modelled.
- Categorical groups are modelled with integer labels. String labels, which `np.unique` orders lexicographically, are not modelled.
