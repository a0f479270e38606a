# Ashby chart material selector — verified model of the selection core

The Ashby chart selector is a dashboard for choosing engineering materials.
It holds a small catalog of material families. Each material has a family,
a colour, and a `(min, max)` interval for some of eight properties (Young's
modulus, yield strength, density, fracture toughness, thermal conductivity,
thermal expansion, maximum service temperature, price). A catalog maps the
human-readable property labels to the internal property keys.

Around the catalog sit these operations, all modelled here:

- A range-overlap filter that narrows the material set.
- The choice of materials drawn on a two-property chart.
- The flat table of the database.
- A requirement validator.
- A placeholder multi-criteria score with its ranking, and the normalisation of the criteria weights.
- Automatic insights about a selection.
- A comparison table.
- A performance-index table.
- The choice of candidate points for the convex-hull "Pareto frontier".
- The CSV export rows and the Markdown selection report.

The model follows the program's structure:

- `Materials` (`materials.dfy`) holds the shared data model:
  - Property intervals are `Range(lo, hi)` over `real`.
  - A Python dictionary is a `Dict<V>`: its `(key, value)` entries in
    insertion order. Lookup is `Get`, which yields `None` for a missing key.
  - A table row is a `Dict<Cell>`.
- `AshbyApp` (`ashby_app.dfy`) holds the filter, the chart selection and
  `get_dataframe`.
- `IntegrationExample` (`integration_example.dfy`) holds the validator, the
  multi-criteria analysis, weight normalisation, insights and the comparison
  table.
- `AdvancedFeatures` (`advanced_features.dfy`) holds the index table, the
  Pareto candidates, the export rows and the report.

Every operation that the source writes as a loop is a `method` with a
`while` loop. Its `ensures` ties the result to a recursive specification
function over the inputs, and lemmas state what that function means.

Error paths are modelled explicitly:

- A `KeyError` from indexing the catalog with an unknown label is a
  `Result.Err` carrying the label.
- A `ZeroDivisionError` is a `Result.Err`.
- numpy's division of floats by zero gives an infinite or undefined value,
  not an error. It is the cell `NonFinite`.

## Model

| member | source | states |
|---|---|---|
| Materials.PropertyCatalog | ashby_app.py:48-57 | the catalog has eight labels, no label twice |
| Materials.PropertyCatalogLabels | ashby_app.py:48-57 | no label is "Material" or "Familia", and no property key is `family` or `color` |
| Materials.PropertyCatalogKeys | ashby_app.py:48-57 | no property key appears under two labels, and the density label maps to `density` |
| Materials.RangeColumnsExact | ashby_app.py:203-206 | the property columns of a row are exactly a `<label><min suffix>` and a `<label><max suffix>` column holding the interval's endpoints for each catalog property the material has, and nothing else |
| AshbyApp.ApplyFilters | ashby_app.py:296-322 | the loop returns the filter's result: the admitted materials in database order, or the KeyError of the first unknown active label reached |
| AshbyApp.ScreenMaterial | ashby_app.py:303-317 | the inner loop's verdict for one material is the scan's: kept, dropped at the first missed interval, or the first unknown active label reached |
| AshbyApp.OverlapsIffSharedPoint | ashby_app.py:314-317 | for well-formed intervals, the overlap test holds exactly when the material's and the filter's intervals share a point, endpoints included |
| AshbyApp.ScreenMeaning | ashby_app.py:303-317 | when no lookup fails, a material is kept exactly when every active filter whose property it has overlaps its interval |
| AshbyApp.ScreenRaisesIff | ashby_app.py:303-311 | the scan of one material raises exactly when some active filter has an unknown label and every earlier filter let the material through |
| AshbyApp.ScreenStops | ashby_app.py:315-317 | once a filter drops the material or raises, the remaining filters change nothing (the `break`) |
| AshbyApp.FilterErrorStops | ashby_app.py:300-307 | once a material's scan raises, the materials after it do not change the outcome |
| AshbyApp.KnownLabelsNeverRaise | ashby_app.py:303-317 | when every active filter names a catalog label, the scan never raises and keeps exactly the admitted materials |
| AshbyApp.FilterResultMeaning | ashby_app.py:298-322 | the filter raises exactly when some material's scan raises; otherwise it returns the admitted materials in database order |
| AshbyApp.FilterWithKnownLabels | ashby_app.py:298-322 | with known labels the filter returns exactly the admitted materials |
| AshbyApp.UnknownLabelRaises | ashby_app.py:303-307 | an unknown label on the first active filter raises for any non-empty database |
| AshbyApp.NoActiveFilterKeeps | ashby_app.py:303-305 | a material survives a filter set with no active filter |
| AshbyApp.NoActiveFilterReturnsAll | ashby_app.py:298-322 | with no active filter the whole database is returned, unchanged and in order |
| AshbyApp.ScreenIgnoresNeutral | ashby_app.py:303-317 | a filter that lets the material through can be removed without changing the scan's outcome |
| AshbyApp.MissingPropertyNeverExcludes | ashby_app.py:307-309 | a known filter on a property the material lacks never excludes it |
| AshbyApp.InactiveFilterIgnored | ashby_app.py:304-305 | adding or removing an inactive filter, even one with an unknown label, does not change the result |
| AshbyApp.SelectedIsSubdictionary | ashby_app.py:319-320 | the result is a subsequence of the database (order kept, entries unchanged), and a dictionary whenever the database is one |
| AshbyApp.CreateAshbyChart | ashby_app.py:216-250 | the chart's traces: the x label is looked up first, then the y label (each a KeyError if unknown); then one trace per material having both properties, in dictionary order |
| AshbyApp.TracesExact | ashby_app.py:243-248 | every trace comes from a material having both axis properties, every such material has its trace, and there are at most as many traces as materials |
| AshbyApp.TracesAppend | ashby_app.py:243-248 | the traces of a concatenated dictionary are the first part's traces followed by the second's, so traces keep dictionary order |
| AshbyApp.TracesOfOne | ashby_app.py:243-248 | a single material gives exactly its own trace when it has both axis properties, and none otherwise |
| AshbyApp.TracesCount | ashby_app.py:243-248 | there are exactly as many traces as materials having both axis properties |
| AshbyApp.ChartSelection | ashby_app.py:219-222 | no filtered set means the whole database is drawn; an empty filtered set draws nothing |
| AshbyApp.GetDataFrame | ashby_app.py:198-208 | one row per material, in database order, each the material's data-frame row |
| AshbyApp.DataFrameRowColumns | ashby_app.py:202-206 | a data-frame row starts with name, family and colour, followed by exactly the `_min`/`_max` columns of the properties the material has |
| IntegrationExample.CheckRequirements | integration_example.py:455-473 | the inner loop records exactly the failures of the requirements, in order, and `passes` is false exactly when some requirement failed |
| IntegrationExample.ValidateMaterialSelection | integration_example.py:449-480 | one result per material, in order; the failures are those of the requirements in order, and `passes` is false exactly when some requirement failed |
| IntegrationExample.BelowMinimumIff | integration_example.py:458-468 | a "p < v" failure is recorded exactly when a minimum requirement (p, v) is present, p maps to a non-empty key the material has, and the material's maximum is below v |
| IntegrationExample.AboveMaximumIff | integration_example.py:458-473 | a "p > v" failure is recorded exactly when a maximum requirement (p, v) is present, p maps to a non-empty key the material has, and the material's minimum is above v |
| IntegrationExample.ViolationsAppend | integration_example.py:458-473 | the failures of concatenated requirement lists are the first list's followed by the second's (requirement order is kept) |
| IntegrationExample.UnmeasuredRequirementNeverFails | integration_example.py:459-461 | a requirement whose label is unknown, or whose property the material lacks, adds no failure wherever it stands |
| IntegrationExample.MultiCriteriaAnalysis | integration_example.py:172-215 | the result is a permutation of the scored materials, in non-increasing score order, ranked 1..n |
| IntegrationExample.RankByScore | integration_example.py:211-213 | sorting and ranking yields a permutation of the rows, in non-increasing score order, with rank i+1 at position i |
| IntegrationExample.SortByScore | integration_example.py:212 | the sorted rows are a permutation of the input, in non-increasing score order |
| IntegrationExample.InsertByScore | integration_example.py:212 | inserting adds exactly the new row to the list's rows |
| IntegrationExample.InsertByScoreSorted | integration_example.py:212 | inserting into a non-increasing list keeps it non-increasing |
| IntegrationExample.InsertByScoreBounded | integration_example.py:212 | inserting a row below a bound into a list below that bound gives a list below it |
| IntegrationExample.ConsSorted | integration_example.py:212 | a row no lower than every row of a non-increasing list can go in front of it |
| IntegrationExample.WeightedPlaceholderScore | integration_example.py:187-198 | the inner loop's score and criterion count are the placeholder score and the number of recognised criteria |
| IntegrationExample.PlaceholderScoreSum | integration_example.py:191-198 | the accumulated score is the placeholder 0.5 times the sum of the recognised weights |
| IntegrationExample.CandidateScores | integration_example.py:186-207 | rows exist only when some criterion is recognised, and then one per material in order; each score is 0.5 × (sum of recognised weights) / (their number), so it is the same for every material |
| IntegrationExample.UnknownCriterionIgnored | integration_example.py:192 | a criterion that is not a defined performance index changes neither the recognised weights nor the score |
| IntegrationExample.NormalizeWeights | integration_example.py:243-244 | the keys and their order are kept; with a positive total the weights sum to 1 and each is its old value divided by the total; otherwise the weights are unchanged |
| IntegrationExample.ScaleTotal | integration_example.py:244 | dividing every weight by t divides their sum by t |
| IntegrationExample.FamilyCountsCorrect | integration_example.py:386-389 | the family counter is a dictionary whose count for every family is the number of selected materials in it; the counts sum to the selection's size |
| IntegrationExample.BumpCount | integration_example.py:389 | one increment adds 1 to that family's count and leaves the others alone |
| IntegrationExample.BumpTotal | integration_example.py:389 | one increment adds 1 to the total count |
| IntegrationExample.BumpKeys | integration_example.py:389 | one increment keeps the keys in order, appending the family if it is new |
| IntegrationExample.BumpIsDict | integration_example.py:389 | one increment keeps the counter a dictionary (no family twice) |
| IntegrationExample.CountFamilies | integration_example.py:386-389 | the counting loop builds the family counter |
| IntegrationExample.CollectPrices | integration_example.py:406-409 | the collecting loop gathers the minimum and the maximum price of each priced material, in order |
| IntegrationExample.FirstMaxIndex | integration_example.py:392 | the chosen family has the largest count, and every family before it has a strictly smaller one (ties go to the family seen first) |
| IntegrationExample.SeqMin | integration_example.py:412 | `min` returns an element of the list that no element is below |
| IntegrationExample.SeqMax | integration_example.py:412 | `max` returns an element of the list that no element is above |
| IntegrationExample.GenerateMaterialInsights | integration_example.py:380-416 | the loops compute `InsightsResult`: the insight list, or the ZeroDivisionError for an empty original set or a zero minimum price |
| IntegrationExample.DominantFamilyIsMostFrequent | integration_example.py:386-393 | an empty selection gives no family insight; otherwise the insight names a family with its true, positive count, no family is larger, and of the largest families it is the one seen first |
| IntegrationExample.DominantFamilySeenFirst | integration_example.py:386-393 | every material of a family as large as the named one has, at or before it, a material of the named family |
| IntegrationExample.FamilyKeysMembers | integration_example.py:386-389 | the counter's keys are exactly the families of the selected materials |
| IntegrationExample.FamilyKeysInOrder | integration_example.py:386-389 | the counter lists families in order of first appearance: a key's family appears no later than any material of a later key's family |
| IntegrationExample.ReductionThresholds | integration_example.py:396-403 | the reduction exceeds 50 % exactly when 2·filtered < original, and is below 10 % exactly when 10·filtered > 9·original |
| IntegrationExample.EmptyOriginalRaises | integration_example.py:396-398 | an empty original set raises ZeroDivisionError |
| IntegrationExample.PriceInsightErrors | integration_example.py:406-413 | the price step raises exactly when prices exist and the smallest is 0; with no prices it adds nothing |
| IntegrationExample.WidePriceRangeIff | integration_example.py:411-414 | with a positive minimum price, the wide-range insight appears exactly when the largest price exceeds ten times the smallest |
| IntegrationExample.CreateMaterialComparisonTable | integration_example.py:419-446 | one row per selected name found in the database, in selection order; unknown names are skipped |
| IntegrationExample.BuildComparisonRow | integration_example.py:430-442 | the inner loop builds the material's comparison row |
| IntegrationExample.ComparisonRowCells | integration_example.py:430-442 | the cell for each catalog label holds the interval's midpoint and endpoints when the material has the property, and "N/A" otherwise |
| IntegrationExample.AppComparisonRowCells | integration_example.py:436-442 | with the application's own catalog, each label's cell holds the property's midpoint and endpoints, or "N/A" when the material lacks it |
| IntegrationExample.SummaryColumnsAt | integration_example.py:436-442 | the comparison row has one column per catalog label, in catalog order |
| AdvancedFeatures.CalculateMaterialIndices | advanced_features.py:93-121 | one row per material, in order, each the material's index row |
| AdvancedFeatures.IndexRowLookup | advanced_features.py:98-117 | looking up an index column in a row finds the E/ρ column first, then σy/ρ, then KIC/ρ |
| AdvancedFeatures.IndexRowCells | advanced_features.py:98-117 | name and family come first; E/ρ, σy/ρ and KIC/ρ are present exactly when the material has the numerator property and a density, and hold the quotient of the interval midpoints |
| AdvancedFeatures.RatioCellMeaning | advanced_features.py:102-105 | an index is non-finite exactly when the mean density is 0; otherwise the index times the mean density is the numerator's mean |
| AdvancedFeatures.CreateParetoFrontier | advanced_features.py:123-144 | both labels are looked up, x first (KeyError if unknown); then the maxima of the materials having both properties are collected with their names; with fewer than three points the figure is left unchanged |
| AdvancedFeatures.ParetoMatchesChart | advanced_features.py:133-139 | the Pareto points are exactly the upper-right corners of the chart's traces for the same axes, in the same order, named after them |
| AdvancedFeatures.FrontierNeedsThreePoints | advanced_features.py:141-144 | with known labels, a hull is requested exactly when at least three materials have both properties, and then over the upper-right corners and names of the chart traces, position by position |
| AdvancedFeatures.FrontierUnknownLabel | advanced_features.py:130-131 | the call succeeds exactly when both labels are known; otherwise the first unknown label, x before y, is raised |
| AdvancedFeatures.ExportMaterialsList | advanced_features.py:190-207 | one record per material, in order, each the material's export row |
| AdvancedFeatures.ExportRowColumns | advanced_features.py:194-204 | an export record has name and family, then exactly a " (min)" and a " (max)" column for each catalog property the material has |
| AdvancedFeatures.GenerateSelectionReport | advanced_features.py:211-236 | the report is the overview, the active filters, the candidates heading and the candidates, in that order |
| AdvancedFeatures.FilterLinesInOrder | advanced_features.py:224-227 | the filter lines are the lines of the filters in filter order with the inactive ones dropped, one line per active filter |
| AdvancedFeatures.FilterLinesExact | advanced_features.py:224-227 | a filter line with given bounds appears exactly when an active filter with that label and range is present; there are no more filter lines than filters |
| AdvancedFeatures.CandidateLinesExact | advanced_features.py:231-234 | every material is listed once, in dictionary order, with its family |
| AdvancedFeatures.ReportLayout | advanced_features.py:214-234 | the report is the material count, the filter lines, one candidates heading and the candidate lines, each section at its position |
| AdvancedFeatures.ReportFilterSection | advanced_features.py:221-229 | between the overview and the candidates heading come only filter lines, exactly as many as there are active filters |
| AdvancedFeatures.ReportCandidateSection | advanced_features.py:229-234 | after the candidates heading every material is listed once, in dictionary order, with its family, and nothing follows |

## Left out

- The Streamlit interface, its CSS themes and session state are not modelled. In `validate_material_selection` the catalog held in the session is passed as a parameter instead.
- Envelope geometry (`_add_material_ellipse`: logarithms, square roots, cosine and sine) is not modelled. The chart model stops at which materials are drawn and with which intervals, because it is real-valued floating-point geometry.
- `PerformanceIndexTool.add_performance_line` and the performance-index overlay are not modelled (floating-point geometry on log axes).
- The convex hull (`ConvexHull` on log10 points), its vertex order and its exception path are not modelled, because the hull is a foreign library call. `CreateParetoFrontier` ends at the points it would hand to the hull.
- AdvancedFeatures.IndexRowCells: the E^(1/2)/ρ and E^(1/3)/ρ columns are not modelled, because they need irrational roots. The index row therefore omits them.
- `calculate_material_statistics` (standard deviation and median) is not modelled (floating-point statistics).
- Plotly figures, pandas data frames, CSV rendering (`to_csv` merging the columns of all rows into one header), and the `.1f`/`.2f` text formatting of cells, messages and report lines are not modelled. Rows are modelled as lists of labelled cells, and messages and report lines as datatypes carrying the values they print.
- The report's date line is not modelled, because it reads the clock.
- IntegrationExample.SortByScore: the relative order of equal scores is not promised, because `sort_values` uses an unstable sort by default. The model proves only non-increasing order and permutation.
- `GraphicalSelection.filter_by_selection` is not modelled: its body is empty.
- `ExportTools` never sets its `database` attribute, so the catalog is passed to `ExportMaterialsList` as a parameter.
- The fixed material table built by `_create_materials_database` is not modelled: every operation takes the material dictionary as input.
- Material records keep `family` and `color` apart from the property map. A catalog key equal to `family` or `color` is therefore not representable; the catalog has none.
- Floating-point arithmetic is modelled with exact reals, and numpy's infinities and NaN are collapsed into the single cell `NonFinite`.

## Notes

- `multi_criteria_analysis` ranks with pandas' default, unstable `sort_values`, then numbers the rows 1..n by position. Equal scores therefore get distinct ranks, in an unspecified order. Every score is also the same placeholder-based value.
- An unknown active filter label, or an unknown chart axis label, raises KeyError.
- In the insights, an empty original set, or a minimum price of 0, raises ZeroDivisionError.
- Each of these errors is modelled as an `Err` result.
