# Mart Sales Predictor — a Dafny model of its prediction core

The Mart Sales Predictor is a small web service. It takes one item/outlet
description, checks it against a schema, turns it into the feature row an
XGBoost regressor was trained on, and returns the predicted sales. This
project models the part of the service that decides what the model sees and
what the client gets back:

- `schema.dfy` (module `Schema`): the request record `SalesInput` and its
  validation. There are two positive numbers, a bounded visibility, a
  bounded establishment year, four anchored text patterns and two
  unconstrained optional fields. The record either validates or yields the
  list of violated field constraints. The module also has the response
  record `SalesPrediction` with its defaults.
- `frame.dfy` (module `Frame`): a one-row table as a sequence of
  (column, cell) pairs. It defines the table operations that preprocessing
  uses, each with the meaning pandas gives it:
  - column assignment (overwrite in place, or append at the end);
  - `drop(errors='ignore')`;
  - `Series.map` with a dictionary (an unmapped value is missing);
  - `get_dummies` with and without `drop_first`;
  - `reindex(fill_value=0)`.
- `prediction_service.dfy` (module `Service`):
  - the `PredictionService` class, whose constant fields are the loaded
    model and its feature names;
  - `Preprocess` as a step-by-step method over the one-row table, proved
    equal to the closed-form specification `Features`;
  - `Predict` and the fixed fields of its result;
  - the process-wide `ServiceHolder` that builds the service on first use
    and hands out the same object afterwards.
- `wrappers.dfy` (module `Wrappers`): `Option` and `Result`.

The preprocessing model shows the central behaviour. A single request has one
row. So every categorical column has at most one level, and `drop_first=True`
removes that level. One-hot expansion therefore produces no indicator column.
Once the row is aligned with the model's feature names, every indicator the
model expects is 0, whatever the request says about the tier, the outlet
type, the item type or the outlet identifier.

## Model

| member | source | states |
|---|---|---|
| Schema.MatchesLiteral | schemas/prediction.py:11 | comparing a text with one literal is exact equality: case-sensitive, no trimming |
| Schema.FullMatch | schemas/prediction.py:11-16 | an anchored alternation pattern accepts a text exactly when it is one of the alternatives |
| Schema.ViolationsAmong | schemas/prediction.py:10-17 | a violation is reported for a listed field exactly when that field has a constraint and the request fails it |
| Schema.Valid | schemas/prediction.py:10-17 | a request is valid exactly when weight > 0, fat content is Low Fat or Regular, 0 ≤ visibility ≤ 0.35, MRP > 0, size is Small/Medium/High, tier is Tier 1/2/3, outlet type is one of the four types and 1980 ≤ year ≤ 2030 |
| Schema.ValidMeansEveryFieldSatisfied | schemas/prediction.py:10-17 | validity is the conjunction of the per-field constraints |
| Schema.UnsatisfiedIsReported | schemas/prediction.py:10-17 | every constrained field the request fails shows up in the violation list with its constraint |
| Schema.NoViolationsMeansValid | schemas/prediction.py:10-17 | the violation list is empty exactly when the request is valid |
| Schema.Validate | schemas/prediction.py:5-21 | validation accepts exactly the valid requests and returns them unchanged; otherwise it returns the non-empty list of all violations |
| Schema.BoundaryRequests | schemas/prediction.py:10-17 | years 1980 and 2030 and visibilities 0 and 0.35 are accepted; 1979, 2031, a zero weight and a zero MRP are rejected; weight and MRP have no upper bound |
| Schema.PatternsAreExact | schemas/prediction.py:11-15 | the patterns reject other case, trailing spaces and extended values ("low fat", "Low Fat ", "Extra Small", "Tier 4") |
| Schema.OptionalFieldsUnconstrained | schemas/prediction.py:20-21 | item type and outlet identifier never affect validity, absent included |
| Schema.NewSalesPrediction | schemas/prediction.py:24-27 | a prediction record keeps its figure; currency defaults to "USD" and the note to "Prediction from XGBoost model" |
| Frame.LookupFound | services/prediction_service.py:52-61 | a column lookup fails exactly when the table has no column of that name; a found value belongs to the table |
| Frame.LookupFirst | services/prediction_service.py:52-61 | a lookup finds the first column of the name |
| Frame.LookupConcat | services/prediction_service.py:65 | looking up in a concatenation searches the left part first |
| Frame.LookupAppend | services/prediction_service.py:52 | after a new column is appended, its name finds the new value and other names find what they found before |
| Frame.OverwriteLookup | services/prediction_service.py:57 | overwriting a column keeps the column order and changes only that column's value |
| Frame.SetLookup | services/prediction_service.py:52 | assigning a column sets its value, appends it when it is new, and leaves every other column alone |
| Frame.SetExisting | services/prediction_service.py:57 | assigning an existing, uniquely named column replaces its cell in place |
| Frame.OverwriteOnce | services/prediction_service.py:61 | overwriting a uniquely named column changes exactly that position |
| Frame.OverwriteAbsent | services/prediction_service.py:57-61 | overwriting a column the table lacks changes nothing, so an in-place assignment touches only the named column |
| Frame.DropLookup | services/prediction_service.py:53 | after a drop, dropped names are gone and every other column keeps its value; naming an absent column is ignored |
| Frame.DropNothing | services/prediction_service.py:53 | dropping names the table does not have leaves it unchanged |
| Frame.DropRange | services/prediction_service.py:65 | dropping columns that occupy one contiguous block removes exactly that block |
| Frame.MapValue | services/prediction_service.py:57 | mapping with a dictionary yields a code exactly for a text that is a key, that key's code, and a missing value (NaN) for any other value, a missing one included; the codes a valid request gets are stated by Service.FatContentEncoding and Service.OutletSizeEncoding |
| Frame.Levels | services/prediction_service.py:65 | a one-row column has at most one level |
| Frame.DummiesOfFour | services/prediction_service.py:64-65 | the indicator columns of four categorical columns are those of each column, concatenated in order |
| Frame.GetDummies | services/prediction_service.py:65 | one-hot expansion keeps the non-categorical columns first and in order; with drop_first on one row it adds no column at all |
| Frame.DropFirstLeavesNoIndicators | services/prediction_service.py:65 | with drop_first a one-row table yields no indicator columns, whatever its values |
| Frame.Reindex | services/prediction_service.py:68 | after reindexing the columns are exactly the requested names, in order |
| Frame.ReindexLookup | services/prediction_service.py:68 | after reindexing, a requested column the table has keeps its value, a requested column it lacks is 0, and an unrequested column is gone |
| Service.RequestRowLayout | services/prediction_service.py:48-49 | the one-row table of a request has the ten fields as columns in declaration order; an absent item type or outlet identifier is a missing value |
| Service.AgeStep | services/prediction_service.py:52 | the year column holds the request's year, and assigning 2026 minus it appends Outlet_Age, holding 2026 − year, after the ten request columns |
| Service.YearStep | services/prediction_service.py:53 | dropping the year removes exactly that column and keeps the others, Outlet_Age included, in order |
| Service.FatStep | services/prediction_service.py:55-57 | fat content holds the request's text and is replaced in place by its code |
| Service.SizeStep | services/prediction_service.py:59-61 | outlet size holds the request's text and is replaced in place by its code |
| Service.PresentColumns | services/prediction_service.py:65 | the kept categorical columns are exactly the listed ones the table has |
| Service.AllPresent | services/prediction_service.py:65 | when every listed column exists, all are kept, in list order |
| Service.ExpandStep | services/prediction_service.py:63-65 | all four categorical columns are present after encoding, and one-hot expansion with drop_first leaves exactly the six base features |
| Service.AlignmentOnlyWithNames | services/prediction_service.py:65-70 | without usable feature names (None or an empty list are false) the row from one-hot expansion of the encoded request goes to the model unchanged; with names it is that row reindexed to them |
| Service.Features | services/prediction_service.py:46-73 | the feature columns are the model's feature names when the list is truthy (present and non-empty; None and an empty list count as false), and the six base columns otherwise |
| Service.PredictionService.constructor | services/prediction_service.py:19-40 | the service holds the loaded model and the feature names read from it, or none |
| Service.PredictionService.Preprocess | services/prediction_service.py:46-73 | the step-by-step transformation (age, drop year, two ordinal maps, one-hot, optional reindex) yields exactly `Features` of the request, named as the model expects |
| Service.PredictionService.Predict | services/prediction_service.py:75-87 | the prediction is the model applied to the preprocessed row; currency is "USD" and the note is "XGBoost prediction – original scale" |
| Service.ServiceHolder.constructor | services/prediction_service.py:98 | no service exists before the first request |
| Service.ServiceHolder.GetService | services/prediction_service.py:100-104 | an existing service is returned unchanged; otherwise a new one is built from the loaded model and kept; a missing model file fails and leaves no service |
| Service.GetServiceTwice | services/prediction_service.py:100-104 | once a service has been handed out, the next request returns the same object |
| Service.FeatureLookup | services/prediction_service.py:46-73 | column by column: a named base column keeps its value, a named column preprocessing did not produce is 0, an unnamed column is absent; without names the base columns pass through |
| Service.OneHotFeaturesAreZero | services/prediction_service.py:63-68 | every model feature outside the base columns, so every one-hot indicator, is 0 for every request |
| Service.CategoricalFieldsIgnored | services/prediction_service.py:63-68 | requests that differ only in tier, outlet type, item type or identifier get identical features |
| Service.RawColumnsRemoved | services/prediction_service.py:53 | the establishment year and the four categorical columns do not survive preprocessing except as a 0 the model asks for |
| Service.NumbersPassThrough | services/prediction_service.py:48-49 | weight, visibility and MRP reach the model unchanged whenever their column is kept |
| Service.FatContentEncoding | services/prediction_service.py:55-57 | for a valid request fat content is coded Low Fat ↦ 0, Regular ↦ 1, never missing |
| Service.OutletSizeEncoding | services/prediction_service.py:59-61 | for a valid request outlet size is coded Small ↦ 0, Medium ↦ 1, High ↦ 2, in size order, never missing |
| Service.AgeOfValidRequest | services/prediction_service.py:52 | the outlet age is 2026 minus the year; for valid requests it lies in -4..46 and is negative exactly for 2027..2030 |
| Service.CorrectedFeatures | services/prediction_service.py:63-68 | with expansion that keeps the request's own level, the aligned row still has exactly the model's feature names |
| Service.OutletTypeIndicatorAsWritten | services/prediction_service.py:65 | as written, the model's indicator for the request's own outlet type is 0 |
| Service.OutletTypeIndicatorCorrected | services/prediction_service.py:65 | with the corrected expansion the same indicator is 1 |

## Left out

- Reading the model file and unpickling it are not modelled. The load's
  outcome is a parameter of `GetService`: an `Artifact`, or None for a
  missing file. The other loading failures (a corrupt file, an unreadable
  pickle) are not distinguished.
- The fallback to no feature names when the booster cannot report them is
  the artifact's `featureNames` being None; the `except` path itself is not
  modelled.
- XGBoost inference is an opaque function from a feature row to a real. The
  `validate_features=False` flag and the column dtypes it tolerates are not
  modelled.
- Service.PredictionService.Predict: the figure is not rounded to two
  decimals, because floating point is modelled by exact reals.
- Floating point in general: request numbers are exact reals, and NaN,
  infinities and float conversion of integers are not modelled.
- Logging (lines 14-15, 37, 40, 43, 70, 72, 89, 93) has no effect on
  results and is left out.
- Re-raising a prediction failure (lines 92-94) is not modelled: the model
  function is total.
- Pattern matching assumes pydantic v2 with its default regular-expression
  engine, where `pattern=` is enforced and `$` matches only at the end of the
  text. Under pydantic v1, `pattern=` would be ignored. With Python's `re`
  engine, `$` would also accept a trailing newline.
- JSON parsing and pydantic's type coercion (a string "12.5" accepted as a
  float, a bool as an int) are not modelled. Validation starts from typed
  fields.
- pandas dtypes are not modelled: indicator columns are stored as integer
  cells, although pandas produces booleans.
- get_dummies only ever sees text levels or a missing value here, because
  the categorical fields are strings or absent; other level types are not
  modelled.
- The schema's `PredictionResponse`, `FeaturesResponse` and `HealthResponse`
  records, the HTTP routes of app.py and the Streamlit front end
  (frontend/frontendapp.py) are not part of this model.
- The reference year 2026 is the constant in the source, not a clock
  reading.
- Thread safety of the process-wide service is not modelled: the source
  has none and the model is sequential.

## Findings

| source | as written | input that shows it | evidently intended | confidence | as-written member | corrected member |
|---|---|---|---|---|---|---|
| services/prediction_service.py:65 | `get_dummies(..., drop_first=True)` on a one-row table drops the only level of every categorical column, so no indicator is produced and reindexing fills every indicator with 0 | any valid request with Outlet_Type "Supermarket Type1", scored by a model whose feature names include "Outlet_Type_Supermarket Type1" | the indicator of the request's own category is 1 (the front end, frontend/frontendapp.py:44, names outlet type among the top features); expand without drop_first and let reindexing drop the model's baseline level | not executed | Service.OutletTypeIndicatorAsWritten | Service.OutletTypeIndicatorCorrected |

`Service.CorrectedFeatures` is the corrected feature row: expansion without
drop_first, then reindexing. `Service.Features` and `Preprocess` keep the
behaviour as written, since that is what the service computes.

The prediction record that `predict` returns (line 86) carries the note
"XGBoost prediction – original scale". This differs from the schema's
default note, "Prediction from XGBoost model" (schemas/prediction.py:27).
Both are modelled as written.
