# Freight price predictor: a Dafny model

This project models the pricing engine of a small freight-quote web service
(`app.py`). The engine estimates the price of a shipment between two cities.
It uses the geodesic distance between them as the only feature of one linear
regression per vehicle type, plus a general regression (`'通用'`). Every
prediction first retrains the regressions. The training rows are historical
spreadsheet rows, followed by the quotes entered by hand today, and each of
today's quotes counts three times. The quotes live in a JSON file that the
service reads whole on every operation and writes back whole on every
successful add, update and delete.

The model has six modules:

- `Wrappers` (wrappers.dfy): `Option` and `Result`.
- `Cities` (cities.dfy): the coordinate table `CITY_COORDINATES` (`CityTable`,
  in declaration order), `CITIES_WITH_HISTORY`, the substring city extractor
  `extract_city` and the distance guard `get_distance`.
- `StringOrder` (string_order.dfy): Python's `<` on strings and strictly
  increasing lists. This is what `sorted(... .unique())` yields.
- `Records` (records.dfy): the stored quote, the store as a class whose `data`
  field is the JSON file, and its operations. It also holds the request checks
  of the add and update routes.
- `Training` (training.dfy): the training table of `prepare_and_train` and the
  bank updates, written as functions.
- `Prediction` (predictor.dfy): the `Predictor` class with its `models`,
  `scalers` and `vehicle_types` fields. It has the imperative
  `prepare_and_train`, split into one method per loop, and `predict`.

Abstractions:

- The geodesic distance is a function parameter. All the model knows is that
  its value is never negative (`Cities.Geodesic`).
- The coordinate table is paired with that function in an `Atlas`. The
  predictor and the distance functions take the table as an input. The
  service's own table is the constant `Cities.CityTable`. Its names are
  distinct (`Cities.CityTableDistinct`), so the first entry `CoordOf` finds is
  the dictionary lookup.
- A fitted `StandardScaler` or `LinearRegression` is represented by the rows
  it was fitted on (`Training.Scaler`, `Training.Regression`). Applying them to
  a distance is the function parameter `estimate`.
- "Today" and "now" are string parameters. Reading the spreadsheet and the
  JSON file is replaced by the constructor arguments.

Where the code behaves differently from what one would expect of the service,
the model follows the code:

- The banks are never cleared. An entry written by an earlier training
  survives when its vehicle type drops below 3 rows (`Training.RetrainSpec`).
- `predict` ignores the result of `prepare_and_train`. When the new training
  table is empty, the prediction uses the banks of an earlier training,
  possibly for another origin. When no training ever succeeded, the lookup
  `self.models['通用']` raises. The model reports that as `NoModel`.
- Adding a quote also requires non-empty `from_city`, `to_city` and `vehicle`,
  not only a positive price.
- `if distance:` drops rows at distance 0 as well as rows whose distance is
  unknown.
- Ids are not unique over time. A new id is one more than the largest id
  stored now. After the newest record is deleted, the next record added gets
  an id no larger than the deleted one, and exactly the deleted id when the id
  just below it is still stored (`Records.NextIdAfterDelete`).

## Model

| member | source | states |
|---|---|---|
| `Cities.FirstContained` | app.py:88-91 | the result is None exactly when no name occurs in the text; otherwise it is the name at the first position whose name occurs |
| `Cities.ExtractCity` | app.py:83-91 | NA text gives None; a result is a known city that occurs in the text and comes first in table order; None means no known city occurs |
| `Cities.CoordOf` | app.py:81 | the coordinates returned are those of the first table entry with that name, which is the only one in a Python dict |
| `Cities.CityTableDistinct` | app.py:26-53 | the names of `CITY_COORDINATES` are distinct, as dictionary keys are, so the first entry with a name is its only entry |
| `Cities.HistoryCitiesKnown` | app.py:56 | every city of `CITIES_WITH_HISTORY` has coordinates in the table |
| `Cities.GetDistance` | app.py:77-81 | None if and only if either city is missing from the table; otherwise the non-negative geodesic distance between their coordinates |
| `StringOrder.BelowTotal` | app.py:131 | any two distinct strings are ordered one way or the other |
| `StringOrder.BelowTransitive` | app.py:131 | string order is transitive |
| `StringOrder.InsertSorted` | app.py:131 | inserting into a strictly increasing list keeps it strictly increasing and adds exactly the new element |
| `StringOrder.StrictlySortedUnique` | app.py:131 | two strictly increasing lists with the same elements are equal, so any construction gives Python's sorted list of unique values |
| `Records.MaxId` | app.py:230 | the maximum of the ids, with a missing id counted as 0 and 0 for an empty store: bounds every id and is attained |
| `Records.NextId` | app.py:230-233 | the new id is greater than every id in the store now, and one more than one of them; 1 for an empty store |
| `Records.FirstWithId` | app.py:244-245 | None exactly when no record has the id; otherwise the first position whose record has it |
| `Records.ApplyPatch` | app.py:246-250 | only the fields present in the patch change, `updated_time` is set, and id, date and time are kept |
| `Records.Without` | app.py:263 | removes exactly one position and keeps the others in order, as a multiset removal of that record |
| `Records.OnDate` | app.py:203 | keeps exactly the records dated today |
| `Records.OnDateConcat` | app.py:203 | the date filter distributes over concatenation, so it keeps stored order |
| `Records.SavedIsListed` | app.py:203 | a record saved today is listed last among today's records after the save, and the earlier listing is unchanged |
| `Records.SaveKeepsIdsUnique` | app.py:230-234 | appending a record with the next id keeps ids unique |
| `Records.PatchKeepsIdsUnique` | app.py:246-250 | an update keeps ids unique |
| `Records.DeleteKeepsIdsUnique` | app.py:261-263 | a delete keeps ids unique |
| `Records.NextIdAfterDelete` | app.py:230-233 | after the record with the largest id is deleted, the next id is no larger than the deleted one, and equals it when the id just below is still stored: ids are reused |
| `Records.DeletedIsNotListed` | app.py:257-265 | with unique ids, after a delete no listed record has the deleted id and every other record of the day is still listed |
| `Records.ValidateAdd` | app.py:313-330 | the first missing required field is reported in field order; with every field filled, a price that does not parse gives the format error and a price at or below 0 the non-positive error; success exactly when all checks pass, with a positive price |
| `Records.ValidateUpdate` | app.py:352-359 | a price present in the patch must parse and be above 0, otherwise the matching error; the other fields pass through |
| `Records.RecordStore.constructor` | app.py:208-216 | the store holds the records read from the file |
| `Records.RecordStore.LoadTodayData` | app.py:195-205 | today's records are the date filter of the stored ones |
| `Records.RecordStore.SaveTodayRecord` | app.py:225-237 | appends the record stamped with today, now and the next id; earlier records are unchanged |
| `Records.RecordStore.UpdateRecord` | app.py:240-254 | patches only the first record with the id and returns it; with no match, returns None and leaves the store unchanged |
| `Records.RecordStore.DeleteRecord` | app.py:257-267 | removes only the first record with the id and returns it; with no match, returns None and leaves the store unchanged |
| `Records.RecordStore.AddRecord` | app.py:308-333 | a refused request returns its error and leaves the store unchanged; an accepted one is saved |
| `Records.RecordStore.ModifyRecord` | app.py:346-365 | a refused patch or an unknown id returns an error and leaves the store unchanged; otherwise the first matching record is patched |
| `Records.RecordStore.RemoveRecord` | app.py:368-375 | an unknown id is reported as not found with the store unchanged; otherwise the first matching record is removed |
| `Training.HistoryRowFor` | app.py:98-111 | a spreadsheet row contributes exactly when its city is extracted and non-empty, its price is present and its distance is truthy; the row then carries that city, price and vehicle, and the distance `get_distance` gives from the origin to that city, which is positive |
| `Training.TodayRowFor` | app.py:114-125 | a quote contributes exactly when it is from the origin and its distance is truthy; the row then carries the quote's destination, price and vehicle, and the distance `get_distance` gives from the origin to the destination, which is positive |
| `Training.HistoryRows` | app.py:98-111 | every spreadsheet row in the table has a known city and a positive distance |
| `Training.TodayRows` | app.py:114-125 | every quote row in the table has a known city and a positive distance |
| `Training.TrainingSet` | app.py:95-125 | the training table has only known cities at positive distances |
| `Training.TrainingSetLength` | app.py:95-125 | the table has one row per qualifying spreadsheet row plus three per qualifying quote |
| `Training.HistoryRowsLength` | app.py:98-111 | one row per qualifying spreadsheet row |
| `Training.TodayRowsLength` | app.py:114-125 | three rows per qualifying quote |
| `Training.TodayRowsOnlyFromOrigin` | app.py:115 | quotes from other origins contribute nothing |
| `Training.SavedQuoteWeighsThree` | app.py:114-125 | a quote saved today for the origin adds its row three times at the end of the quote rows; any other quote adds nothing |
| `Training.SortedVehicles` | app.py:131 | the vehicle types are strictly increasing, with each type of the rows exactly once |
| `Training.RowsOf` | app.py:135 | exactly the rows of that vehicle type |
| `Training.RowsOfCount` | app.py:135-136 | the selection keeps every copy: its length, the count `len(vehicle_data) >= 3` tests, is the number of rows of that type |
| `Training.RowsOfConcat` | app.py:135 | selecting a type distributes over concatenation, so the selection keeps table order |
| `Training.TrainingSetAppend` | app.py:113-125 | a qualifying quote added to the day's quotes adds its row three times at the end of the training table |
| `Training.QuoteEarnsOwnModel` | app.py:118-147 | one qualifying quote alone gives its vehicle type at least 3 rows, so training writes that type's entry, fitted on the type's rows |
| `Training.Refit` | app.py:133-147 | the per-vehicle loop never removes an entry, and every entry it adds is for a listed type with at least 3 rows |
| `Training.RefitSpec` | app.py:134-147 | the loop writes an entry exactly for the listed types with at least 3 rows, fitted on their rows, and keeps every other entry |
| `Training.Retrain` | app.py:133-160 | a training sets the general entry to the fit on all rows, removes no entry, and adds entries only for vehicle types of the rows that have at least 3 rows |
| `Training.RetrainSpec` | app.py:134-160 | after a training the general entry is fitted on all rows; another type's entry is rewritten exactly when it has at least 3 rows; all other entries are untouched |
| `Training.RetrainSameKeys` | app.py:146-147 | models and scalers keep the same key set |
| `Training.BankAfter` | app.py:126-160 | an empty training table leaves a bank unchanged; otherwise the general entry is the fit on all rows; no entry is ever removed |
| `Training.TypesAfter` | app.py:126-130 | an empty training table leaves the vehicle types unchanged; otherwise they are strictly increasing and are exactly the types of the rows |
| `Prediction.ClampAtZero` | app.py:188 | the price is the prediction when that is non-negative and 0 otherwise |
| `Prediction.Quote` | app.py:172-192 | uses the requested type if it has a model and `'通用'` otherwise; the price is the clamped estimate, so it is never negative; `has_history` holds exactly when the destination is in `CITIES_WITH_HISTORY`, and `is_prediction` is its negation; fails only when the chosen key is missing |
| `Prediction.FallbackIsGeneral` | app.py:172-173 | a type without a model is quoted exactly like `'通用'` |
| `Prediction.TrainedQuoteSucceeds` | app.py:159-160 | after a training on a non-empty table every vehicle type gets a quote |
| `Prediction.PredictAfterTraining` | app.py:164-192 | after a successful training of the predictor, a prediction at a known distance succeeds with a non-negative price |
| `Prediction.AppendThrice` | app.py:119-125 | appends the row three times |
| `Prediction.Predictor.constructor` | app.py:63-75 | a new predictor has empty banks and no vehicle types |
| `Prediction.Predictor.CollectHistory` | app.py:97-111 | the first loop builds exactly the spreadsheet rows of the table |
| `Prediction.Predictor.AppendToday` | app.py:113-125 | the second loop appends exactly the weighted quote rows |
| `Prediction.Predictor.FitPerVehicle` | app.py:133-147 | the per-vehicle loop updates both banks as the refit of the listed types |
| `Prediction.Predictor.FitBanks` | app.py:130-162 | sets the sorted vehicle types and retrains both banks, keeping their keys equal and the general entry present |
| `Prediction.Predictor.PrepareAndTrain` | app.py:93-162 | succeeds exactly when the table is non-empty; on failure the banks and vehicle types are unchanged; on success they are the retrained ones |
| `Prediction.Predictor.Predict` | app.py:164-192 | an unknown distance fails without retraining; otherwise the banks are retrained for the origin and the result is the quote from the retrained banks |

## Left out

- Prediction.Predictor.Predict: the distance and the price are returned unrounded. `round(..., 0)` and `round(..., 2)` on floats are not modelled.
- Prediction.Quote: the price is unrounded, for the same reason.
- The geodesic computation (geopy) is an abstract non-negative function. So symmetry and a zero distance from a city to itself are not modelled.
- The StandardScaler and LinearRegression fits and predictions (sklearn) are not modelled. A fit is represented by its input rows, and prediction is an input function.
- Floating point is modelled as exact reals. `float()` accepts NaN and infinite prices. NaN and +inf pass `price <= 0`, and -inf is refused as non-positive. None of them is modelled. `float()` on a string is an input function.
- JSON values other than strings in the city and vehicle fields, and null or boolean prices, are not modelled. Nor are non-string dates, or records that lack fields other than `id`.
- Spreadsheet loading (pandas `read_excel`) is not modelled. The constructor receives the rows, and NA cells are `None`. A non-text destination cell is taken as its text, and NA vehicle cells are not modelled. A price cell that is not NA but that `float()` rejects (text such as "面议") makes `float(price)` at app.py:109 raise. That aborts `prepare_and_train` and `predict`. The model types the cell as an optional number, so it cannot express this failure.
- File I/O and JSON (de)serialisation (`load_all_data`, `save_all_data`, the silent `except: return []`) are not modelled. The store's `data` field stands for the file.
- Concurrent writers to the file (lost updates) are not modelled. Every operation is one atomic step.
- The Flask routes outside the add, update and delete checks (`/`, `/api/predict`, `/api/today`, `/api/vehicles`, `/api/cities`, `/api/stats`) and the JSON response shapes are not modelled.
- The global `predictor` and `init_predictor` are not modelled.
