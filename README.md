# Price-forecast serving endpoint: a Dafny model

This project models the core of a small time-series price-forecasting
service. The service is a Flask application with two routes:

- `/ping` is a health check.
- `/invocations` downloads a serialized statsmodels model from S3, loads it
  with joblib, checks the JSON request, turns its `data` records into a
  DATE-indexed pandas frame and returns `model.get_forecast(steps=len(data)).predicted_mean`.

The project also models two helpers used to prepare the training data:

- `make_stationary` drops every row that has a missing value.
- `split_data` cuts the PRICE series into a training prefix and a test suffix.

Modules:

- `Wrappers`: an `Option` type.
- `Frames`: the parts of pandas the service uses. Cells are a `Value` in which
  `Missing` stands for NaN, None and NaT; a record is a map from column name
  to cell. `Columns` gives the columns pandas builds from a list of records.
  The `DataFrame` class mirrors the frame that `predict()` reshapes in place:
  it is built from records, its DATE column is overwritten, and `set_index`
  is applied with `inplace=True`.
- `Preprocessing`: `MakeStationary` (`dropna`), `SplitData` and their lemmas.
- `Inference`: `Ping`, the check cascade `Validate`/`Predict` as pure
  functions, and `Invocations`, a method that follows `predict()` step by step
  on a `DataFrame` and is proved equal to `Predict`.

How outside code becomes values:

- The S3 download, `joblib.load`, the model's `get_forecast` and
  `pd.to_datetime` cell parsing are oracles passed in as parameters.
- An `Artifact` holds the outcome of the download and of the load.
- A `Model` is a function from a step count to a `ForecastOutcome`: either
  the predicted means or an exception's text.
- An exception that `predict()` does not catch ends in `Unhandled(cause)`.
  The handler does not catch it; Flask's default error handling answers it,
  and the model does not say how. The causes are:
  - the download (line 41), which is outside any `try`;
  - an unparseable date (line 62), also outside any `try`;
  - a body that is not a JSON object, and a `data` value that is not a list
    of records. These two are simplifications: see the two lines about them
    under "## Left out" for the cases where the code answers 400 instead.

Notes on what the code does:

- The model is downloaded and loaded before the Content-Type is checked. So
  a request with the wrong content type still loads the model, and a load
  failure gives 500 even for such a request.
- Column names are matched exactly and are case-sensitive: `date` and
  `price` do not count.
- `set_index` does not sort the rows.
- `pd.to_datetime` turns a missing DATE cell into NaT without raising; only
  a present cell that does not parse makes it fail.

## Model

| member | source | states |
|---|---|---|
| `Frames.Cell` | scripts/inference.py:56 | a record that lacks a column reads as missing (NaN) in that column, as pandas fills it |
| `Frames.Columns` | scripts/inference.py:56-60 | a column of the frame built from the records exists exactly when some record has that key; an empty list of records gives no columns |
| `Frames.ColumnValues` | scripts/inference.py:61-62 | the column has one cell per row, in row order, and a record without the key reads as missing |
| `Frames.RangeIndex` | scripts/inference.py:56 | a fresh frame is labelled 0..n-1, one label per record |
| `Frames.DataFrame.FromRecords` | scripts/inference.py:56 | the frame built from records has one row per record in order, the union of their keys as columns, and a range index |
| `Frames.DataFrame.Length` | scripts/inference.py:71 | `len(df)` is the number of rows |
| `Frames.DataFrame.Column` | scripts/inference.py:61-62 | `df['DATE']` is that column's cells, in row order |
| `Frames.DataFrame.AssignColumn` | scripts/inference.py:62 | overwriting a column sets that cell in every row; the index and the row count are unchanged; the column is now present |
| `Frames.DataFrame.SetIndex` | scripts/inference.py:64 | in-place `set_index` moves the column's cells into the index and removes the column; the row count and row order are unchanged |
| `Inference.Ping` | scripts/inference.py:28-31 | the health check is always 200 with status `healthy` |
| `Inference.ToDatetime` | scripts/inference.py:62 | date conversion succeeds exactly when every present cell parses, and then gives one cell per input cell, in order: NaT for a missing cell, the parsed date otherwise |
| `Inference.ToDatetimeCell` | scripts/inference.py:62 | one cell through `pd.to_datetime`: a missing cell becomes NaT, any other cell is parsed; specified through `ToDatetime` |
| `Inference.ForecastResponse` | scripts/inference.py:70-76 | a forecast that returns gives 200 with its predicted means; one that raises gives 500 with the exception text |
| `Inference.Validate` | scripts/inference.py:40-67 | the checks in source order, ending in a response or in a forecast request; specified by `LoadFailureComesFirst`, `UnsupportedContentType`, `MissingDataKey`, `MissingColumns`, `ForecastIffWellFormed` and `OnlyRequestedStepsConsulted` |
| `Inference.Predict` | scripts/inference.py:40-82 | the whole cascade: the checks, then at most one forecast call; specified by `SuccessIsTheForecast`, `ForecastFailureIs500`, `DownloadFailureEscapes`, `LoadFailureComesFirst` and `Statuses` |
| `Inference.DownloadFailureEscapes` | scripts/inference.py:41 | a download failure escapes the handler, whatever the request |
| `Inference.LoadFailureComesFirst` | scripts/inference.py:44-50 | a model load failure gives 500 with the exception text, whatever the content type or body |
| `Inference.UnsupportedContentType` | scripts/inference.py:50-82 | with the model loaded, a Content-Type other than exactly `application/json` gives 415 `Unsupported content type`, and no forecast is asked for |
| `Inference.MissingDataKey` | scripts/inference.py:53-79 | a JSON object without `data` gives 400 `Missing 'data' key in JSON input`, and no forecast is asked for |
| `Inference.MissingColumns` | scripts/inference.py:60-67 | if no record has DATE, or no record has PRICE, the answer is 400 `Missing required columns 'date' and 'price'`, and no forecast is asked for |
| `Inference.ForecastIffWellFormed` | scripts/inference.py:50-71 | with the model loaded, a forecast is asked for if and only if the request is well formed, and then with steps equal to the number of records |
| `Inference.SuccessIsTheForecast` | scripts/inference.py:70-73 | the answer is 200 if and only if the model loads, the request is well formed and the forecast returns; the body is then exactly the predicted means, in order, one per record when the model returns as many values as steps |
| `Inference.ForecastFailureIs500` | scripts/inference.py:70-76 | a forecast that raises on a well-formed request gives 500 with the exception text |
| `Inference.OnlyRequestedStepsConsulted` | scripts/inference.py:71 | the checks do not depend on the model; two models that agree on the forecast for the requested steps give the same response |
| `Inference.Statuses` | scripts/inference.py:44-82 | every response the handler returns has status 200, 400, 415 or 500 |
| `Inference.EmptyDataRejected` | scripts/inference.py:56-67 | an empty `data` list has no columns and is rejected with 400 |
| `Inference.LowerCaseColumnsRejected` | scripts/inference.py:60 | records keyed `date` and `price` are rejected with 400: the match is case-sensitive |
| `Inference.TwoRowsTwoForecasts` | scripts/inference.py:53-73 | two dated, priced records ask for two steps and are answered with the model's two means |
| `Inference.MissingDateBecomesNaT` | scripts/inference.py:60-71 | a record without DATE beside one with it is not an error: its date becomes NaT and the forecast is asked for one step per record |
| `Inference.Invocations` | scripts/inference.py:34-82 | the step-by-step handler, which builds the frame, overwrites DATE, sets it as index in place and asks for `len` steps, gives exactly the response of the cascade `Predict` |
| `Preprocessing.KeepComplete` | scripts/preprocessing.py:12-13 | the row filter behind `dropna`; specified by the `KeepComplete*` lemmas and `MakeStationary` |
| `Preprocessing.KeepCompleteCounts` | scripts/preprocessing.py:12-13 | each complete row occurs in the result as often as in the input, and each incomplete row not at all |
| `Preprocessing.KeepCompleteSound` | scripts/preprocessing.py:12-13 | every row kept by the filter has no missing cell |
| `Preprocessing.KeepCompleteKeeps` | scripts/preprocessing.py:12-13 | every row without a missing cell is kept |
| `Preprocessing.KeepCompleteSubsequence` | scripts/preprocessing.py:12-13 | the kept rows are a subsequence of the input |
| `Preprocessing.MakeStationary` | scripts/preprocessing.py:12-13 | `dropna` keeps the columns and returns exactly the rows with no missing cell, each as often as in the input, as a subsequence of the input in original order |
| `Preprocessing.KeepCompleteIdempotent` | scripts/preprocessing.py:12-13 | filtering an already filtered list of rows changes nothing |
| `Preprocessing.MakeStationaryIdempotent` | scripts/preprocessing.py:12-13 | applying `make_stationary` twice gives the same frame as applying it once |
| `Preprocessing.KeepCompleteAppend` | scripts/preprocessing.py:12-13 | the filter of a concatenation is the concatenation of the filters |
| `Preprocessing.MakeStationaryAppend` | scripts/preprocessing.py:12-13 | cleaning two stretches of rows and joining them equals cleaning their join, so relative order is kept |
| `Preprocessing.KeepCompleteShrinks` | scripts/preprocessing.py:12-13 | the filter never lengthens the list, and leaves it unchanged exactly when every row is complete |
| `Preprocessing.MakeStationaryFixpoint` | scripts/preprocessing.py:12-13 | a frame is returned unchanged if and only if none of its rows has a missing cell |
| `Preprocessing.ColumnSeries` | scripts/preprocessing.py:16 | `df['PRICE']` exists exactly when the column does, and then has one point per row, carrying the row's DATE label and PRICE cell |
| `Preprocessing.TrainLength` | scripts/preprocessing.py:17 | the training length is the floor of four fifths of the series length, so it is at most the length |
| `Preprocessing.SplitData` | scripts/preprocessing.py:15-19 | `train + test` is the PRICE series; `train` has `int(len * 0.8)` points and `test` the rest, which is non-empty for a non-empty series; a frame without PRICE gives a KeyError |
| `Preprocessing.SplitIgnoresTrainSize` | scripts/preprocessing.py:15-17 | the result does not depend on the `train_size` argument |
| `Preprocessing.SplitPrefixSuffix` | scripts/preprocessing.py:18 | `train` is the leading part and `test` the matching trailing part of the series, position by position |
| `Preprocessing.SplitOfStationaryHasNoMissing` | scripts/preprocessing.py:12-19 | after `make_stationary`, neither half of the split holds a missing price |

## Left out

- The S3 download (`download_model_from_s3`, `load_data`) is network I/O. Only its outcome is modelled, as an oracle.
- `joblib.load` deserialization is a foreign library call. It is an oracle that either yields a model or raises with a message.
- `get_forecast(...).predicted_mean` is floating-point statsmodels numerics. It is an oracle from a step count to a sequence of reals or an exception text.
- `pd.to_datetime` is a per-cell parsing oracle for present cells; missing cells become NaT without it. pandas infers one date format for the whole column, and the model does not capture that. A parse failure is outside any `try`, so it is modelled as an uncaught exception.
- Flask's default error handler is not modelled. Uncaught exceptions end in `Unhandled` with their cause, and no status is given to them.
- Non-object JSON bodies are all folded into `NotAnObject`, which is uncaught. In the code, `in` on a JSON array or string tests membership or a substring, so an array or string body without `"data"` gets the 400 of line 79; the model does not follow those cases.
- A `data` value that is not a list of JSON objects is treated as an uncaught error. pandas builds a frame from some such values: `null` gives an empty frame and so the 400 of line 67, and a dict of lists gives a frame with those columns.
- `Preprocessing.TrainLength`: `int(len(ts) * 0.8)` is computed in floating point. The model uses exact arithmetic, `(4 * n) / 5`. The double nearest 0.8 is slightly above 0.8, so the two agree for every length below 10^15.
- The order and type of frame columns are not modelled. Columns are a set, and only membership is inspected by the code.
- Logging, Flask routing, `app.run` and the notebook-checkpoint deployment script are left out. They are I/O and provisioning with no local logic.
- The BytesIO fill and rewind inside `download_model_from_s3` is part of the download and is not modelled.
