/**
 * The prediction service of scripts/inference.py: the `/ping` health check
 * and the `/invocations` cascade, which downloads and loads the model,
 * validates the request and asks the model for one forecast step per
 * submitted row. The object store, `joblib.load`, the model's forecast and
 * `pd.to_datetime` are oracles passed in as values.
 */
module Inference {
  import opened Wrappers
  import opened Frames

  const JsonContentType := "application/json"
  const DataKey := "data"
  const DateColumn := "DATE"
  const HealthyStatus := "healthy"
  const UnsupportedContentTypeMessage := "Unsupported content type"
  const MissingDataKeyMessage := "Missing 'data' key in JSON input"
  const MissingColumnsMessage := "Missing required columns 'date' and 'price'"

  /** What `model.get_forecast(steps=n)` produces: the predicted means, or an exception's text. */
  datatype ForecastOutcome = Predicted(mean: seq<real>) | Raised(message: string)

  /** A loaded forecasting model, seen only through its step-ahead forecast. */
  datatype Model = Model(getForecast: nat -> ForecastOutcome)

  /** What `joblib.load` makes of the downloaded file. */
  datatype LoadOutcome = Loaded(model: Model) | LoadRaised(message: string)

  /** The model artifact: the download either raises or yields a file, which is then loaded. */
  datatype Artifact = DownloadRaised(message: string) | Downloaded(load: LoadOutcome)

  /** A value under a key of the JSON body: a list of row objects, or any other JSON value. */
  datatype Field = Records(rows: seq<Row>) | OtherJson

  /** The result of `request.get_json()`: an object, or a body that is not one (malformed, `null`). */
  datatype JsonBody = NotAnObject | Object(fields: map<string, Field>)

  /** An `/invocations` request: the raw Content-Type header (absent is `None`) and the body. */
  datatype Request = Request(contentType: Option<string>, body: JsonBody)

  /** The JSON payload of a response. */
  datatype Payload = Error(error: string) | Forecasted(values: seq<real>) | Health(status: string)

  /** An exception that leaves `predict()` uncaught, to Flask's default error handling. */
  datatype Escape = DownloadError(message: string) | BodyNotAnObject | DataNotRecords | UnparseableDate

  /** A response returned by the handler, or an exception it lets escape. */
  datatype Response = Json(status: int, payload: Payload) | Unhandled(cause: Escape)

  /** After the checks: answer now, or ask the model for `steps` forecast steps. */
  datatype Decision = Done(response: Response) | Forecast(model: Model, steps: nat)

  /** `ping()`: a static healthy status, with no dependency checked. */
  function Ping(): (r: Response)
    ensures r.Json? && r.status == 200 && r.payload == Health(HealthyStatus)
  {
    Json(200, Health(HealthyStatus))
  }

  /** One cell through `pd.to_datetime`: a missing cell becomes NaT (`Missing`) without consulting the parser. */
  function ToDatetimeCell(cell: Value, parse: Value -> Option<Value>): Option<Value>
  {
    if cell == Missing then Some(Missing) else parse(cell)
  }

  /**
   * `pd.to_datetime` over a column: a missing cell becomes NaT, every other
   * cell is parsed by the oracle `parse`, and one cell that does not parse
   * makes the whole conversion fail.
   */
  function ToDatetime(cells: seq<Value>, parse: Value -> Option<Value>): (r: Option<seq<Value>>)
    ensures r.Some? <==> forall i :: 0 <= i < |cells| && cells[i] != Missing ==> parse(cells[i]).Some?
    ensures r.Some? ==> |r.value| == |cells|
    ensures r.Some? ==> forall i :: 0 <= i < |cells| ==>
              if cells[i] == Missing then r.value[i] == Missing else parse(cells[i]) == Some(r.value[i])
  {
    if cells == [] then Some([])
    else
      match ToDatetimeCell(cells[0], parse)
      case None => None
      case Some(v) =>
        match ToDatetime(cells[1..], parse)
        case None =>
          assert exists i :: 1 <= i < |cells| && cells[i] != Missing && !parse(cells[i]).Some? by {
            var j :| 0 <= j < |cells[1..]| && cells[1..][j] != Missing && !parse(cells[1..][j]).Some?;
            assert cells[1..][j] == cells[j + 1];
          }
          None
        case Some(rest) =>
          assert forall i :: 1 <= i < |cells| ==> cells[i] == cells[1..][i - 1];
          Some([v] + rest)
  }

  /** The response to a finished forecast (lines 70-76): the predicted means, or 500 with the exception text. */
  function ForecastResponse(outcome: ForecastOutcome): (r: Response)
    ensures outcome.Predicted? ==> r == Json(200, Forecasted(outcome.mean))
    ensures outcome.Raised? ==> r == Json(500, Error(outcome.message))
  {
    match outcome
    case Predicted(mean) => Json(200, Forecasted(mean))
    case Raised(message) => Json(500, Error(message))
  }

  /**
   * The checks of `predict()` in the order the code makes them: download,
   * model load, Content-Type, the `data` key, the DATE and PRICE columns
   * (exact, case-sensitive names), then date parsing.
   */
  function Validate(req: Request, artifact: Artifact, parse: Value -> Option<Value>): Decision
  {
    match artifact
    case DownloadRaised(message) => Done(Unhandled(DownloadError(message)))
    case Downloaded(LoadRaised(message)) => Done(Json(500, Error(message)))
    case Downloaded(Loaded(model)) =>
      if req.contentType != Some(JsonContentType) then Done(Json(415, Error(UnsupportedContentTypeMessage)))
      else match req.body
        case NotAnObject => Done(Unhandled(BodyNotAnObject))
        case Object(fields) =>
          if DataKey !in fields then Done(Json(400, Error(MissingDataKeyMessage)))
          else match fields[DataKey]
            case OtherJson => Done(Unhandled(DataNotRecords))
            case Records(rows) =>
              var columns := Columns(rows);
              if !(DateColumn in columns && PriceColumn in columns) then Done(Json(400, Error(MissingColumnsMessage)))
              else if ToDatetime(ColumnValues(rows, DateColumn), parse).None? then Done(Unhandled(UnparseableDate))
              else Forecast(model, |rows|)
  }

  /** `predict()`: the checks, then at most one forecast call. */
  function Predict(req: Request, artifact: Artifact, parse: Value -> Option<Value>): Response
  {
    match Validate(req, artifact, parse)
    case Done(response) => response
    case Forecast(model, steps) => ForecastResponse(model.getForecast(steps))
  }

  /** The request's body carries a list of row objects under `data`. */
  predicate HasRecords(req: Request)
  {
    req.body.Object? && DataKey in req.body.fields && req.body.fields[DataKey].Records?
  }

  function RecordsOf(req: Request): seq<Row>
    requires HasRecords(req)
  {
    req.body.fields[DataKey].rows
  }

  /**
   * A request the handler accepts: JSON content type, a list of records
   * under `data` with some record holding DATE and some holding PRICE,
   * and every DATE cell that is not missing parseable.
   */
  predicate WellFormed(req: Request, parse: Value -> Option<Value>)
  {
    && req.contentType == Some(JsonContentType)
    && HasRecords(req)
    && DateColumn in Columns(RecordsOf(req))
    && PriceColumn in Columns(RecordsOf(req))
    && forall i :: 0 <= i < |RecordsOf(req)| && Cell(RecordsOf(req)[i], DateColumn) != Missing ==>
         parse(Cell(RecordsOf(req)[i], DateColumn)).Some?
  }

  /** A failing download escapes `predict()`, whatever the request. */
  lemma DownloadFailureEscapes(req: Request, message: string, parse: Value -> Option<Value>)
    ensures Predict(req, DownloadRaised(message), parse) == Unhandled(DownloadError(message))
  {
  }

  /** A failing model load gives 500 with the exception text, whatever the content type or body. */
  lemma LoadFailureComesFirst(req: Request, message: string, parse: Value -> Option<Value>)
    ensures Predict(req, Downloaded(LoadRaised(message)), parse) == Json(500, Error(message))
  {
  }

  /** With the model loaded, any Content-Type other than exactly `application/json` gives 415. */
  lemma UnsupportedContentType(req: Request, model: Model, parse: Value -> Option<Value>)
    requires req.contentType != Some(JsonContentType)
    ensures Validate(req, Downloaded(Loaded(model)), parse) == Done(Json(415, Error(UnsupportedContentTypeMessage)))
  {
  }

  /** A JSON object without `data` gives 400 and no forecast is asked for. */
  lemma MissingDataKey(req: Request, model: Model, parse: Value -> Option<Value>)
    requires req.contentType == Some(JsonContentType)
    requires req.body.Object? && DataKey !in req.body.fields
    ensures Validate(req, Downloaded(Loaded(model)), parse) == Done(Json(400, Error(MissingDataKeyMessage)))
  {
  }

  /** Records with no column named exactly DATE, or none named exactly PRICE, give 400 and no forecast. */
  lemma MissingColumns(req: Request, model: Model, parse: Value -> Option<Value>)
    requires req.contentType == Some(JsonContentType) && HasRecords(req)
    requires || (forall i :: 0 <= i < |RecordsOf(req)| ==> DateColumn !in RecordsOf(req)[i])
             || (forall i :: 0 <= i < |RecordsOf(req)| ==> PriceColumn !in RecordsOf(req)[i])
    ensures Validate(req, Downloaded(Loaded(model)), parse) == Done(Json(400, Error(MissingColumnsMessage)))
  {
    var columns := Columns(RecordsOf(req));
    assert DateColumn !in columns || PriceColumn !in columns;
  }

  /**
   * With the model loaded, a forecast is asked for exactly when the request
   * is well formed, and then for one step per submitted row.
   */
  lemma ForecastIffWellFormed(req: Request, model: Model, parse: Value -> Option<Value>)
    ensures Validate(req, Downloaded(Loaded(model)), parse).Forecast? <==> WellFormed(req, parse)
    ensures WellFormed(req, parse) ==> Validate(req, Downloaded(Loaded(model)), parse).steps == |RecordsOf(req)|
  {
    if req.contentType == Some(JsonContentType) && HasRecords(req) {
      var rows := RecordsOf(req);
      var cells := ColumnValues(rows, DateColumn);
      assert (forall i :: 0 <= i < |cells| && cells[i] != Missing ==> parse(cells[i]).Some?) <==>
             (forall i :: 0 <= i < |rows| && Cell(rows[i], DateColumn) != Missing ==> parse(Cell(rows[i], DateColumn)).Some?);
    }
  }

  /**
   * The response is 200 exactly when the model loads, the request is well
   * formed and the forecast returns; its body is then the predicted means in
   * order, one per row when the model returns as many values as it was asked for.
   */
  lemma SuccessIsTheForecast(req: Request, artifact: Artifact, parse: Value -> Option<Value>)
    ensures var r := Predict(req, artifact, parse);
            r.Json? && r.status == 200 <==>
              && artifact.Downloaded? && artifact.load.Loaded?
              && WellFormed(req, parse)
              && artifact.load.model.getForecast(|RecordsOf(req)|).Predicted?
    ensures var r := Predict(req, artifact, parse);
            r.Json? && r.status == 200 ==>
              var mean := artifact.load.model.getForecast(|RecordsOf(req)|).mean;
              && r.payload == Forecasted(mean)
              && (|mean| == |RecordsOf(req)| ==> |r.payload.values| == |RecordsOf(req)|)
  {
    if artifact.Downloaded? && artifact.load.Loaded? {
      ForecastIffWellFormed(req, artifact.load.model, parse);
    }
  }

  /** When the forecast raises on a well-formed request, the response is 500 with its text. */
  lemma ForecastFailureIs500(req: Request, model: Model, parse: Value -> Option<Value>)
    requires WellFormed(req, parse)
    requires model.getForecast(|RecordsOf(req)|).Raised?
    ensures Predict(req, Downloaded(Loaded(model)), parse) ==
            Json(500, Error(model.getForecast(|RecordsOf(req)|).message))
  {
    ForecastIffWellFormed(req, model, parse);
  }

  /**
   * Only the forecast for the requested number of steps is consulted: two
   * models that agree there give the same response, and when no forecast is
   * asked for the model has no influence at all.
   */
  lemma OnlyRequestedStepsConsulted(req: Request, m1: Model, m2: Model, parse: Value -> Option<Value>)
    ensures var d1 := Validate(req, Downloaded(Loaded(m1)), parse);
            var d2 := Validate(req, Downloaded(Loaded(m2)), parse);
            && d1.Done? == d2.Done?
            && (d1.Done? ==> d1.response == d2.response)
            && (d1.Forecast? ==> d1.steps == d2.steps)
            && (d1.Forecast? && m1.getForecast(d1.steps) == m2.getForecast(d1.steps) ==>
                  Predict(req, Downloaded(Loaded(m1)), parse) == Predict(req, Downloaded(Loaded(m2)), parse))
  {
  }

  /** Every response the handler returns itself has one of the statuses 200, 400, 415 or 500. */
  lemma Statuses(req: Request, artifact: Artifact, parse: Value -> Option<Value>)
    ensures var r := Predict(req, artifact, parse);
            r.Json? ==> r.status in {200, 400, 415, 500}
  {
  }

  /** An empty `data` list builds a frame with no columns at all, so it is rejected with 400. */
  lemma EmptyDataRejected(model: Model, parse: Value -> Option<Value>)
    ensures Predict(Request(Some(JsonContentType), Object(map[DataKey := Records([])])), Downloaded(Loaded(model)), parse)
            == Json(400, Error(MissingColumnsMessage))
  {
  }

  /** Column names are matched exactly: lower-case `date` and `price` do not count. */
  lemma LowerCaseColumnsRejected(model: Model, parse: Value -> Option<Value>)
    ensures var row: Row := map["date" := Text("2024-01-01"), "price" := Num(10.0)];
            Predict(Request(Some(JsonContentType), Object(map[DataKey := Records([row])])), Downloaded(Loaded(model)), parse)
            == Json(400, Error(MissingColumnsMessage))
  {
    var row: Row := map["date" := Text("2024-01-01"), "price" := Num(10.0)];
    assert DateColumn !in Columns([row]);
  }

  /** Two dated rows with prices: the forecast is asked for two steps and its two means are the answer. */
  lemma TwoRowsTwoForecasts(model: Model, parse: Value -> Option<Value>)
    requires parse(Text("2024-01-01")).Some? && parse(Text("2024-01-02")).Some?
    requires model.getForecast(2).Predicted? && |model.getForecast(2).mean| == 2
    ensures var rows: seq<Row> := [map[DateColumn := Text("2024-01-01"), PriceColumn := Num(10.0)],
                                   map[DateColumn := Text("2024-01-02"), PriceColumn := Num(11.0)]];
            var r := Predict(Request(Some(JsonContentType), Object(map[DataKey := Records(rows)])), Downloaded(Loaded(model)), parse);
            r == Json(200, Forecasted(model.getForecast(2).mean)) && |r.payload.values| == 2
  {
    var rows: seq<Row> := [map[DateColumn := Text("2024-01-01"), PriceColumn := Num(10.0)],
                           map[DateColumn := Text("2024-01-02"), PriceColumn := Num(11.0)]];
    assert DateColumn in rows[0] && PriceColumn in rows[0];
  }

  /**
   * A record without DATE next to one with it gets NaT, not an error: the
   * parser is never asked about the missing cell, so the forecast is asked
   * for two steps.
   */
  lemma MissingDateBecomesNaT(model: Model, parse: Value -> Option<Value>)
    requires parse(Text("2024-01-01")).Some?
    ensures var rows: seq<Row> := [map[PriceColumn := Num(1.0)], map[DateColumn := Text("2024-01-01")]];
            var d := Validate(Request(Some(JsonContentType), Object(map[DataKey := Records(rows)])), Downloaded(Loaded(model)), parse);
            d.Forecast? && d.steps == 2
  {
    var rows: seq<Row> := [map[PriceColumn := Num(1.0)], map[DateColumn := Text("2024-01-01")]];
    assert DateColumn in rows[1] && PriceColumn in rows[0];
    assert Cell(rows[0], DateColumn) == Missing;
  }

  /**
   * `predict()` step by step: the frame is built from the records, its DATE
   * column is overwritten with parsed dates and made the index in place, and
   * the forecast is asked for `len` of the reshaped frame.
   */
  method Invocations(req: Request, artifact: Artifact, parse: Value -> Option<Value>) returns (r: Response)
    ensures r == Predict(req, artifact, parse)
  {
    if artifact.DownloadRaised? {
      return Unhandled(DownloadError(artifact.message));
    }
    var loaded := artifact.load;
    if loaded.LoadRaised? {
      return Json(500, Error(loaded.message));
    }
    var model := loaded.model;
    if req.contentType == Some(JsonContentType) {
      if req.body.NotAnObject? {
        return Unhandled(BodyNotAnObject);
      }
      var inputJson := req.body.fields;
      if DataKey in inputJson {
        var data := inputJson[DataKey];
        if data.OtherJson? {
          return Unhandled(DataNotRecords);
        }
        var inputData := new DataFrame.FromRecords(data.rows);
        if DateColumn in inputData.columns && PriceColumn in inputData.columns {
          var parsed := ToDatetime(inputData.Column(DateColumn), parse);
          if parsed.None? {
            return Unhandled(UnparseableDate);
          }
          inputData.AssignColumn(DateColumn, parsed.value);
          inputData.SetIndex(DateColumn);
        } else {
          return Json(400, Error(MissingColumnsMessage));
        }
        r := ForecastResponse(model.getForecast(inputData.Length()));
      } else {
        r := Json(400, Error(MissingDataKeyMessage));
      }
    } else {
      r := Json(415, Error(UnsupportedContentTypeMessage));
    }
  }
}
