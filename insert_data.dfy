/**
 * The sensor-data insertion endpoint, insert_data.php. It is a straight-line
 * script whose first failing stage decides the HTTP status:
 * OPTIONS preflight, connection, method, empty body, JSON decoding,
 * required fields, range validation, then one INSERT.
 *
 * Pipeline is the specification: the response as a function of the request.
 * HandleInsert is the script itself, stage by stage with its early exits and
 * its loop over the required fields; it is proved to answer as Pipeline does.
 * The lemmas state what the script promises about each stage.
 */
module InsertData {
  import opened Wrappers

  /** A member of the array that json_decode($body, true) yields, as far as
      the script looks at it. JSON arrays and objects both become PHP arrays. */
  datatype Value =
    | JNull
    | JBool(b: bool)
    | JNumber(n: real)
      /** asFloat is what FILTER_VALIDATE_FLOAT makes of text; None stands for PHP's false. */
    | JString(text: string, asFloat: Option<real>)
    | JArray

  /** What the mysqli calls report. The database itself is not modelled. */
  datatype Database = Database(connected: bool, prepared: bool, executed: bool, insertId: int)

  datatype Request = Request(
    verb: string,                         // $_SERVER['REQUEST_METHOD']
    body: string,                         // the raw request body
    decoded: Option<map<string, Value>>,  // json_decode; None when json_last_error() reports an error
    db: Database,
    timestamp: string)                    // date('Y-m-d H:i:s') taken just before the insert

  datatype Failure =
    | ConnectionFailed
    | MethodNotAllowed(methodReceived: string)
    | EmptyBody
    | InvalidJson
    | MissingFields(missing: seq<string>, receivedKeys: set<string>)
    | ValidationFailed(errors: seq<string>)
    | PrepareFailed
    | InsertFailed
  {
    function Status(): int {
      match this
      case MethodNotAllowed(_) => 405
      case ConnectionFailed | PrepareFailed | InsertFailed => 500
      case _ => 400
    }
  }

  /** The values bound into the INSERT INTO sensor_data statement. */
  datatype SensorRow = SensorRow(waterFlow: real, pressure: real, quality: real, consumption: real, timestamp: string)

  datatype Response =
    | Preflight                                // bare 200 answer to OPTIONS
    | Rejected(failure: Failure)               // "success" => false
    | Inserted(recordId: int, row: SensorRow)  // "success" => true
  {
    function Status(): int {
      match this
      case Rejected(f) => f.Status()
      case _ => 200
    }

    /** The row that the request writes to sensor_data, if any. */
    function Written(): Option<SensorRow> {
      if Inserted? then Some(row) else None
    }
  }

  const RequiredFields: seq<string> := ["flowRate", "pressure", "pH"]

  const FlowRateError := "flowRate must be a valid positive number"
  const PressureError := "pressure must be a valid positive number"
  const PhError := "pH must be a valid number between 0 and 14"

  /** Litres per reading: the script assumes one reading every 10 minutes. */
  const ConsumptionFactor: real := 10.0

  /** PHP's empty() on a string: true for "" and also for "0". */
  predicate EmptyString(s: string) {
    s == "" || s == "0"
  }

  /** A field counts as missing when it is not set, is null, or is the empty string. */
  predicate IsMissing(data: map<string, Value>, field: string) {
    field !in data || data[field] == JNull || (data[field].JString? && data[field].text == "")
  }

  /** The members of `fields` that are missing from `data`, in the order of `fields`. */
  function MissingAmong(fields: seq<string>, data: map<string, Value>): (r: seq<string>)
    ensures forall f :: f in r <==> f in fields && IsMissing(data, f)
    ensures |r| <= |fields|
  {
    if fields == [] then []
    else
      var init := fields[..|fields| - 1];
      var last := fields[|fields| - 1];
      assert fields == init + [last];
      MissingAmong(init, data) + (if IsMissing(data, last) then [last] else [])
  }

  /** filter_var($v, FILTER_VALIDATE_FLOAT). A boolean is first turned into
      "1" or "", so true gives 1 and false fails; an array never validates. */
  function FilterFloat(v: Value): Option<real> {
    match v
    case JNumber(n) => Some(n)
    case JString(_, f) => f
    case JBool(b) => if b then Some(1.0) else None
    case _ => None
  }

  /** Accepted as a flow rate or a pressure: a number, and zero is allowed. */
  predicate NonNegative(x: Option<real>) {
    x.Some? && x.value >= 0.0
  }

  /** Accepted as a pH: a number on the closed interval [0, 14]. */
  predicate ValidPh(x: Option<real>) {
    x.Some? && 0.0 <= x.value <= 14.0
  }

  /** Every range failure, in the order flow, pressure, pH. */
  function ValidationErrors(flow: Option<real>, pressure: Option<real>, ph: Option<real>): seq<string> {
    (if NonNegative(flow) then [] else [FlowRateError])
    + (if NonNegative(pressure) then [] else [PressureError])
    + (if ValidPh(ph) then [] else [PhError])
  }

  /** The response to a request, as a function of the request. */
  function Pipeline(req: Request): (r: Response)
    ensures r.Preflight? <==> req.verb == "OPTIONS"
    ensures r.Inserted? ==> r.row.consumption == r.row.waterFlow * ConsumptionFactor
    ensures r.Inserted? ==> r.row.waterFlow >= 0.0 && r.row.pressure >= 0.0 && 0.0 <= r.row.quality <= 14.0
  {
    if req.verb == "OPTIONS" then Preflight
    else if !req.db.connected then Rejected(ConnectionFailed)
    else if req.verb != "POST" then Rejected(MethodNotAllowed(req.verb))
    else if EmptyString(req.body) then Rejected(EmptyBody)
    else if req.decoded.None? then Rejected(InvalidJson)
    else Validate(req.decoded.value, req.db, req.timestamp)
  }

  /** The stages from the required-field check on, once the body has decoded to `data`. */
  function Validate(data: map<string, Value>, db: Database, timestamp: string): Response {
    var missing := MissingAmong(RequiredFields, data);
    if missing != [] then Rejected(MissingFields(missing, data.Keys))
    else
      assert "flowRate" in RequiredFields && "pressure" in RequiredFields && "pH" in RequiredFields;
      var flow := FilterFloat(data["flowRate"]);
      var pressure := FilterFloat(data["pressure"]);
      var ph := FilterFloat(data["pH"]);
      if ValidationErrors(flow, pressure, ph) != [] then Rejected(ValidationFailed(ValidationErrors(flow, pressure, ph)))
      else if !db.prepared then Rejected(PrepareFailed)
      else if !db.executed then Rejected(InsertFailed)
      else Inserted(db.insertId, SensorRow(flow.value, pressure.value, ph.value, flow.value * ConsumptionFactor, timestamp))
  }

  /** The script, stage by stage: each early exit() is a return. */
  method HandleInsert(req: Request) returns (resp: Response)
    ensures resp == Pipeline(req)
  {
    if req.verb == "OPTIONS" {
      return Preflight;
    }
    if !req.db.connected {
      return Rejected(ConnectionFailed);
    }
    if req.verb != "POST" {
      return Rejected(MethodNotAllowed(req.verb));
    }
    if EmptyString(req.body) {
      return Rejected(EmptyBody);
    }
    if req.decoded.None? {
      return Rejected(InvalidJson);
    }
    var data := req.decoded.value;

    var missing: seq<string> := [];
    for i := 0 to |RequiredFields|
      invariant missing == MissingAmong(RequiredFields[..i], data)
    {
      var field := RequiredFields[i];
      assert RequiredFields[..i + 1] == RequiredFields[..i] + [field];
      if IsMissing(data, field) {
        missing := missing + [field];
      }
    }
    assert RequiredFields[..|RequiredFields|] == RequiredFields;
    if missing != [] {
      return Rejected(MissingFields(missing, data.Keys));
    }

    assert "flowRate" in RequiredFields && "pressure" in RequiredFields && "pH" in RequiredFields;
    var flowRate := FilterFloat(data["flowRate"]);
    var pressure := FilterFloat(data["pressure"]);
    var pH := FilterFloat(data["pH"]);

    var errors: seq<string> := [];
    if flowRate.None? || flowRate.value < 0.0 {
      errors := errors + [FlowRateError];
    }
    if pressure.None? || pressure.value < 0.0 {
      errors := errors + [PressureError];
    }
    if pH.None? || pH.value < 0.0 || pH.value > 14.0 {
      errors := errors + [PhError];
    }
    assert errors == ValidationErrors(flowRate, pressure, pH);
    if errors != [] {
      return Rejected(ValidationFailed(errors));
    }

    var consumption := flowRate.value * ConsumptionFactor;
    if !req.db.prepared {
      return Rejected(PrepareFailed);
    }
    if !req.db.executed {
      return Rejected(InsertFailed);
    }
    return Inserted(req.db.insertId, SensorRow(flowRate.value, pressure.value, pH.value, consumption, req.timestamp));
  }

  // ---------------------------------------------------------------------------
  // What the script promises, stage by stage

  /** A preflight request is answered 200 whatever the rest of the request,
      before any connection, validation or insert. */
  lemma OptionsShortCircuits(req: Request)
    requires req.verb == "OPTIONS"
    ensures Pipeline(req) == Preflight
    ensures Pipeline(req).Status() == 200 && Pipeline(req).Written() == None
    ensures forall other: Request :: other.verb == "OPTIONS" ==> Pipeline(other) == Pipeline(req)
  {
  }

  /** The connection is checked before the method: a failed connection is a
      500 for every method but OPTIONS, GET included. */
  lemma ConnectionCheckedFirst(req: Request)
    requires req.verb != "OPTIONS" && !req.db.connected
    ensures Pipeline(req) == Rejected(ConnectionFailed)
    ensures Pipeline(req).Status() == 500 && Pipeline(req).Written() == None
  {
  }

  /** Any method but POST and OPTIONS, with a live connection, is a 405 that
      echoes the method received. */
  lemma OnlyPostAccepted(req: Request)
    requires req.verb != "OPTIONS" && req.verb != "POST" && req.db.connected
    ensures Pipeline(req) == Rejected(MethodNotAllowed(req.verb))
    ensures Pipeline(req).Status() == 405 && Pipeline(req).Written() == None
  {
  }

  /** Reaches the body checks: a POST over a live connection. */
  predicate PostConnected(req: Request) {
    req.verb == "POST" && req.db.connected
  }

  /** An empty body, "0" included, and a body that does not decode are both
      400s that insert nothing. */
  lemma BadBodyRejected(req: Request)
    requires PostConnected(req)
    requires EmptyString(req.body) || req.decoded.None?
    ensures Pipeline(req).Status() == 400 && Pipeline(req).Written() == None
    ensures EmptyString(req.body) ==> Pipeline(req) == Rejected(EmptyBody)
    ensures !EmptyString(req.body) ==> Pipeline(req) == Rejected(InvalidJson)
  {
  }

  /** The missing-field list holds exactly the missing required fields, in
      the order flowRate, pressure, pH. */
  lemma {:induction false} MissingFieldsInOrder(data: map<string, Value>)
    ensures MissingAmong(RequiredFields, data)
         == (if IsMissing(data, "flowRate") then ["flowRate"] else [])
          + (if IsMissing(data, "pressure") then ["pressure"] else [])
          + (if IsMissing(data, "pH") then ["pH"] else [])
  {
    var two: seq<string> := ["flowRate", "pressure"];
    var one: seq<string> := ["flowRate"];
    assert RequiredFields[..2] == two && two[..1] == one && one[..0] == [];
    assert MissingAmong(one, data) == MissingAmong([], data) + (if IsMissing(data, "flowRate") then ["flowRate"] else []);
    assert MissingAmong(two, data) == MissingAmong(one, data) + (if IsMissing(data, "pressure") then ["pressure"] else []);
    assert MissingAmong(RequiredFields, data) == MissingAmong(two, data) + (if IsMissing(data, "pH") then ["pH"] else []);
  }

  /** Reaches the field checks: the body was non-empty and decoded. */
  predicate Decoded(req: Request) {
    PostConnected(req) && !EmptyString(req.body) && req.decoded.Some?
  }

  /** A missing field is a 400 listing the missing fields; the range checks do
      not run and nothing is inserted. */
  lemma MissingFieldsRejected(req: Request)
    requires Decoded(req)
    requires exists f :: f in RequiredFields && IsMissing(req.decoded.value, f)
    ensures Pipeline(req) == Rejected(MissingFields(MissingAmong(RequiredFields, req.decoded.value), req.decoded.value.Keys))
    ensures Pipeline(req).Status() == 400 && Pipeline(req).Written() == None
  {
  }

  /** Range validation reports every failure rather than the first: each
      message is present exactly when its check fails, zero is accepted for
      flow and pressure, pH is accepted exactly on [0, 14], and a value that
      does not parse fails. */
  lemma ValidationCollectsAll(flow: Option<real>, pressure: Option<real>, ph: Option<real>)
    ensures var errs := ValidationErrors(flow, pressure, ph);
      && (FlowRateError in errs <==> flow.None? || flow.value < 0.0)
      && (PressureError in errs <==> pressure.None? || pressure.value < 0.0)
      && (PhError in errs <==> ph.None? || ph.value < 0.0 || ph.value > 14.0)
      && |errs| == (if NonNegative(flow) then 0 else 1) + (if NonNegative(pressure) then 0 else 1) + (if ValidPh(ph) then 0 else 1)
      && (errs == [] <==> flow.Some? && pressure.Some? && ph.Some? && flow.value >= 0.0 && pressure.value >= 0.0 && 0.0 <= ph.value <= 14.0)
  {
  }

  /** With every field present, a range failure is a 400 carrying every
      failed check's message, in order; prepare and execute are never reached
      and nothing is written. */
  lemma ValidationRejected(req: Request)
    requires Decoded(req)
    requires !IsMissing(req.decoded.value, "flowRate")
    requires !IsMissing(req.decoded.value, "pressure")
    requires !IsMissing(req.decoded.value, "pH")
    requires ValidationErrors(FilterFloat(req.decoded.value["flowRate"]),
                              FilterFloat(req.decoded.value["pressure"]),
                              FilterFloat(req.decoded.value["pH"])) != []
    ensures Pipeline(req) == Rejected(ValidationFailed(ValidationErrors(FilterFloat(req.decoded.value["flowRate"]),
                                                                        FilterFloat(req.decoded.value["pressure"]),
                                                                        FilterFloat(req.decoded.value["pH"]))))
    ensures Pipeline(req).Status() == 400 && Pipeline(req).Written() == None
  {
    MissingFieldsInOrder(req.decoded.value);
  }

  /** All checks before the insert pass, stated without the script's stages:
      a POST over a live connection with a non-empty body that decodes to a
      map holding all three fields with acceptable values. */
  predicate Acceptable(req: Request) {
    && req.verb == "POST" && req.db.connected && !EmptyString(req.body) && req.decoded.Some?
    && !IsMissing(req.decoded.value, "flowRate")
    && !IsMissing(req.decoded.value, "pressure")
    && !IsMissing(req.decoded.value, "pH")
    && NonNegative(FilterFloat(req.decoded.value["flowRate"]))
    && NonNegative(FilterFloat(req.decoded.value["pressure"]))
    && ValidPh(FilterFloat(req.decoded.value["pH"]))
  }

  /** The row bound into the INSERT of an acceptable request. */
  function RowOf(req: Request): SensorRow
    requires Acceptable(req)
  {
    var data := req.decoded.value;
    SensorRow(FilterFloat(data["flowRate"]).value, FilterFloat(data["pressure"]).value,
              FilterFloat(data["pH"]).value, FilterFloat(data["flowRate"]).value * ConsumptionFactor, req.timestamp)
  }

  /** A request writes a row exactly when it is acceptable and both prepare and
      execute succeed; the row written is then RowOf(req), whose consumption is
      ten times its flow and whose quality is the pH. */
  lemma InsertExactlyWhenValid(req: Request)
    ensures Pipeline(req).Written().Some? <==> Acceptable(req) && req.db.prepared && req.db.executed
    ensures Pipeline(req).Written().Some? ==> Pipeline(req).Written().value == RowOf(req)
  {
    if req.verb == "POST" && req.db.connected && !EmptyString(req.body) && req.decoded.Some? {
      var data := req.decoded.value;
      MissingFieldsInOrder(data);
    }
  }

  /** "success" is true, with status 200, exactly when execute succeeds; a
      failed prepare or execute is a 500 with "success" false. */
  lemma SuccessExactlyWhenExecuted(req: Request)
    requires Acceptable(req)
    ensures Pipeline(req).Inserted? <==> req.db.prepared && req.db.executed
    ensures Pipeline(req).Inserted? ==> Pipeline(req).Status() == 200 && Pipeline(req).recordId == req.db.insertId
    ensures !req.db.prepared ==> Pipeline(req) == Rejected(PrepareFailed) && Pipeline(req).Status() == 500
    ensures req.db.prepared && !req.db.executed ==> Pipeline(req) == Rejected(InsertFailed) && Pipeline(req).Status() == 500
  {
    MissingFieldsInOrder(req.decoded.value);
  }

  /** Status 200 means a preflight or a successful insert; every other answer
      is a rejection with status 400, 405 or 500. */
  lemma StatusClassifies(req: Request)
    ensures Pipeline(req).Status() == 200 <==> Pipeline(req).Preflight? || Pipeline(req).Inserted?
    ensures Pipeline(req).Status() in {200, 400, 405, 500}
  {
  }
}
