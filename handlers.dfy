/**
  The request-validation layer of the three POST endpoints: `/health-data`,
  `/fall-alert` and `/send-reminder`. Each handler is a function of the request
  and of what its external collaborator reports (the mail transport, the speech
  engine); the health-data table that `/health-data` writes to is in RecordStore.
 */
module Handlers {
  import opened Wrappers
  import opened Values
  import PyInt

  /** What Flask hands a handler: whether the content type is JSON
      (`request.is_json`) and the decoded body (`request.json`), None when the
      body does not decode. */
  datatype Request = Request(isJson: bool, body: Option<Json>)

  /** A handler's response. Ok is HTTP 200 with its JSON payload; Fail is a
      JSON `{"error": ...}` response with the given code; Aborted is an exception
      that leaves the handler, which Flask answers with its own error page. */
  datatype Reply<+T> = Ok(value: T) | Fail(code: nat, error: string) | Aborted(code: nat)
  {
    /** The HTTP status code sent back. */
    function Code(): nat {
      match this
      case Ok(_) => 200
      case Fail(c, _) => c
      case Aborted(c) => c
    }
  }

  /** The same failure, carried by a reply of another payload type. */
  function Forward<T, U>(r: Reply<T>): Reply<U>
    requires !r.Ok?
  {
    if r.Fail? then Fail(r.code, r.error) else Aborted(r.code)
  }

  // ---------------------------------------------------------------------------
  // The checks all three handlers open with
  // ---------------------------------------------------------------------------

  const RequestMustBeJson := "Request must be JSON"
  const InvalidDataFormat := "Invalid data format"

  /** The body as a dict, after the content-type check and the dict check.
      A JSON content type with a body that does not decode makes `request.json`
      raise BadRequest, which Flask answers with 400. */
  function Payload(req: Request): Reply<map<string, Json>> {
    if !req.isJson then Fail(400, RequestMustBeJson)
    else match req.body
      case None => Aborted(400)
      case Some(JObject(fields)) => Ok(fields)
      case Some(_) => Fail(400, InvalidDataFormat)
  }

  // ---------------------------------------------------------------------------
  // /health-data
  // ---------------------------------------------------------------------------

  const HeartRateAndBpRequired := "Heart rate and blood pressure are required"
  const HeartRateMustBeNumber := "Heart rate must be a number"
  const InvalidHeartRate := "Invalid heart rate (0-200 bpm)"
  const HealthDataProcessed := "Health data processed"

  const Normal := "Normal"
  const High := "High (Tachycardia)"
  const Low := "Low (Bradycardia)"

  /** The analysis of a heart rate: three disjoint bands that cover every
      integer, with 60 and 100 both Normal. */
  function Classify(heartRate: int): (status: string)
    ensures status == High <==> heartRate > 100
    ensures status == Low <==> heartRate < 60
    ensures status == Normal <==> 60 <= heartRate <= 100
  {
    if heartRate > 100 then High else if heartRate < 60 then Low else Normal
  }

  /** What `int(v)` does: return a value, or raise ValueError or TypeError. */
  datatype Conversion = Converted(n: int) | ValueError | TypeError

  /** `int(v)` for a decoded JSON value. */
  function ToInt(v: Json): Conversion {
    match v
    case JNull => TypeError
    case JBool(b) => Converted(if b then 1 else 0)
    case JInt(i) => Converted(i)
    case JString(s) => (match PyInt.Int(s) case Some(n) => Converted(n) case None => ValueError)
    case JArray(_) => TypeError
    case JObject(_) => TypeError
  }

  const SqliteIntMin := -0x8000_0000_0000_0000
  const SqliteIntMax := 0x7FFF_FFFF_FFFF_FFFF

  /** Whether Python's sqlite3 module accepts `v` as a query parameter: None,
      a bool, an int within SQLite's 64-bit INTEGER, or a str. Anything else
      makes the INSERT raise before a row is written. */
  predicate Bindable(v: Json) {
    match v
    case JInt(i) => SqliteIntMin <= i <= SqliteIntMax
    case JArray(_) => false
    case JObject(_) => false
    case _ => true
  }

  /** The success payload of `/health-data`: its "status" text, the parsed heart
      rate and the blood pressure under "data", and the "analysis". */
  datatype HealthReport = HealthReport(status: string, heartRate: int, bloodPressure: Json, analysis: string)

  /** The reply `/health-data` gives for a request; a row is written exactly
      when it is Ok. */
  function Analyze(req: Request): (r: Reply<HealthReport>)
    ensures r.Ok? ==>
      && Payload(req).Ok?
      && var d := Payload(req).value;
      && Truthy(Get(d, "heart_rate")) && Truthy(Get(d, "bp"))
      && ToInt(Get(d, "heart_rate")) == Converted(r.value.heartRate)
      && 0 <= r.value.heartRate <= 200
      && r.value.bloodPressure == Get(d, "bp") && Bindable(r.value.bloodPressure)
      && r.value.analysis == Classify(r.value.heartRate)
      && r.value.status == HealthDataProcessed
    ensures r.Fail? ==> r.code == 400
  {
    var p := Payload(req);
    if !p.Ok? then Forward(p)
    else
      var d := p.value;
      var heartRate, bp := Get(d, "heart_rate"), Get(d, "bp");
      if !Truthy(heartRate) || !Truthy(bp) then Fail(400, HeartRateAndBpRequired)
      else
        match ToInt(heartRate)
        case ValueError => Fail(400, HeartRateMustBeNumber)
        case TypeError => Aborted(500)
        case Converted(n) =>
          if n < 0 || n > 200 then Fail(400, InvalidHeartRate)
          else if !Bindable(bp) then Aborted(500)
          else Ok(HealthReport(HealthDataProcessed, n, bp, Classify(n)))
  }

  /** The converse of Analyze's contract: every reading that passes the checks
      is accepted and echoed back. */
  lemma AnalyzeAccepts(req: Request, n: int)
    requires Payload(req).Ok?
    requires Truthy(Get(Payload(req).value, "heart_rate")) && Truthy(Get(Payload(req).value, "bp"))
    requires ToInt(Get(Payload(req).value, "heart_rate")) == Converted(n) && 0 <= n <= 200
    requires Bindable(Get(Payload(req).value, "bp"))
    ensures Analyze(req) == Ok(HealthReport(HealthDataProcessed, n, Get(Payload(req).value, "bp"), Classify(n)))
  {
  }

  /** A missing, null, empty or zero heart rate or blood pressure is reported
      as missing, before the heart rate is parsed. */
  lemma AnalyzeRequiresBoth(req: Request)
    requires Payload(req).Ok?
    requires !Truthy(Get(Payload(req).value, "heart_rate")) || !Truthy(Get(Payload(req).value, "bp"))
    ensures Analyze(req) == Fail(400, HeartRateAndBpRequired)
  {
  }

  /** A non-empty heart-rate string that is not an integer literal. */
  lemma AnalyzeRejectsNonNumber(req: Request, s: string)
    requires Payload(req).Ok?
    requires Get(Payload(req).value, "heart_rate") == JString(s) && s != "" && PyInt.Int(s).None?
    requires Truthy(Get(Payload(req).value, "bp"))
    ensures Analyze(req) == Fail(400, HeartRateMustBeNumber)
  {
    assert ToInt(JString(s)) == ValueError;
    AnalyzeRejectsUnparsable(req);
  }

  /** A present heart rate that `int()` refuses with ValueError. */
  lemma AnalyzeRejectsUnparsable(req: Request)
    requires Payload(req).Ok?
    requires Truthy(Get(Payload(req).value, "heart_rate")) && Truthy(Get(Payload(req).value, "bp"))
    requires ToInt(Get(Payload(req).value, "heart_rate")) == ValueError
    ensures Analyze(req) == Fail(400, HeartRateMustBeNumber)
  {
  }

  /** A heart rate that parses to a value outside [0, 200]. */
  lemma AnalyzeRejectsOutOfRange(req: Request, n: int)
    requires Payload(req).Ok?
    requires Truthy(Get(Payload(req).value, "heart_rate")) && Truthy(Get(Payload(req).value, "bp"))
    requires ToInt(Get(Payload(req).value, "heart_rate")) == Converted(n)
    requires n < 0 || n > 200
    ensures Analyze(req) == Fail(400, InvalidHeartRate)
  {
  }

  /** A truthy list or dict heart rate makes `int()` raise TypeError, which
      the handler does not catch: Flask answers 500. */
  lemma AnalyzeAbortsOnContainerHeartRate(req: Request)
    requires Payload(req).Ok?
    requires Get(Payload(req).value, "heart_rate").JArray? || Get(Payload(req).value, "heart_rate").JObject?
    requires Truthy(Get(Payload(req).value, "heart_rate")) && Truthy(Get(Payload(req).value, "bp"))
    ensures Analyze(req) == Aborted(500)
  {
  }

  /** An in-range reading whose blood pressure sqlite3 cannot bind (a list, a
      dict, an integer beyond 64 bits) makes the INSERT raise: Flask answers
      500 and no row is written. */
  lemma AnalyzeAbortsOnUnbindableBp(req: Request, n: int)
    requires Payload(req).Ok?
    requires Truthy(Get(Payload(req).value, "heart_rate")) && Truthy(Get(Payload(req).value, "bp"))
    requires ToInt(Get(Payload(req).value, "heart_rate")) == Converted(n) && 0 <= n <= 200
    requires !Bindable(Get(Payload(req).value, "bp"))
    ensures Analyze(req) == Aborted(500)
  {
  }

  /** A heart rate sent as the decimal string of an in-range integer ("72",
      and "0" too, which the integer 0 is not) is accepted as that integer. */
  lemma AnalyzeAcceptsDecimalString(req: Request, n: int)
    requires Payload(req).Ok?
    requires Get(Payload(req).value, "heart_rate") == JString(PyInt.Str(n)) && 0 <= n <= 200
    requires Truthy(Get(Payload(req).value, "bp")) && Bindable(Get(Payload(req).value, "bp"))
    ensures Analyze(req) == Ok(HealthReport(HealthDataProcessed, n, Get(Payload(req).value, "bp"), Classify(n)))
  {
    PyInt.IntOfStr(n);
    assert ToInt(JString(PyInt.Str(n))) == Converted(n);
    AnalyzeAccepts(req, n);
  }

  // ---------------------------------------------------------------------------
  // /fall-alert
  // ---------------------------------------------------------------------------

  const LocationRequired := "Location is required"
  const AlertSubject := "URGENT: Fall Alert"
  const FallAlertSent := "Fall alert sent"
  const CaregiverNotified := "Caregiver has been notified via email!"
  const AlertFailed := "Failed to send alert: "

  datatype Email = Email(subject: string, body: string)

  /** What the SMTP exchange came to: delivered, or the text of the exception
      it raised (connection, STARTTLS, login or send). */
  datatype Delivery = Delivered | Undelivered(reason: string)

  /** The JSON payload of a successful alert or reminder. */
  datatype Notice = Notice(status: string, message: string)

  /** A handler's reply together with what it handed to its external
      collaborator, None when it handed over nothing. */
  datatype Outcome<A> = Outcome(reply: Reply<Notice>, handedOver: Option<A>)

  function AlertBody(location: string, now: string): string {
    "A fall has been detected at " + location + " on " + now + "."
  }

  /** `/fall-alert` at time `now`, with `delivery` the outcome of the one send
      attempt. Nothing is handed to the mail transport unless the request
      passes every check. */
  function FallAlert(req: Request, now: string, repr: Json -> string, delivery: Delivery): (r: Outcome<Email>)
    ensures r.handedOver.Some? <==> Payload(req).Ok? && Truthy(Get(Payload(req).value, "location"))
    ensures r.handedOver.Some? ==>
      r.handedOver.value == Email(AlertSubject, AlertBody(Show(Get(Payload(req).value, "location"), repr), now))
    ensures r.reply.Ok? <==> r.handedOver.Some? && delivery == Delivered
    ensures r.reply.Ok? ==> r.reply.value == Notice(FallAlertSent, CaregiverNotified)
    ensures r.handedOver.Some? && delivery.Undelivered? ==> r.reply == Fail(500, AlertFailed + delivery.reason)
    ensures r.handedOver.None? ==> r.reply.Code() == 400
  {
    var p := Payload(req);
    if !p.Ok? then Outcome(Forward(p), None)
    else
      var d := p.value;
      var location := Get(d, "location");
      if !Truthy(location) then Outcome(Fail(400, LocationRequired), None)
      else
        var email := Email(AlertSubject, AlertBody(Show(location, repr), now));
        match delivery
        case Delivered => Outcome(Ok(Notice(FallAlertSent, CaregiverNotified)), Some(email))
        case Undelivered(reason) => Outcome(Fail(500, AlertFailed + reason), Some(email))
  }

  /** A missing, null, empty, false or zero location is refused before any send. */
  lemma FallAlertRequiresLocation(req: Request, now: string, repr: Json -> string, delivery: Delivery)
    requires Payload(req).Ok? && !Truthy(Get(Payload(req).value, "location"))
    ensures FallAlert(req, now, repr, delivery) == Outcome(Fail(400, LocationRequired), None)
  {
  }

  /** A location given as a string is written into the body as it is. */
  lemma FallAlertNamesLocation(req: Request, now: string, repr: Json -> string, delivery: Delivery, place: string)
    requires Payload(req).Ok? && Get(Payload(req).value, "location") == JString(place) && place != ""
    ensures FallAlert(req, now, repr, delivery).handedOver
         == Some(Email("URGENT: Fall Alert", "A fall has been detected at " + place + " on " + now + "."))
  {
  }

  // ---------------------------------------------------------------------------
  // /send-reminder
  // ---------------------------------------------------------------------------

  const DefaultReminder := "This is your reminder."
  const MessageMustBeString := "Message must be a string"
  const ReminderSent := "Reminder sent"
  const ReminderFailed := "Failed to send reminder: "

  /** What the per-request speech engine came to: the message was spoken, or
      the text of the exception it raised. */
  datatype Speech = Spoken | EngineFailed(reason: string)

  /** `/send-reminder`, with `speech` the outcome of speaking. The message
      handed to the engine is the string under "message", or the default
      phrase when the key is absent. */
  function SendReminder(req: Request, speech: Speech): (r: Outcome<string>)
    ensures r.handedOver.Some? <==>
      Payload(req).Ok? && GetOr(Payload(req).value, "message", JString(DefaultReminder)).JString?
    ensures r.handedOver.Some? ==>
      r.handedOver.value == GetOr(Payload(req).value, "message", JString(DefaultReminder)).s
    ensures Payload(req).Ok? && r.handedOver.None? ==> r.reply == Fail(400, MessageMustBeString)
    ensures r.reply.Ok? <==> r.handedOver.Some? && speech == Spoken
    ensures r.reply.Ok? ==> r.reply.value == Notice(ReminderSent, r.handedOver.value)
    ensures r.handedOver.Some? && speech.EngineFailed? ==> r.reply == Fail(500, ReminderFailed + speech.reason)
  {
    var p := Payload(req);
    if !p.Ok? then Outcome(Forward(p), None)
    else
      var d := p.value;
      var message := GetOr(d, "message", JString(DefaultReminder));
      if !message.JString? then Outcome(Fail(400, MessageMustBeString), None)
      else
        match speech
        case Spoken => Outcome(Ok(Notice(ReminderSent, message.s)), Some(message.s))
        case EngineFailed(reason) => Outcome(Fail(500, ReminderFailed + reason), Some(message.s))
  }

  /** A request without "message" speaks, and echoes, the default phrase. */
  lemma ReminderDefaultsMessage(req: Request)
    requires Payload(req).Ok? && "message" !in Payload(req).value
    ensures SendReminder(req, Spoken) == Outcome(Ok(Notice(ReminderSent, "This is your reminder.")), Some("This is your reminder."))
  {
  }

  /** A "message" that is present but not a string, null included, is refused. */
  lemma ReminderRejectsNonString(req: Request, speech: Speech)
    requires Payload(req).Ok? && "message" in Payload(req).value && !Payload(req).value["message"].JString?
    ensures SendReminder(req, speech) == Outcome(Fail(400, "Message must be a string"), None)
  {
  }

  // ---------------------------------------------------------------------------
  // Shared check order
  // ---------------------------------------------------------------------------

  /** Every handler checks the content type first and the dict shape second,
      and answers these failures alike before reading any field. */
  lemma ChecksComeFirst(req: Request, now: string, repr: Json -> string, delivery: Delivery, speech: Speech)
    ensures !req.isJson ==>
      && Analyze(req) == Fail(400, "Request must be JSON")
      && FallAlert(req, now, repr, delivery) == Outcome(Fail(400, "Request must be JSON"), None)
      && SendReminder(req, speech) == Outcome(Fail(400, "Request must be JSON"), None)
    ensures req.isJson && req.body.Some? && !req.body.value.JObject? ==>
      && Analyze(req) == Fail(400, "Invalid data format")
      && FallAlert(req, now, repr, delivery) == Outcome(Fail(400, "Invalid data format"), None)
      && SendReminder(req, speech) == Outcome(Fail(400, "Invalid data format"), None)
    ensures req.isJson && req.body.None? ==>
      && Analyze(req) == Aborted(400)
      && FallAlert(req, now, repr, delivery) == Outcome(Aborted(400), None)
      && SendReminder(req, speech) == Outcome(Aborted(400), None)
  {
  }
}
