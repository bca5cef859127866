/** The TypeScript collect-logs handler of functions/collect-logs/main.ts:
    the check of the request body's parameters, the query it sends, the
    projection of the events returned and the status it answers with.

    `JSON.parse` and the client's `send` are parameters; the response body
    is kept as the object handed to `JSON.stringify`. */
module QueryHandler {
  import opened Common

  const MissingParamsMessage := "필수 파라미터가 누락되었습니다: logGroupName, logStreamName, startTime, endTime"
  const QueryErrorMessage := "로그 쿼리 중 오류가 발생했습니다"
  const UnknownErrorMessage := "알 수 없는 오류"
  const NullBodyMessage := "Cannot destructure property 'logGroupName' of 'body' as it is null."

  /** The values `JSON.parse` can produce; numbers are exact reals (a
      JSON text has no NaN or infinity). */
  datatype JsValue =
    | JsNull
    | JsUndefined
    | JsBool(b: bool)
    | JsNumber(n: real)
    | JsString(s: string)
    | JsArray(items: seq<JsValue>)
    | JsObject(fields: map<string, JsValue>)

  /** JavaScript truthiness: `null`, `undefined`, `false`, `0` and `""` are
      falsy; every array and object is truthy. */
  predicate Truthy(v: JsValue) {
    match v
    case JsNull => false
    case JsUndefined => false
    case JsBool(b) => b
    case JsNumber(n) => n != 0.0
    case JsString(s) => s != ""
    case JsArray(_) => true
    case JsObject(_) => true
  }

  /** `a || b` */
  function Or(a: JsValue, b: JsValue): (r: JsValue)
    ensures Truthy(a) ==> r == a
    ensures !Truthy(a) ==> r == b
  {
    if Truthy(a) then a else b
  }

  /** A property read on a value that is neither `null` nor `undefined`:
      an own property of an object, `undefined` otherwise. */
  function Property(v: JsValue, key: string): JsValue {
    if v.JsObject? && key in v.fields then v.fields[key] else JsUndefined
  }

  /** What a `catch` receives: an `Error` with its message, or anything else. */
  datatype Thrown = ErrorObject(message: string) | NonError

  // ---------------------------------------------------------------------
  // queryCloudwatchLogs

  /** A `FilteredLogEvent` of the service's reply. */
  datatype FilteredLogEvent = FilteredLogEvent(eventId: Option<string>, ingestionTime: Option<int>,
                                               logStreamName: Option<string>, message: Option<string>,
                                               timestamp: Option<int>)

  /** A `LogEvent` of the handler's reply. */
  datatype LogEvent = LogEvent(timestamp: Option<int>, message: Option<string>, logStreamName: Option<string>)

  /** The `FilterLogEventsCommand` input. */
  datatype Query = Query(logGroupName: JsValue, logStreamNames: seq<JsValue>, startTime: JsValue,
                         endTime: JsValue, filterPattern: JsValue)

  /** What `cloudwatchLogs.send(query)` does: resolves with the reply's
      `events` (possibly undefined), or throws. */
  datatype SendOutcome = Sent(events: Option<seq<FilteredLogEvent>>) | Throws(thrown: Thrown)

  /** `queryResult.events?.map(...) || []`: one event per event of the reply,
      in order, keeping only the timestamp, message and stream name; no
      events when the reply has none. */
  function ProjectEvents(events: Option<seq<FilteredLogEvent>>): (r: seq<LogEvent>)
    ensures events.None? ==> r == []
    ensures events.Some? ==> |r| == |events.value|
    ensures events.Some? ==> forall i :: 0 <= i < |r| ==>
      r[i].timestamp == events.value[i].timestamp &&
      r[i].message == events.value[i].message &&
      r[i].logStreamName == events.value[i].logStreamName
  {
    if events.None? then [] else Project(events.value)
  }

  function Project(events: seq<FilteredLogEvent>): (r: seq<LogEvent>)
    ensures |r| == |events|
    ensures forall i :: 0 <= i < |r| ==>
      r[i] == LogEvent(events[i].timestamp, events[i].message, events[i].logStreamName)
  {
    if events == [] then []
    else [LogEvent(events[0].timestamp, events[0].message, events[0].logStreamName)] + Project(events[1..])
  }

  /** Projection forgets only the fields it drops: two replies project
      alike exactly when they agree on timestamp, message and stream name
      event by event. */
  lemma {:induction false} ProjectionForgetsOnlyDroppedFields(a: seq<FilteredLogEvent>, b: seq<FilteredLogEvent>)
    ensures Project(a) == Project(b) <==>
      |a| == |b| &&
      forall i :: 0 <= i < |a| ==>
        a[i].timestamp == b[i].timestamp && a[i].message == b[i].message && a[i].logStreamName == b[i].logStreamName
  {
    if |a| == |b| &&
       forall i :: 0 <= i < |a| ==>
         a[i].timestamp == b[i].timestamp && a[i].message == b[i].message && a[i].logStreamName == b[i].logStreamName
    {
      assert forall i :: 0 <= i < |a| ==> Project(a)[i] == Project(b)[i];
    }
    if Project(a) == Project(b) {
      assert forall i :: 0 <= i < |a| ==> Project(a)[i] == Project(b)[i];
    }
  }

  // ---------------------------------------------------------------------
  // handler

  datatype ResponseBody =
    | MessageBody(message: string)
    | LogsBody(logs: seq<LogEvent>)
    | ErrorBody(message: string, error: string)

  datatype Response = Response(statusCode: int, body: ResponseBody)

  /** The parsed request body: `JSON.parse(event.body)` for a non-empty
      body, `{}` for an absent or empty one. */
  function RequestBody(eventBody: Option<string>, parse: string -> Result<JsValue, string>): (r: Result<JsValue, string>)
    ensures !TruthyText(eventBody) ==> r == Ok(JsObject(map[]))
    ensures TruthyText(eventBody) ==> r == parse(eventBody.value)
  {
    if TruthyText(eventBody) then parse(eventBody.value) else Ok(JsObject(map[]))
  }

  /** The four required parameters are all truthy. */
  predicate RequiredPresent(body: JsValue) {
    Truthy(Property(body, "logGroupName")) && Truthy(Property(body, "logStreamName")) &&
    Truthy(Property(body, "startTime")) && Truthy(Property(body, "endTime"))
  }

  /** The query the handler sends for a body that passed the check. */
  function QueryOf(body: JsValue): (q: Query)
    ensures q.logGroupName == Property(body, "logGroupName")
    ensures q.logStreamNames == [Property(body, "logStreamName")]
    ensures q.startTime == Property(body, "startTime") && q.endTime == Property(body, "endTime")
    ensures Truthy(Property(body, "filterPattern")) ==> q.filterPattern == Property(body, "filterPattern")
    ensures !Truthy(Property(body, "filterPattern")) ==> q.filterPattern == JsString("")
  {
    Query(Property(body, "logGroupName"), [Property(body, "logStreamName")],
          Property(body, "startTime"), Property(body, "endTime"),
          Or(Property(body, "filterPattern"), JsString("")))
  }

  /** The 500 reply for what the `catch` receives. */
  function Failure(thrown: Thrown): Response {
    Response(500, ErrorBody(QueryErrorMessage, if thrown.ErrorObject? then thrown.message else UnknownErrorMessage))
  }

  /** `handler`: a `SyntaxError` of `JSON.parse` and the `TypeError` of
      destructuring `null` reach the `catch` (500); `parse` stands for
      `JSON.parse`, which never yields `undefined`, so `JsUndefined` is not a
      body it returns; a falsy required
      parameter gives 400; otherwise the query is sent and its events are
      answered with 200, or its exception with 500.

      The status is 400 exactly when the body parses to a value other than
      `null` that lacks a truthy required parameter, and 200 exactly when it
      has them all and the query resolves. */
  function Handler(eventBody: Option<string>, parse: string -> Result<JsValue, string>,
                   send: Query -> SendOutcome): (r: Response)
    ensures var body := RequestBody(eventBody, parse);
      r.statusCode == 400 <==> body.Ok? && !body.value.JsNull? && !RequiredPresent(body.value)
    ensures r.statusCode == 400 ==> r.body == MessageBody(MissingParamsMessage)
    ensures var body := RequestBody(eventBody, parse);
      r.statusCode == 200 <==> body.Ok? && !body.value.JsNull? && RequiredPresent(body.value) &&
                               send(QueryOf(body.value)).Sent?
    ensures var body := RequestBody(eventBody, parse);
      r.statusCode == 200 ==> r.body == LogsBody(ProjectEvents(send(QueryOf(body.value)).events))
    ensures var body := RequestBody(eventBody, parse);
      body.Err? ==> r == Response(500, ErrorBody(QueryErrorMessage, body.error))
    ensures r.statusCode in {200, 400, 500}
    ensures r.statusCode == 500 ==> r.body.ErrorBody? && r.body.message == QueryErrorMessage
  {
    match RequestBody(eventBody, parse)
    case Err(syntaxError) => Failure(ErrorObject(syntaxError))
    case Ok(body) =>
      if body.JsNull? then Failure(ErrorObject(NullBodyMessage))
      else if !RequiredPresent(body) then Response(400, MessageBody(MissingParamsMessage))
      else match send(QueryOf(body))
        case Throws(thrown) => Failure(thrown)
        case Sent(events) => Response(200, LogsBody(ProjectEvents(events)))
  }

  /** An absent or empty body is answered 400 without any query. */
  lemma AbsentBodyIsBadRequest(eventBody: Option<string>, parse: string -> Result<JsValue, string>,
                               send: Query -> SendOutcome)
    requires !TruthyText(eventBody)
    ensures Handler(eventBody, parse, send) == Response(400, MessageBody(MissingParamsMessage))
  {
    assert !RequiredPresent(JsObject(map[]));
  }

  /** A required parameter that is `0`, `""`, `false`, `null` or absent is
      answered 400: the check is on truthiness, not presence. */
  lemma FalsyRequiredIsBadRequest(eventBody: Option<string>, parse: string -> Result<JsValue, string>,
                                  send: Query -> SendOutcome, key: string)
    requires key in ["logGroupName", "logStreamName", "startTime", "endTime"]
    requires RequestBody(eventBody, parse).Ok?
    requires RequestBody(eventBody, parse).value.JsObject?
    requires key !in RequestBody(eventBody, parse).value.fields ||
             RequestBody(eventBody, parse).value.fields[key] in
               {JsNumber(0.0), JsString(""), JsBool(false), JsNull, JsUndefined}
    ensures Handler(eventBody, parse, send).statusCode == 400
  {
  }

  /** A body that is a number, a string, a boolean or an array has no own
      properties: it is answered 400. */
  lemma NonObjectBodyIsBadRequest(eventBody: Option<string>, parse: string -> Result<JsValue, string>,
                                  send: Query -> SendOutcome)
    requires RequestBody(eventBody, parse).Ok?
    requires !RequestBody(eventBody, parse).value.JsObject? && !RequestBody(eventBody, parse).value.JsNull?
    ensures Handler(eventBody, parse, send) == Response(400, MessageBody(MissingParamsMessage))
  {
  }
}
