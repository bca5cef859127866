/** The collect-logs Lambda function of functions/collect-logs/app.py:
    validation of the request, collection of the filtered events page by
    page, and the status code the handler answers with.

    The event is a dictionary of Python values. The service's paginator is
    a parameter: for a request it gives the pages in order, any of which may
    be an exception. */
module CollectLogsLambda {
  import opened Common
  import opened Timestamps

  const MissingFieldsMessage := "필수 필드가 누락되었습니다."
  const ValidMessage := "파라미터가 유효합니다."
  const BadTimestampMessage := "타임스탬프 형식이 올바르지 않습니다."
  const ValidationErrorPrefix := "파라미터 검증 중 오류 발생: "
  const CollectionErrorPrefix := "로그 수집 중 오류 발생: "
  const PageSize := 1000

  /** The keys `validate_params` requires. */
  const RequiredFields := ["log_group_name", "log_stream_name", "start_time", "end_time"]

  type Event = map<string, PyValue>

  /** What `_parse_timestamp` raises: a `ValueError` (the text does not
      parse), or a `TypeError` with its text (the value is not a `str`). */
  datatype ParseFailure = ValueErr | TypeErr(text: string)

  /** `LogCollector._parse_timestamp(v)`: `strptime` refuses anything but a
      `str`, and parses a `str` as `parse_timestamp` does. */
  function ParseArg(v: PyValue): (r: Result<int, ParseFailure>)
    ensures r.Ok? <==> v.PyStr? && ParseTimestamp(v.s).Ok?
    ensures r.Ok? ==> r.value == ParseTimestamp(v.s).value
    ensures r.Err? && r.error.TypeErr? <==> !v.PyStr?
  {
    if !v.PyStr? then Err(TypeErr("strptime() argument 1 must be str, not " + PyTypeName(v)))
    else match ParseTimestamp(v.s)
      case Ok(ms) => Ok(ms)
      case Err(_) => Err(ValueErr)
  }

  datatype ValidationResult = ValidationResult(status: bool, message: string)

  /** The message of a failed parse, as `validate_params`'s handlers build it. */
  function FailureMessage(f: ParseFailure): string {
    match f
    case ValueErr => BadTimestampMessage
    case TypeErr(t) => ValidationErrorPrefix + t
  }

  /** `validate_params`: key presence first, then `start_time`, then
      `end_time`; the order of the two times is not checked. */
  function ValidateParams(params: map<string, PyValue>): ValidationResult {
    if !(forall f :: f in RequiredFields ==> f in params) then ValidationResult(false, MissingFieldsMessage)
    else match ParseArg(params["start_time"])
      case Err(f) => ValidationResult(false, FailureMessage(f))
      case Ok(_) =>
        match ParseArg(params["end_time"])
        case Err(f) => ValidationResult(false, FailureMessage(f))
        case Ok(_) => ValidationResult(true, ValidMessage)
  }

  /** The times are well-formed `str`s `parse_timestamp` accepts. */
  predicate TimesParse(params: map<string, PyValue>)
    requires "start_time" in params && "end_time" in params
  {
    params["start_time"].PyStr? && ParseTimestamp(params["start_time"].s).Ok? &&
    params["end_time"].PyStr? && ParseTimestamp(params["end_time"].s).Ok?
  }

  /** Validation succeeds exactly when the four keys are present and both
      times parse; every failure carries the message of the first check that
      fails. */
  lemma ValidateParamsCases(params: map<string, PyValue>)
    ensures var r := ValidateParams(params);
      var present := forall f :: f in RequiredFields ==> f in params;
      (r.status <==> present && TimesParse(params)) &&
      (r.status ==> r.message == ValidMessage) &&
      (!present ==> r.message == MissingFieldsMessage) &&
      (present && params["start_time"].PyStr? && ParseTimestamp(params["start_time"].s).Err? ==>
         r.message == BadTimestampMessage) &&
      (present && !params["start_time"].PyStr? ==>
         r.message == ValidationErrorPrefix + "strptime() argument 1 must be str, not " + PyTypeName(params["start_time"])) &&
      (present && ParseArg(params["start_time"]).Ok? && params["end_time"].PyStr? &&
       ParseTimestamp(params["end_time"].s).Err? ==>
         r.message == BadTimestampMessage) &&
      (present && ParseArg(params["start_time"]).Ok? && !params["end_time"].PyStr? ==>
         r.message == ValidationErrorPrefix + "strptime() argument 1 must be str, not " + PyTypeName(params["end_time"]))
  {
    var present := forall f :: f in RequiredFields ==> f in params;
    if present {
      assert RequiredFields[2] == "start_time" && RequiredFields[3] == "end_time";
    } else {
      assert !ValidateParams(params).status;
    }
  }

  // ---------------------------------------------------------------------
  // Collecting the events

  /** The arguments of `paginator.paginate(...)`. */
  datatype FilterRequest = FilterRequest(logGroupName: PyValue, logStreamNames: seq<PyValue>,
                                         startTime: int, endTime: int, pageSize: nat)

  /** One page the paginator yields, or the exception raised fetching it. */
  datatype PageResult = Page(events: Option<seq<Event>>) | PageRaises(message: string)

  /** `page.get("events", [])` */
  function PageEvents(page: PageResult): seq<Event>
    requires page.Page?
  {
    if page.events.Some? then page.events.value else []
  }

  /** The request `collect_logs` makes for validated parameters. */
  function RequestOf(params: map<string, PyValue>): FilterRequest
    requires ValidateParams(params).status
  {
    ValidateParamsCases(params);
    assert RequiredFields[0] == "log_group_name" && RequiredFields[1] == "log_stream_name";
    FilterRequest(params["log_group_name"], [params["log_stream_name"]],
                  ParseTimestamp(params["start_time"].s).value, ParseTimestamp(params["end_time"].s).value,
                  PageSize)
  }

  /** The events of the pages from the `i`-th on, or the first exception. */
  function Collected(pages: seq<PageResult>, i: nat): Result<seq<Event>, string>
    decreases |pages| - i
  {
    if i >= |pages| then Ok([])
    else if pages[i].PageRaises? then Err(pages[i].message)
    else
      match Collected(pages, i + 1)
      case Err(m) => Err(m)
      case Ok(rest) => Ok(PageEvents(pages[i]) + rest)
  }

  /** The `async for` loop of `collect_logs`: extends the list with each
      page's events in page order; an exception of any page propagates and
      the events gathered so far are lost. */
  method CollectPages(pages: seq<PageResult>) returns (r: Result<seq<Event>, string>)
    ensures r == Collected(pages, 0)
  {
    var events: seq<Event> := [];
    ghost var rest := Collected(pages, 0);
    assert rest.Ok? ==> events + rest.value == rest.value;
    for i := 0 to |pages|
      invariant rest == Collected(pages, i)
      invariant rest.Err? ==> Collected(pages, 0) == rest
      invariant rest.Ok? ==> Collected(pages, 0) == Ok(events + rest.value)
    {
      if pages[i].PageRaises? {
        return Err(pages[i].message);
      }
      ghost var old_events := events;
      rest := Collected(pages, i + 1);
      events := events + PageEvents(pages[i]);
      if rest.Ok? {
        assert old_events + (PageEvents(pages[i]) + rest.value) == events + rest.value;
      }
    }
    assert events + rest.value == events;
    r := Ok(events);
  }

  /** `collect_logs` for parameters that passed validation (its only caller
      validates first): one request for the stream between the parsed
      times, 1000 events a page, and the pages' events in order. A failure
      to open the client acts as an exception of the first page. */
  method CollectLogs(params: map<string, PyValue>, paginate: FilterRequest -> seq<PageResult>)
    returns (r: Result<seq<Event>, string>)
    requires ValidateParams(params).status
    ensures r == Collected(paginate(RequestOf(params)), 0)
  {
    var request := RequestOf(params);
    r := CollectPages(paginate(request));
  }

  /** Collection fails exactly when some page raises, and then with the
      first such page's text. */
  lemma {:induction false} CollectedFails(pages: seq<PageResult>, i: nat)
    ensures Collected(pages, i).Err? <==> exists k :: i <= k < |pages| && pages[k].PageRaises?
    ensures Collected(pages, i).Err? ==>
            exists k :: i <= k < |pages| && pages[k].PageRaises? && Collected(pages, i).error == pages[k].message &&
                        forall j :: i <= j < k ==> pages[j].Page?
    decreases |pages| - i
  {
    if i < |pages| && pages[i].Page? {
      CollectedFails(pages, i + 1);
    }
  }

  /** An event is collected exactly when some page holds it. */
  lemma {:induction false} CollectedMembership(pages: seq<PageResult>, i: nat, e: Event)
    requires Collected(pages, i).Ok?
    ensures e in Collected(pages, i).value <==> exists k :: i <= k < |pages| && pages[k].Page? && e in PageEvents(pages[k])
    decreases |pages| - i
  {
    if i < |pages| {
      CollectedMembership(pages, i + 1, e);
    }
  }

  // ---------------------------------------------------------------------
  // The handler

  datatype Body = Text(text: string) | Logs(logs: seq<Event>)

  datatype Response = Response(statusCode: int, body: Body)

  /** `lambda_handler`: 400 with the validation message, 200 with the
      events, or 500 with the text of an exception raised collecting them. */
  method LambdaHandler(event: map<string, PyValue>, paginate: FilterRequest -> seq<PageResult>)
    returns (r: Response)
    ensures r.statusCode == 400 <==> !ValidateParams(event).status
    ensures r.statusCode == 400 ==> r.body == Text(ValidateParams(event).message)
    ensures r.statusCode == 200 <==> ValidateParams(event).status && Collected(paginate(RequestOf(event)), 0).Ok?
    ensures r.statusCode == 200 ==> r.body == Logs(Collected(paginate(RequestOf(event)), 0).value)
    ensures r.statusCode == 500 ==>
      ValidateParams(event).status && r.body == Text(CollectionErrorPrefix + Collected(paginate(RequestOf(event)), 0).error)
    ensures r.statusCode in {200, 400, 500}
  {
    var validation := ValidateParams(event);
    if !validation.status {
      return Response(400, Text(validation.message));
    }
    var logs := CollectLogs(event, paginate);
    if logs.Err? {
      return Response(500, Text(CollectionErrorPrefix + logs.error));
    }
    r := Response(200, Logs(logs.value));
  }
}
