/** `CloudwatchCollector` of src/ShiroSightCollector/cloudwatch.py: request
    parameters, the stream listing loop, the paginated event fetch of one
    stream, and the gathering of all streams' events.

    The CloudWatch Logs service is a parameter. `describe(params)` gives the
    outcome of each successive attempt at `describe_log_streams(**params)`
    (the retry wrapper re-invokes it with the same arguments). A stream's
    `get_log_events` replies are a finite script, one entry per request in
    order; a request beyond the script's end fails like a request the service
    rejects. Events are passed through untouched, so they are plain
    dictionaries. */
module Cloudwatch {
  import opened Common
  import opened Timestamps
  import CB = CircuitBreaker

  const DefaultMaxConcurrentRequests := 10
  const StreamsErrorMessage := "Failed to fetch log streams"

  /** A value in a request's keyword arguments. */
  datatype ParamValue = PStr(s: string) | PBool(b: bool) | PInt(i: int)

  type Params = map<string, ParamValue>

  /** A log event as the service returns it. */
  type Event = map<string, PyValue>

  // ---------------------------------------------------------------------
  // Request parameters

  /** The keyword arguments `_fetch_log_streams_page` passes to
      `describe_log_streams`: newest streams first, and the token only when
      it is truthy. */
  function StreamsPageParams(group: string, token: Option<string>): (p: Params)
    ensures p.Keys == {"logGroupName", "orderBy", "descending"} + (if TruthyText(token) then {"nextToken"} else {})
    ensures p["logGroupName"] == PStr(group)
    ensures p["orderBy"] == PStr("LastEventTime") && p["descending"] == PBool(true)
    ensures TruthyText(token) ==> p["nextToken"] == PStr(token.value)
  {
    var p := map["logGroupName" := PStr(group), "orderBy" := PStr("LastEventTime"), "descending" := PBool(true)];
    if TruthyText(token) then p["nextToken" := PStr(token.value)] else p
  }

  /** The keyword arguments `_fetch_log_events_page` passes to
      `get_log_events`: a start or end of `0` is falsy and left out like a
      missing one. */
  function EventsPageParams(group: string, stream: string, start: Option<int>, end: Option<int>,
                            token: Option<string>): (p: Params)
    ensures p.Keys == {"logGroupName", "logStreamName"} + (if TruthyInt(start) then {"startTime"} else {}) +
                      (if TruthyInt(end) then {"endTime"} else {}) + (if TruthyText(token) then {"nextToken"} else {})
    ensures p["logGroupName"] == PStr(group) && p["logStreamName"] == PStr(stream)
    ensures TruthyInt(start) ==> p["startTime"] == PInt(start.value)
    ensures TruthyInt(end) ==> p["endTime"] == PInt(end.value)
    ensures TruthyText(token) ==> p["nextToken"] == PStr(token.value)
  {
    var p := map["logGroupName" := PStr(group), "logStreamName" := PStr(stream)];
    var p := if TruthyInt(start) then p["startTime" := PInt(start.value)] else p;
    var p := if TruthyInt(end) then p["endTime" := PInt(end.value)] else p;
    if TruthyText(token) then p["nextToken" := PStr(token.value)] else p
  }

  // ---------------------------------------------------------------------
  // Listing the streams of a group

  /** One entry of a `describe_log_streams` reply (`None`: key absent). */
  datatype StreamSummary = StreamSummary(logStreamName: Option<string>)

  /** A `describe_log_streams` reply. */
  datatype StreamsPage = StreamsPage(logStreams: Option<seq<StreamSummary>>, nextToken: Option<string>)

  /** What `get_log_stream_names` raises: the retry wrapper's error, or a
      `KeyError` for a missing key of the reply. */
  datatype ListError = Wrapped(error: CB.WrapperError) | MissingKey(key: string)

  /** `[stream["logStreamName"] for stream in streams]`. */
  function StreamNamesOf(streams: seq<StreamSummary>): (r: Result<seq<string>, ListError>)
    ensures r.Ok? <==> forall i :: 0 <= i < |streams| ==> streams[i].logStreamName.Some?
    ensures r.Ok? ==> |r.value| == |streams| &&
                      forall i :: 0 <= i < |streams| ==> r.value[i] == streams[i].logStreamName.value
    ensures r.Err? ==> r.error == MissingKey("logStreamName")
  {
    if streams == [] then Ok([])
    else if streams[0].logStreamName.None? then Err(MissingKey("logStreamName"))
    else
      match StreamNamesOf(streams[1..])
      case Err(e) => Err(e)
      case Ok(rest) => Ok([streams[0].logStreamName.value] + rest)
  }

  /** The decorated `_fetch_log_streams_page` for the page at `token`: the
      retry wrapper with 100 attempts, a 30-second deadline and the streams
      label. */
  function StreamsCall(describe: Params -> nat -> CB.Outcome<StreamsPage>, group: string, token: Option<string>)
    : CB.Call<StreamsPage>
  {
    CB.Retry(describe(StreamsPageParams(group, token)), CB.DefaultMaxAttempts, CB.DefaultTimeout,
             StreamsErrorMessage, 0).0
  }

  /** The call for the first page, which carries no token. */
  function FirstStreamsCall(describe: Params -> nat -> CB.Outcome<StreamsPage>, group: string): CB.Call<StreamsPage> {
    StreamsCall(describe, group, None)
  }

  /** The names of one listing page, or what reading it raises. */
  function PageStreamNames(call: CB.Call<StreamsPage>): Result<seq<string>, ListError> {
    match call
    case Raised(e) => Err(Wrapped(e))
    case Returned(page) =>
      if page.logStreams.None? then Err(MissingKey("logStreams")) else StreamNamesOf(page.logStreams.value)
  }

  /** What `get_log_stream_names(group)` returns or raises. */
  function ListStreams(describe: Params -> nat -> CB.Outcome<StreamsPage>, group: string): Result<seq<string>, ListError> {
    PageStreamNames(FirstStreamsCall(describe, group))
  }

  /** `get_log_stream_names`: the loop's exit test compares `next_token` with
      the reply's `nextToken`, which it was just read from, so the loop always
      ends after the first page (`pages` counts the pages requested). */
  method GetLogStreamNames(describe: Params -> nat -> CB.Outcome<StreamsPage>, group: string)
    returns (r: Result<seq<string>, ListError>, pages: nat)
    ensures pages == 1
    ensures r == ListStreams(describe, group)
  {
    var names: seq<string> := [];
    var nextToken: Option<string> := None;
    var done := false;
    pages := 0;
    while !done
      invariant !done ==> pages == 0 && names == [] && nextToken == None
      invariant done ==> pages == 1 && Ok(names) == ListStreams(describe, group)
      decreases if done then 0 else 1
    {
      var call, _ := CB.Wrapper(describe(StreamsPageParams(group, nextToken)), CB.DefaultMaxAttempts,
                                CB.DefaultTimeout, StreamsErrorMessage);
      pages := pages + 1;
      if call.Raised? {
        r := Err(Wrapped(call.error));
        return;
      }
      var page := call.value;
      if page.logStreams.None? {
        r := Err(MissingKey("logStreams"));
        return;
      }
      var batch := StreamNamesOf(page.logStreams.value);
      if batch.Err? {
        r := Err(batch.error);
        return;
      }
      assert call == FirstStreamsCall(describe, group);
      names := names + batch.value;
      assert names == batch.value;
      nextToken := page.nextToken;
      done := !TruthyText(nextToken) || nextToken == page.nextToken;
    }
    r := Ok(names);
  }

  /** A listing whose describe call succeeds after fewer than 100 failed
      attempts returns that page's stream names, in the page's order. */
  lemma ListStreamsAfterFailures(describe: Params -> nat -> CB.Outcome<StreamsPage>, group: string, k: nat,
                                 streams: seq<StreamSummary>, token: Option<string>)
    requires k < CB.DefaultMaxAttempts
    requires CB.FailsBefore(describe(StreamsPageParams(group, None)), k)
    requires describe(StreamsPageParams(group, None))(k) == CB.Success(StreamsPage(Some(streams), token))
    requires forall i :: 0 <= i < |streams| ==> streams[i].logStreamName.Some?
    ensures ListStreams(describe, group).Ok?
    ensures |ListStreams(describe, group).value| == |streams|
    ensures forall i :: 0 <= i < |streams| ==> ListStreams(describe, group).value[i] == streams[i].logStreamName.value
  {
    CB.SucceedsAfterFailures(describe(StreamsPageParams(group, None)), CB.DefaultMaxAttempts, CB.DefaultTimeout,
                             StreamsErrorMessage, k, StreamsPage(Some(streams), token));
  }

  /** A timeout of the describe call is raised by the listing as the
      wrapper's `TimeoutError`. */
  lemma ListStreamsTimeout(describe: Params -> nat -> CB.Outcome<StreamsPage>, group: string, k: nat)
    requires k < CB.DefaultMaxAttempts
    requires CB.FailsBefore(describe(StreamsPageParams(group, None)), k)
    requires describe(StreamsPageParams(group, None))(k) == CB.Timeout
    ensures ListStreams(describe, group) == Err(Wrapped(CB.TimeoutError("Operation timed out after 30 seconds")))
  {
    CB.TimeoutIsFatal(describe(StreamsPageParams(group, None)), CB.DefaultMaxAttempts, CB.DefaultTimeout,
                      StreamsErrorMessage, k);
    CB.DefaultTimeoutText();
    assert FirstStreamsCall(describe, group) == CB.Raised(CB.TimeoutError("Operation timed out after 30 seconds"));
  }

  /** As written, the listing returns the names of the first page only,
      however long the token chain: with two pages or more whose second page
      names a stream, the result is not every page's names. */
  lemma ListingStopsAfterFirstPageAsWritten(describe: Params -> nat -> CB.Outcome<StreamsPage>, group: string,
                                            pages: seq<StreamsPage>)
    requires IsChain(describe, group, None, pages)
    ensures ListStreams(describe, group) == Ok(PageNames(pages[0]))
    ensures |pages| >= 2 && PageNames(pages[1]) != [] ==> ListStreams(describe, group).value != AllNames(pages)
  {
    if |pages| >= 2 && PageNames(pages[1]) != [] {
      assert AllNames(pages) == PageNames(pages[0]) + (PageNames(pages[1]) + AllNames(pages[2..])) by {
        assert pages[1..][0] == pages[1] && pages[1..][1..] == pages[2..];
      }
    }
  }

  // ---------------------------------------------------------------------
  // Listing every page of a group (the listing as documented)

  /** The token chain from `token` ends within `fuel` pages: some page
      cannot be read, or a page carries no truthy `nextToken`. */
  predicate ChainEnds(describe: Params -> nat -> CB.Outcome<StreamsPage>, group: string, token: Option<string>,
                      fuel: nat)
    decreases fuel
  {
    fuel > 0 &&
    var call := StreamsCall(describe, group, token);
    (PageStreamNames(call).Err? || !TruthyText(call.value.nextToken) ||
     ChainEnds(describe, group, call.value.nextToken, fuel - 1))
  }

  /** The listing `get_log_stream_names` is documented to perform: the
      names of every page, following `nextToken` until it is falsy; the
      first error raised propagates. */
  function ListFrom(describe: Params -> nat -> CB.Outcome<StreamsPage>, group: string, token: Option<string>,
                    fuel: nat): Result<seq<string>, ListError>
    requires ChainEnds(describe, group, token, fuel)
    decreases fuel
  {
    var call := StreamsCall(describe, group, token);
    match PageStreamNames(call)
    case Err(e) => Err(e)
    case Ok(names) =>
      if !TruthyText(call.value.nextToken) then Ok(names)
      else
        match ListFrom(describe, group, call.value.nextToken, fuel - 1)
        case Err(e) => Err(e)
        case Ok(rest) => Ok(names + rest)
  }

  /** The names of a page whose streams all carry one. */
  function PageNames(page: StreamsPage): seq<string> {
    if page.logStreams.Some? && StreamNamesOf(page.logStreams.value).Ok? then StreamNamesOf(page.logStreams.value).value
    else []
  }

  /** `pages` are what the service answers along the token chain from
      `token`: each page is read without error, each but the last passes a
      truthy `nextToken` on, and the last passes none. */
  predicate IsChain(describe: Params -> nat -> CB.Outcome<StreamsPage>, group: string, token: Option<string>,
                    pages: seq<StreamsPage>)
    decreases |pages|
  {
    |pages| >= 1 && StreamsCall(describe, group, token) == CB.Returned(pages[0]) &&
    pages[0].logStreams.Some? && StreamNamesOf(pages[0].logStreams.value).Ok? &&
    (if |pages| == 1 then !TruthyText(pages[0].nextToken)
     else TruthyText(pages[0].nextToken) && IsChain(describe, group, pages[0].nextToken, pages[1..]))
  }

  /** The names of all pages, page after page. */
  function AllNames(pages: seq<StreamsPage>): seq<string> {
    if pages == [] then [] else PageNames(pages[0]) + AllNames(pages[1..])
  }

  /** Along a chain of readable pages the documented listing ends, and it
      returns every page's names, in page order. */
  lemma {:induction false} ListFromChain(describe: Params -> nat -> CB.Outcome<StreamsPage>, group: string,
                                         token: Option<string>, fuel: nat, pages: seq<StreamsPage>)
    requires IsChain(describe, group, token, pages) && |pages| <= fuel
    ensures ChainEnds(describe, group, token, fuel)
    ensures ListFrom(describe, group, token, fuel) == Ok(AllNames(pages))
    decreases |pages|
  {
    assert PageStreamNames(StreamsCall(describe, group, token)) == Ok(PageNames(pages[0]));
    assert AllNames(pages) == PageNames(pages[0]) + AllNames(pages[1..]);
    if |pages| > 1 {
      ListFromChain(describe, group, pages[0].nextToken, fuel - 1, pages[1..]);
    } else {
      assert AllNames(pages[1..]) == [];
      assert AllNames(pages) == PageNames(pages[0]);
      assert !TruthyText(StreamsCall(describe, group, token).value.nextToken);
      assert ChainEnds(describe, group, token, fuel);
      ListFromUnfold(describe, group, token, fuel);
    }
  }

  /** One page of the documented listing: what reading the page at `token`
      gives, and where the listing goes on. */
  lemma ListFromUnfold(describe: Params -> nat -> CB.Outcome<StreamsPage>, group: string, token: Option<string>,
                       fuel: nat)
    requires ChainEnds(describe, group, token, fuel)
    ensures fuel > 0
    ensures var call := StreamsCall(describe, group, token);
      PageStreamNames(call).Err? || !TruthyText(call.value.nextToken) ==>
        ListFrom(describe, group, token, fuel) == PageStreamNames(call)
    ensures var call := StreamsCall(describe, group, token);
      PageStreamNames(call).Ok? && TruthyText(call.value.nextToken) ==>
        ChainEnds(describe, group, call.value.nextToken, fuel - 1) &&
        var rest := ListFrom(describe, group, call.value.nextToken, fuel - 1);
        ListFrom(describe, group, token, fuel) ==
          if rest.Err? then rest else Ok(PageStreamNames(call).value + rest.value)
  {
  }

  /** The documented listing agrees with the listing as written on a group
      whose first page ends the chain, and on a first page that raises. */
  lemma ListFromFirstPage(describe: Params -> nat -> CB.Outcome<StreamsPage>, group: string, fuel: nat)
    requires ChainEnds(describe, group, None, fuel)
    requires ListStreams(describe, group).Err? || !TruthyText(FirstStreamsCall(describe, group).value.nextToken)
    ensures ListFrom(describe, group, None, fuel) == ListStreams(describe, group)
  {
  }

  /** `names` put before the names of a listing that succeeded; an error
      stays as it is. */
  function Prepend(names: seq<string>, r: Result<seq<string>, ListError>): Result<seq<string>, ListError> {
    if r.Err? then r else Ok(names + r.value)
  }

  lemma PrependTwice(a: seq<string>, b: seq<string>, r: Result<seq<string>, ListError>)
    ensures Prepend(a, Prepend(b, r)) == Prepend(a + b, r)
  {
    if r.Ok? {
      assert a + (b + r.value) == (a + b) + r.value;
    }
  }

  /** One pass of the listing loop: the decorated call for the page at
      `token`, the names it holds and the token it passes on. */
  method ReadStreamsPage(describe: Params -> nat -> CB.Outcome<StreamsPage>, group: string, token: Option<string>)
    returns (names: Result<seq<string>, ListError>, next: Option<string>)
    ensures names == PageStreamNames(StreamsCall(describe, group, token))
    ensures names.Ok? ==> next == StreamsCall(describe, group, token).value.nextToken
  {
    var call, _ := CB.Wrapper(describe(StreamsPageParams(group, token)), CB.DefaultMaxAttempts,
                              CB.DefaultTimeout, StreamsErrorMessage);
    next := None;
    if call.Raised? {
      names := Err(Wrapped(call.error));
    } else if call.value.logStreams.None? {
      names := Err(MissingKey("logStreams"));
    } else {
      names := StreamNamesOf(call.value.logStreams.value);
      next := call.value.nextToken;
    }
  }

  /** `get_log_stream_names` with the exit test evidently intended: pages
      are requested until a reply carries no truthy `nextToken`. `fuel`
      bounds the length of the service's token chain. */
  method GetAllLogStreamNames(describe: Params -> nat -> CB.Outcome<StreamsPage>, group: string, ghost fuel: nat)
    returns (r: Result<seq<string>, ListError>)
    requires ChainEnds(describe, group, None, fuel)
    ensures r == ListFrom(describe, group, None, fuel)
  {
    var names: seq<string> := [];
    var nextToken: Option<string> := None;
    ghost var f := fuel;
    ghost var full := ListFrom(describe, group, None, fuel);
    assert full.Ok? ==> names + full.value == full.value;
    while true
      invariant ChainEnds(describe, group, nextToken, f)
      invariant ListFrom(describe, group, None, fuel) == Prepend(names, ListFrom(describe, group, nextToken, f))
      decreases f
    {
      ListFromUnfold(describe, group, nextToken, f);
      var batch, next := ReadStreamsPage(describe, group, nextToken);
      if batch.Err? {
        return batch;
      }
      if !TruthyText(next) {
        return Ok(names + batch.value);
      }
      PrependTwice(names, batch.value, ListFrom(describe, group, next, f - 1));
      names := names + batch.value;
      nextToken := next;
      f := f - 1;
    }
  }

  // ---------------------------------------------------------------------
  // Fetching the events of one stream

  /** A `get_log_events` reply (`None`: key absent). */
  datatype EventsPage = EventsPage(events: Option<seq<Event>>, nextForwardToken: Option<string>,
                                   nextToken: Option<string>)

  /** One request's fate: a reply, or an exception. */
  datatype EventsReply = Reply(page: EventsPage) | Raises(message: string)

  /** `response.get("events", [])` */
  function EventsOf(page: EventsPage): seq<Event> {
    if page.events.Some? then page.events.value else []
  }

  /** The loop goes on after this reply: `nextForwardToken` is truthy and
      differs from the reply's `nextToken`. */
  predicate Continues(page: EventsPage) {
    TruthyText(page.nextForwardToken) && page.nextForwardToken != page.nextToken
  }

  /** How `fetch_log_stream` reads a bound: `parse_timestamp`, passed as a
      value so that the loop's proof does not depend on its definition. */
  type Parser = string -> Result<int, ParseError>

  /** `parse(t) if t else None` */
  function ParseBound(parse: Parser, t: Option<string>): Result<Option<int>, ParseError> {
    if !TruthyText(t) then Ok(None)
    else match parse(t.value)
      case Ok(ms) => Ok(Some(ms))
      case Err(e) => Err(e)
  }

  /** The loop from the `i`-th request on, with `token` as the page token:
      the events gathered and the parameters of every request made. */
  function FetchFrom(script: seq<EventsReply>, group: string, stream: string, start: Option<int>, end: Option<int>,
                     i: nat, token: Option<string>): (seq<Event>, seq<Params>)
    decreases |script| - i
  {
    var p := EventsPageParams(group, stream, start, end, token);
    if i >= |script| || script[i].Raises? then ([], [p])
    else
      var page := script[i].page;
      if !Continues(page) then (EventsOf(page), [p])
      else
        var rest := FetchFrom(script, group, stream, start, end, i + 1, page.nextForwardToken);
        (EventsOf(page) + rest.0, [p] + rest.1)
  }

  /** What is left of `fetch_log_stream` from the `i`-th request on: both
      bounds are parsed before every request, and a bound that does not
      parse ends the loop before anything is requested. */
  function Remaining(parse: Parser, script: seq<EventsReply>, stream: string, group: string, start: Option<string>,
                     end: Option<string>, i: nat, token: Option<string>): (seq<Event>, seq<Params>)
  {
    var s := ParseBound(parse, start);
    var e := ParseBound(parse, end);
    if s.Err? || e.Err? then ([], []) else FetchFrom(script, group, stream, s.value, e.value, i, token)
  }

  /** `fetch_log_stream(stream, group, start, end)`: its events and the
      requests it made. */
  function FetchStream(parse: Parser, script: seq<EventsReply>, stream: string, group: string, start: Option<string>,
                       end: Option<string>): (seq<Event>, seq<Params>)
  {
    Remaining(parse, script, stream, group, start, end, 0, None)
  }

  /** One pass of `fetch_log_stream`'s loop from the `i`-th request with
      `token`: the bounds are parsed, a page is requested and its events
      kept; `next` is where the loop goes on, `None` where it breaks. */
  method FetchStep(parse: Parser, script: seq<EventsReply>, stream: string, group: string, start: Option<string>,
                   end: Option<string>, i: nat, token: Option<string>)
    returns (events: seq<Event>, sent: seq<Params>, next: Option<(nat, Option<string>)>)
    requires i <= |script|
    ensures next.Some? ==> i < next.value.0 <= |script|
    ensures next.None? ==> (events, sent) == Remaining(parse, script, stream, group, start, end, i, token)
    ensures next.Some? ==>
      var rest := Remaining(parse, script, stream, group, start, end, next.value.0, next.value.1);
      (events + rest.0, sent + rest.1) == Remaining(parse, script, stream, group, start, end, i, token)
  {
    var s := ParseBound(parse, start);
    var e := ParseBound(parse, end);
    if s.Err? || e.Err? {
      return [], [], None;
    }
    sent := [EventsPageParams(group, stream, s.value, e.value, token)];
    if i >= |script| || script[i].Raises? {
      return [], sent, None;
    }
    var page := script[i].page;
    events := EventsOf(page);
    var nextToken := page.nextForwardToken;
    if !TruthyText(nextToken) || nextToken == page.nextToken {
      next := None;
    } else {
      next := Some((i + 1, nextToken));
    }
  }

  /** `fetch_log_stream`: requests pages until the token chain ends; any
      exception, including a bound `parse_timestamp` rejects, ends the loop
      and the events gathered so far are returned. */
  method FetchLogStream(parse: Parser, script: seq<EventsReply>, stream: string, group: string, start: Option<string>,
                        end: Option<string>)
    returns (events: seq<Event>, sent: seq<Params>)
    ensures (events, sent) == FetchStream(parse, script, stream, group, start, end)
    ensures ParseBound(parse, start).Err? || ParseBound(parse, end).Err? ==> events == [] && sent == []
  {
    events := [];
    sent := [];
    var token: Option<string> := None;
    var i: nat := 0;
    var done := false;
    ghost var full := FetchStream(parse, script, stream, group, start, end);
    ghost var rest := full;
    while !done
      invariant i <= |script|
      invariant !done ==> rest == Remaining(parse, script, stream, group, start, end, i, token)
      invariant !done ==> events + rest.0 == full.0 && sent + rest.1 == full.1
      invariant done ==> events == full.0 && sent == full.1
      decreases if done then 0 else 1, |script| - i
    {
      var pageEvents, pageSent, next := FetchStep(parse, script, stream, group, start, end, i, token);
      events := events + pageEvents;
      sent := sent + pageSent;
      if next.None? {
        done := true;
      } else {
        i, token := next.value.0, next.value.1;
        rest := Remaining(parse, script, stream, group, start, end, i, token);
      }
    }
  }

  /** The events of the replies among `n` requests from the `i`-th on, in
      order; an exception or a request past the script contributes none. */
  function PagesEvents(script: seq<EventsReply>, i: nat, n: nat): seq<Event>
    decreases n
  {
    if n == 0 then []
    else (if i < |script| && script[i].Reply? then EventsOf(script[i].page) else []) + PagesEvents(script, i + 1, n - 1)
  }

  /** The first request of a fetch carries the starting token. */
  lemma FirstRequest(script: seq<EventsReply>, group: string, stream: string,
                     start: Option<int>, end: Option<int>, i: nat, token: Option<string>)
    ensures var sent := FetchFrom(script, group, stream, start, end, i, token).1;
      1 <= |sent| && sent[0] == EventsPageParams(group, stream, start, end, token)
  {
  }

  /** The later requests of a fetch: each carries the `nextForwardToken` of
      the reply before it, which continued the chain; at most one request
      goes past the script. */
  lemma {:induction false} FetchFromRequests(script: seq<EventsReply>, group: string, stream: string,
                                             start: Option<int>, end: Option<int>, i: nat, token: Option<string>)
    requires i <= |script|
    ensures var sent := FetchFrom(script, group, stream, start, end, i, token).1;
      i + |sent| <= |script| + 1 &&
      forall k :: i <= k < i + |sent| - 1 ==>
        script[k].Reply? && Continues(script[k].page) &&
        sent[k - i + 1] == EventsPageParams(group, stream, start, end, script[k].page.nextForwardToken)
    decreases |script| - i
  {
    if i < |script| && script[i].Reply? && Continues(script[i].page) {
      var page := script[i].page;
      FetchFromRequests(script, group, stream, start, end, i + 1, page.nextForwardToken);
      FirstRequest(script, group, stream, start, end, i + 1, page.nextForwardToken);
      var rest := FetchFrom(script, group, stream, start, end, i + 1, page.nextForwardToken).1;
      var sent := FetchFrom(script, group, stream, start, end, i, token).1;
      assert sent == [EventsPageParams(group, stream, start, end, token)] + rest;
      forall k | i <= k < i + |sent| - 1
        ensures script[k].Reply? && Continues(script[k].page) &&
                sent[k - i + 1] == EventsPageParams(group, stream, start, end, script[k].page.nextForwardToken)
      {
        assert sent[k - i + 1] == rest[k - i];
      }
    }
  }

  /** Where a fetch stops: at an exception, past the script, or at a reply
      that ends the chain; and its events are those of all replies received,
      in order. */
  lemma {:induction false} FetchFromStops(script: seq<EventsReply>, group: string, stream: string,
                                          start: Option<int>, end: Option<int>, i: nat, token: Option<string>)
    requires i <= |script|
    ensures var r := FetchFrom(script, group, stream, start, end, i, token);
      1 <= |r.1| &&
      (var last := i + |r.1| - 1;
       last >= |script| || script[last].Raises? || !Continues(script[last].page)) &&
      r.0 == PagesEvents(script, i, |r.1|)
    decreases |script| - i
  {
    if i < |script| && script[i].Reply? && Continues(script[i].page) {
      FetchFromStops(script, group, stream, start, end, i + 1, script[i].page.nextForwardToken);
    }
  }

  /** A request that raises keeps the events of the pages before it: when
      the replies from the `i`-th request on continue the chain up to a
      request `n` that raises, the result is exactly what those earlier
      replies held. */
  lemma {:induction false} PartialResultOnError(script: seq<EventsReply>, group: string, stream: string,
                                                start: Option<int>, end: Option<int>, i: nat,
                                                token: Option<string>, n: nat)
    requires i <= n < |script| && script[n].Raises?
    requires forall k :: i <= k < n ==> script[k].Reply? && Continues(script[k].page)
    ensures FetchFrom(script, group, stream, start, end, i, token).0 == PagesEvents(script, i, n - i)
    decreases n - i
  {
    if i < n {
      PartialResultOnError(script, group, stream, start, end, i + 1, script[i].page.nextForwardToken, n);
    }
  }

  /** As written, a reply that hands back the token it was sent (how the
      service answers at the end of a stream) does not stop the loop: the
      reply carries no `nextToken` to compare with, so the same request is
      sent again. */
  lemma EchoRepeatsRequestAsWritten(script: seq<EventsReply>, group: string, stream: string,
                                    start: Option<int>, end: Option<int>, i: nat, token: Option<string>)
    requires i < |script| && script[i].Reply? && script[i].page.nextForwardToken == token
    requires TruthyText(token) && script[i].page.nextToken.None?
    ensures var sent := FetchFrom(script, group, stream, start, end, i, token).1;
      |sent| >= 2 && sent[1] == sent[0]
  {
    FirstRequest(script, group, stream, start, end, i + 1, token);
  }

  /** As written, replies with a truthy `nextForwardToken` and no `nextToken`
      never end the loop: every reply is requested, and one request more
      (past the replies) is what stops it. */
  lemma {:induction false} NoStopWithoutNextTokenAsWritten(script: seq<EventsReply>, group: string, stream: string,
                                                           start: Option<int>, end: Option<int>, i: nat,
                                                           token: Option<string>)
    requires i <= |script|
    requires forall k :: i <= k < |script| ==>
      script[k].Reply? && TruthyText(script[k].page.nextForwardToken) && script[k].page.nextToken.None?
    ensures |FetchFrom(script, group, stream, start, end, i, token).1| == |script| - i + 1
    decreases |script| - i
  {
    if i < |script| {
      NoStopWithoutNextTokenAsWritten(script, group, stream, start, end, i + 1, script[i].page.nextForwardToken);
    }
  }

  /** The stop test evidently intended: the loop goes on while the reply's
      `nextForwardToken` is truthy and differs from the token just sent. */
  predicate ContinuesAfter(page: EventsPage, sent: Option<string>) {
    TruthyText(page.nextForwardToken) && page.nextForwardToken != sent
  }

  /** The loop from the `i`-th request on with the intended stop test. */
  function FetchFromGuarded(script: seq<EventsReply>, group: string, stream: string, start: Option<int>,
                            end: Option<int>, i: nat, token: Option<string>): (seq<Event>, seq<Params>)
    decreases |script| - i
  {
    var p := EventsPageParams(group, stream, start, end, token);
    if i >= |script| || script[i].Raises? then ([], [p])
    else
      var page := script[i].page;
      if !ContinuesAfter(page, token) then (EventsOf(page), [p])
      else
        var rest := FetchFromGuarded(script, group, stream, start, end, i + 1, page.nextForwardToken);
        (EventsOf(page) + rest.0, [p] + rest.1)
  }

  /** With the intended test, a reply echoing the token sent ends the loop
      there, keeping that reply's events. */
  lemma GuardedStopsOnEcho(script: seq<EventsReply>, group: string, stream: string,
                           start: Option<int>, end: Option<int>, i: nat, token: Option<string>)
    requires i < |script| && script[i].Reply? && script[i].page.nextForwardToken == token
    ensures FetchFromGuarded(script, group, stream, start, end, i, token)
            == (EventsOf(script[i].page), [EventsPageParams(group, stream, start, end, token)])
  {
  }

  /** Requests for different tokens differ, when the second token is truthy. */
  lemma ParamsDifferByToken(group: string, stream: string, start: Option<int>, end: Option<int>,
                            t: Option<string>, u: Option<string>)
    requires TruthyText(u) && t != u
    ensures EventsPageParams(group, stream, start, end, t) != EventsPageParams(group, stream, start, end, u)
  {
    var p := EventsPageParams(group, stream, start, end, t);
    var q := EventsPageParams(group, stream, start, end, u);
    if TruthyText(t) {
      assert p["nextToken"] != q["nextToken"];
    } else {
      assert "nextToken" !in p.Keys && "nextToken" in q.Keys;
    }
  }

  /** No two consecutive requests are the same. */
  predicate NoRepeats(sent: seq<Params>) {
    forall k :: 0 <= k < |sent| - 1 ==> sent[k] != sent[k + 1]
  }

  /** With the intended test the loop never sends the same request twice in
      a row. */
  lemma {:induction false} GuardedNeverRepeats(script: seq<EventsReply>, group: string, stream: string,
                                               start: Option<int>, end: Option<int>, i: nat, token: Option<string>)
    ensures NoRepeats(FetchFromGuarded(script, group, stream, start, end, i, token).1)
    decreases |script| - i
  {
    if i < |script| && script[i].Reply? && ContinuesAfter(script[i].page, token) {
      var next := script[i].page.nextForwardToken;
      GuardedNeverRepeats(script, group, stream, start, end, i + 1, next);
      var p := EventsPageParams(group, stream, start, end, token);
      var rest := FetchFromGuarded(script, group, stream, start, end, i + 1, next).1;
      var sent := FetchFromGuarded(script, group, stream, start, end, i, token).1;
      assert sent == [p] + rest;
      assert rest[0] == EventsPageParams(group, stream, start, end, next);
      ParamsDifferByToken(group, stream, start, end, token, next);
      forall k | 1 <= k < |sent| - 1
        ensures sent[k] != sent[k + 1]
      {
        var j := k - 1;
        assert sent[k] == rest[j] && sent[k + 1] == rest[j + 1];
        assert 0 <= j < |rest| - 1;
      }
    }
  }

  // ---------------------------------------------------------------------
  // Gathering the streams

  /** How each stream's service behaves: opening the client raises (outside
      `fetch_log_stream`'s `try`), or it answers requests from a script. */
  datatype StreamBackend = ClientFails(message: string) | Serves(script: seq<EventsReply>)

  /** One result of `asyncio.gather(..., return_exceptions=True)`. */
  datatype TaskResult = TaskRaised(message: string) | TaskReturned(events: seq<Event>)

  /** The result of one `fetch_log_stream` task. */
  function FetchTask(b: StreamBackend, stream: string, group: string, start: Option<string>,
                     end: Option<string>): TaskResult
  {
    match b
    case ClientFails(m) => TaskRaised(m)
    case Serves(script) => TaskReturned(FetchStream(ParseTimestamp, script, stream, group, start, end).0)
  }

  /** The gathered results, one per stream name, in the names' order. */
  function Tasks(backends: string -> StreamBackend, group: string, names: seq<string>,
                 start: Option<string>, end: Option<string>): (rs: seq<TaskResult>)
    ensures |rs| == |names|
    ensures forall k :: 0 <= k < |names| ==> rs[k] == FetchTask(backends(names[k]), names[k], group, start, end)
  {
    seq(|names|, k requires 0 <= k < |names| => FetchTask(backends(names[k]), names[k], group, start, end))
  }

  /** Drop the exceptions and flatten the rest (`chain.from_iterable`). */
  function GatherEvents(rs: seq<TaskResult>): seq<Event> {
    if rs == [] then []
    else (if rs[0].TaskReturned? then rs[0].events else []) + GatherEvents(rs[1..])
  }

  /** Gathering is compositional: the events of a longer list of results
      are the events of its parts, in order. */
  lemma {:induction false} GatherAppend(a: seq<TaskResult>, b: seq<TaskResult>)
    ensures GatherEvents(a + b) == GatherEvents(a) + GatherEvents(b)
  {
    if a == [] {
      assert a + b == b;
    } else {
      assert (a + b)[0] == a[0];
      assert (a + b)[1..] == a[1..] + b;
      GatherAppend(a[1..], b);
    }
  }

  /** An event is gathered exactly when some task that returned holds it:
      nothing from a failed task and nothing invented. */
  lemma {:induction false} GatherMembership(rs: seq<TaskResult>, e: Event)
    ensures e in GatherEvents(rs) <==> exists k :: 0 <= k < |rs| && rs[k].TaskReturned? && e in rs[k].events
  {
    if rs != [] {
      GatherMembership(rs[1..], e);
      if e in GatherEvents(rs[1..]) {
        var k :| 0 <= k < |rs[1..]| && rs[1..][k].TaskReturned? && e in rs[1..][k].events;
        assert rs[k + 1] == rs[1..][k];
      }
      if exists k :: 0 <= k < |rs| && rs[k].TaskReturned? && e in rs[k].events {
        var k :| 0 <= k < |rs| && rs[k].TaskReturned? && e in rs[k].events;
        if k > 0 {
          assert rs[1..][k - 1] == rs[k];
        }
      }
    }
  }

  /** `get_log_events`: one fetch per stream name, in order, then gathered. */
  method GetLogEvents(backends: string -> StreamBackend, group: string, names: seq<string>,
                      start: Option<string>, end: Option<string>)
    returns (events: seq<Event>)
    ensures events == GatherEvents(Tasks(backends, group, names, start, end))
  {
    var results: seq<TaskResult> := [];
    for k := 0 to |names|
      invariant results == Tasks(backends, group, names[..k], start, end)
    {
      var r: TaskResult;
      match backends(names[k]) {
        case ClientFails(m) =>
          r := TaskRaised(m);
        case Serves(script) =>
          var evs, _ := FetchLogStream(ParseTimestamp, script, names[k], group, start, end);
          r := TaskReturned(evs);
      }
      assert names[..k + 1] == names[..k] + [names[k]];
      results := results + [r];
    }
    assert names[..|names|] == names;
    events := GatherEvents(results);
  }

  /** `collect_logs`: the events of every stream the listing names; an
      exception of the listing propagates. */
  method CollectLogs(describe: Params -> nat -> CB.Outcome<StreamsPage>, backends: string -> StreamBackend,
                     group: string, start: Option<string>, end: Option<string>)
    returns (r: Result<seq<Event>, ListError>)
    ensures r.Err? <==> ListStreams(describe, group).Err?
    ensures r.Err? ==> r.error == ListStreams(describe, group).error
    ensures r.Ok? ==> r.value == GatherEvents(Tasks(backends, group, ListStreams(describe, group).value, start, end))
  {
    var names, _ := GetLogStreamNames(describe, group);
    if names.Err? {
      r := Err(names.error);
    } else {
      var events := GetLogEvents(backends, group, names.value, start, end);
      r := Ok(events);
    }
  }
}
