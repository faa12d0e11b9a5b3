/** The intercepting transport, its construction and the client facade (hmock.go). */
module Hmock {
  import opened Wrappers
  import opened Http
  import opened HmockConfig

  datatype Level = Debug | Err

  datatype AttrValue = Str(s: string) | Int(i: int) | ErrorVal(e: Error)

  datatype Attr = Attr(key: string, value: AttrValue)

  /** One structured log record, together with the sink it was written to. */
  datatype LogEvent = LogEvent(sink: Logger, level: Level, msg: string, attrs: seq<Attr>)

  /** What a round trip observably does, in order: it writes log records and it
      hands the request to the responder. */
  datatype Step = Log(event: LogEvent) | Invoke(req: Request)

  /** The log records of a trace, in order. */
  function Events(trace: seq<Step>): seq<LogEvent>
  {
    if |trace| == 0 then []
    else (if trace[0].Log? then [trace[0].event] else []) + Events(trace[1..])
  }

  /** The requests handed to the responder in a trace, in order. */
  function Invocations(trace: seq<Step>): seq<Request>
  {
    if |trace| == 0 then []
    else (if trace[0].Invoke? then [trace[0].req] else []) + Invocations(trace[1..])
  }

  lemma {:induction false} EventsAppend(a: seq<Step>, b: seq<Step>)
    ensures Events(a + b) == Events(a) + Events(b)
  {
    if |a| == 0 {
      assert a + b == b;
    } else {
      assert (a + b)[0] == a[0];
      assert (a + b)[1..] == a[1..] + b;
      EventsAppend(a[1..], b);
    }
  }

  lemma {:induction false} InvocationsAppend(a: seq<Step>, b: seq<Step>)
    ensures Invocations(a + b) == Invocations(a) + Invocations(b)
  {
    if |a| == 0 {
      assert a + b == b;
    } else {
      assert (a + b)[0] == a[0];
      assert (a + b)[1..] == a[1..] + b;
      InvocationsAppend(a[1..], b);
    }
  }

  /** The record written before the responder runs. */
  function HandlingEvent(sink: Logger, req: Request): LogEvent {
    LogEvent(sink, Debug, "handling HTTP request",
             [Attr("method", Str(req.verb)), Attr("url", Str(req.url.String()))])
  }

  /** The record written after the responder has returned `res`. */
  function OutcomeEvent(sink: Logger, res: Result<Response, Error>): LogEvent {
    match res
    case Failure(e) => LogEvent(sink, Err, "responder returned an error", [Attr("error", ErrorVal(e))])
    case Success(resp) => LogEvent(sink, Debug, "returning response", [Attr("status", Int(resp.statusCode))])
  }

  /** The transport: an immutable responder and an optional logger. */
  datatype Transport = Transport(responder: Responder, logger: Option<Logger>)

  /** The outcome of one round trip and what it did on the way. */
  datatype Trip = Trip(result: Result<Response, Error>, trace: seq<Step>)

  /** `hmockTransport.RoundTrip`: log, ask the responder once, log again, return. */
  function RoundTrip(t: Transport, req: Request): (r: Trip)
    // the responder's answer comes back untouched, success or error
    ensures r.result == t.responder(req)
    // the responder is asked exactly once, with the request as given
    ensures Invocations(r.trace) == [req]
    ensures t.logger.None? ==> Events(r.trace) == []
    ensures t.logger.Some? ==>
              && |r.trace| == 3
              && r.trace[0] == Log(HandlingEvent(t.logger.value, req))
              && r.trace[1] == Invoke(req)
              && r.trace[2].Log?
              && r.trace[2].event.sink == t.logger.value
              && (r.trace[2].event.level == Err <==> r.result.Failure?)
              && (r.result.Failure? ==> r.trace[2].event.attrs == [Attr("error", ErrorVal(r.result.error))])
              && (r.result.Success? ==> r.trace[2].event.attrs == [Attr("status", Int(r.result.value.statusCode))])
  {
    var before := if t.logger.Some? then [Log(HandlingEvent(t.logger.value, req))] else [];
    var res := t.responder(req);
    var after := if t.logger.Some? then [Log(OutcomeEvent(t.logger.value, res))] else [];
    var trace := before + [Invoke(req)] + after;
    InvocationsAppend(before + [Invoke(req)], after);
    InvocationsAppend(before, [Invoke(req)]);
    EventsAppend(before + [Invoke(req)], after);
    EventsAppend(before, [Invoke(req)]);
    Trip(res, trace)
  }

  /** With a logger, a round trip writes exactly two records: the request, then its outcome. */
  lemma LoggedTripEvents(t: Transport, req: Request)
    requires t.logger.Some?
    ensures var r := RoundTrip(t, req);
            Events(r.trace) == [HandlingEvent(t.logger.value, req), OutcomeEvent(t.logger.value, r.result)]
  {
    var r := RoundTrip(t, req);
    assert r.trace == [r.trace[0]] + [r.trace[1]] + [r.trace[2]];
    EventsAppend([r.trace[0]] + [r.trace[1]], [r.trace[2]]);
    EventsAppend([r.trace[0]], [r.trace[1]]);
  }

  /** Logging never alters what a round trip returns: only the trace differs. */
  lemma LoggerDoesNotChangeResult(responder: Responder, logger: Option<Logger>, req: Request)
    ensures RoundTrip(Transport(responder, logger), req).result
         == RoundTrip(Transport(responder, None), req).result
    ensures Invocations(RoundTrip(Transport(responder, logger), req).trace)
         == Invocations(RoundTrip(Transport(responder, None), req).trace)
  {
  }

  /** The HTTP client; its dispatch is delegated to the transport it holds. */
  datatype Client = Client(transport: Transport)

  /** `Client.Get`: a GET request for `url`, dispatched through the transport. */
  function Get(c: Client, url: Url): (r: Trip)
    ensures r.result == c.transport.responder(Request("GET", url))
    ensures Invocations(r.trace) == [Request("GET", url)]
  {
    RoundTrip(c.transport, Request("GET", url))
  }

  /** The value `New` returns: the resolved configuration, the client and its transport. */
  datatype Mock = Mock(cfg: Config, client: Client, transport: Transport) {

    /** The wiring `New` establishes: the client routes through the transport, and
        the transport carries the resolved configuration's responder and logger. */
    ghost predicate Valid() {
      && Resolved(cfg)
      && client.transport == transport
      && transport.responder == cfg.responder.value
      && transport.logger == cfg.logger
    }
  }

  /** The value of `New` together with the log records construction wrote. */
  datatype Built = Built(mock: Mock, events: seq<LogEvent>)

  /** `New(config...)`: default the configuration, build transport and client, and
      announce initialisation when a logger is present. */
  function New(configs: seq<Config>): (r: Built)
    ensures r.mock.Valid()
    ensures r.mock.cfg == WithDefaults(configs)
    ensures r.mock.transport.logger.None? ==> r.events == []
    ensures r.mock.transport.logger.Some? ==>
              r.events == [LogEvent(r.mock.transport.logger.value, Debug, "hmock is initialized", [])]
  {
    var cfg := WithDefaults(configs);
    var transport := Transport(cfg.responder.value, cfg.logger);
    var client := Client(transport);
    var events := if transport.logger.Some? then [LogEvent(transport.logger.value, Debug, "hmock is initialized", [])] else [];
    Built(Mock(cfg, client, transport), events)
  }

  /** `hmock.Client()`: the client built by `New`, which routes through the mock's transport. */
  function ClientOf(m: Mock): (c: Client)
    ensures m.Valid() ==> c.transport == m.transport
    ensures m.Valid() ==> c.transport.responder == m.cfg.responder.value
  {
    m.client
  }

  /** `New` logs one initialisation record exactly when the first configuration names a logger. */
  lemma NewLogsIffLogger(configs: seq<Config>)
    ensures |New(configs).events| == 1 <==> (|configs| > 0 && configs[0].logger.Some?)
    ensures |New(configs).events| == 0 <==> (|configs| == 0 || configs[0].logger.None?)
  {
  }

  /** Every request issued through the client of `New(configs)` is answered by the
      responder the configuration resolves to, verbatim. */
  lemma NewClientDelegates(configs: seq<Config>, url: Url)
    ensures var c := ClientOf(New(configs).mock);
            Get(c, url).result == WithDefaults(configs).responder.value(Request("GET", url))
  {
  }

  /** Without a caller responder, every request through the client succeeds with the
      built-in empty 200 response. */
  lemma DefaultClientAnswersOk(configs: seq<Config>, url: Url)
    requires |configs| == 0 || configs[0].responder.None?
    ensures var r := Get(ClientOf(New(configs).mock), url).result;
            && r.Success?
            && r.value.statusCode == StatusOK
            && r.value.body == ""
            && HeaderGet(r.value.header, "Content-Type") == "text/plain; charset=utf-8"
            && HeaderGet(r.value.header, "Content-Length") == "0"
  {
  }

  /** Appending one round trip to a trace adds its one hand-off and, with a logger, two records. */
  lemma ExtendTrace(t: Transport, trace: seq<Step>, req: Request)
    ensures Invocations(trace + RoundTrip(t, req).trace) == Invocations(trace) + [req]
    ensures t.logger.None? ==> Events(trace + RoundTrip(t, req).trace) == Events(trace)
    ensures t.logger.Some? ==>
              Events(trace + RoundTrip(t, req).trace)
              == Events(trace) + [HandlingEvent(t.logger.value, req), OutcomeEvent(t.logger.value, t.responder(req))]
  {
    var trip := RoundTrip(t, req);
    InvocationsAppend(trace, trip.trace);
    EventsAppend(trace, trip.trace);
    if t.logger.Some? {
      LoggedTripEvents(t, req);
    }
  }

  /** The records a client logging to `sink` writes when `responder` answers `reqs`:
      for each request in turn, its handling record and then its outcome record. */
  function LoggedEvents(sink: Logger, responder: Responder, reqs: seq<Request>): (e: seq<LogEvent>)
    ensures |e| == 2 * |reqs|
  {
    if |reqs| == 0 then []
    else
      var last := reqs[|reqs| - 1];
      LoggedEvents(sink, responder, reqs[..|reqs| - 1])
      + [HandlingEvent(sink, last), OutcomeEvent(sink, responder(last))]
  }

  /** Issues `reqs` in order through the client, as a caller making successive calls would. */
  method IssueAll(c: Client, reqs: seq<Request>) returns (results: seq<Result<Response, Error>>, trace: seq<Step>)
    ensures |results| == |reqs|
    ensures forall i :: 0 <= i < |reqs| ==> results[i] == c.transport.responder(reqs[i])
    // no state is carried between calls: equal requests get equal answers
    ensures forall i, j :: 0 <= i < |reqs| && 0 <= j < |reqs| && reqs[i] == reqs[j] ==> results[i] == results[j]
    // the responder saw exactly the issued requests, each once, in order
    ensures Invocations(trace) == reqs
    ensures c.transport.logger.None? ==> Events(trace) == []
    ensures c.transport.logger.Some? ==> Events(trace) == LoggedEvents(c.transport.logger.value, c.transport.responder, reqs)
  {
    results := [];
    trace := [];
    var i := 0;
    while i < |reqs|
      invariant 0 <= i <= |reqs|
      invariant |results| == i
      invariant forall k :: 0 <= k < i ==> results[k] == c.transport.responder(reqs[k])
      invariant Invocations(trace) == reqs[..i]
      invariant c.transport.logger.None? ==> Events(trace) == []
      invariant c.transport.logger.Some? ==> Events(trace) == LoggedEvents(c.transport.logger.value, c.transport.responder, reqs[..i])
    {
      var trip := RoundTrip(c.transport, reqs[i]);
      ExtendTrace(c.transport, trace, reqs[i]);
      assert reqs[..i + 1] == reqs[..i] + [reqs[i]];
      assert reqs[..i + 1][..i] == reqs[..i];
      results := results + [trip.result];
      trace := trace + trip.trace;
      i := i + 1;
    }
    assert reqs[..i] == reqs;
  }

  /** A logged client issuing one request writes that request's handling record, then its outcome record. */
  method IssueOneLogged(c: Client, req: Request) returns (result: Result<Response, Error>, events: seq<LogEvent>)
    requires c.transport.logger.Some?
    ensures result == c.transport.responder(req)
    ensures events == [HandlingEvent(c.transport.logger.value, req), OutcomeEvent(c.transport.logger.value, result)]
  {
    var results, trace := IssueAll(c, [req]);
    assert [req][..0] == [];
    result := results[0];
    events := Events(trace);
  }
}
