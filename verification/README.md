# hmock in Dafny

A model of hmock, a mock HTTP transport for Go. A client built by hmock never
touches the network. Every request it issues is handed to a caller-supplied
*responder* function, and the responder's answer (a response or an error) comes
back through the client as if a server had produced it. An optional structured
logger records each request and its outcome.

The model has five modules:

- `Wrappers` (`wrappers.dfy`): `Option`, which stands for a nil-able Go reference, and `Result`, which stands for Go's `(value, error)` pair.
- `Http` (`http.dfy`): the request, URL, header, response and error values of `net/http`, reduced to the fields hmock and its responders use.
- `HmockConfig` (`config.dfy`): `Config`, the built-in `DefaultResponder`, `ConfigDefault`, and `WithDefaults`, which is Go's `configDefault(config...)` with the variadic argument as a sequence.
- `Hmock` (`hmock.dfy`): `Transport` and `RoundTrip`, `New`, the `Client` and its `Get`, and `ClientOf`, which is the `Client()` accessor.
- `HmockScenarios` (`scenarios.dfy`): the default-responder and path-routing scenarios of the test file.

A responder is a total Dafny function `Request -> Result<Response, Error>`.
A Go nil responder is `None`. The logger is an `Option<Logger>`. Its output is a
sequence of `LogEvent`s, each naming the sink it went to. `RoundTrip` returns the
responder's result together with a *trace* of `Step`s: log records and the one
hand-off of the request to the responder. This makes "the responder is called
exactly once, between the two log records" something a contract can state.

## Model

| member | source | states |
|---|---|---|
| HmockConfig.DefaultResponder | config.go:35-44 | for every request the built-in responder succeeds with status 200, an empty body, `Content-Type: text/plain; charset=utf-8` and `Content-Length: 0`, and sets no other header |
| HmockConfig.ConfigDefaultShape | config.go:34-46 | the default configuration holds a responder, and it is the built-in one, and it has no logger |
| HmockConfig.WithDefaults | config.go:49-62 | the result always has a responder; with no configurations it is exactly the default configuration; otherwise the first configuration's logger passes through unchanged, its responder is kept when present and replaced by the built-in one when absent |
| HmockConfig.OnlyFirstConsulted | config.go:54 | configurations after the first have no effect on the result |
| HmockConfig.FixedPointIffResolved | config.go:57-61 | defaulting leaves a single configuration unchanged if and only if it already has a responder |
| HmockConfig.WithDefaultsIdempotent | config.go:49-62 | defaulting the result of defaulting changes nothing |
| HmockConfig.ResponderProvenance | config.go:54-59 | the resolved responder is the caller's own or answers every request as the built-in responder does; there is no third source |
| Hmock.RoundTrip | hmock.go:34-52 | the result is the responder's result unchanged, both on success and on error; the responder receives exactly one request, the one given; without a logger nothing is logged; with a logger the trace is a debug "handling HTTP request" record carrying method and URL, then the hand-off, then one record to the same sink that is error-level exactly when the responder failed and carries the error or the status code |
| Hmock.LoggedTripEvents | hmock.go:35-49 | with a logger, one round trip writes exactly two records: the request record, then the outcome record |
| Hmock.LoggerDoesNotChangeResult | hmock.go:35-51 | the result and the responder hand-offs are the same whether or not a logger is configured |
| Hmock.Get | hmock.go:63-65 | a GET through the client is answered by the transport's responder, which receives exactly that one request |
| Hmock.New | hmock.go:55-76 | the built mock keeps the defaulted configuration; its transport has that configuration's responder and logger; its client routes through that transport; one debug "hmock is initialized" record is written if and only if a logger is present |
| Hmock.ClientOf | hmock.go:79-81 | the client returned for a mock built by `New` routes through the mock's transport and its resolved responder |
| Hmock.NewLogsIffLogger | hmock.go:67-69 | `New` writes one record when the first configuration has a logger and none otherwise |
| Hmock.NewClientDelegates | hmock.go:56-65 | every request through the client of `New(configs)` is answered, verbatim, by the responder the configurations resolve to |
| Hmock.DefaultClientAnswersOk | hmock_test.go:48-63 | when no responder is supplied, every request through the client succeeds with 200, an empty body and the two default headers |
| Hmock.ExtendTrace | hmock.go:34-52 | appending one round trip to a trace keeps what the trace held and adds exactly one hand-off, of that request; without a logger it adds no record, with one it adds the request's handling record and then its outcome record |
| Hmock.IssueAll | hmock_test.go:88-106 | successive requests through one client are each answered by the responder on its own; equal requests get equal answers; the responder sees exactly the issued requests, in order, once each; without a logger nothing is written; with one the records are, for each request in turn, its handling record and then its outcome record |
| Hmock.IssueOneLogged | hmock.go:35-49 | through a logged client, one request yields the responder's answer and exactly two records: the request's handling record, then its outcome record |
| HmockScenarios.CustomResponderThroughClient | hmock_test.go:66-107 | with a path-routing responder, with or without a logger, `/users` gives 200 and its body, `/users/create` gives 201 and its body, and any other path gives the "not found" error |
| HmockScenarios.DefaultScenario | hmock_test.go:48-63 | a client built with no configuration, or with an empty one, answers any URL with 200 and an empty body |

## Left out

- `net/http` client dispatch (redirects, the client's request preparation, the `send` plumbing) is not modelled. The client is modelled as handing each request straight to its transport.
- Hmock.Get: returns the transport's error as it is. Go's `http.Client.Get` wraps transport errors in a `*url.Error` naming the operation and URL. That wrapping belongs to `net/http`, not to hmock.
- `slog` handlers, levels and output formatting are left out. A log call becomes a `LogEvent` value appended to the trace.
- Response bodies are streams in Go (`http.NoBody`, `io.NopCloser`). Here a body is the string its stream would yield. Closing a body is not modelled.
- URLs keep only scheme, host and path. `Url.String` concatenates them, so query, fragment and user info are left out. Header keys are not canonicalised.
- A responder returning neither a response nor an error cannot be expressed, because `Result` always holds one of them. In the Go code, such a responder with a logger configured would dereference a nil response at hmock.go:48. The model claims nothing about that case.
- A responder returning both a response and an error is modelled as `Failure(error)`. hmock.go:40-44 checks the error first and returns `nil, err`, discarding the response, so "the responder's result unchanged" in the `Hmock.RoundTrip` row means this encoding.
- HmockConfig.WithDefaults: treats `ConfigDefault` as never reassigned. In Go it is an exported package variable (config.go:34) that `configDefault` reads on every call (config.go:51, config.go:58). A caller who reassigns it changes what `WithDefaults`, `Resolved(WithDefaults(..))`, `Hmock.NewLogsIffLogger`, `Hmock.DefaultClientAnswersOk` and `HmockScenarios.DefaultScenario` would promise. For example, a nil default responder would leave `New()` with no responder, and a default logger would make `New()` write its initialisation record.
- Hmock.IssueAll: responders are pure Dafny functions, so "equal requests get equal answers" shows only that the transport keeps no state of its own between calls. A Go responder is a closure and may keep mutable state. Through one client, such a responder can answer equal requests differently.
- Concurrent calls of `RoundTrip` are not modelled. The transport holds no mutable state, and the model's `RoundTrip` is a pure function.
- The `hmock` struct's `transport` and `cfg` fields have no accessors in the source. They appear only as fields of `Mock`.
