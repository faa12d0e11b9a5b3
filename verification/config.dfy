/** Configuration of the mock transport and its defaulting (config.go). */
module HmockConfig {
  import opened Wrappers
  import opened Http

  /** A responder resolves a request to a response or to an error, standing in for a server. */
  type Responder = Request -> Result<Response, Error>

  /** An opaque structured-log sink; only its identity matters to the transport. */
  datatype Logger = Logger(name: string)

  /** `responder` None is Go's nil responder; `logger` None disables logging. */
  datatype Config = Config(responder: Option<Responder>, logger: Option<Logger>)

  /** A configuration ready for use: its responder is present. */
  ghost predicate Resolved(c: Config) {
    c.responder.Some?
  }

  /** The header set the built-in responder attaches to every response. */
  const DefaultHeader: Header :=
    map["Content-Type" := ["text/plain; charset=utf-8"], "Content-Length" := ["0"]]

  /** The built-in responder: every request succeeds with 200, an empty body and
      a plain-text content type whose declared length matches the body. */
  function DefaultResponder(req: Request): (r: Result<Response, Error>)
    ensures r.Success?
    ensures r.value.statusCode == StatusOK
    ensures r.value.body == ""
    ensures HeaderGet(r.value.header, "Content-Type") == "text/plain; charset=utf-8"
    ensures HeaderGet(r.value.header, "Content-Length") == "0"
    ensures r.value.header.Keys == {"Content-Type", "Content-Length"}
  {
    Success(Response(StatusOK, DefaultHeader, ""))
  }

  /** The all-defaults configuration: the built-in responder and no logger. */
  const ConfigDefault: Config := Config(Some(DefaultResponder), None)

  /** Go's `configDefault(config...)`: the variadic argument is a sequence; only its
      first element is consulted, and a missing responder is filled in. */
  function WithDefaults(configs: seq<Config>): (cfg: Config)
    ensures Resolved(cfg)
    ensures |configs| == 0 ==> cfg == ConfigDefault
    ensures |configs| > 0 ==> cfg.logger == configs[0].logger
    ensures |configs| > 0 && configs[0].responder.Some? ==> cfg.responder == configs[0].responder
    ensures |configs| > 0 && configs[0].responder.None? ==> cfg.responder == ConfigDefault.responder
  {
    if |configs| < 1 then ConfigDefault
    else
      var c := configs[0];
      if c.responder.None? then c.(responder := ConfigDefault.responder) else c
  }

  /** The default configuration carries the built-in responder and no logger. */
  lemma ConfigDefaultShape()
    ensures Resolved(ConfigDefault)
    ensures ConfigDefault.logger.None?
    ensures forall req :: ConfigDefault.responder.value(req) == DefaultResponder(req)
  {
  }

  /** Only the first configuration matters: whatever follows it is ignored. */
  lemma OnlyFirstConsulted(configs: seq<Config>, rest: seq<Config>)
    requires |configs| > 0
    ensures WithDefaults(configs + rest) == WithDefaults(configs[..1])
  {
    assert (configs + rest)[0] == configs[0];
  }

  /** Defaulting changes a single configuration exactly when it lacks a responder. */
  lemma FixedPointIffResolved(c: Config)
    ensures WithDefaults([c]) == c <==> Resolved(c)
  {
  }

  /** Defaulting twice is the same as defaulting once. */
  lemma WithDefaultsIdempotent(configs: seq<Config>)
    ensures WithDefaults([WithDefaults(configs)]) == WithDefaults(configs)
  {
    FixedPointIffResolved(WithDefaults(configs));
  }

  /** Whatever responder a resolved configuration ends up with, it is either the
      caller's own or the built-in one, and never anything else. */
  lemma ResponderProvenance(configs: seq<Config>, req: Request)
    ensures var r := WithDefaults(configs).responder.value;
            (|configs| > 0 && configs[0].responder.Some? && r == configs[0].responder.value)
            || r(req) == DefaultResponder(req)
  {
  }
}
