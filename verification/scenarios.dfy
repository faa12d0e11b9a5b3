/** The end-to-end scenarios exercised against the client (hmock_test.go). */
module HmockScenarios {
  import opened Wrappers
  import opened Http
  import opened HmockConfig
  import opened Hmock

  /** A caller-supplied responder that routes on the request path. */
  function UsersResponder(req: Request): Result<Response, Error> {
    if req.url.path == "/users" then
      Success(Response(StatusOK, map[], "[{\"name\": \"byterio\"}]"))
    else if req.url.path == "/users/create" then
      Success(Response(StatusCreated, map[], "{\"name\": \"hmock\"}"))
    else
      Failure(Error("not found"))
  }

  function At(path: string): Url {
    Url("http", "example.com", path)
  }

  /** The per-path answers of a custom responder surface unchanged through the client,
      with or without a logger. */
  lemma CustomResponderThroughClient(logger: Option<Logger>, other: string)
    requires other != "/users" && other != "/users/create"
    ensures var c := ClientOf(New([Config(Some(UsersResponder), logger)]).mock);
            && Get(c, At("/users")).result == Success(Response(StatusOK, map[], "[{\"name\": \"byterio\"}]"))
            && Get(c, At("/users/create")).result == Success(Response(StatusCreated, map[], "{\"name\": \"hmock\"}"))
            && Get(c, At(other)).result == Failure(Error("not found"))
  {
  }

  /** A client built with no configuration, or an empty one, answers 200 with an empty body. */
  lemma DefaultScenario(url: Url)
    ensures var r := Get(ClientOf(New([]).mock), url).result;
            r.Success? && r.value.statusCode == StatusOK && r.value.body == ""
    ensures var r := Get(ClientOf(New([Config(None, None)]).mock), url).result;
            r.Success? && r.value.statusCode == StatusOK && r.value.body == ""
  {
    DefaultClientAnswersOk([], url);
    DefaultClientAnswersOk([Config(None, None)], url);
  }
}
