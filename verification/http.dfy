/** The parts of the host HTTP library the mock transport touches, as plain values.
    Only the fields that the transport reads or the responders write are kept. */
module Http {

  const StatusOK: int := 200
  const StatusCreated: int := 201

  /** A request URL, split into the parts a responder may look at. */
  datatype Url = Url(scheme: string, host: string, path: string) {

    /** The URL's textual form, as the transport logs it. */
    function String(): string {
      scheme + "://" + host + path
    }
  }

  /** `verb` is the HTTP method (GET, POST, ...). */
  datatype Request = Request(verb: string, url: Url)

  /** A header map: each canonical key carries a list of values. */
  type Header = map<string, seq<string>>

  /** The first value stored under `key`, or the empty string when there is none. */
  function HeaderGet(h: Header, key: string): string {
    if key in h && |h[key]| > 0 then h[key][0] else ""
  }

  /** A response: the body is the full content of its stream. */
  datatype Response = Response(statusCode: int, header: Header, body: string)

  /** An error value returned by a responder; compared by identity of its contents. */
  datatype Error = Error(message: string)
}
