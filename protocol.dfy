// What travels between client and server, above the HTTP transport:
// request errors (slug, field, param, header) and the response envelope.
module Protocol {
  import opened Common

  const AccessDenied := "access_denied"
  const Insufficient := "insufficient"
  const Overflow := "overflow"
  const InvalidValue := "invalid_value"
  const InvalidFormat := "invalid_format"
  const Missing := "missing"
  const NotFound := "not_found"
  const Conflict := "conflict"
  const ActOfGod := "act_of_god"

  datatype RequestError = RequestError(slug: string, field: string, param: string, header: string)

  /** An error about a body field, such as missing `/name`. */
  function FieldError(slug: string, field: string): RequestError {
    RequestError(slug, field, "", "")
  }

  /** An error about a URL parameter, such as not_found `id`. */
  function ParamError(slug: string, param: string): RequestError {
    RequestError(slug, "", param, "")
  }

  /** The one error the server reports for an internal failure. */
  const ServerError := RequestError(ActOfGod, "", "", "")

  /** The one error the server reports for an undecodable body. */
  const InvalidFormatError := RequestError(InvalidFormat, "/", "", "")

  const IdNotFound := ParamError(NotFound, "id")
  const IdConflict := FieldError(Conflict, "/id")

  datatype HttpMethod = HttpGet | HttpPost | HttpPut | HttpDelete

  /** A request as the client builds it: HTTP method, the `{id}` path segment
      (empty for the collection) and the body, if any. */
  datatype Request<R> = Request(verb: HttpMethod, id: string, body: Option<R>)

  /** A response body: the error list and the records of one kind. */
  datatype Response<R> = Response(status: int, errors: seq<RequestError>, results: seq<R>)
}
