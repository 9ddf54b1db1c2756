/**
 * Requests as the interceptors see them, and a record of what an interceptor
 * did with one: the calls it made, in order, and the outcome it produced.
 */
module Http {
  import opened KeycloakTypes

  /** Header names to values (`HttpHeaders`, one value per name). */
  type Headers = map<string, string>

  datatype HttpRequest = HttpRequest(url: string, headers: Headers)

  /** Why a request chain failed: an HTTP failure, or an error raised by the session service. */
  datatype ChainFailure = Http(failure: HttpFailure) | Session(error: KeycloakError)

  /** What a request chain produced: a response event, or an error. */
  datatype HttpResult = Delivered(event: string) | Errored(failure: ChainFailure)

  /** One call an interceptor makes: pass a request to the next handler, or force a token refresh. */
  datatype Call = Handle(request: HttpRequest) | ForceRefresh

  /** The calls an interceptor made and the result it returned. */
  datatype Run = Run(calls: seq<Call>, result: HttpResult)

  /** How many times the next handler was invoked. */
  function HandleCount(calls: seq<Call>): nat {
    if calls == [] then 0 else (if calls[0].Handle? then 1 else 0) + HandleCount(calls[1..])
  }

  /** How many forced refreshes were requested. */
  function RefreshCount(calls: seq<Call>): nat {
    if calls == [] then 0 else (if calls[0].ForceRefresh? then 1 else 0) + RefreshCount(calls[1..])
  }
}
