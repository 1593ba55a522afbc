// The outgoing HTTP requests that stored tools and external functions make,
// as plans: the transport itself is not modelled.

module Http {
  import opened Wrappers
  import opened PyValues

  datatype Header = Header(name: string, value: string)

  /** A request about to be sent: its method, its target (any Python value,
    * since a caller-supplied URL is not checked), its headers, and its
    * arguments either as query parameters or as a JSON body. */
  datatype HttpRequest = HttpRequest(
    httpMethod: string,
    url: Py,
    headers: seq<Header>,
    params: Option<seq<Entry>>,
    json: Option<seq<Entry>>)

  /** What an `execute` returns, or the exception it raises. */
  datatype CallResult = Returned(value: Py) | Raised(exceptionType: string, message: string)

  /** `headers = {}; if bearer_token: headers["Authorization"] = f"Bearer {bearer_token}"`. */
  method BuildHeaders(bearerToken: Option<string>) returns (headers: seq<Header>)
    ensures bearerToken.Some? && bearerToken.value != "" <==> headers != []
    ensures headers != [] ==> headers == [Header("Authorization", "Bearer " + bearerToken.value)]
  {
    headers := [];
    if bearerToken.Some? && bearerToken.value != "" {
      headers := headers + [Header("Authorization", "Bearer " + bearerToken.value)];
    }
  }

  /** The arguments go as query parameters for GET and as a JSON body for
    * every other method. */
  function ArgumentsPlacement(httpMethod: string, url: Py, headers: seq<Header>, args: seq<Entry>): (r: HttpRequest)
    ensures r.httpMethod == httpMethod && r.url == url && r.headers == headers
    ensures httpMethod == "GET" ==> r.params == Some(args) && r.json.None?
    ensures httpMethod != "GET" ==> r.json == Some(args) && r.params.None?
  {
    if httpMethod == "GET" then HttpRequest("GET", url, headers, Some(args), None)
    else HttpRequest(httpMethod, url, headers, None, Some(args))
  }

  /** The target as a Python value: the string, or `None`. */
  function UrlValue(url: Option<string>): (r: Py)
    ensures Truthy(r) <==> url.Some? && url.value != ""
  {
    if url.Some? then StrVal(url.value) else NoneVal
  }
}
