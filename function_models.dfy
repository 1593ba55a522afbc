// Functions an assistant can call: the fields every kind shares, the local
// kind that runs stored code, and the external kind that calls an HTTP
// endpoint.

module FunctionModels {
  import opened Wrappers
  import opened PyValues
  import opened Http

  /** The fields every stored function has. */
  class StoredFunction {
    var name: string
    var slug: string
    var description: string
    var argumentSchema: Py

    constructor (name0: string, slug0: string, description0: string, argumentSchema0: Py)
      ensures name == name0 && slug == slug0 && description == description0 && argumentSchema == argumentSchema0
    {
      name, slug, description, argumentSchema := name0, slug0, description0, argumentSchema0;
    }

    /** `save`: an empty slug is filled from the name before the row is
      * written; a non-empty slug is left alone. */
    method Save(slugify: string -> string)
      modifies this
      ensures slug == SavedSlug(old(slug), name, slugify)
      ensures name == old(name) && description == old(description) && argumentSchema == old(argumentSchema)
    {
      if slug == "" {
        slug := slugify(name);
      }
    }

    /** `get_definition`: the function in the assistants' format, with the
      * argument schema as its parameters. */
    function GetDefinition(): (r: Py)
      reads this
      ensures r.DictVal? && Keys(r.entries) == ["name", "description", "parameters"]
      ensures Lookup(r.entries, "name") == Some(StrVal(name))
      ensures Lookup(r.entries, "description") == Some(StrVal(description))
      ensures Lookup(r.entries, "parameters") == Some(argumentSchema)
    {
      var d := [Entry("name", StrVal(name)), Entry("description", StrVal(description)), Entry("parameters", argumentSchema)];
      assert Lookup(d[2..], "parameters") == Some(argumentSchema);
      assert Lookup(d[1..], "parameters") == Lookup(d[2..], "parameters");
      DictVal(d)
    }
  }

  /** The slug a save leaves behind. */
  function SavedSlug(slug: string, name: string, slugify: string -> string): string {
    if slug == "" then slugify(name) else slug
  }

  /** A non-empty slug survives any save, and saving twice gives the slug
    * saving once gives. */
  lemma SaveKeepsSlug(slug: string, name: string, slugify: string -> string)
    ensures slug != "" ==> SavedSlug(slug, name, slugify) == slug
    ensures slug == "" ==> SavedSlug(slug, name, slugify) == slugify(name)
    ensures SavedSlug(SavedSlug(slug, name, slugify), name, slugify) == SavedSlug(slug, name, slugify)
  {
  }

  // ---------------------------------------------------------------------
  // Local functions
  // ---------------------------------------------------------------------

  /** What running the stored code does: it finishes with its final local
    * variables, or raises. */
  datatype ExecOutcome = Finished(locals: seq<Entry>) | ExecRaised(message: string)

  datatype LocalResponse = LocalResponse(
    functionType: string,
    functionName: string,
    resultType: string,
    result: Option<seq<Entry>>,
    errorMessage: Option<string>,
    statusCode: int)

  /** The environment the code runs in: `{'kwargs': kwargs}` updated with
    * the extra context. */
  function ExecEnvironment(kwargs: seq<Entry>, extraContext: seq<Entry>): seq<Entry> {
    DictUpdate([Entry("kwargs", DictVal(kwargs))], extraContext)
  }

  /** Extra-context keys win, even over `kwargs`; otherwise `kwargs` holds the
    * call's arguments and nothing else is bound. */
  lemma ExtraContextOverrides(kwargs: seq<Entry>, extraContext: seq<Entry>, k: string)
    requires UniqueKeys(extraContext)
    ensures Lookup(ExecEnvironment(kwargs, extraContext), k) ==
      if HasKey(extraContext, k) then Lookup(extraContext, k)
      else if k == "kwargs" then Some(DictVal(kwargs))
      else None
  {
    DictUpdateLookup([Entry("kwargs", DictVal(kwargs))], extraContext, k);
  }

  /** A name that both starts and ends with `__`. */
  predicate IsDunder(k: string) {
    StartsWith(k, "__") && EndsWith(k, "__")
  }

  predicate NotDunder(k: string) {
    !IsDunder(k)
  }

  /** `LocalAPIFunction.execute`: runs the code in its environment and
    * shapes the answer. Building the `JsonResponse` encodes it, so final
    * variables holding a value JSON cannot encode (a module the code
    * imported, a function it defined) make `execute` itself raise that
    * TypeError: `Failure(message)`. */
  method LocalExecute(slug: string, resultType: string, kwargs: seq<Entry>, extraContext: seq<Entry>,
                      exec: seq<Entry> -> ExecOutcome) returns (r: Result<LocalResponse, string>)
    ensures r.Success? ==> r.value.functionType == "local" && r.value.functionName == slug && r.value.resultType == resultType
    ensures var outcome := exec(ExecEnvironment(kwargs, extraContext));
      (outcome.ExecRaised? ==>
         r.Success? && r.value.statusCode == 400 && r.value.result.None? && r.value.errorMessage == Some(outcome.message)) &&
      (outcome.Finished? ==>
         (r.Failure? <==> exists e :: e in outcome.locals && !IsDunder(e.key) && !Plain(e.val)) &&
         (r.Failure? ==> exists t :: r.error == NotJsonSerializable(t)) &&
         (r.Success? ==>
            r.value.statusCode == 200 && r.value.errorMessage.None? && r.value.result.Some? &&
            forall e :: e in r.value.result.value <==> e in outcome.locals && !IsDunder(e.key)))
  {
    var localVars := [Entry("kwargs", DictVal(kwargs))];
    localVars := DictUpdate(localVars, extraContext);
    var statusCode, result, errorMessage := 200, None, None;
    match exec(localVars) {
      case ExecRaised(message) =>
        statusCode := 400;
        errorMessage := Some(message);
      case Finished(locals) =>
        result := Some(FilterKeys(locals, NotDunder));
    }
    if result.Some? {
      var unencodable := FirstUnencodableEntries(result.value, DictVal(result.value));
      if unencodable.Some? {
        return Failure(NotJsonSerializable(unencodable.value));
      }
    }
    r := Success(LocalResponse("local", slug, resultType, result, errorMessage, statusCode));
  }

  // ---------------------------------------------------------------------
  // External functions
  // ---------------------------------------------------------------------

  /** What the HTTP client does with the request: an answer (its
    * `Content-Type` header if any, what `.json()` gives, and the raw
    * content), an error status, a transport error, or an exception of any
    * other type raised inside the client (a `TypeError` for a `None` URL). */
  datatype HttpOutcome =
    | Answered(contentType: Option<string>, json: Result<Py, string>, content: Py)
    | StatusRaised(message: string)
    | RequestError(message: string)
    | OtherRaised(exceptionType: string, message: string)

  /** What the plan of `ExternalAPIFunction.execute` promises about the
    * request: the given method; the Bearer header exactly when a token is
    * set; GET goes to the `url` argument (else the stored endpoint) with
    * query parameters, every other method to the stored endpoint with a
    * JSON body; and the arguments are exactly the others than `url`. */
  ghost predicate PlannedRequest(endpoint: Option<string>, httpMethod: string, bearerToken: Option<string>, kwargs: seq<Entry>,
                           req: HttpRequest)
  {
    req.httpMethod == httpMethod &&
    (bearerToken.Some? && bearerToken.value != "" <==> req.headers != []) &&
    (req.headers != [] ==> req.headers == [Header("Authorization", "Bearer " + bearerToken.value)]) &&
    (httpMethod == "GET" ==> req.url == Lookup(kwargs, "url").GetOr(UrlValue(endpoint)) && req.params.Some? && req.json.None?) &&
    (httpMethod != "GET" ==> req.url == UrlValue(endpoint) && req.json.Some? && req.params.None?) &&
    (forall e :: e in (if httpMethod == "GET" then req.params.value else req.json.value) <==> e in kwargs && e.key != "url")
  }

  /** The first half of `ExternalAPIFunction.execute`: the headers, the target
    * and the arguments; a `ValueError` when there is no target. */
  method PlanExternalRequest(endpoint: Option<string>, httpMethod: string, bearerToken: Option<string>, kwargs: seq<Entry>)
    returns (r: Result<HttpRequest, string>)
    ensures r.Failure? <==> !Truthy(Lookup(kwargs, "url").GetOr(UrlValue(endpoint)))
    ensures r.Failure? ==> r.error == "No endpoint URL provided."
    ensures r.Success? ==> PlannedRequest(endpoint, httpMethod, bearerToken, kwargs, r.value)
  {
    var headers := BuildHeaders(bearerToken);
    var (url, rest) := DictPop(kwargs, "url", UrlValue(endpoint));
    if !Truthy(url) {
      return Failure("No endpoint URL provided.");
    }
    if httpMethod == "GET" {
      r := Success(ArgumentsPlacement("GET", url, headers, rest));
    } else {
      r := Success(ArgumentsPlacement(httpMethod, UrlValue(endpoint), headers, rest));
    }
  }

  /** The second half: a JSON answer is decoded, any other answer returned
    * as raw content; an error status, and any exception that is not a
    * transport error, propagates, and a transport error becomes a
    * `RuntimeError`. */
  function ExternalResult(outcome: HttpOutcome): (r: CallResult)
    ensures outcome.RequestError? ==> r == Raised("RuntimeError", "Request failed: " + outcome.message)
    ensures outcome.StatusRaised? ==> r == Raised("HTTPStatusError", outcome.message)
    ensures outcome.OtherRaised? ==> r == Raised(outcome.exceptionType, outcome.message)
    ensures outcome.Answered? && !Contains(outcome.contentType.GetOr(""), "application/json") ==> r == Returned(outcome.content)
    ensures outcome.Answered? && Contains(outcome.contentType.GetOr(""), "application/json") ==>
      (r.Returned? <==> outcome.json.Success?) && (r.Returned? ==> r.value == outcome.json.value)
  {
    match outcome
    case RequestError(message) => Raised("RuntimeError", "Request failed: " + message)
    case StatusRaised(message) => Raised("HTTPStatusError", message)
    case OtherRaised(exceptionType, message) => Raised(exceptionType, message)
    case Answered(contentType, json, content) =>
      if Contains(contentType.GetOr(""), "application/json") then
        (match json
         case Success(v) => Returned(v)
         case Failure(message) => Raised("JSONDecodeError", message))
      else Returned(content)
  }

  /** `ExternalAPIFunction.execute`: plan, send, shape. */
  method ExternalExecute(endpoint: Option<string>, httpMethod: string, bearerToken: Option<string>, kwargs: seq<Entry>,
                         send: HttpRequest -> HttpOutcome) returns (r: CallResult, sent: Option<HttpRequest>)
    ensures sent.None? <==> !Truthy(Lookup(kwargs, "url").GetOr(UrlValue(endpoint)))
    ensures sent.None? ==> r == Raised("ValueError", "No endpoint URL provided.")
    ensures sent.Some? ==> PlannedRequest(endpoint, httpMethod, bearerToken, kwargs, sent.value)
    ensures sent.Some? ==> r == ExternalResult(send(sent.value))
  {
    var plan := PlanExternalRequest(endpoint, httpMethod, bearerToken, kwargs);
    if plan.Failure? {
      return Raised("ValueError", plan.error), None;
    }
    sent := Some(plan.value);
    r := ExternalResult(send(plan.value));
  }
}
