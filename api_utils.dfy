/**
 * oa/api/utils.py, apart from the event handler (see events.dfy):
 * the recursive converter `serialize_to_dict` and the resolution of the
 * credential (the project's OpenAI key) a request may use.
 */
module ApiUtils {
  import opened Wrappers
  import opened PyValues

  // ---------------------------------------------------------------------
  // serialize_to_dict

  /** Attribute names starting with `_` are dropped from an object's `__dict__`. */
  predicate Private(name: string) {
    StartsWith(name, "_")
  }

  predicate IsPublic(name: string) {
    !Private(name)
  }

  /** The attributes `serialize_to_dict` keeps from an object's `__dict__`, in order. */
  function PublicAttrs(attrs: seq<Entry>): seq<Entry> {
    FilterKeys(attrs, IsPublic)
  }

  /** The values `serialize_to_dict` accepts without raising: every value it
    * visits is a primitive, list, dict, object with `__dict__` (only the
    * public attributes are visited) or object with `_asdict`. */
  predicate Serializable(o: Py)
    decreases o
  {
    match o
    case ListVal(items) => forall i :: 0 <= i < |items| ==> Serializable(items[i])
    case DictVal(es) => forall i :: 0 <= i < |es| ==> Serializable(es[i].val)
    case ObjectVal(_, hasDict, attrs, hasAsDict, asDict) =>
      if hasDict then
        forall i :: 0 <= i < |attrs| && !Private(attrs[i].key) ==> Serializable(attrs[i].val)
      else
        hasAsDict && forall i :: 0 <= i < |asDict| ==> Serializable(asDict[i].val)
    case _ => true
  }

  predicate IsPrimitive(o: Py) {
    o.NoneVal? || o.BoolVal? || o.IntVal? || o.FloatVal? || o.StrVal?
  }

  /** The message of the TypeError raised for a value of an unsupported type. */
  function NotSerializable(typeName: string): string {
    "Type <class '" + typeName + "'> not serializable"
  }

  /** Evaluating a comprehension element by element: the first failure, or
    * all the values. */
  function Collect(rs: seq<Result<Py, string>>): (r: Result<seq<Py>, string>)
    ensures r.Success? <==> forall i :: 0 <= i < |rs| ==> rs[i].Success?
    ensures r.Success? ==> |r.value| == |rs| && forall i :: 0 <= i < |rs| ==> rs[i] == Success(r.value[i])
    ensures r.Failure? ==> exists i :: 0 <= i < |rs| && rs[i] == Failure(r.error) && forall j :: 0 <= j < i ==> rs[j].Success?
  {
    if rs == [] then Success([])
    else if rs[0].Failure? then Failure(rs[0].error)
    else
      match Collect(rs[1..])
      case Failure(e) =>
        assert forall j :: 1 <= j < |rs| ==> rs[j] == rs[1..][j - 1];
        Failure(e)
      case Success(vs) => Success([rs[0].value] + vs)
  }

  /** Pairs each key of `es` with the corresponding converted value. */
  function Rekey(es: seq<Entry>, vs: seq<Py>): (r: seq<Entry>)
    requires |es| == |vs|
    ensures |r| == |es| && Keys(r) == Keys(es)
    ensures forall i :: 0 <= i < |r| ==> r[i] == Entry(es[i].key, vs[i])
  {
    seq(|es|, i requires 0 <= i < |es| => Entry(es[i].key, vs[i]))
  }

  /** `serialize_to_dict(obj)`: `Failure(msg)` is the TypeError it raises. */
  function SerializeToDict(o: Py): (r: Result<Py, string>)
    ensures IsPrimitive(o) ==> r == Success(o)
    ensures r.Success? <==> Serializable(o)
    ensures r.Success? ==> Plain(r.value)
    ensures o.ListVal? && r.Success? ==>
      r.value.ListVal? && |r.value.items| == |o.items|
      && forall i :: 0 <= i < |o.items| ==> SerializeToDict(o.items[i]) == Success(r.value.items[i])
    ensures o.DictVal? && r.Success? ==>
      r.value.DictVal? && Keys(r.value.entries) == Keys(o.entries)
      && forall i :: 0 <= i < |o.entries| ==> SerializeToDict(o.entries[i].val) == Success(r.value.entries[i].val)
    ensures o.ObjectVal? && o.hasDict && r.Success? ==>
      r.value.DictVal? && (forall k :: k in Keys(r.value.entries) <==> k in Keys(o.attrs) && !Private(k))
      && Keys(r.value.entries) == Keys(PublicAttrs(o.attrs))
      && forall i :: 0 <= i < |PublicAttrs(o.attrs)| ==>
           SerializeToDict(PublicAttrs(o.attrs)[i].val) == Success(r.value.entries[i].val)
    ensures o.ObjectVal? && !o.hasDict && o.hasAsDict && r.Success? ==>
      r.value.DictVal? && Keys(r.value.entries) == Keys(o.asDict)
      && forall i :: 0 <= i < |o.asDict| ==> SerializeToDict(o.asDict[i].val) == Success(r.value.entries[i].val)
    ensures o.ObjectVal? && !o.hasDict && !o.hasAsDict ==> r == Failure(NotSerializable(o.typeName))
    decreases o, 2
  {
    match o
    case NoneVal => Success(o)
    case BoolVal(_) => Success(o)
    case IntVal(_) => Success(o)
    case FloatVal(_) => Success(o)
    case StrVal(_) => Success(o)
    case ListVal(items) => SerializeList(items, o)
    case DictVal(es) =>
      (match SerializeEntries(es, o)
       case Success(es') => Success(DictVal(es'))
       case Failure(e) => Failure(e))
    case ObjectVal(_, _, _, _, _) => SerializeObject(o)
  }

  /** The list comprehension `[serialize_to_dict(v) for v in items]`. */
  function SerializeList(items: seq<Py>, ghost parent: Py): (r: Result<Py, string>)
    requires forall i :: 0 <= i < |items| ==> items[i] < parent
    ensures r.Success? <==> forall i :: 0 <= i < |items| ==> Serializable(items[i])
    ensures r.Success? ==>
      (r.value.ListVal? && |r.value.items| == |items|
       && forall i :: 0 <= i < |items| ==> SerializeToDict(items[i]) == Success(r.value.items[i]) && Plain(r.value.items[i]))
    decreases parent, 0
  {
    var rs := seq(|items|, i requires 0 <= i < |items| => SerializeToDict(items[i]));
    match Collect(rs)
    case Success(vs) =>
      assert forall i :: 0 <= i < |items| ==> rs[i] == SerializeToDict(items[i]) && Plain(vs[i]);
      Success(ListVal(vs))
    case Failure(e) => Failure(e)
  }

  /** The two object branches: the public part of `__dict__`, else the
    * `_asdict()` result, else the TypeError. */
  function SerializeObject(o: Py): (r: Result<Py, string>)
    requires o.ObjectVal?
    ensures r.Success? <==> Serializable(o)
    ensures r.Success? ==> r.value.DictVal? && Plain(r.value)
    ensures o.hasDict && r.Success? ==>
      (forall k :: k in Keys(r.value.entries) <==> k in Keys(o.attrs) && !Private(k))
      && Keys(r.value.entries) == Keys(PublicAttrs(o.attrs))
      && forall i :: 0 <= i < |PublicAttrs(o.attrs)| ==>
           SerializeToDict(PublicAttrs(o.attrs)[i].val) == Success(r.value.entries[i].val)
    ensures !o.hasDict && o.hasAsDict && r.Success? ==>
      Keys(r.value.entries) == Keys(o.asDict)
      && forall i :: 0 <= i < |o.asDict| ==> SerializeToDict(o.asDict[i].val) == Success(r.value.entries[i].val)
    ensures !o.hasDict && !o.hasAsDict ==> r == Failure(NotSerializable(o.typeName))
    decreases o, 1
  {
    if o.hasDict then
      // the filter runs before the value is converted
      var public := PublicAttrs(o.attrs);
      PublicPart(o, public);
      PublicKeys(o.attrs, public);
      (match SerializeEntries(public, o)
       case Success(es') => Success(DictVal(es'))
       case Failure(e) => Failure(e))
    else if o.hasAsDict then
      // serialize_to_dict(obj._asdict()): the dict branch applied to the result
      (match SerializeEntries(o.asDict, o)
       case Success(es') => Success(DictVal(es'))
       case Failure(e) => Failure(e))
    else
      Failure(NotSerializable(o.typeName))
  }

  /** The public attributes are values inside the object, and the object is
    * serializable exactly when they all are. */
  lemma PublicPart(o: Py, public: seq<Entry>)
    requires o.ObjectVal? && o.hasDict
    requires public == FilterKeys(o.attrs, IsPublic)
    ensures forall i :: 0 <= i < |public| ==> public[i].val < o
    ensures (forall i :: 0 <= i < |public| ==> Serializable(public[i].val)) <==> Serializable(o)
  {
    assert forall i :: 0 <= i < |public| ==> public[i] in o.attrs;
    if !Serializable(o) {
      var j :| 0 <= j < |o.attrs| && !Private(o.attrs[j].key) && !Serializable(o.attrs[j].val);
      assert o.attrs[j] in public;
    }
  }

  lemma PublicKeys(attrs: seq<Entry>, public: seq<Entry>)
    requires public == FilterKeys(attrs, IsPublic)
    ensures forall k :: k in Keys(public) <==> k in Keys(attrs) && !Private(k)
  {
    forall k ensures k in Keys(public) <==> k in Keys(attrs) && !Private(k) {
      FilterKeysKeys(attrs, IsPublic, k);
    }
  }

  /** The dict comprehension `{k: serialize_to_dict(v) for k, v in es}`. */
  function SerializeEntries(es: seq<Entry>, ghost parent: Py): (r: Result<seq<Entry>, string>)
    requires forall i :: 0 <= i < |es| ==> es[i].val < parent
    ensures r.Success? <==> forall i :: 0 <= i < |es| ==> Serializable(es[i].val)
    ensures r.Success? ==>
      (Keys(r.value) == Keys(es)
       && forall i :: 0 <= i < |es| ==> SerializeToDict(es[i].val) == Success(r.value[i].val) && Plain(r.value[i].val))
    decreases parent, 0
  {
    var rs := seq(|es|, i requires 0 <= i < |es| => SerializeToDict(es[i].val));
    match Collect(rs)
    case Success(vs) => Success(Rekey(es, vs))
    case Failure(e) => Failure(e)
  }

  /** A value `serialize_to_dict` produced is converted to itself: applying
    * the converter twice gives the same result as applying it once. */
  lemma {:induction false} PlainIsFixedPoint(p: Py)
    requires Plain(p)
    ensures SerializeToDict(p) == Success(p)
    decreases p
  {
    match p
    case ListVal(items) =>
      forall i | 0 <= i < |items| ensures SerializeToDict(items[i]) == Success(items[i]) {
        PlainIsFixedPoint(items[i]);
      }
      var r := SerializeToDict(p);
      assert r.value.items == items;
    case DictVal(es) =>
      forall i | 0 <= i < |es| ensures SerializeToDict(es[i].val) == Success(es[i].val) {
        PlainIsFixedPoint(es[i].val);
      }
      var r := SerializeToDict(p);
      assert forall i :: 0 <= i < |es| ==> r.value.entries[i] == es[i] by {
        forall i | 0 <= i < |es| ensures r.value.entries[i] == es[i] {
          assert Keys(r.value.entries)[i] == Keys(es)[i];
        }
      }
      assert r.value.entries == es;
    case _ =>
  }

  lemma SerializeIdempotent(o: Py)
    requires SerializeToDict(o).Success?
    ensures SerializeToDict(SerializeToDict(o).value) == SerializeToDict(o)
  {
    PlainIsFixedPoint(SerializeToDict(o).value);
  }

  // ---------------------------------------------------------------------
  // credential resolution: aget_user_project and aget_openai_client

  /** `APIError(message, status)`. */
  datatype ApiError = ApiError(message: string, status: int)

  datatype ProjectRow = ProjectRow(id: int, user: nat, key: string, name: Option<string>)

  /** A shared link with its project joined in (`select_related('project')`).
    * The token column is a UUID; the row holds its canonical text. */
  datatype SharedLinkRow = SharedLinkRow(token: string, assistantId: string, project: ProjectRow, name: Option<string>)

  /** Why resolving the client fails: an `APIError`, or the `ValidationError`
    * the UUID column raises for a token that is not a UUID. The latter is
    * not an `APIError` and leaves the view uncaught. */
  datatype ClientError = Api(error: ApiError) | InvalidUuid(token: string)

  /** What resolution reads from the request: the authenticated user if any,
    * the session's `selected_project_id`, the `X-Token` header and the
    * `token` query parameter. */
  datatype ClientRequest = ClientRequest(
    user: Option<nat>,
    sessionProjectId: Option<string>,
    headerToken: Option<string>,
    queryToken: Option<string>)

  predicate IsDigit(c: char) { '0' <= c <= '9' }

  function DigitsValue(s: string): int
    requires forall i :: 0 <= i < |s| ==> IsDigit(s[i])
  {
    if s == [] then 0 else DigitsValue(s[..|s| - 1]) * 10 + (s[|s| - 1] as int - '0' as int)
  }

  /** `int(s)` on an optional sign followed by decimal digits. */
  function ParseInt(s: string): (r: Option<int>)
    ensures r.Some? ==> s != ""
  {
    var sign := if s != [] && (s[0] == '-' || s[0] == '+') then 1 else 0;
    var digits := s[sign..];
    if digits != [] && forall i :: 0 <= i < |digits| ==> IsDigit(digits[i]) then
      Some(if sign == 1 && s[0] == '-' then -DigitsValue(digits) else DigitsValue(digits))
    else None
  }

  /** `Project.objects.get(id=id, user=user)`. */
  function FindProject(projects: seq<ProjectRow>, id: int, user: nat): (r: Option<ProjectRow>)
    ensures r.Some? ==> r.value in projects && r.value.id == id && r.value.user == user
    ensures r.None? ==> forall p :: p in projects ==> !(p.id == id && p.user == user)
  {
    if projects == [] then None
    else if projects[0].id == id && projects[0].user == user then Some(projects[0])
    else FindProject(projects[1..], id, user)
  }

  /** No row before index `i` belongs to `user`. */
  predicate NoneOwnedBefore(projects: seq<ProjectRow>, i: int, user: nat)
    requires 0 <= i <= |projects|
  {
    forall j :: 0 <= j < i ==> projects[j].user != user
  }

  /** `Project.objects.filter(user=user).afirst()`, the rows in primary-key order. */
  function FirstProjectOf(projects: seq<ProjectRow>, user: nat): (r: Option<ProjectRow>)
    ensures r.Some? ==> r.value.user == user && exists i :: 0 <= i < |projects| && projects[i] == r.value && NoneOwnedBefore(projects, i, user)
    ensures r.None? <==> forall p :: p in projects ==> p.user != user
  {
    if projects == [] then None
    else if projects[0].user == user then Some(projects[0])
    else
      var r := FirstProjectOf(projects[1..], user);
      if r.Some? then
        var i :| 0 <= i < |projects[1..]| && projects[1..][i] == r.value && NoneOwnedBefore(projects[1..], i, user);
        assert projects[i + 1] == r.value && NoneOwnedBefore(projects, i + 1, user);
        r
      else r
  }

  /** `SharedLink.objects.get(token=token)`: the presented text is first
    * parsed as a UUID (`parseUuid` gives its canonical text, or `None` when
    * it is not one, which raises), then compared with the stored tokens. */
  function FindLink(links: seq<SharedLinkRow>, token: string, parseUuid: string -> Option<string>)
    : (r: Result<Option<SharedLinkRow>, ClientError>)
    ensures r.Failure? <==> parseUuid(token).None?
    ensures r.Failure? ==> r.error == InvalidUuid(token)
    ensures r.Success? && r.value.Some? ==> r.value.value in links && r.value.value.token == parseUuid(token).value
    ensures r.Success? && r.value.None? <==> parseUuid(token).Some? && forall l :: l in links ==> l.token != parseUuid(token).value
  {
    match parseUuid(token)
    case None => Failure(InvalidUuid(token))
    case Some(canonical) => Success(FindToken(links, canonical))
  }

  /** The first link whose stored token is `canonical`. */
  function FindToken(links: seq<SharedLinkRow>, canonical: string): (r: Option<SharedLinkRow>)
    ensures r.Some? ==> r.value in links && r.value.token == canonical
    ensures r.None? <==> forall l :: l in links ==> l.token != canonical
  {
    if links == [] then None
    else if links[0].token == canonical then Some(links[0])
    else FindToken(links[1..], canonical)
  }

  /** `aget_user_project(user, project_id)`. An unknown project id goes through
    * `aget_object_or_404`, whose APIError keeps the default status 500. */
  function UserProject(projects: seq<ProjectRow>, user: nat, projectId: Option<string>): (r: Result<ProjectRow, ApiError>)
    ensures r.Success? ==> r.value in projects && r.value.user == user
    ensures r == Failure(ApiError("Invalid project id.", 400)) <==>
      projectId.Some? && projectId.value != "" && ParseInt(projectId.value).None?
    ensures r == Failure(ApiError("Project not found", 500)) <==>
      projectId.Some? && projectId.value != "" && ParseInt(projectId.value).Some?
      && FindProject(projects, ParseInt(projectId.value).value, user).None?
    ensures r == Failure(ApiError("No OpenAI key found.", 404)) <==>
      (projectId.None? || projectId.value == "") && forall p :: p in projects ==> p.user != user
    ensures projectId.Some? && projectId.value != "" && r.Success? ==> Some(r.value.id) == ParseInt(projectId.value)
    ensures (projectId.None? || projectId.value == "") && r.Success? ==> Some(r.value) == FirstProjectOf(projects, user)
  {
    if projectId.Some? && projectId.value != "" then
      match ParseInt(projectId.value)
      case None => Failure(ApiError("Invalid project id.", 400))
      case Some(id) =>
        (match FindProject(projects, id, user)
         case None => Failure(ApiError("Project not found", 500))
         case Some(p) => Success(p))
    else
      match FirstProjectOf(projects, user)
      case None => Failure(ApiError("No OpenAI key found.", 404))
      case Some(p) => Success(p)
  }

  /** The token an anonymous request presents: `X-Token` or else `?token=`. */
  function RequestToken(req: ClientRequest): Option<string> {
    OrStr(req.headerToken, req.queryToken)
  }

  /** `aget_openai_client(request)`: the API key the client is built with. */
  function ResolveClientKey(req: ClientRequest, projects: seq<ProjectRow>, links: seq<SharedLinkRow>,
                            parseUuid: string -> Option<string>): (r: Result<string, ClientError>)
    ensures req.user.Some? ==>
      var selected := UserProject(projects, req.user.value, req.sessionProjectId);
      (r.Success? <==> selected.Success?)
      && (r.Success? ==> r.value == selected.value.key)
      && (r.Failure? ==> r.error == Api(selected.error))
    ensures r.Success? && req.user.None? ==>
      RequestToken(req).Some? && parseUuid(RequestToken(req).value).Some?
      && exists l :: l in links && l.token == parseUuid(RequestToken(req).value).value && l.project.key == r.value
    ensures r == Failure(Api(ApiError("Authentication required.", 401))) <==>
      req.user.None? && RequestToken(req).None?
    ensures r == Failure(InvalidUuid(RequestToken(req).GetOr(""))) <==>
      req.user.None? && RequestToken(req).Some? && parseUuid(RequestToken(req).value).None?
    ensures r == Failure(Api(ApiError("Invalid token.", 403))) <==>
      req.user.None? && RequestToken(req).Some? && parseUuid(RequestToken(req).value).Some?
      && forall l :: l in links ==> l.token != parseUuid(RequestToken(req).value).value
    ensures r.Failure? && r.error.Api? && r.error.error.status in {401, 403} ==> req.user.None?
    ensures r.Failure? && r.error.InvalidUuid? ==> req.user.None?
    ensures r.Failure? && r.error.Api? && r.error.error.status in {400, 404, 500} ==> req.user.Some?
  {
    match req.user
    case Some(u) =>
      (match UserProject(projects, u, req.sessionProjectId)
       case Success(p) => Success(p.key)
       case Failure(e) => Failure(Api(e)))
    case None =>
      match RequestToken(req)
      case Some(token) =>
        (match FindLink(links, token, parseUuid)
         case Failure(e) => Failure(e)
         case Success(found) =>
           (match found
            case Some(link) => Success(link.project.key)
            case None => Failure(Api(ApiError("Invalid token.", 403)))))
      case None => Failure(Api(ApiError("Authentication required.", 401)))
  }

  /** For an anonymous request the `X-Token` header, when non-empty, decides
    * alone: the query parameter is then never consulted. */
  lemma HeaderTokenTakesPrecedence(req: ClientRequest, q: Option<string>, projects: seq<ProjectRow>, links: seq<SharedLinkRow>,
                                   parseUuid: string -> Option<string>)
    requires req.user.None? && req.headerToken.Some? && req.headerToken.value != ""
    ensures ResolveClientKey(req, projects, links, parseUuid) == ResolveClientKey(req.(queryToken := q), projects, links, parseUuid)
  {
  }

  /** Two spellings of the same UUID (upper case, no hyphens, braces) resolve
    * alike: only the token's canonical form is compared. */
  lemma TokenSpellingIrrelevant(req: ClientRequest, other: string, projects: seq<ProjectRow>, links: seq<SharedLinkRow>,
                                parseUuid: string -> Option<string>)
    requires req.user.None? && RequestToken(req).Some? && other != ""
    requires parseUuid(other).Some? && parseUuid(other) == parseUuid(RequestToken(req).value)
    ensures ResolveClientKey(req, projects, links, parseUuid) == ResolveClientKey(req.(headerToken := Some(other)), projects, links, parseUuid)
  {
  }
}
