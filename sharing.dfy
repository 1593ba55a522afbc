// Sharing an assistant: the view that lists an assistant's shared links
// and creates new ones, at most five per assistant and project.

module Sharing {
  import opened Wrappers
  import opened PyValues
  import ApiUtils

  const MaxLinksPerAssistant := 5

  /** What the view reads from the request. */
  datatype ShareRequest = ShareRequest(
    user: nat,
    isXhr: bool,
    httpMethod: string,
    sessionProjectId: Option<string>,
    queryProjectId: Option<string>)

  /** A link as the GET answer lists it. */
  datatype LinkView = LinkView(token: string, url: string, name: Option<string>)

  datatype ShareResponse =
    | BadRequest(text: string)
    | StatusMessage(httpStatus: int, status: string, message: string)
    | LinkCreated(token: string, url: string)
    | LinkList(links: seq<LinkView>)
    | NoLinks

  /** The parts the view takes from outside: the uuid of a new link, whether
    * its creation raises, and the URL builders. */
  datatype ShareEnv = ShareEnv(
    freshToken: string,
    createError: Option<string>,
    absoluteUri: string -> string,
    sharedThreadRoute: string -> string)

  /** `SharedLink.objects.filter(assistant_id=…, project=…)`, in table order. */
  function LinksFor(links: seq<ApiUtils.SharedLinkRow>, assistantId: string, projectId: int): (r: seq<ApiUtils.SharedLinkRow>)
    ensures |r| <= |links|
    ensures forall l :: l in r <==> l in links && l.assistantId == assistantId && l.project.id == projectId
  {
    if links == [] then []
    else
      (if links[0].assistantId == assistantId && links[0].project.id == projectId then [links[0]] else [])
      + LinksFor(links[1..], assistantId, projectId)
  }

  lemma {:induction false} LinksForAppend(links: seq<ApiUtils.SharedLinkRow>, l: ApiUtils.SharedLinkRow, assistantId: string, projectId: int)
    ensures LinksFor(links + [l], assistantId, projectId)
         == LinksFor(links, assistantId, projectId) + (if l.assistantId == assistantId && l.project.id == projectId then [l] else [])
  {
    if links == [] {
      assert [] + [l] == [l];
    } else {
      assert (links + [l])[1..] == links[1..] + [l];
      LinksForAppend(links[1..], l, assistantId, projectId);
    }
  }

  /** The selected project: the session's choice, else the query's, parsed
    * with `int` and looked up among the user's projects. */
  function SelectedProject(req: ShareRequest, projects: seq<ApiUtils.ProjectRow>): (r: Result<ApiUtils.ProjectRow, string>)
    ensures r.Success? ==> r.value in projects && r.value.user == req.user
    ensures r.Success? ==>
      OrStr(req.sessionProjectId, req.queryProjectId).Some? &&
      ApiUtils.ParseInt(OrStr(req.sessionProjectId, req.queryProjectId).value).Some? &&
      r.value.id == ApiUtils.ParseInt(OrStr(req.sessionProjectId, req.queryProjectId).value).value
    ensures r.Success? || r == Failure("No project selected.") || r == Failure("Invalid project selected.")
    ensures r == Failure("No project selected.") <==> OrStr(req.sessionProjectId, req.queryProjectId).None?
    ensures r == Failure("Invalid project selected.") <==>
      OrStr(req.sessionProjectId, req.queryProjectId).Some? &&
      (ApiUtils.ParseInt(OrStr(req.sessionProjectId, req.queryProjectId).value).None? ||
       ApiUtils.FindProject(projects, ApiUtils.ParseInt(OrStr(req.sessionProjectId, req.queryProjectId).value).value, req.user).None?)
  {
    match OrStr(req.sessionProjectId, req.queryProjectId)
    case None => Failure("No project selected.")
    case Some(pid) =>
      match ApiUtils.ParseInt(pid)
      case None => Failure("Invalid project selected.")
      case Some(id) =>
        match ApiUtils.FindProject(projects, id, req.user)
        case None => Failure("Invalid project selected.")
        case Some(p) => Success(p)
  }

  function ViewOf(l: ApiUtils.SharedLinkRow, env: ShareEnv): LinkView {
    LinkView(l.token, env.absoluteUri("/shared/" + l.token + "/"), l.name)
  }

  function ViewsOf(links: seq<ApiUtils.SharedLinkRow>, env: ShareEnv): (r: seq<LinkView>)
    ensures |r| == |links|
    ensures forall i :: 0 <= i < |links| ==> r[i] == ViewOf(links[i], env)
  {
    if links == [] then [] else [ViewOf(links[0], env)] + ViewsOf(links[1..], env)
  }

  /** `share_assistant`: the answer and the link table afterwards. */
  function Share(req: ShareRequest, projects: seq<ApiUtils.ProjectRow>, links: seq<ApiUtils.SharedLinkRow>,
                 assistantId: string, env: ShareEnv): (ShareResponse, seq<ApiUtils.SharedLinkRow>)
  {
    if !req.isXhr then (BadRequest("Invalid request"), links)
    else match SelectedProject(req, projects)
      case Failure(msg) => (StatusMessage(400, "error", msg), links)
      case Success(project) =>
        var existing := LinksFor(links, assistantId, project.id);
        if req.httpMethod == "POST" then
          if |existing| >= MaxLinksPerAssistant then
            (StatusMessage(200, "info", "You can only create up to 5 links per assistant."), links)
          else if env.createError.Some? then
            (StatusMessage(500, "error", env.createError.value), links)
          else
            var link := ApiUtils.SharedLinkRow(env.freshToken, assistantId, project, None);
            (LinkCreated(env.freshToken, env.absoluteUri(env.sharedThreadRoute(env.freshToken))), links + [link])
        else if req.httpMethod == "GET" then
          (if existing == [] then NoLinks else LinkList(ViewsOf(existing, env)), links)
        else (StatusMessage(400, "error", "Invalid request method."), links)
  }

  /** The shared-link table, which the view extends in place. */
  class LinkTable {
    var rows: seq<ApiUtils.SharedLinkRow>

    constructor (rows0: seq<ApiUtils.SharedLinkRow>)
      ensures rows == rows0
    {
      rows := rows0;
    }

    /** The view as the source runs it, against this table. */
    method ShareAssistant(req: ShareRequest, projects: seq<ApiUtils.ProjectRow>, assistantId: string, env: ShareEnv)
      returns (response: ShareResponse)
      modifies this
      ensures (response, rows) == Share(req, projects, old(rows), assistantId, env)
    {
      if !req.isXhr {
        return BadRequest("Invalid request");
      }
      var selected := SelectedProject(req, projects);
      if selected.Failure? {
        return StatusMessage(400, "error", selected.error);
      }
      var project := selected.value;
      if req.httpMethod == "POST" {
        var linksCount := |LinksFor(rows, assistantId, project.id)|;
        if linksCount >= MaxLinksPerAssistant {
          return StatusMessage(200, "info", "You can only create up to 5 links per assistant.");
        }
        if env.createError.Some? {
          return StatusMessage(500, "error", env.createError.value);
        }
        rows := rows + [ApiUtils.SharedLinkRow(env.freshToken, assistantId, project, None)];
        response := LinkCreated(env.freshToken, env.absoluteUri(env.sharedThreadRoute(env.freshToken)));
      } else if req.httpMethod == "GET" {
        var links := LinksFor(rows, assistantId, project.id);
        response := if links == [] then NoLinks else LinkList(ViewsOf(links, env));
      } else {
        response := StatusMessage(400, "error", "Invalid request method.");
      }
    }
  }

  // ---------------------------------------------------------------------
  // Properties
  // ---------------------------------------------------------------------

  /** One call adds at most one link, only on a successful POST, only when
    * fewer than five exist for that assistant and project, and it belongs
    * to them. Every other call leaves the table as it was. */
  lemma ShareAddsAtMostOne(req: ShareRequest, projects: seq<ApiUtils.ProjectRow>, links: seq<ApiUtils.SharedLinkRow>,
                           assistantId: string, env: ShareEnv)
    ensures var (resp, links') := Share(req, projects, links, assistantId, env);
      (links' == links && !resp.LinkCreated?) ||
      (resp.LinkCreated? && req.isXhr && req.httpMethod == "POST" &&
       SelectedProject(req, projects).Success? &&
       |LinksFor(links, assistantId, SelectedProject(req, projects).value.id)| < MaxLinksPerAssistant &&
       links' == links + [ApiUtils.SharedLinkRow(env.freshToken, assistantId, SelectedProject(req, projects).value, None)])
  {
  }

  /** A POST when five links already exist creates nothing and answers with
    * the info status. */
  lemma PostAtLimitRefused(req: ShareRequest, projects: seq<ApiUtils.ProjectRow>, links: seq<ApiUtils.SharedLinkRow>,
                           assistantId: string, env: ShareEnv)
    requires req.isXhr && req.httpMethod == "POST" && SelectedProject(req, projects).Success?
    requires |LinksFor(links, assistantId, SelectedProject(req, projects).value.id)| >= MaxLinksPerAssistant
    ensures Share(req, projects, links, assistantId, env)
         == (StatusMessage(200, "info", "You can only create up to 5 links per assistant."), links)
  {
  }

  /** A GET lists exactly the links of that assistant and project. */
  lemma GetListsExactly(req: ShareRequest, projects: seq<ApiUtils.ProjectRow>, links: seq<ApiUtils.SharedLinkRow>,
                        assistantId: string, env: ShareEnv)
    requires req.isXhr && req.httpMethod == "GET" && SelectedProject(req, projects).Success?
    ensures var (resp, links') := Share(req, projects, links, assistantId, env);
      var pid := SelectedProject(req, projects).value.id;
      links' == links &&
      (resp.NoLinks? <==> forall l :: l in links ==> !(l.assistantId == assistantId && l.project.id == pid)) &&
      (resp.LinkList? ==>
         (|resp.links| == |LinksFor(links, assistantId, pid)| &&
          forall v :: v in resp.links ==> exists l :: l in links && l.assistantId == assistantId && l.project.id == pid && v.token == l.token))
  {
    var pid := SelectedProject(req, projects).value.id;
    var existing := LinksFor(links, assistantId, pid);
    if existing != [] {
      assert existing[0] in existing;
      var views := ViewsOf(existing, env);
      forall v | v in views
        ensures exists l :: l in links && l.assistantId == assistantId && l.project.id == pid && v.token == l.token
      {
        var i :| 0 <= i < |views| && views[i] == v;
        assert existing[i] in existing;
      }
    }
  }

  /** One call of the view: its request, the assistant in the URL and what
    * the environment does during it. */
  datatype ShareCall = ShareCall(req: ShareRequest, assistantId: string, env: ShareEnv)

  /** The link table after a series of calls, each one run to completion
    * before the next begins. */
  function ShareMany(projects: seq<ApiUtils.ProjectRow>, links: seq<ApiUtils.SharedLinkRow>, calls: seq<ShareCall>)
    : seq<ApiUtils.SharedLinkRow>
    decreases |calls|
  {
    if calls == [] then links
    else
      var c := calls[0];
      ShareMany(projects, Share(c.req, projects, links, c.assistantId, c.env).1, calls[1..])
  }

  /** Any series of calls, by any users, for any assistants, with any methods,
    * tokens and failures, never takes an assistant and project that start at
    * or below five links over five. */
  lemma {:induction false} LinkLimitHolds(projects: seq<ApiUtils.ProjectRow>, links: seq<ApiUtils.SharedLinkRow>,
                                          calls: seq<ShareCall>, assistantId: string, projectId: int)
    requires |LinksFor(links, assistantId, projectId)| <= MaxLinksPerAssistant
    ensures |LinksFor(ShareMany(projects, links, calls), assistantId, projectId)| <= MaxLinksPerAssistant
    decreases |calls|
  {
    if calls != [] {
      var c := calls[0];
      var links' := Share(c.req, projects, links, c.assistantId, c.env).1;
      ShareAddsAtMostOne(c.req, projects, links, c.assistantId, c.env);
      if links' != links {
        var project := SelectedProject(c.req, projects).value;
        var l := ApiUtils.SharedLinkRow(c.env.freshToken, c.assistantId, project, None);
        LinksForAppend(links, l, assistantId, projectId);
        LinksForAppend(links, l, c.assistantId, project.id);
      }
      LinkLimitHolds(projects, links', calls[1..], assistantId, projectId);
    }
  }
}
