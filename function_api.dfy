// The functions API: creating a local function with its defaults, the
// partial update, listing, and the access rule for a function's executions.

module FunctionApi {
  import opened Wrappers
  import opened PyValues
  import FunctionModels

  /** A stored local function as this API reads and writes it; `projects`
    * holds the uuids of the projects it is linked to. */
  datatype LocalFunction = LocalFunction(
    uuid: string,
    name: string,
    slug: string,
    description: string,
    argumentSchema: seq<Entry>,
    code: string,
    extraContext: seq<Entry>,
    resultType: string,
    version: int,
    projects: set<string>)

  // ---------------------------------------------------------------------
  // Creation
  // ---------------------------------------------------------------------

  /** A creation payload as sent: only `name` is mandatory. */
  datatype CreatePayload = CreatePayload(
    name: string,
    description: Option<string>,
    argumentSchema: Option<seq<Entry>>,
    code: Option<string>,
    extraContext: Option<seq<Entry>>,
    resultType: Option<string>,
    version: Option<int>)

  /** The validated creation schema, every field filled. */
  datatype FunctionCreate = FunctionCreate(
    name: string,
    description: string,
    argumentSchema: seq<Entry>,
    code: string,
    extraContext: seq<Entry>,
    resultType: string,
    version: int)

  /** Validation fills each omitted field with its default: an empty
    * description, schema, code and context, JSON results, version 1. */
  function WithDefaults(p: CreatePayload): (r: FunctionCreate)
    ensures r.name == p.name
    ensures r.description == (if p.description.Some? then p.description.value else "")
    ensures r.argumentSchema == (if p.argumentSchema.Some? then p.argumentSchema.value else [])
    ensures r.code == (if p.code.Some? then p.code.value else "")
    ensures r.extraContext == (if p.extraContext.Some? then p.extraContext.value else [])
    ensures r.resultType == (if p.resultType.Some? then p.resultType.value else "application/json")
    ensures r.version == (if p.version.Some? then p.version.value else 1)
  {
    FunctionCreate(p.name, p.description.GetOr(""), p.argumentSchema.GetOr([]), p.code.GetOr(""),
                   p.extraContext.GetOr([]), p.resultType.GetOr("application/json"), p.version.GetOr(1))
  }

  /** The row `create_function` writes: the validated fields, a new uuid,
    * the slug `save` derives from the name, and a link to the caller's
    * project. */
  function Created(c: FunctionCreate, uuid: string, project: string, slugify: string -> string): LocalFunction {
    LocalFunction(uuid, c.name, FunctionModels.SavedSlug("", c.name, slugify), c.description, c.argumentSchema,
                  c.code, c.extraContext, c.resultType, c.version, {project})
  }

  /** A function created without a version starts at version 1, and is
    * linked to exactly the creating project. */
  lemma CreatedDefaults(p: CreatePayload, uuid: string, project: string, slugify: string -> string)
    requires p.version.None? && p.resultType.None?
    ensures var f := Created(WithDefaults(p), uuid, project, slugify);
      f.version == 1 && f.resultType == "application/json" && f.projects == {project} && f.slug == slugify(p.name)
  {
  }

  // ---------------------------------------------------------------------
  // Partial update
  // ---------------------------------------------------------------------

  /** An update payload: every field may be left out, and `version` cannot
    * be given at all. */
  datatype UpdatePayload = UpdatePayload(
    name: Option<string>,
    description: Option<string>,
    argumentSchema: Option<seq<Entry>>,
    code: Option<string>,
    extraContext: Option<seq<Entry>>,
    resultType: Option<string>)

  /** The fields after the update: a given field replaces the stored one, an
    * omitted field keeps it. */
  function Patched(f: LocalFunction, p: UpdatePayload): (r: LocalFunction)
    ensures r.uuid == f.uuid && r.slug == f.slug && r.version == f.version && r.projects == f.projects
    ensures p == UpdatePayload(None, None, None, None, None, None) ==> r == f
  {
    f.(name := p.name.GetOr(f.name),
       description := p.description.GetOr(f.description),
       argumentSchema := p.argumentSchema.GetOr(f.argumentSchema),
       code := p.code.GetOr(f.code),
       extraContext := p.extraContext.GetOr(f.extraContext),
       resultType := p.resultType.GetOr(f.resultType))
  }

  /** Applying the same update twice is applying it once. */
  lemma PatchIdempotent(f: LocalFunction, p: UpdatePayload)
    ensures Patched(Patched(f, p), p) == Patched(f, p)
  {
  }

  /** A loaded function whose fields the view overwrites one by one. */
  class FunctionObject {
    var fields: LocalFunction

    constructor (f: LocalFunction)
      ensures fields == f
    {
      fields := f;
    }

    /** The field-by-field assignments of `update_function`, then `save`,
      * which fills an empty slug from the (new) name. */
    method ApplyUpdate(p: UpdatePayload, slugify: string -> string)
      modifies this
      ensures fields == Saved(Patched(old(fields), p), slugify)
    {
      if p.name.Some? {
        fields := fields.(name := p.name.value);
      }
      if p.description.Some? {
        fields := fields.(description := p.description.value);
      }
      if p.argumentSchema.Some? {
        fields := fields.(argumentSchema := p.argumentSchema.value);
      }
      if p.code.Some? {
        fields := fields.(code := p.code.value);
      }
      if p.extraContext.Some? {
        fields := fields.(extraContext := p.extraContext.value);
      }
      if p.resultType.Some? {
        fields := fields.(resultType := p.resultType.value);
      }
      fields := fields.(slug := FunctionModels.SavedSlug(fields.slug, fields.name, slugify));
    }
  }

  function Saved(f: LocalFunction, slugify: string -> string): LocalFunction {
    f.(slug := FunctionModels.SavedSlug(f.slug, f.name, slugify))
  }

  datatype UpdateResponse =
    | NotFound
    | SaveFailed(message: string)
    | Updated(stored: LocalFunction)

  /** The index of the function with that uuid linked to the project. */
  function FindLinked(rows: seq<LocalFunction>, uuid: string, project: string): (r: Option<nat>)
    ensures r.Some? ==> r.value < |rows| && rows[r.value].uuid == uuid && project in rows[r.value].projects
    ensures r.None? ==> forall i :: 0 <= i < |rows| ==> !(rows[i].uuid == uuid && project in rows[i].projects)
  {
    if rows == [] then None
    else if rows[0].uuid == uuid && project in rows[0].projects then Some(0)
    else
      var r := FindLinked(rows[1..], uuid, project);
      assert forall i :: 1 <= i < |rows| ==> rows[1..][i - 1] == rows[i];
      if r.None? then None else Some(r.value + 1)
  }

  /** `update_function`: the answer and the table afterwards; a failing
    * save answers 400 and writes nothing. */
  function UpdateSpec(rows: seq<LocalFunction>, uuid: string, project: string, p: UpdatePayload,
                      slugify: string -> string, saveError: Option<string>): (UpdateResponse, seq<LocalFunction>)
  {
    match FindLinked(rows, uuid, project)
    case None => (NotFound, rows)
    case Some(i) =>
      if saveError.Some? then (SaveFailed(saveError.value), rows)
      else
        var f := Saved(Patched(rows[i], p), slugify);
        (Updated(f), rows[i := f])
  }

  /** The function table. */
  class FunctionTable {
    var rows: seq<LocalFunction>

    constructor (rows0: seq<LocalFunction>)
      ensures rows == rows0
    {
      rows := rows0;
    }

    method UpdateFunction(uuid: string, project: string, p: UpdatePayload, slugify: string -> string, saveError: Option<string>)
      returns (response: UpdateResponse)
      modifies this
      ensures (response, rows) == UpdateSpec(old(rows), uuid, project, p, slugify, saveError)
    {
      var found := FindLinked(rows, uuid, project);
      if found.None? {
        return NotFound;
      }
      var target := new FunctionObject(rows[found.value]);
      target.ApplyUpdate(p, slugify);
      if saveError.Some? {
        return SaveFailed(saveError.value);
      }
      rows := rows[found.value := target.fields];
      response := Updated(target.fields);
    }
  }

  /** Every field the payload gives holds the given value in `after`, and
    * every field it leaves out holds the value it had in `before`. */
  predicate Overwrites(before: LocalFunction, after: LocalFunction, p: UpdatePayload) {
    after.name == p.name.GetOr(before.name) &&
    after.description == p.description.GetOr(before.description) &&
    after.argumentSchema == p.argumentSchema.GetOr(before.argumentSchema) &&
    after.code == p.code.GetOr(before.code) &&
    after.extraContext == p.extraContext.GetOr(before.extraContext) &&
    after.resultType == p.resultType.GetOr(before.resultType)
  }

  /** An unknown uuid, or one not linked to the caller's project, answers
    * "Function not found." and changes nothing; otherwise only that one
    * function changes, its version, uuid and project links never, every
    * field the payload gives is overwritten and every field left out of
    * the payload keeps its stored value. */
  lemma UpdateTouchesOnlyTarget(rows: seq<LocalFunction>, uuid: string, project: string, p: UpdatePayload,
                                slugify: string -> string, saveError: Option<string>)
    ensures var (resp, rows') := UpdateSpec(rows, uuid, project, p, slugify, saveError);
      |rows'| == |rows| &&
      (resp.NotFound? <==> forall i :: 0 <= i < |rows| ==> !(rows[i].uuid == uuid && project in rows[i].projects)) &&
      (resp.Updated? <==> saveError.None? && exists i :: 0 <= i < |rows| && rows[i].uuid == uuid && project in rows[i].projects) &&
      (!resp.Updated? ==> rows' == rows) &&
      (forall i :: 0 <= i < |rows| ==>
         rows'[i].version == rows[i].version && rows'[i].uuid == rows[i].uuid && rows'[i].projects == rows[i].projects &&
         (rows'[i] != rows[i] ==> rows[i].uuid == uuid && project in rows[i].projects) &&
         (p.name.None? ==> rows'[i].name == rows[i].name) &&
         (p.description.None? ==> rows'[i].description == rows[i].description) &&
         (p.argumentSchema.None? ==> rows'[i].argumentSchema == rows[i].argumentSchema) &&
         (p.code.None? ==> rows'[i].code == rows[i].code) &&
         (p.extraContext.None? ==> rows'[i].extraContext == rows[i].extraContext) &&
         (p.resultType.None? ==> rows'[i].resultType == rows[i].resultType)) &&
      (resp.Updated? ==>
         (exists i :: 0 <= i < |rows| && rows[i].uuid == uuid && project in rows[i].projects &&
                      rows'[i] == resp.stored && Overwrites(rows[i], resp.stored, p)))
  {
    var found := FindLinked(rows, uuid, project);
    if found.Some? && saveError.None? {
      var i := found.value;
      assert rows[i].uuid == uuid && project in rows[i].projects;
    }
  }

  // ---------------------------------------------------------------------
  // Listing
  // ---------------------------------------------------------------------

  /** One entry of `list_functions`. */
  datatype FunctionSummary = FunctionSummary(uuid: string, functionType: string, name: string, slug: string, resultType: string)

  /** `list_functions`: every local function, of every project, reported
    * with type "local". */
  method ListFunctions(rows: seq<LocalFunction>) returns (functions: seq<FunctionSummary>)
    ensures |functions| == |rows|
    ensures forall i :: 0 <= i < |rows| ==>
      functions[i] == FunctionSummary(rows[i].uuid, "local", rows[i].name, rows[i].slug, rows[i].resultType)
  {
    functions := [];
    var i := 0;
    while i < |rows|
      invariant 0 <= i <= |rows|
      invariant |functions| == i
      invariant forall j :: 0 <= j < i ==>
        functions[j] == FunctionSummary(rows[j].uuid, "local", rows[j].name, rows[j].slug, rows[j].resultType)
    {
      var f := rows[i];
      functions := functions + [FunctionSummary(f.uuid, "local", f.name, f.slug, f.resultType)];
      i := i + 1;
    }
  }

  // ---------------------------------------------------------------------
  // Executions
  // ---------------------------------------------------------------------

  /** A stored function of any kind; a local one carries its project links. */
  datatype FunctionRow = FunctionRow(id: nat, slug: string, localProjects: Option<set<string>>)

  datatype ThreadRow = ThreadRow(openaiId: Option<string>, metadata: Py)

  /** A recorded execution; `time` is its timestamp, rendered as is. */
  datatype ExecutionRow = ExecutionRow(
    id: nat,
    functionId: Option<nat>,
    time: Option<int>,
    arguments: Py,
    statusCode: Option<string>,
    executedVersion: Option<int>,
    errorMessage: Option<string>,
    thread: Option<ThreadRow>)

  datatype ExecutionView = ExecutionView(
    id: nat,
    time: Option<int>,
    arguments: Py,
    statusCode: Option<string>,
    executedVersion: Option<int>,
    errorMessage: Option<string>,
    threadId: Option<string>,
    threadMetadata: Py)

  function ViewOf(e: ExecutionRow): ExecutionView {
    ExecutionView(e.id, e.time, e.arguments, e.statusCode, e.executedVersion, e.errorMessage,
                  if e.thread.Some? then e.thread.value.openaiId else None,
                  if e.thread.Some? then e.thread.value.metadata else NoneVal)
  }

  function FindBySlug(functions: seq<FunctionRow>, slug: string): (r: Option<FunctionRow>)
    ensures r.Some? ==> r.value in functions && r.value.slug == slug
    ensures r.None? ==> forall f :: f in functions ==> f.slug != slug
  {
    if functions == [] then None
    else if functions[0].slug == slug then Some(functions[0])
    else FindBySlug(functions[1..], slug)
  }

  /** The executions of one function, in the order given. */
  function ExecutionsOf(executions: seq<ExecutionRow>, functionId: nat): (r: seq<ExecutionView>)
    ensures |r| <= |executions|
  {
    if executions == [] then []
    else (if executions[0].functionId == Some(functionId) then [ViewOf(executions[0])] else [])
         + ExecutionsOf(executions[1..], functionId)
  }

  /** `get_function_executions`: `executions` is the table in the database's
    * `-time` order. An unknown slug, or a local function not linked to the
    * caller's project, gives an empty list. */
  method GetFunctionExecutions(functions: seq<FunctionRow>, executions: seq<ExecutionRow>, slug: string, project: string)
    returns (r: seq<ExecutionView>)
    ensures var f := FindBySlug(functions, slug);
      r == if f.None? || (f.value.localProjects.Some? && project !in f.value.localProjects.value) then []
           else ExecutionsOf(executions, f.value.id)
  {
    var found := FindBySlug(functions, slug);
    if found.None? {
      return [];
    }
    var fn := found.value;
    if fn.localProjects.Some? && project !in fn.localProjects.value {
      return [];
    }
    r := [];
    var i := 0;
    while i < |executions|
      invariant 0 <= i <= |executions|
      invariant r + ExecutionsOf(executions[i..], fn.id) == ExecutionsOf(executions, fn.id)
    {
      ExecutionsStep(executions, i, fn.id, r);
      if executions[i].functionId == Some(fn.id) {
        r := r + [ViewOf(executions[i])];
      }
      i := i + 1;
    }
    assert executions[i..] == [];
  }

  lemma ExecutionsStep(executions: seq<ExecutionRow>, i: nat, functionId: nat, r: seq<ExecutionView>)
    requires i < |executions|
    ensures r + ExecutionsOf(executions[i..], functionId)
         == (r + if executions[i].functionId == Some(functionId) then [ViewOf(executions[i])] else [])
            + ExecutionsOf(executions[i + 1..], functionId)
  {
    assert executions[i..][1..] == executions[i + 1..];
  }

  /** The list holds exactly the executions of that function. */
  lemma {:induction false} ExecutionsExactly(executions: seq<ExecutionRow>, functionId: nat)
    ensures forall v :: v in ExecutionsOf(executions, functionId) <==>
      exists e :: e in executions && e.functionId == Some(functionId) && v == ViewOf(e)
  {
    if executions != [] {
      ExecutionsExactly(executions[1..], functionId);
      forall v
        ensures v in ExecutionsOf(executions, functionId) <==>
          exists e :: e in executions && e.functionId == Some(functionId) && v == ViewOf(e)
      {
        if exists e :: e in executions && e.functionId == Some(functionId) && v == ViewOf(e) {
          var e :| e in executions && e.functionId == Some(functionId) && v == ViewOf(e);
          if e != executions[0] {
            assert e in executions[1..];
          }
        }
      }
    }
  }

  predicate NewestFirst(vs: seq<ExecutionView>) {
    forall i, j :: 0 <= i < j < |vs| && vs[i].time.Some? && vs[j].time.Some? ==> vs[i].time.value >= vs[j].time.value
  }

  predicate RowsNewestFirst(es: seq<ExecutionRow>) {
    forall i, j :: 0 <= i < j < |es| && es[i].time.Some? && es[j].time.Some? ==> es[i].time.value >= es[j].time.value
  }

  /** A time bound every row meets, every listed execution meets. */
  lemma {:induction false} ExecutionsTimesBounded(executions: seq<ExecutionRow>, functionId: nat, t: int)
    requires forall k :: 0 <= k < |executions| && executions[k].time.Some? ==> executions[k].time.value <= t
    ensures forall v :: v in ExecutionsOf(executions, functionId) && v.time.Some? ==> v.time.value <= t
  {
    if executions != [] {
      var rest := executions[1..];
      assert forall k :: 0 <= k < |rest| ==> rest[k] == executions[k + 1];
      ExecutionsTimesBounded(rest, functionId, t);
    }
  }

  /** Filtering keeps the table's order: newest first in, newest first out. */
  lemma {:induction false} ExecutionsKeepOrder(executions: seq<ExecutionRow>, functionId: nat)
    requires RowsNewestFirst(executions)
    ensures NewestFirst(ExecutionsOf(executions, functionId))
  {
    if executions != [] {
      var rest := executions[1..];
      assert forall k :: 0 <= k < |rest| ==> rest[k] == executions[k + 1];
      ExecutionsKeepOrder(rest, functionId);
      var tail := ExecutionsOf(rest, functionId);
      if executions[0].functionId == Some(functionId) && executions[0].time.Some? {
        ExecutionsTimesBounded(rest, functionId, executions[0].time.value);
        var r := [ViewOf(executions[0])] + tail;
        forall i, j | 0 <= i < j < |r| && r[i].time.Some? && r[j].time.Some?
          ensures r[i].time.value >= r[j].time.value
        {
          assert r[j] == tail[j - 1];
          if i > 0 {
            assert r[i] == tail[i - 1];
          }
        }
      }
    }
  }
}
