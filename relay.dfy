/**
 * The assistant-run relay: `stream_responses.event_stream` of oa/api/views.py
 * and oa/main/views.py. It runs an upstream assistant stream through a
 * handler, drains the shared queue into `data: …` server-sent-event frames,
 * answers `requires_action` with one tool output per tool call and resumes
 * the run on a fresh handler that shares the queue.
 *
 * The upstream stream is an input: a sequence of events, each firing at most
 * one handler callback, and an optional failure raised after the last one.
 * The function registry, `json.dumps` and `reverse` are parameters.
 */
module Relay {
  import opened Wrappers
  import opened PyValues
  import opened Events
  import ApiUtils

  /** `json.loads(tool_call.function.arguments)`: the parsed value, or the
    * message of the decoding error. */
  datatype Args = Parsed(value: Py) | Malformed(message: string)

  datatype ToolCall = ToolCall(id: string, name: string, arguments: Args)

  /** Instantiating a registered class with the arguments and running its
    * `main`: the value it returns, or the message of what it raised. */
  datatype Outcome = Returned(value: Py) | Raised(message: string)

  /** `{"tool_call_id": …, "output": …}`. */
  datatype ToolOutput = ToolOutput(toolCallId: string, output: string)

  /** An upstream event. The first four fire the handler callback of the same
    * name; a `requires_action` event carries the stream the run resumes with
    * once its tool outputs are submitted. */
  datatype Event =
    | MessageCreatedEvent
    | TextDeltaEvent(delta: Option<string>, snapshot: seq<SnapshotAnnotation>)
    | MessageDoneEvent
    | ImageFileDoneEvent(fileId: string)
    | RequiresAction(runId: string, actionType: string, calls: seq<ToolCall>, resumed: Stream)
    | OtherEvent(name: string)

  /** The events of one upstream stream and what it raises after them, if anything. */
  datatype Stream = Stream(events: seq<Event>, failure: Option<string>)

  /** What the relay is given besides the stream: the handler's token, the
    * image route, `FUNCTION_IMPLEMENTATIONS` and `json.dumps`. */
  datatype Context = Context(
    token: Option<string>,
    imageRoute: string -> string,
    registry: map<string, Py -> Outcome>,
    dumps: Py -> string)

  const SubmitToolOutputs: string := "submit_tool_outputs"

  predicate IsSubmit(e: Event) {
    e.RequiresAction? && e.actionType == SubmitToolOutputs
  }

  /** The handler callback the SDK fires for an event, if any. */
  function CallbackOf(e: Event): (r: Option<Callback>)
    ensures r.Some? ==> !r.value.OnEnd?
    ensures e.RequiresAction? || e.OtherEvent? ==> r.None?
  {
    match e
    case MessageCreatedEvent => Some(OnMessageCreated)
    case TextDeltaEvent(delta, snapshot) => Some(OnTextDelta(delta, snapshot))
    case MessageDoneEvent => Some(OnMessageDone)
    case ImageFileDoneEvent(fileId) => Some(OnImageFileDone(fileId))
    case _ => None
  }

  /** The callbacks a run of events fires, in order. */
  function Callbacks(es: seq<Event>): (cbs: seq<Callback>)
    ensures forall i :: 0 <= i < |cbs| ==> !cbs[i].OnEnd?
    ensures |cbs| <= |es|
  {
    if es == [] then []
    else
      (match CallbackOf(es[0]) case Some(cb) => [cb] case None => []) + Callbacks(es[1..])
  }

  // ---------------------------------------------------------------------
  // Tool dispatch

  function ErrorOutput(dumps: Py -> string, message: string): string {
    dumps(DictVal([Entry("error", StrVal(message))]))
  }

  function NotFound(name: string): string {
    "Function " + name + " not found"
  }

  function ExecutionError(name: string, message: string): string {
    "Error executing function " + name + ": " + message
  }

  /** The output of one call whose arguments parsed. Encoding the result with
    * `json.dumps` happens inside the same `try`, so a result holding an
    * object is reported like a raise. */
  function CallOutput(name: string, args: Py, ctx: Context): (out: string)
    ensures name !in ctx.registry ==> out == ErrorOutput(ctx.dumps, NotFound(name))
    ensures name in ctx.registry && ctx.registry[name](args).Raised? ==>
      out == ErrorOutput(ctx.dumps, ExecutionError(name, ctx.registry[name](args).message))
    ensures name in ctx.registry && ctx.registry[name](args).Returned? && Plain(ctx.registry[name](args).value) ==>
      out == ctx.dumps(ctx.registry[name](args).value)
    ensures name in ctx.registry && ctx.registry[name](args).Returned? && !Plain(ctx.registry[name](args).value) ==>
      exists t :: out == ErrorOutput(ctx.dumps, ExecutionError(name, NotJsonSerializable(t)))
  {
    if name !in ctx.registry then ErrorOutput(ctx.dumps, NotFound(name))
    else match ctx.registry[name](args)
      case Raised(m) => ErrorOutput(ctx.dumps, ExecutionError(name, m))
      case Returned(v) =>
        match FirstUnencodable(v)
        case Some(t) => ErrorOutput(ctx.dumps, ExecutionError(name, NotJsonSerializable(t)))
        case None => ctx.dumps(v)
  }

  /** Call `k` is the first whose arguments are not JSON, failing with `m`. */
  predicate FirstMalformed(calls: seq<ToolCall>, k: int, m: string) {
    0 <= k < |calls| && calls[k].arguments == Malformed(m) && forall j :: 0 <= j < k ==> calls[j].arguments.Parsed?
  }

  lemma FirstMalformedShift(calls: seq<ToolCall>, k: int, m: string)
    requires calls != [] && calls[0].arguments.Parsed? && FirstMalformed(calls[1..], k, m)
    ensures FirstMalformed(calls, k + 1, m)
  {
    assert forall j :: 1 <= j < k + 1 ==> calls[j] == calls[1..][j - 1];
  }

  /** The `tool_outputs` of one batch; `DispatchOutputs` says what it is. */
  function Dispatch(calls: seq<ToolCall>, ctx: Context): Result<seq<ToolOutput>, string> {
    if calls == [] then Success([])
    else match calls[0].arguments
      case Malformed(m) => Failure(m)
      case Parsed(args) =>
        var out := ToolOutput(calls[0].id, CallOutput(calls[0].name, args, ctx));
        match Dispatch(calls[1..], ctx)
        case Failure(m) => Failure(m)
        case Success(outs) => Success([out] + outs)
  }

  /** One output per call, in call order, each echoing its call's id, or the
    * decoding error of the first call whose arguments are not JSON (it
    * aborts the batch). */
  lemma {:induction false} DispatchOutputs(calls: seq<ToolCall>, ctx: Context)
    ensures var r := Dispatch(calls, ctx);
      (r.Success? <==> forall i :: 0 <= i < |calls| ==> calls[i].arguments.Parsed?)
      && (r.Success? ==>
           |r.value| == |calls| &&
           forall i :: 0 <= i < |calls| ==>
             r.value[i].toolCallId == calls[i].id
             && r.value[i].output == CallOutput(calls[i].name, calls[i].arguments.value, ctx))
      && (r.Failure? ==> exists k :: FirstMalformed(calls, k, r.error))
  {
    if calls != [] {
      if calls[0].arguments.Malformed? {
        assert FirstMalformed(calls, 0, calls[0].arguments.message);
      } else {
        DispatchOutputs(calls[1..], ctx);
        assert forall i :: 1 <= i < |calls| ==> calls[i] == calls[1..][i - 1];
        var rest := Dispatch(calls[1..], ctx);
        if rest.Failure? {
          var k :| FirstMalformed(calls[1..], k, rest.error);
          FirstMalformedShift(calls, k, rest.error);
        }
      }
    }
  }

  /** The `for tool_call in tool_calls` loop. */
  method DispatchBatch(calls: seq<ToolCall>, ctx: Context) returns (r: Result<seq<ToolOutput>, string>)
    ensures r == Dispatch(calls, ctx)
  {
    DispatchOutputs(calls, ctx);
    var toolOutputs: seq<ToolOutput> := [];
    var i := 0;
    while i < |calls|
      invariant 0 <= i <= |calls|
      invariant forall j :: 0 <= j < i ==> calls[j].arguments.Parsed?
      invariant |toolOutputs| == i
      invariant forall j :: 0 <= j < i ==>
        toolOutputs[j] == ToolOutput(calls[j].id, CallOutput(calls[j].name, calls[j].arguments.value, ctx))
    {
      var call := calls[i];
      if call.arguments.Malformed? {
        r := Failure(call.arguments.message);
        assert Dispatch(calls, ctx).Failure?;
        ghost var k :| FirstMalformed(calls, k, Dispatch(calls, ctx).error);
        assert k == i;
        return;
      }
      var functionArgs := call.arguments.value;
      var outputJson: string;
      if call.name in ctx.registry {
        match ctx.registry[call.name](functionArgs) {
          case Raised(m) =>
            outputJson := ErrorOutput(ctx.dumps, ExecutionError(call.name, m));
          case Returned(v) =>
            var unencodable := FirstUnencodable(v);
            if unencodable.Some? {
              outputJson := ErrorOutput(ctx.dumps, ExecutionError(call.name, NotJsonSerializable(unencodable.value)));
            } else {
              outputJson := ctx.dumps(v);
            }
        }
      } else {
        outputJson := ErrorOutput(ctx.dumps, NotFound(call.name));
      }
      toolOutputs := toolOutputs + [ToolOutput(call.id, outputJson)];
      i := i + 1;
    }
    r := Success(toolOutputs);
    ghost var d := Dispatch(calls, ctx).value;
    forall j | 0 <= j < |calls| ensures d[j] == toolOutputs[j] {
      assert d[j] == ToolOutput(d[j].toolCallId, d[j].output);
    }
    assert d == toolOutputs;
  }

  // ---------------------------------------------------------------------
  // Frames

  /** `f"data: {json.dumps(data)}\n\n"`. */
  function Frame(dumps: Py -> string, r: Record): string {
    "data: " + dumps(RecordToPy(r)) + "\n\n"
  }

  /** One frame per record, in order. */
  function FramesOf(dumps: Py -> string, rs: seq<Record>): seq<string> {
    if rs == [] then [] else [Frame(dumps, rs[0])] + FramesOf(dumps, rs[1..])
  }

  lemma {:induction false} FramesOfAppend(dumps: Py -> string, a: seq<Record>, b: seq<Record>)
    ensures FramesOf(dumps, a + b) == FramesOf(dumps, a) + FramesOf(dumps, b)
  {
    if a == [] {
      assert a + b == b;
    } else {
      assert (a + b)[1..] == a[1..] + b;
      FramesOfAppend(dumps, a[1..], b);
    }
  }

  lemma FramesOfOne(dumps: Py -> string, r: Record)
    ensures FramesOf(dumps, [r]) == [Frame(dumps, r)]
  {
    assert [r][1..] == [];
  }

  /** What the post-stream drain sends of the queue: every record up to and
    * including the first `end_of_stream`; what follows it stays unsent. */
  function UpToEnd(rs: seq<Record>): seq<Record> {
    if rs == [] then []
    else if rs[0].EndOfStream? then [rs[0]]
    else [rs[0]] + UpToEnd(rs[1..])
  }

  /** The final drain sends a prefix of the queue with no `end_of_stream`
    * before its last record. */
  lemma {:induction false} UpToEndPrefix(rs: seq<Record>)
    ensures var r := UpToEnd(rs);
      |r| <= |rs| && r == rs[..|r|] && (forall i :: 0 <= i < |r| - 1 ==> !r[i].EndOfStream?)
  {
    if rs != [] && !rs[0].EndOfStream? {
      UpToEndPrefix(rs[1..]);
      var rest := UpToEnd(rs[1..]);
      var r := [rs[0]] + rest;
      assert UpToEnd(rs) == r;
      assert r == rs[..|r|] by {
        assert rest == rs[1..][..|rest|];
        assert rs[..|r|] == [rs[0]] + rs[1..][..|rest|];
      }
      forall i | 0 <= i < |r| - 1
        ensures !r[i].EndOfStream?
      {
        if i > 0 {
          assert r[i] == rest[i - 1];
        }
      }
    }
  }

  /** It ends with an `end_of_stream` exactly when the queue holds one. */
  lemma {:induction false} UpToEndStops(rs: seq<Record>)
    ensures var r := UpToEnd(rs);
      (exists i :: 0 <= i < |rs| && rs[i].EndOfStream?) <==> (r != [] && r[|r| - 1].EndOfStream?)
  {
    if rs != [] && !rs[0].EndOfStream? {
      UpToEndStops(rs[1..]);
      var rest := UpToEnd(rs[1..]);
      assert UpToEnd(rs) == [rs[0]] + rest;
      if exists i :: 0 <= i < |rs| && rs[i].EndOfStream? {
        var i :| 0 <= i < |rs| && rs[i].EndOfStream?;
        assert rs[1..][i - 1].EndOfStream?;
      }
      if exists i :: 0 <= i < |rs| - 1 && rs[1..][i].EndOfStream? {
        var i :| 0 <= i < |rs| - 1 && rs[1..][i].EndOfStream?;
        assert rs[i + 1].EndOfStream?;
      }
    } else if rs != [] {
      assert rs[0].EndOfStream?;
    }
  }

  /** The `while shared_data: data = shared_data.pop(0); yield …` loop that
    * follows every event. */
  method Drain(sharedData: SharedQueue, dumps: Py -> string) returns (out: seq<string>)
    modifies sharedData
    ensures sharedData.items == []
    ensures out == FramesOf(dumps, old(sharedData.items))
  {
    out := [];
    ghost var popped: seq<Record> := [];
    while sharedData.items != []
      invariant popped + sharedData.items == old(sharedData.items)
      invariant out == FramesOf(dumps, popped)
      decreases |sharedData.items|
    {
      var data := sharedData.items[0];
      sharedData.items := sharedData.items[1..];
      FramesOfAppend(dumps, popped, [data]);
      FramesOfOne(dumps, data);
      popped := popped + [data];
      out := out + [Frame(dumps, data)];
    }
    assert popped + [] == popped;
  }

  /** The drain after the stream ended, which returns once it has sent an
    * `end_of_stream` record. */
  method FinalDrain(sharedData: SharedQueue, dumps: Py -> string) returns (out: seq<string>)
    modifies sharedData
    ensures out == FramesOf(dumps, UpToEnd(old(sharedData.items)))
  {
    out := [];
    ghost var popped: seq<Record> := [];
    while sharedData.items != []
      invariant popped + sharedData.items == old(sharedData.items)
      invariant forall k :: 0 <= k < |popped| ==> !popped[k].EndOfStream?
      invariant out == FramesOf(dumps, popped)
      decreases |sharedData.items|
    {
      var data := sharedData.items[0];
      ghost var before := sharedData.items;
      sharedData.items := sharedData.items[1..];
      assert before == [data] + sharedData.items;
      FramesOfAppend(dumps, popped, [data]);
      FramesOfOne(dumps, data);
      out := out + [Frame(dumps, data)];
      if data.EndOfStream? {
        UpToEndAfter(popped, before);
        popped := popped + [data];
        return;
      }
      popped := popped + [data];
    }
    assert popped + [] == popped;
    UpToEndNone(popped);
  }

  lemma {:induction false} UpToEndAfter(a: seq<Record>, b: seq<Record>)
    requires forall k :: 0 <= k < |a| ==> !a[k].EndOfStream?
    requires b != [] && b[0].EndOfStream?
    ensures UpToEnd(a + b) == a + [b[0]]
  {
    if a == [] {
      assert a + b == b;
    } else {
      assert (a + b)[1..] == a[1..] + b;
      UpToEndAfter(a[1..], b);
      assert a == [a[0]] + a[1..];
    }
  }

  lemma {:induction false} UpToEndNone(a: seq<Record>)
    requires forall k :: 0 <= k < |a| ==> !a[k].EndOfStream?
    ensures UpToEnd(a) == a
  {
    if a != [] {
      UpToEndNone(a[1..]);
      assert a == [a[0]] + a[1..];
    }
  }

  // ---------------------------------------------------------------------
  // The relay as a function of its inputs

  /** A `submit_tool_outputs_stream` call: the run and the outputs sent. */
  datatype Submission = Submission(runId: string, outputs: seq<ToolOutput>)

  /** What handling one upstream event does: the outer handler's next state,
    * the records it sends, the submission it makes, and the message of the
    * exception it raises, which ends the relay. */
  datatype Step = Step(st: TState, records: seq<Record>, submissions: seq<Submission>, error: Option<string>)

  /** The records the fresh, token-less handler of a resumed stream emits
    * before its own `end_of_stream`. A `requires_action` event inside the
    * resumed stream fires no callback and is not answered. */
  function ResumedRecords(s: Stream, ctx: Context): seq<Record> {
    TranslateAll(Fresh, Callbacks(s.events), None, ctx.imageRoute).1
  }

  function EventStep(st: TState, e: Event, ctx: Context): Step {
    if IsSubmit(e) then
      match Dispatch(e.calls, ctx)
      case Failure(m) => Step(st, [], [], Some(m))
      case Success(outs) =>
        var inner := ResumedRecords(e.resumed, ctx);
        if e.resumed.failure.Some? then
          // the resumed handler's end_of_stream stays queued: the exception comes first
          Step(st, inner, [Submission(e.runId, outs)], e.resumed.failure)
        else
          // the resumed handler's end_of_stream goes out with the drain that follows
          Step(st, inner + [EndOfStream], [Submission(e.runId, outs)], None)
    else
      match CallbackOf(e)
      case None => Step(st, [], [], None)
      case Some(cb) =>
        var (st1, rec) := Translate(st, cb, ctx.token, ctx.imageRoute);
        Step(st1, [rec], [], None)
  }

  /** What a relay did: the records it sent, in order, the tool outputs it
    * submitted, and the message of the exception that ended it, if any. */
  datatype Trace = Trace(records: seq<Record>, submissions: seq<Submission>, error: Option<string>)

  function Prepend(recs: seq<Record>, subs: seq<Submission>, t: Trace): Trace {
    Trace(recs + t.records, subs + t.submissions, t.error)
  }

  lemma PrependPrepend(a: seq<Record>, s: seq<Submission>, b: seq<Record>, s2: seq<Submission>, t: Trace)
    ensures Prepend(a, s, Prepend(b, s2, t)) == Prepend(a + b, s + s2, t)
  {
    assert a + (b + t.records) == (a + b) + t.records;
    assert s + (s2 + t.submissions) == (s + s2) + t.submissions;
  }

  /** Every record the client receives: the relay's records, then the error
    * record when an exception ended it. */
  function Sent(t: Trace): seq<Record> {
    t.records + (if t.error.Some? then [ErrorRecord(t.error.value)] else [])
  }

  /** The relay from the point where the outer handler is in state `st` and
    * `es` remain of the upstream stream, which then raises `failure` if set. */
  function Relay(st: TState, es: seq<Event>, failure: Option<string>, ctx: Context): Trace
    decreases |es|
  {
    if es == [] then
      // on_end queues end_of_stream; the final drain sends it unless the stream raised
      if failure.Some? then Trace([], [], failure) else Trace([EndOfStream], [], None)
    else
      var step := EventStep(st, es[0], ctx);
      if step.error.Some? then Trace(step.records, step.submissions, step.error)
      else Prepend(step.records, step.submissions, Relay(step.st, es[1..], failure, ctx))
  }

  /** The relay of a whole upstream stream. */
  function RelayStream(upstream: Stream, ctx: Context): Trace {
    Relay(Fresh, upstream.events, upstream.failure, ctx)
  }

  lemma CallbacksStep(es: seq<Event>, i: int)
    requires 0 <= i < |es|
    ensures Callbacks(es[i..]) ==
      (match CallbackOf(es[i]) case Some(cb) => [cb] case None => []) + Callbacks(es[i + 1..])
  {
    assert es[i..][1..] == es[i + 1..];
  }

  lemma TranslateStep(st: TState, es: seq<Event>, i: int, token: Option<string>, imageRoute: string -> string)
    requires 0 <= i < |es|
    ensures CallbackOf(es[i]).None? ==>
      TranslateAll(st, Callbacks(es[i..]), token, imageRoute) == TranslateAll(st, Callbacks(es[i + 1..]), token, imageRoute)
    ensures CallbackOf(es[i]).Some? ==>
      var (st1, rec) := Translate(st, CallbackOf(es[i]).value, token, imageRoute);
      TranslateAll(st, Callbacks(es[i..]), token, imageRoute).1 == [rec] + TranslateAll(st1, Callbacks(es[i + 1..]), token, imageRoute).1
  {
    CallbacksStep(es, i);
    var rest := Callbacks(es[i + 1..]);
    if CallbackOf(es[i]).Some? {
      var cb := CallbackOf(es[i]).value;
      assert ([cb] + rest)[1..] == rest;
    } else {
      assert Callbacks(es[i..]) == rest;
    }
  }

  lemma RelayStep(st: TState, es: seq<Event>, i: int, failure: Option<string>, ctx: Context)
    requires 0 <= i < |es|
    ensures var step := EventStep(st, es[i], ctx);
      Relay(st, es[i..], failure, ctx) ==
        if step.error.Some? then Trace(step.records, step.submissions, step.error)
        else Prepend(step.records, step.submissions, Relay(step.st, es[i + 1..], failure, ctx))
  {
    assert es[i..][0] == es[i];
    assert es[i..][1..] == es[i + 1..];
  }

  /** The number of `end_of_stream` records in `rs`. */
  function Ends(rs: seq<Record>): nat {
    if rs == [] then 0 else (if rs[0].EndOfStream? then 1 else 0) + Ends(rs[1..])
  }

  lemma {:induction false} EndsAppend(a: seq<Record>, b: seq<Record>)
    ensures Ends(a + b) == Ends(a) + Ends(b)
  {
    if a == [] {
      assert a + b == b;
    } else {
      assert (a + b)[1..] == a[1..] + b;
      EndsAppend(a[1..], b);
    }
  }

  lemma {:induction false} EndsNone(rs: seq<Record>)
    requires forall r :: r in rs ==> !r.EndOfStream?
    ensures Ends(rs) == 0
  {
    if rs != [] {
      assert forall r :: r in rs[1..] ==> r in rs;
      EndsNone(rs[1..]);
    }
  }

  /** A run without tool calls: the records are those of the handler's
    * callbacks, in order, followed by the single `end_of_stream` of the
    * final drain. */
  lemma {:induction false} PlainRunRecords(st: TState, es: seq<Event>, ctx: Context)
    requires forall i :: 0 <= i < |es| ==> !IsSubmit(es[i])
    ensures Relay(st, es, None, ctx)
         == Trace(TranslateAll(st, Callbacks(es), ctx.token, ctx.imageRoute).1 + [EndOfStream], [], None)
    decreases |es|
  {
    if es != [] {
      var (st1, recs) := HeadStep(st, es[0], ctx);
      PlainStep(st, es, ctx);
      assert forall i :: 0 <= i < |es| - 1 ==> es[1..][i] == es[i + 1];
      PlainRunRecords(st1, es[1..], ctx);
      var rest := TranslateAll(st1, Callbacks(es[1..]), ctx.token, ctx.imageRoute).1;
      assert recs + (rest + [EndOfStream]) == (recs + rest) + [EndOfStream];
    }
  }

  /** The handler's move on an event that is not answered: its callback's
    * record, if it fires one. */
  function HeadStep(st: TState, e: Event, ctx: Context): (TState, seq<Record>) {
    match CallbackOf(e)
    case None => (st, [])
    case Some(cb) =>
      var (st1, rec) := Translate(st, cb, ctx.token, ctx.imageRoute);
      (st1, [rec])
  }

  lemma PlainStep(st: TState, es: seq<Event>, ctx: Context)
    requires es != [] && !IsSubmit(es[0])
    ensures var (st1, recs) := HeadStep(st, es[0], ctx);
      Relay(st, es, None, ctx) == Prepend(recs, [], Relay(st1, es[1..], None, ctx))
      && TranslateAll(st, Callbacks(es), ctx.token, ctx.imageRoute).1 == recs + TranslateAll(st1, Callbacks(es[1..]), ctx.token, ctx.imageRoute).1
  {
    RelayStep(st, es, 0, None, ctx);
    TranslateStep(st, es, 0, ctx.token, ctx.imageRoute);
    assert es[0..] == es;
  }

  /** `end_of_stream` reaches the client once per completed resumed stream
    * and once more at the very end, which a run that raised never reaches.
    * The handler callbacks never produce an `error` record. */
  lemma {:induction false} EndOfStreamCount(st: TState, es: seq<Event>, failure: Option<string>, ctx: Context)
    ensures var t := Relay(st, es, failure, ctx);
      (forall r :: r in t.records ==> !r.ErrorRecord?)
      && (t.error.None? ==> Ends(t.records) == |t.submissions| + 1 && t.records[|t.records| - 1] == EndOfStream)
      && (t.error.Some? ==> Ends(t.records) <= |t.submissions|)
    decreases |es|
  {
    if es != [] {
      RelayStep(st, es, 0, failure, ctx);
      assert es[0..] == es;
      var step := EventStep(st, es[0], ctx);
      StepRecords(st, es[0], ctx);
      if step.error.None? {
        EndOfStreamCount(step.st, es[1..], failure, ctx);
        var rest := Relay(step.st, es[1..], failure, ctx);
        EndsAppend(step.records, rest.records);
        if rest.error.None? {
          var all := step.records + rest.records;
          assert all[|all| - 1] == rest.records[|rest.records| - 1];
        }
      }
    }
  }

  /** One upstream event: its records hold no `error` record, and one
    * `end_of_stream` per submission it completes. */
  lemma StepRecords(st: TState, e: Event, ctx: Context)
    ensures var step := EventStep(st, e, ctx);
      (forall r :: r in step.records ==> !r.ErrorRecord?)
      && Ends(step.records) == (if step.error.None? then |step.submissions| else 0)
  {
    var step := EventStep(st, e, ctx);
    if IsSubmit(e) && Dispatch(e.calls, ctx).Success? {
      var inner := ResumedRecords(e.resumed, ctx);
      TranslateNoEnd(Fresh, Callbacks(e.resumed.events), None, ctx.imageRoute);
      EndsNone(inner);
      EndsAppend(inner, [EndOfStream]);
    } else if !IsSubmit(e) && CallbackOf(e).Some? {
      TranslateNoEnd(st, [CallbackOf(e).value], ctx.token, ctx.imageRoute);
      assert step.records == TranslateAll(st, [CallbackOf(e).value], ctx.token, ctx.imageRoute).1;
      EndsNone(step.records);
    }
  }

  /** The client sees at most one `error` record, and it is the last thing sent. */
  lemma ErrorFrameLast(upstream: Stream, ctx: Context)
    ensures var t := RelayStream(upstream, ctx);
      (forall i :: 0 <= i < |Sent(t)| - 1 ==> !Sent(t)[i].ErrorRecord?)
      && (t.error.Some? <==> Sent(t) != [] && Sent(t)[|Sent(t)| - 1].ErrorRecord?)
  {
    var t := RelayStream(upstream, ctx);
    EndOfStreamCount(Fresh, upstream.events, upstream.failure, ctx);
    assert forall i :: 0 <= i < |t.records| ==> t.records[i] in t.records;
    if t.error.None? {
      assert Sent(t) == t.records;
    }
  }

  /** `sub` is the answer to the `requires_action` event `e`: its run id and
    * the outputs of its batch, one per tool call, in order. */
  predicate Answers(e: Event, sub: Submission, ctx: Context) {
    IsSubmit(e) && e.runId == sub.runId && Dispatch(e.calls, ctx) == Success(sub.outputs)
  }

  /** `sub` answers one of the events `es`. */
  predicate AnsweredIn(es: seq<Event>, sub: Submission, ctx: Context) {
    exists j :: 0 <= j < |es| && Answers(es[j], sub, ctx)
  }

  lemma AnsweredInTail(es: seq<Event>, sub: Submission, ctx: Context)
    requires es != [] && AnsweredIn(es[1..], sub, ctx)
    ensures AnsweredIn(es, sub, ctx)
  {
    var j :| 0 <= j < |es[1..]| && Answers(es[1..][j], sub, ctx);
    assert es[j + 1] == es[1..][j];
  }

  lemma StepAnswers(st: TState, e: Event, ctx: Context)
    ensures var step := EventStep(st, e, ctx);
      forall k :: 0 <= k < |step.submissions| ==> Answers(e, step.submissions[k], ctx)
  {
  }

  /** Every submission answers one `requires_action` event of the upstream
    * stream itself; events inside a resumed stream are never answered. */
  lemma {:induction false} SubmissionsAnswerActions(st: TState, es: seq<Event>, failure: Option<string>, ctx: Context)
    ensures var t := Relay(st, es, failure, ctx);
      forall k :: 0 <= k < |t.submissions| ==> AnsweredIn(es, t.submissions[k], ctx)
    decreases |es|
  {
    if es != [] {
      RelayStep(st, es, 0, failure, ctx);
      assert es[0..] == es;
      var step := EventStep(st, es[0], ctx);
      var t := Relay(st, es, failure, ctx);
      StepAnswers(st, es[0], ctx);
      if step.error.None? {
        SubmissionsAnswerActions(step.st, es[1..], failure, ctx);
        var rest := Relay(step.st, es[1..], failure, ctx);
        forall k | 0 <= k < |t.submissions|
          ensures AnsweredIn(es, t.submissions[k], ctx)
        {
          if k < |step.submissions| {
            assert Answers(es[0], t.submissions[k], ctx);
          } else {
            assert t.submissions[k] == rest.submissions[k - |step.submissions|];
            AnsweredInTail(es, t.submissions[k], ctx);
          }
        }
      } else {
        forall k | 0 <= k < |t.submissions|
          ensures AnsweredIn(es, t.submissions[k], ctx)
        {
          assert Answers(es[0], t.submissions[k], ctx);
        }
      }
    }
  }

  /** The `submit_tool_outputs` events of the upstream stream itself, in order. */
  function SubmitEvents(es: seq<Event>): (r: seq<Event>)
    ensures forall k :: 0 <= k < |r| ==> IsSubmit(r[k])
  {
    if es == [] then []
    else (if IsSubmit(es[0]) then [es[0]] else []) + SubmitEvents(es[1..])
  }

  /** One event's part of the submissions: a `submit_tool_outputs` event
    * that does not fail its dispatch is answered once, any other event
    * neither submits nor raises. */
  lemma StepSubmissions(st: TState, e: Event, ctx: Context)
    ensures var step := EventStep(st, e, ctx);
      |step.submissions| <= 1
      && (step.submissions != [] ==> Answers(e, step.submissions[0], ctx))
      && (IsSubmit(e) && step.error.None? ==> |step.submissions| == 1)
      && (!IsSubmit(e) ==> step.submissions == [] && step.error.None?)
  {
  }

  /** Answers to a first batch of events, followed by answers to a prefix of
    * the events after it, answer a prefix of the whole, in order. */
  lemma AnswersConcat(h: seq<Event>, hs: seq<Submission>, es: seq<Event>, ss: seq<Submission>, ctx: Context)
    requires |hs| == |h| && forall k :: 0 <= k < |h| ==> Answers(h[k], hs[k], ctx)
    requires |ss| <= |es| && forall k :: 0 <= k < |ss| ==> Answers(es[k], ss[k], ctx)
    ensures forall k :: 0 <= k < |hs + ss| ==> Answers((h + es)[k], (hs + ss)[k], ctx)
  {
    forall k | 0 <= k < |hs + ss| ensures Answers((h + es)[k], (hs + ss)[k], ctx) {
      if k >= |h| {
        assert (h + es)[k] == es[k - |h|] && (hs + ss)[k] == ss[k - |h|];
      }
    }
  }

  /** The converse: the submissions answer the outer `submit_tool_outputs`
    * events in order, one each, up to the point where the relay raised; a
    * relay that did not raise answers every one of them. */
  lemma {:induction false} ActionsAnsweredInOrder(st: TState, es: seq<Event>, failure: Option<string>, ctx: Context)
    ensures var t := Relay(st, es, failure, ctx);
      |t.submissions| <= |SubmitEvents(es)|
      && (forall k :: 0 <= k < |t.submissions| ==> Answers(SubmitEvents(es)[k], t.submissions[k], ctx))
      && (t.error.None? ==> |t.submissions| == |SubmitEvents(es)|)
    decreases |es|
  {
    if es != [] {
      var step := EventStep(st, es[0], ctx);
      var head := if IsSubmit(es[0]) then [es[0]] else [];
      assert SubmitEvents(es) == head + SubmitEvents(es[1..]);
      StepSubmissions(st, es[0], ctx);
      if step.error.None? {
        ActionsAnsweredInOrder(step.st, es[1..], failure, ctx);
        var rest := Relay(step.st, es[1..], failure, ctx);
        assert Relay(st, es, failure, ctx).submissions == step.submissions + rest.submissions;
        AnswersConcat(head, step.submissions, SubmitEvents(es[1..]), rest.submissions, ctx);
      } else if step.submissions != [] {
        AnswersConcat([es[0]], step.submissions, [], [], ctx);
      }
    }
  }

  // ---------------------------------------------------------------------
  // The relay as the source runs it

  /** One event further into a resumed stream: the record its callback
    * adds, if any, moves from what is still to come to what was sent. */
  lemma ResumedStep(ctx: Context, events: seq<Event>, i: int, st: TState, sent: seq<Record>, total: seq<Record>)
    requires 0 <= i < |events|
    requires sent + TranslateAll(st, Callbacks(events[i..]), None, ctx.imageRoute).1 == total
    ensures CallbackOf(events[i]).None? ==>
      sent + TranslateAll(st, Callbacks(events[i + 1..]), None, ctx.imageRoute).1 == total
      && FramesOf(ctx.dumps, []) == []
    ensures CallbackOf(events[i]).Some? ==>
      var (st1, rec) := Translate(st, CallbackOf(events[i]).value, None, ctx.imageRoute);
      (sent + [rec]) + TranslateAll(st1, Callbacks(events[i + 1..]), None, ctx.imageRoute).1 == total
      && FramesOf(ctx.dumps, sent + [rec]) == FramesOf(ctx.dumps, sent) + FramesOf(ctx.dumps, [rec])
  {
    TranslateStep(st, events, i, None, ctx.imageRoute);
    if CallbackOf(events[i]).Some? {
      var (st1, rec) := Translate(st, CallbackOf(events[i]).value, None, ctx.imageRoute);
      var rest := TranslateAll(st1, Callbacks(events[i + 1..]), None, ctx.imageRoute).1;
      assert sent + ([rec] + rest) == (sent + [rec]) + rest;
      FramesOfAppend(ctx.dumps, sent, [rec]);
    }
  }

  /** The resumed stream: a fresh handler without a token on the same queue,
    * a drain after every event, and the handler's `on_end` when the stream
    * is over, whether or not it raised. */
  method RunResumed(sharedData: SharedQueue, resumed: Stream, ctx: Context) returns (frames: seq<string>)
    requires sharedData.items == []
    modifies sharedData
    ensures frames == FramesOf(ctx.dumps, ResumedRecords(resumed, ctx))
    ensures sharedData.items == [EndOfStream]
  {
    var handler := new EventHandler(sharedData, None, ctx.imageRoute);
    frames := [];
    ghost var sent: seq<Record> := [];
    ghost var st := Fresh;
    var i := 0;
    while i < |resumed.events|
      invariant 0 <= i <= |resumed.events|
      invariant sharedData.items == [] && handler.State() == st
      invariant frames == FramesOf(ctx.dumps, sent)
      invariant sent + TranslateAll(st, Callbacks(resumed.events[i..]), None, ctx.imageRoute).1 == ResumedRecords(resumed, ctx)
    {
      ResumedStep(ctx, resumed.events, i, st, sent, ResumedRecords(resumed, ctx));
      var cb := CallbackOf(resumed.events[i]);
      if cb.Some? {
        Fire(handler, cb.value);
        sent := sent + [Translate(st, cb.value, None, ctx.imageRoute).1];
        st := handler.State();
      }
      var out := Drain(sharedData, ctx.dumps);
      frames := frames + out;
      i := i + 1;
    }
    assert resumed.events[i..] == [];
    assert sent + [] == sent;
    handler.OnEnd();
  }

  /** The loop body for one upstream event: the handler callback it fires,
    * the `requires_action` branch when it is one, and the drain that
    * follows; or the error frame when the branch raises. */
  method HandleEvent(sharedData: SharedQueue, handler: EventHandler, e: Event, ctx: Context)
      returns (frames: seq<string>, submissions: seq<Submission>, raised: bool)
    requires handler.sharedData == sharedData && sharedData.items == []
    requires handler.token == ctx.token && handler.imageRoute == ctx.imageRoute
    modifies handler, sharedData
    ensures var step := EventStep(old(handler.State()), e, ctx);
      handler.State() == step.st && submissions == step.submissions && raised == step.error.Some?
      && frames == FramesOf(ctx.dumps, Sent(Trace(step.records, step.submissions, step.error)))
      && (step.error.None? ==> sharedData.items == [])
  {
    submissions := [];
    raised := false;
    var cb := CallbackOf(e);
    if cb.Some? {
      Fire(handler, cb.value);
    } else if IsSubmit(e) {
      var outputs, resumedFrames := AnswerRequiredAction(sharedData, e, ctx);
      if outputs.Failure? {
        frames := [Frame(ctx.dumps, ErrorRecord(outputs.error))];
        raised := true;
        return;
      }
      submissions := [Submission(e.runId, outputs.value)];
      ghost var inner := ResumedRecords(e.resumed, ctx);
      if e.resumed.failure.Some? {
        FramesOfAppend(ctx.dumps, inner, [ErrorRecord(e.resumed.failure.value)]);
        frames := resumedFrames + [Frame(ctx.dumps, ErrorRecord(e.resumed.failure.value))];
        raised := true;
        return;
      }
      FramesOfAppend(ctx.dumps, inner, [EndOfStream]);
      var out := Drain(sharedData, ctx.dumps);
      frames := resumedFrames + out;
      assert Sent(Trace(inner + [EndOfStream], submissions, None)) == inner + [EndOfStream];
      return;
    }
    frames := Drain(sharedData, ctx.dumps);
  }

  /** The `requires_action` branch: the tool outputs of the batch and, when
    * every call's arguments parsed, the frames of the resumed stream, after
    * which the resumed handler's `end_of_stream` is left on the queue. */
  method AnswerRequiredAction(sharedData: SharedQueue, e: Event, ctx: Context)
      returns (outputs: Result<seq<ToolOutput>, string>, frames: seq<string>)
    requires IsSubmit(e) && sharedData.items == []
    modifies sharedData
    ensures outputs == Dispatch(e.calls, ctx)
    ensures outputs.Failure? ==> sharedData.items == []
    ensures outputs.Success? ==>
      frames == FramesOf(ctx.dumps, ResumedRecords(e.resumed, ctx)) && sharedData.items == [EndOfStream]
  {
    outputs := DispatchBatch(e.calls, ctx);
    frames := [];
    if outputs.Success? {
      frames := RunResumed(sharedData, e.resumed, ctx);
    }
  }

  /** `event_stream()`: the frames it yields and the tool outputs it submits. */
  method EventStream(upstream: Stream, ctx: Context) returns (frames: seq<string>, submissions: seq<Submission>)
    ensures frames == FramesOf(ctx.dumps, Sent(RelayStream(upstream, ctx)))
    ensures submissions == RelayStream(upstream, ctx).submissions
  {
    var sharedData := new SharedQueue();
    var handler := new EventHandler(sharedData, ctx.token, ctx.imageRoute);
    frames := [];
    submissions := [];
    ghost var sent: seq<Record> := [];
    ghost var st := Fresh;
    var i := 0;
    while i < |upstream.events|
      invariant 0 <= i <= |upstream.events|
      invariant sharedData.items == [] && handler.State() == st
      invariant frames == FramesOf(ctx.dumps, sent)
      invariant Prepend(sent, submissions, Relay(st, upstream.events[i..], upstream.failure, ctx)) == RelayStream(upstream, ctx)
    {
      RelayStep(st, upstream.events, i, upstream.failure, ctx);
      ghost var step := EventStep(st, upstream.events[i], ctx);
      var out, subs, raised := HandleEvent(sharedData, handler, upstream.events[i], ctx);
      if raised {
        FramesOfAppend(ctx.dumps, sent, Sent(Trace(step.records, step.submissions, step.error)));
        assert sent + Sent(Trace(step.records, step.submissions, step.error))
            == Sent(Prepend(sent, submissions, Trace(step.records, step.submissions, step.error)));
        frames := frames + out;
        submissions := submissions + subs;
        return;
      }
      PrependPrepend(sent, submissions, step.records, step.submissions, Relay(step.st, upstream.events[i + 1..], upstream.failure, ctx));
      FramesOfAppend(ctx.dumps, sent, step.records);
      assert Sent(Trace(step.records, step.submissions, step.error)) == step.records;
      frames := frames + out;
      submissions := submissions + subs;
      sent := sent + step.records;
      st := step.st;
      i := i + 1;
    }
    assert upstream.events[i..] == [];
    StreamEnd(ctx, sent, submissions, st, upstream.failure);
    handler.OnEnd();
    if upstream.failure.Some? {
      frames := frames + [Frame(ctx.dumps, ErrorRecord(upstream.failure.value))];
      return;
    }
    var out := FinalDrain(sharedData, ctx.dumps);
    frames := frames + out;
  }

  /** What the relay still sends once the upstream events are exhausted:
    * the error frame if the stream raised, else what the final drain takes
    * of the lone `end_of_stream` on the queue. */
  lemma StreamEnd(ctx: Context, sent: seq<Record>, submissions: seq<Submission>, st: TState, failure: Option<string>)
    ensures var t := Prepend(sent, submissions, Relay(st, [], failure, ctx));
      t.submissions == submissions
      && (failure.Some? ==>
            FramesOf(ctx.dumps, Sent(t)) == FramesOf(ctx.dumps, sent) + [Frame(ctx.dumps, ErrorRecord(failure.value))])
      && (failure.None? ==>
            FramesOf(ctx.dumps, Sent(t)) == FramesOf(ctx.dumps, sent) + FramesOf(ctx.dumps, UpToEnd([EndOfStream])))
  {
    var t := Prepend(sent, submissions, Relay(st, [], failure, ctx));
    assert submissions + [] == submissions;
    if failure.Some? {
      assert sent + [] == sent;
      assert Sent(t) == sent + [ErrorRecord(failure.value)];
      FramesOfAppend(ctx.dumps, sent, [ErrorRecord(failure.value)]);
      FramesOfOne(ctx.dumps, ErrorRecord(failure.value));
    } else {
      assert UpToEnd([EndOfStream]) == [EndOfStream];
      assert Sent(t) == sent + [EndOfStream];
      FramesOfAppend(ctx.dumps, sent, [EndOfStream]);
    }
  }

  // ---------------------------------------------------------------------
  // The view around the stream

  /** What the view gives back; `Uncaught` is an exception that leaves the
    * view, which Django answers with a server error. */
  datatype Response =
    | JsonResponse(status: int, body: Py)
    | StreamingResponse(contentType: string, headers: seq<(string, string)>, key: string, token: Option<string>)
    | Uncaught(exceptionType: string)

  /** The headers every streaming response carries, so that no proxy buffers it. */
  const StreamHeaders: seq<(string, string)> := [("Cache-Control", "no-cache"), ("X-Accel-Buffering", "no")]

  /** `stream_responses` of oa/main/views.py: the client is resolved before any
    * stream is opened and an `APIError` is answered with its status; a token
    * that is not a UUID raises past the `except APIError`. The handler is
    * given the `token` query parameter (not the `X-Token` header). */
  function MainStreamResponses(req: ApiUtils.ClientRequest, projects: seq<ApiUtils.ProjectRow>, links: seq<ApiUtils.SharedLinkRow>,
                               parseUuid: string -> Option<string>)
    : (r: Response)
    ensures var resolved := ApiUtils.ResolveClientKey(req, projects, links, parseUuid);
      (r.JsonResponse? <==> resolved.Failure? && resolved.error.Api?)
      && (r.Uncaught? <==> resolved.Failure? && resolved.error.InvalidUuid?)
      && (r.Uncaught? ==> r.exceptionType == "ValidationError")
      && (r.JsonResponse? ==>
            r.status == resolved.error.error.status
            && r.body == DictVal([Entry("error", StrVal(resolved.error.error.message))]))
      && (r.StreamingResponse? ==>
            r.contentType == "text/event-stream" && r.headers == StreamHeaders
            && r.token == req.queryToken && Success(r.key) == resolved)
  {
    match ApiUtils.ResolveClientKey(req, projects, links, parseUuid)
    case Failure(e) =>
      if e.Api? then JsonResponse(e.error.status, DictVal([Entry("error", StrVal(e.error.message))]))
      else Uncaught("ValidationError")
    case Success(key) => StreamingResponse("text/event-stream", StreamHeaders, key, req.queryToken)
  }

  /** `stream_responses` of oa/api/views.py: the client comes from the bearer
    * authentication and the handler has no token. */
  function ApiStreamResponses(key: string): (r: Response)
    ensures r.StreamingResponse? && r.headers == StreamHeaders && r.token.None? && r.key == key
  {
    StreamingResponse("text/event-stream", StreamHeaders, key, None)
  }
}
