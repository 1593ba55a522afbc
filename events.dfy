/**
 * The event translator: the `EventHandler` callback objects of
 * oa/api/utils.py and oa/main/views.py. A handler keeps the text and the
 * annotations of the message being streamed and appends one wire record per
 * callback to a list it shares with the relay (`shared_data`).
 *
 * Both source classes are modelled by one class: the handler of
 * oa/api/views.py is the one built without a token, and the two differ
 * otherwise only in the route their image URL is built from, which is a
 * parameter here (`imageRoute`, standing for Django's `reverse`).
 */
module Events {
  import opened Wrappers
  import opened PyValues

  /** An annotation of the text snapshot the SDK passes to `on_text_delta`.
    * `fileCitation` holds the cited file's id when the annotation is a file
    * citation; `filePath` the generated file's id when it is a file path. */
  datatype SnapshotAnnotation = SnapshotAnnotation(
    kind: string,
    text: string,
    startIndex: int,
    endIndex: int,
    fileCitation: Option<string>,
    filePath: Option<string>)

  datatype CitationInfo = CitationInfo(fileId: string, filename: string)

  /** `annotation.to_dict()` after the handler replaced its `file_citation`. */
  datatype AnnotationRecord = AnnotationRecord(
    kind: string,
    text: string,
    startIndex: int,
    endIndex: int,
    fileCitation: Option<CitationInfo>,
    filePath: Option<string>)

  /** The placeholder every streamed file citation carries as its file name. */
  const UnknownFile: string := "Unknown File"

  function NormalizeAnnotation(a: SnapshotAnnotation): AnnotationRecord {
    AnnotationRecord(
      a.kind, a.text, a.startIndex, a.endIndex,
      if a.fileCitation.Some? then Some(CitationInfo(a.fileCitation.value, UnknownFile)) else None,
      a.filePath)
  }

  /** The annotation list rebuilt from one snapshot. */
  function NormalizeAll(snapshot: seq<SnapshotAnnotation>): (r: seq<AnnotationRecord>)
    ensures |r| == |snapshot|
    ensures forall i :: 0 <= i < |r| ==> r[i] == NormalizeAnnotation(snapshot[i])
  {
    if snapshot == [] then [] else [NormalizeAnnotation(snapshot[0])] + NormalizeAll(snapshot[1..])
  }

  /** One record of `shared_data`; each becomes one server-sent event. */
  datatype Record =
    | MessageCreated
    | TextDelta(text: string, annotations: seq<AnnotationRecord>)
    | MessageDone(text: string, annotations: seq<AnnotationRecord>)
    | ImageFile(text: string, annotations: seq<AnnotationRecord>)
    | EndOfStream
    | ErrorRecord(message: string)
  {
    /** The record's `"type"` field. */
    function TypeName(): string {
      match this
      case MessageCreated => "message_created"
      case TextDelta(_, _) => "text_delta"
      case MessageDone(_, _) => "message_done"
      case ImageFile(_, _) => "image_file"
      case EndOfStream => "end_of_stream"
      case ErrorRecord(_) => "error"
    }

    predicate HasText() {
      TextDelta? || MessageDone? || ImageFile?
    }
  }

  function AnnotationToPy(a: AnnotationRecord): Py {
    var link :=
      if a.fileCitation.Some? then
        [Entry("file_citation", DictVal([Entry("file_id", StrVal(a.fileCitation.value.fileId)),
                                         Entry("filename", StrVal(a.fileCitation.value.filename))]))]
      else if a.filePath.Some? then
        [Entry("file_path", DictVal([Entry("file_id", StrVal(a.filePath.value))]))]
      else [];
    DictVal([Entry("end_index", IntVal(a.endIndex))] + link
            + [Entry("start_index", IntVal(a.startIndex)), Entry("text", StrVal(a.text)), Entry("type", StrVal(a.kind))])
  }

  /** The dict the relay passes to `json.dumps`. */
  function RecordToPy(r: Record): (p: Py)
    ensures p.DictVal? && |p.entries| > 0 && p.entries[0] == Entry("type", StrVal(r.TypeName()))
  {
    var tag := Entry("type", StrVal(r.TypeName()));
    match r
    case MessageCreated => DictVal([tag])
    case EndOfStream => DictVal([tag])
    case ErrorRecord(m) => DictVal([tag, Entry("message", StrVal(m))])
    case _ =>
      DictVal([tag, Entry("text", StrVal(r.text)),
               Entry("annotations", ListVal(AnnotationsToPy(r.annotations)))])
  }

  function AnnotationsToPy(anns: seq<AnnotationRecord>): seq<Py> {
    if anns == [] then [] else [AnnotationToPy(anns[0])] + AnnotationsToPy(anns[1..])
  }

  /** `if self.token:`. */
  predicate HasToken(token: Option<string>) {
    token.Some? && token.value != ""
  }

  /** The image URL: the routed path, with `?token=<token>` when the handler has a token. */
  function ImageUrl(imageRoute: string -> string, fileId: string, token: Option<string>): string {
    imageRoute(fileId) + (if HasToken(token) then "?token=" + token.value else "")
  }

  /** The image URL extends the routed path, and does so exactly when the
    * handler has a token, by `?token=<token>`. */
  lemma ImageUrlToken(imageRoute: string -> string, fileId: string, token: Option<string>)
    ensures StartsWith(ImageUrl(imageRoute, fileId, token), imageRoute(fileId))
    ensures |ImageUrl(imageRoute, fileId, token)| > |imageRoute(fileId)| <==> HasToken(token)
    ensures HasToken(token) ==> EndsWith(ImageUrl(imageRoute, fileId, token), "?token=" + token.value)
  {
    var base := imageRoute(fileId);
    var url := ImageUrl(imageRoute, fileId, token);
    assert url[..|base|] == base;
    if HasToken(token) {
      var suffix := "?token=" + token.value;
      assert url == base + suffix;
      assert url[|url| - |suffix|..] == suffix;
    } else {
      assert url == base;
    }
  }

  /** The embed appended to the message for a finished image file. */
  function ImageEmbed(url: string): string {
    "<p><img src=\"" + url + "\" style=\"max-width: 100%;\"></p>"
  }

  /** `if delta.value: self.current_message += delta.value`. */
  function DeltaText(delta: Option<string>): string {
    if delta.Some? then delta.value else ""
  }

  /** The list shared between the relay and every handler of one request. */
  class SharedQueue {
    var items: seq<Record>

    constructor()
      ensures items == []
    {
      items := [];
    }
  }

  class EventHandler {
    var currentMessage: string
    var currentAnnotations: seq<AnnotationRecord>
    var streamDone: bool
    const sharedData: SharedQueue
    const token: Option<string>
    const imageRoute: string -> string

    constructor(sharedData: SharedQueue, token: Option<string>, imageRoute: string -> string)
      ensures this.sharedData == sharedData && this.token == token && this.imageRoute == imageRoute
      ensures currentMessage == "" && currentAnnotations == [] && !streamDone
    {
      this.sharedData := sharedData;
      this.token := token;
      this.imageRoute := imageRoute;
      currentMessage := "";
      currentAnnotations := [];
      streamDone := false;
    }

    /** The handler's state as the pure translator sees it. */
    function State(): TState
      reads this
    {
      TState(currentMessage, currentAnnotations, streamDone)
    }

    method OnMessageCreated()
      modifies this, sharedData
      ensures currentMessage == "" && currentAnnotations == [] && streamDone == old(streamDone)
      ensures sharedData.items == old(sharedData.items) + [MessageCreated]
    {
      currentMessage := "";
      currentAnnotations := [];
      sharedData.items := sharedData.items + [MessageCreated];
    }

    method OnTextDelta(delta: Option<string>, snapshot: seq<SnapshotAnnotation>)
      modifies this, sharedData
      ensures currentMessage == old(currentMessage) + DeltaText(delta)
      ensures currentAnnotations == NormalizeAll(snapshot)
      ensures streamDone == old(streamDone)
      ensures sharedData.items == old(sharedData.items) + [TextDelta(currentMessage, currentAnnotations)]
    {
      if delta.Some? && delta.value != "" {
        currentMessage := currentMessage + delta.value;
      }
      var anns: seq<AnnotationRecord> := [];
      var i := 0;
      while i < |snapshot|
        invariant 0 <= i <= |snapshot|
        invariant |anns| == i && forall j :: 0 <= j < i ==> anns[j] == NormalizeAnnotation(snapshot[j])
      {
        anns := anns + [NormalizeAnnotation(snapshot[i])];
        i := i + 1;
      }
      currentAnnotations := anns;
      sharedData.items := sharedData.items + [TextDelta(currentMessage, currentAnnotations)];
    }

    method OnMessageDone()
      modifies sharedData
      ensures sharedData.items == old(sharedData.items) + [MessageDone(currentMessage, currentAnnotations)]
    {
      sharedData.items := sharedData.items + [MessageDone(currentMessage, currentAnnotations)];
    }

    method OnImageFileDone(fileId: string)
      modifies this, sharedData
      ensures currentMessage == old(currentMessage) + ImageEmbed(ImageUrl(imageRoute, fileId, token))
      ensures currentAnnotations == old(currentAnnotations) && streamDone == old(streamDone)
      ensures sharedData.items == old(sharedData.items) + [ImageFile(currentMessage, [])]
    {
      var url := ImageUrl(imageRoute, fileId, token);
      currentMessage := currentMessage + ImageEmbed(url);
      sharedData.items := sharedData.items + [ImageFile(currentMessage, [])];
    }

    method OnEnd()
      modifies this, sharedData
      ensures streamDone
      ensures currentMessage == old(currentMessage) && currentAnnotations == old(currentAnnotations)
      ensures sharedData.items == old(sharedData.items) + [EndOfStream]
    {
      streamDone := true;
      sharedData.items := sharedData.items + [EndOfStream];
    }
  }

  // ---------------------------------------------------------------------
  // The same translator as a pure reducer: (state, callback) -> (state, record)

  datatype TState = TState(message: string, annotations: seq<AnnotationRecord>, done: bool)

  const Fresh: TState := TState("", [], false)

  /** A handler callback the SDK invokes. */
  datatype Callback =
    | OnMessageCreated
    | OnTextDelta(delta: Option<string>, snapshot: seq<SnapshotAnnotation>)
    | OnMessageDone
    | OnImageFileDone(fileId: string)
    | OnEnd

  function Translate(st: TState, cb: Callback, token: Option<string>, imageRoute: string -> string): (TState, Record) {
    match cb
    case OnMessageCreated => (TState("", [], st.done), MessageCreated)
    case OnTextDelta(delta, snapshot) =>
      var text := st.message + DeltaText(delta);
      var anns := NormalizeAll(snapshot);
      (TState(text, anns, st.done), TextDelta(text, anns))
    case OnMessageDone => (st, MessageDone(st.message, st.annotations))
    case OnImageFileDone(fileId) =>
      var text := st.message + ImageEmbed(ImageUrl(imageRoute, fileId, token));
      (st.(message := text), ImageFile(text, []))
    case OnEnd => (st.(done := true), EndOfStream)
  }

  /** A run of callbacks: the final state and the records, one per callback, in order. */
  function TranslateAll(st: TState, cbs: seq<Callback>, token: Option<string>, imageRoute: string -> string): (r: (TState, seq<Record>))
    ensures |r.1| == |cbs|
    decreases |cbs|
  {
    if cbs == [] then (st, [])
    else
      var (st1, rec) := Translate(st, cbs[0], token, imageRoute);
      var (st2, recs) := TranslateAll(st1, cbs[1..], token, imageRoute);
      (st2, [rec] + recs)
  }

  /** Between two `message_created` callbacks the message text only grows:
    * every text-carrying record repeats the text so far and extends it. */
  lemma {:induction false} TextOnlyGrows(st: TState, cbs: seq<Callback>, token: Option<string>, imageRoute: string -> string)
    requires forall i :: 0 <= i < |cbs| ==> !cbs[i].OnMessageCreated?
    ensures var (st', recs) := TranslateAll(st, cbs, token, imageRoute);
      StartsWith(st'.message, st.message)
      && forall i :: 0 <= i < |recs| && recs[i].HasText() ==>
           StartsWith(recs[i].text, st.message) && StartsWith(st'.message, recs[i].text)
    decreases |cbs|
  {
    if cbs != [] {
      var (st1, rec) := Translate(st, cbs[0], token, imageRoute);
      assert StartsWith(st1.message, st.message);
      assert rec.HasText() ==> rec.text == st1.message;
      TextOnlyGrows(st1, cbs[1..], token, imageRoute);
      var (st2, recs) := TranslateAll(st1, cbs[1..], token, imageRoute);
      PrefixTrans(st.message, st1.message, st2.message);
      forall i | 0 <= i < |recs| && recs[i].HasText()
        ensures StartsWith(recs[i].text, st.message)
      {
        PrefixTrans(st.message, st1.message, recs[i].text);
      }
      assert forall i :: 1 <= i <= |recs| ==> ([rec] + recs)[i] == recs[i - 1] && cbs[i] == cbs[1..][i - 1];
    }
  }

  lemma PrefixTrans(a: string, b: string, c: string)
    requires StartsWith(b, a) && StartsWith(c, b)
    ensures StartsWith(c, a)
  {
    assert c[..|a|] == c[..|b|][..|a|];
  }

  /** A text delta's annotations come from its snapshot alone: the same
    * callback gives the same annotations whatever came before. */
  lemma AnnotationsNotAccumulated(st1: TState, st2: TState, delta: Option<string>, snapshot: seq<SnapshotAnnotation>,
                                  token: Option<string>, imageRoute: string -> string)
    ensures Translate(st1, OnTextDelta(delta, snapshot), token, imageRoute).0.annotations
         == Translate(st2, OnTextDelta(delta, snapshot), token, imageRoute).0.annotations
         == NormalizeAll(snapshot)
    ensures forall i :: 0 <= i < |snapshot| && snapshot[i].fileCitation.Some? ==>
      NormalizeAll(snapshot)[i].fileCitation == Some(CitationInfo(snapshot[i].fileCitation.value, UnknownFile))
  {
  }

  /** The callbacks never put an `end_of_stream` or an `error` record on the
    * queue: only `on_end` produces the former, and no callback the latter. */
  lemma {:induction false} TranslateNoEnd(st: TState, cbs: seq<Callback>, token: Option<string>, imageRoute: string -> string)
    requires forall i :: 0 <= i < |cbs| ==> !cbs[i].OnEnd?
    ensures forall r :: r in TranslateAll(st, cbs, token, imageRoute).1 ==> !r.EndOfStream? && !r.ErrorRecord?
    decreases |cbs|
  {
    if cbs != [] {
      var (st1, rec) := Translate(st, cbs[0], token, imageRoute);
      TranslateNoEnd(st1, cbs[1..], token, imageRoute);
      assert TranslateAll(st, cbs, token, imageRoute).1 == [rec] + TranslateAll(st1, cbs[1..], token, imageRoute).1;
    }
  }

  /** The SDK invoking the handler callback `cb` stands for: the handler and
    * its queue move exactly as the pure translator says. */
  method Fire(h: EventHandler, cb: Callback)
    modifies h, h.sharedData
    ensures h.State() == Translate(old(h.State()), cb, h.token, h.imageRoute).0
    ensures h.sharedData.items == old(h.sharedData.items) + [Translate(old(h.State()), cb, h.token, h.imageRoute).1]
  {
    match cb
    case OnMessageCreated => h.OnMessageCreated();
    case OnTextDelta(delta, snapshot) => h.OnTextDelta(delta, snapshot);
    case OnMessageDone => h.OnMessageDone();
    case OnImageFileDone(fileId) => h.OnImageFileDone(fileId);
    case OnEnd => h.OnEnd();
  }
}
