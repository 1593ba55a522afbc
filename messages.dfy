// Rendering a thread's stored messages for the chat page: annotation text
// is replaced by numbered citations or download links, every content item
// becomes one `<p>` fragment, and assistant messages are named after their
// assistant.

module Messages {
  import opened Wrappers
  import opened PyValues
  import Events

  /** What a call to the assistants service gives: a value, an `OpenAIError`
    * (handled where it is raised), or any other exception (which ends the
    * whole rendering with an empty list). */
  datatype Fetch<T> = Fetched(value: T) | ApiFailure | Crash

  /** A stored annotation: the text it marks, and the file id of its
    * `file_citation` and of its `file_path` when it has them. */
  datatype StoredAnnotation = StoredAnnotation(text: string, fileCitation: Option<string>, filePath: Option<string>)

  datatype ContentItem =
    | TextContent(value: string, annotations: seq<StoredAnnotation>)
    | ImageFileContent(fileId: string)
    | OtherContent(contentType: string)

  datatype StoredMessage = StoredMessage(role: string, assistantId: string, content: seq<ContentItem>)

  /** `{"role": …, "name": …, "message": …}`; an assistant without a name
    * gives `name: None`. */
  datatype FormattedMessage = FormattedMessage(role: string, name: Option<string>, message: string)

  /** The service calls and the URL router, as functions of their arguments. */
  datatype Backend = Backend(
    retrieveFile: string -> Fetch<string>,
    imageBase64: string -> Fetch<string>,
    retrieveAssistant: string -> Fetch<Option<string>>,
    downloadRoute: (string, string) -> string)

  /** Where and for whom the thread is rendered. */
  datatype Page = Page(threadId: string, token: Option<string>, backend: Backend)

  const Unavailable := "(Reference file is not available)"
  const ImageError := "<p>(Error fetching image file)</p>"

  /** The text put in place of a citation: ` [<index + 1>] <file info>`. */
  function CitationMarker(index: nat, fileInfo: string): (r: string)
    ensures StartsWith(r, " [" + IntToString(index + 1) + "] ")
    ensures EndsWith(r, fileInfo)
  {
    " [" + IntToString(index + 1) + "] " + fileInfo
  }

  /** The download link of a generated file, with `?token=<token>` when a
    * token is given. */
  function DownloadLink(page: Page, fileId: string): string {
    page.backend.downloadRoute(page.threadId, fileId)
    + (if Events.HasToken(page.token) then "?token=" + page.token.value else "")
  }

  lemma DownloadLinkToken(page: Page, fileId: string)
    ensures Events.HasToken(page.token) ==>
      DownloadLink(page, fileId) == page.backend.downloadRoute(page.threadId, fileId) + "?token=" + page.token.value
    ensures !Events.HasToken(page.token) ==> DownloadLink(page, fileId) == page.backend.downloadRoute(page.threadId, fileId)
  {
  }

  /** The annotation at position `index` applied to the text: first its
    * citation, then its file path. `None` when a lookup crashed. */
  function Annotate(text: string, index: nat, a: StoredAnnotation, page: Page): Option<string> {
    var cited :=
      if a.fileCitation.None? then Some(text)
      else match page.backend.retrieveFile(a.fileCitation.value)
        case Fetched(filename) => Some(ReplaceAll(text, a.text, CitationMarker(index, "(" + filename + ")")))
        case ApiFailure => Some(ReplaceAll(text, a.text, CitationMarker(index, Unavailable)))
        case Crash => None;
    if cited.None? || a.filePath.None? then cited
    else Some(ReplaceAll(cited.value, a.text, DownloadLink(page, a.filePath.value)))
  }

  /** The annotations from position `i` on, applied in order. */
  function AnnotateFrom(text: string, anns: seq<StoredAnnotation>, i: nat, page: Page): Option<string>
    requires i <= |anns|
    decreases |anns| - i
  {
    if i == |anns| then Some(text)
    else match Annotate(text, i, anns[i], page)
      case None => None
      case Some(t) => AnnotateFrom(t, anns, i + 1, page)
  }

  /** The `<p>` fragment of one content item; `None` when a lookup crashed. */
  function Fragment(item: ContentItem, page: Page): Option<string> {
    match item
    case TextContent(value, anns) =>
      (match AnnotateFrom(value, anns, 0, page)
       case None => None
       case Some(t) => Some("<p>" + t + "</p>"))
    case ImageFileContent(fileId) =>
      (match page.backend.imageBase64(fileId)
       case Fetched(data) => Some(Events.ImageEmbed("data:image/png;base64," + data))
       case ApiFailure => Some(ImageError)
       case Crash => None)
    case OtherContent(t) => Some("<p>Unsupported content type: " + t + "</p>")
  }

  /** The fragments of the items, concatenated in order. */
  function Render(items: seq<ContentItem>, page: Page): (r: Option<string>)
    ensures r.None? <==> exists i :: 0 <= i < |items| && Fragment(items[i], page).None?
  {
    if items == [] then Some("")
    else
      var rest := Render(items[1..], page);
      assert forall i :: 1 <= i < |items| ==> items[1..][i - 1] == items[i];
      match Fragment(items[0], page)
      case None => None
      case Some(f) => if rest.None? then None else Some(f + rest.value)
  }

  /** The `name` of a message; outer `None` when the lookup crashed. */
  function NameOf(m: StoredMessage, page: Page): Option<Option<string>> {
    if m.role == "assistant" then
      match page.backend.retrieveAssistant(m.assistantId)
      case Fetched(name) => Some(name)
      case ApiFailure => Some(Some("assistant"))
      case Crash => None
    else Some(Some(m.role))
  }

  /** `format_message`. */
  function Format(m: StoredMessage, page: Page): Option<FormattedMessage> {
    var content := Render(m.content, page);
    var name := NameOf(m, page);
    if content.None? || name.None? then None
    else Some(FormattedMessage(m.role, name.value, content.value))
  }

  /** All messages formatted, in order; `None` as soon as one crashed. */
  function FormatAll(ms: seq<StoredMessage>, page: Page): (r: Option<seq<FormattedMessage>>)
    ensures r.None? <==> exists i :: 0 <= i < |ms| && Format(ms[i], page).None?
    ensures r.Some? ==> |r.value| == |ms| && forall i :: 0 <= i < |ms| ==> Some(r.value[i]) == Format(ms[i], page)
  {
    if ms == [] then Some([])
    else
      var rest := FormatAll(ms[1..], page);
      assert forall i :: 1 <= i < |ms| ==> ms[1..][i - 1] == ms[i];
      match Format(ms[0], page)
      case None => None
      case Some(f) => if rest.None? then None else Some([f] + rest.value)
  }

  /** `fetch_messages`: `listed` is the first page the ascending listing
    * returns (its `.data`; later pages are never fetched), or `None` when
    * listing them raised. Any failure other than a
    * handled `OpenAIError` gives the empty list. */
  function FetchSpec(listed: Option<seq<StoredMessage>>, page: Page): seq<FormattedMessage> {
    if listed.None? then []
    else match FormatAll(listed.value, page)
      case None => []
      case Some(r) => r
  }

  // ---------------------------------------------------------------------
  // The rendering as the source runs it
  // ---------------------------------------------------------------------

  /** The loop over `enumerate(annotations)` that rewrites `text_content`. */
  method ApplyAnnotations(value: string, anns: seq<StoredAnnotation>, page: Page) returns (text: Option<string>)
    ensures text == AnnotateFrom(value, anns, 0, page)
  {
    var t := value;
    var i := 0;
    while i < |anns|
      invariant 0 <= i <= |anns|
      invariant AnnotateFrom(t, anns, i, page) == AnnotateFrom(value, anns, 0, page)
    {
      var next := Annotate(t, i, anns[i], page);
      if next.None? {
        return None;
      }
      t := next.value;
      i := i + 1;
    }
    text := Some(t);
  }

  /** One content item: a text with its annotations applied, an image as an
    * embedded data URL, or a note for any other type. */
  method RenderItem(item: ContentItem, page: Page) returns (fragment: Option<string>)
    ensures fragment == Fragment(item, page)
  {
    match item {
      case TextContent(value, anns) =>
        var text := ApplyAnnotations(value, anns, page);
        fragment := if text.None? then None else Some("<p>" + text.value + "</p>");
      case ImageFileContent(fileId) =>
        match page.backend.imageBase64(fileId) {
          case Fetched(data) => fragment := Some(Events.ImageEmbed("data:image/png;base64," + data));
          case ApiFailure => fragment := Some(ImageError);
          case Crash => fragment := None;
        }
      case OtherContent(t) =>
        fragment := Some("<p>Unsupported content type: " + t + "</p>");
    }
  }

  /** What has been built so far, followed by what is still to come. */
  function Prefixed<T>(prefix: seq<T>, rest: Option<seq<T>>): Option<seq<T>> {
    if rest.None? then None else Some(prefix + rest.value)
  }

  lemma PrefixedEmpty<T>(o: Option<seq<T>>)
    ensures Prefixed([], o) == o
  {
    if o.Some? {
      assert [] + o.value == o.value;
    }
  }

  /** One content item further into the rendering. */
  lemma RenderStep(items: seq<ContentItem>, i: nat, page: Page, content: string)
    requires i < |items|
    ensures Fragment(items[i], page).None? ==> Render(items[i..], page).None?
    ensures Fragment(items[i], page).Some? ==>
      Prefixed(content, Render(items[i..], page)) == Prefixed(content + Fragment(items[i], page).value, Render(items[i + 1..], page))
  {
    assert items[i..][1..] == items[i + 1..];
    assert items[i..][0] == items[i];
    var rest := Render(items[i + 1..], page);
    if Fragment(items[i], page).Some? && rest.Some? {
      var f := Fragment(items[i], page).value;
      assert content + (f + rest.value) == (content + f) + rest.value;
    }
  }

  /** One message further into the listing. */
  lemma FormatAllStep(ms: seq<StoredMessage>, i: nat, page: Page, out: seq<FormattedMessage>)
    requires i < |ms|
    ensures Format(ms[i], page).None? ==> FormatAll(ms[i..], page).None?
    ensures Format(ms[i], page).Some? ==>
      Prefixed(out, FormatAll(ms[i..], page)) == Prefixed(out + [Format(ms[i], page).value], FormatAll(ms[i + 1..], page))
  {
    assert ms[i..][1..] == ms[i + 1..];
    assert ms[i..][0] == ms[i];
    var rest := FormatAll(ms[i + 1..], page);
    if Format(ms[i], page).Some? && rest.Some? {
      var f := Format(ms[i], page).value;
      assert out + ([f] + rest.value) == (out + [f]) + rest.value;
    }
  }

  /** `format_message`: the content items rendered one after the other into
    * `content`, then the name looked up. */
  method FormatMessage(m: StoredMessage, page: Page) returns (r: Option<FormattedMessage>)
    ensures r == Format(m, page)
  {
    var content := "";
    var i := 0;
    assert m.content[0..] == m.content;
    PrefixedEmpty(Render(m.content, page));
    while i < |m.content|
      invariant 0 <= i <= |m.content|
      invariant Render(m.content, page) == Prefixed(content, Render(m.content[i..], page))
    {
      var fragment := RenderItem(m.content[i], page);
      RenderStep(m.content, i, page, content);
      if fragment.None? {
        return None;
      }
      content := content + fragment.value;
      i := i + 1;
    }
    assert m.content[i..] == [];
    assert content + "" == content;
    var name := NameOf(m, page);
    if name.None? {
      return None;
    }
    r := Some(FormattedMessage(m.role, name.value, content));
  }

  /** `fetch_messages`: each message formatted in order (the concurrent
    * `gather` keeps that order), or the empty list on any failure. */
  method FetchMessages(listed: Option<seq<StoredMessage>>, page: Page) returns (r: seq<FormattedMessage>)
    ensures r == FetchSpec(listed, page)
  {
    if listed.None? {
      return [];
    }
    var ms := listed.value;
    var out: seq<FormattedMessage> := [];
    var i := 0;
    assert ms[0..] == ms;
    PrefixedEmpty(FormatAll(ms, page));
    while i < |ms|
      invariant 0 <= i <= |ms|
      invariant FormatAll(ms, page) == Prefixed(out, FormatAll(ms[i..], page))
    {
      var f := FormatMessage(ms[i], page);
      FormatAllStep(ms, i, page, out);
      if f.None? {
        return [];
      }
      out := out + [f.value];
      i := i + 1;
    }
    assert ms[i..] == [];
    assert out + [] == out;
    r := out;
  }

  // ---------------------------------------------------------------------
  // Properties
  // ---------------------------------------------------------------------

  /** Either every message is rendered, in order and with its role, or none
    * is. */
  lemma AllOrNothing(listed: Option<seq<StoredMessage>>, page: Page)
    ensures var r := FetchSpec(listed, page);
      r == [] || (listed.Some? && |r| == |listed.value|
                  && forall i :: 0 <= i < |r| ==> r[i].role == listed.value[i].role)
    ensures listed.Some? && (exists i :: 0 <= i < |listed.value| && Format(listed.value[i], page).None?)
            ==> FetchSpec(listed, page) == []
  {
    if listed.Some? {
      var ms := listed.value;
      var all := FormatAll(ms, page);
      if all.Some? {
        forall i | 0 <= i < |ms|
          ensures all.value[i].role == ms[i].role
        {
          assert Some(all.value[i]) == Format(ms[i], page);
        }
      }
    }
  }

  /** A message's name is its role, except that an assistant message is named
    * after its assistant, or "assistant" when that lookup fails. */
  lemma NamePolicy(m: StoredMessage, page: Page)
    ensures var f := Format(m, page);
      f.Some? ==> f.value.role == m.role
                  && (m.role != "assistant" ==> f.value.name == Some(m.role))
                  && (m.role == "assistant" && page.backend.retrieveAssistant(m.assistantId).ApiFailure? ==> f.value.name == Some("assistant"))
                  && (m.role == "assistant" && page.backend.retrieveAssistant(m.assistantId).Fetched? ==>
                        f.value.name == page.backend.retrieveAssistant(m.assistantId).value)
  {
  }

  /** Every fragment is one `<p>…</p>` paragraph. */
  lemma FragmentWrapped(item: ContentItem, page: Page)
    requires Fragment(item, page).Some?
    ensures StartsWith(Fragment(item, page).value, "<p>") && EndsWith(Fragment(item, page).value, "</p>")
  {
  }

  /** A rendered message of at least one item opens with `<p>` and closes
    * with `</p>`. */
  lemma {:induction false} RenderWrapped(items: seq<ContentItem>, page: Page)
    requires items != [] && Render(items, page).Some?
    ensures StartsWith(Render(items, page).value, "<p>") && EndsWith(Render(items, page).value, "</p>")
  {
    var f := Fragment(items[0], page).value;
    FragmentWrapped(items[0], page);
    var rest := Render(items[1..], page).value;
    assert Render(items, page).value == f + rest;
    assert (f + rest)[..3] == f[..3];
    if items[1..] != [] {
      RenderWrapped(items[1..], page);
      assert (f + rest)[|f + rest| - 4..] == rest[|rest| - 4..];
    } else {
      assert rest == "";
      assert f + rest == f;
    }
  }

  /** Annotations whose text does not occur leave the text as it was, so the
    * item renders as its own text in one paragraph. */
  lemma {:induction false} AbsentAnnotationsUnchanged(value: string, anns: seq<StoredAnnotation>, i: nat, page: Page)
    requires i <= |anns|
    requires forall j :: i <= j < |anns| ==> anns[j].text != "" && !Contains(value, anns[j].text)
    requires forall j :: i <= j < |anns| && anns[j].fileCitation.Some? ==> !page.backend.retrieveFile(anns[j].fileCitation.value).Crash?
    ensures AnnotateFrom(value, anns, i, page) == Some(value)
    decreases |anns| - i
  {
    if i < |anns| {
      var a := anns[i];
      if a.fileCitation.Some? {
        match page.backend.retrieveFile(a.fileCitation.value)
        case Fetched(filename) => ReplaceAbsent(value, a.text, CitationMarker(i, "(" + filename + ")"));
        case ApiFailure => ReplaceAbsent(value, a.text, CitationMarker(i, Unavailable));
      }
      if a.filePath.Some? {
        ReplaceAbsent(value, a.text, DownloadLink(page, a.filePath.value));
      }
      assert Annotate(value, i, a, page) == Some(value);
      AbsentAnnotationsUnchanged(value, anns, i + 1, page);
    }
  }

  lemma TextWithoutMatchesUnchanged(value: string, anns: seq<StoredAnnotation>, page: Page)
    requires forall j :: 0 <= j < |anns| ==> anns[j].text != "" && !Contains(value, anns[j].text)
    requires forall j :: 0 <= j < |anns| && anns[j].fileCitation.Some? ==> !page.backend.retrieveFile(anns[j].fileCitation.value).Crash?
    ensures Fragment(TextContent(value, anns), page) == Some("<p>" + value + "</p>")
  {
    AbsentAnnotationsUnchanged(value, anns, 0, page);
  }

  /** A file citation at position `index` whose text occurs is replaced by
    * ` [<index + 1>] (<filename>)`, or by the "not available" note when the
    * file cannot be retrieved. */
  lemma CitationNumbered(text: string, index: nat, a: StoredAnnotation, page: Page)
    requires a.text != "" && Contains(text, a.text)
    requires a.fileCitation.Some? && a.filePath.None?
    requires !page.backend.retrieveFile(a.fileCitation.value).Crash?
    ensures var r := Annotate(text, index, a, page);
      r.Some? &&
      match page.backend.retrieveFile(a.fileCitation.value)
      case Fetched(filename) => Contains(r.value, CitationMarker(index, "(" + filename + ")"))
      case ApiFailure => Contains(r.value, CitationMarker(index, Unavailable))
      case Crash => false
  {
    match page.backend.retrieveFile(a.fileCitation.value)
    case Fetched(filename) => ReplaceInserts(text, a.text, CitationMarker(index, "(" + filename + ")"));
    case ApiFailure => ReplaceInserts(text, a.text, CitationMarker(index, Unavailable));
  }

  /** A file-path annotation whose text occurs is replaced by the download
    * link, which carries the token exactly when one is given. */
  lemma FilePathLinked(text: string, index: nat, a: StoredAnnotation, page: Page)
    requires a.text != "" && Contains(text, a.text)
    requires a.fileCitation.None? && a.filePath.Some?
    ensures var r := Annotate(text, index, a, page);
      r.Some? && Contains(r.value, DownloadLink(page, a.filePath.value))
  {
    ReplaceInserts(text, a.text, DownloadLink(page, a.filePath.value));
  }
}
