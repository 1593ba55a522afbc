# open-assistants: a verified model of the assistant relay and its helpers

This project models, in Dafny, the core of a Django application that fronts
the OpenAI Assistants API. It covers:

- **The event translator.** The `EventHandler` callback objects of
  `oa/api/utils.py` and `oa/main/views.py` (`events.dfy`). Each callback
  updates the handler's current message and annotations and appends one
  record to a list it shares with the relay.
- **The relay.** `stream_responses.event_stream` in `oa/main/views.py`, with
  its copy in `oa/api/views.py` (`relay.dfy`).
  - It drains the shared list into `data: …` server-sent-event frames.
  - It answers a `requires_action` event with one tool output per tool
    call, then resumes the run on a fresh handler without a token.
  - Its final drain stops at the first `end_of_stream`.
  - Any exception becomes one `error` frame.
  - It is proved twice over. An imperative method (`EventStream`) works
    over a shared-queue object. It is tied to a pure reference function
    (`RelayStream`), and the properties are proved about that function.
- **`serialize_to_dict` and credential resolution** of `oa/api/utils.py`
  (`api_utils.dfy`).
- **The file-upload endpoint**: the supported-file check, the upload loop
  and the vector-store assignment (`uploads.dfy`).
- **The chat page's handling of threads and links**:
  - stored-message rendering (`fetch_messages`, `messages.dfy`);
  - the five-link limit of `share_assistant` (`sharing.dfy`).
- **Function and tool definitions**:
  - the definition builders and request planners of stored functions
    (`function_models.dfy`), stored HTTP tools (`tools.dfy`) and
    Python-class tools (`assistant_tool.dfy`);
  - the JSON-schema building they share (`schemas.dfy`);
  - the header and argument placement they share (`http.dfy`).
- **The functions API** (`function_api.dfy`): creation defaults, the
  partial update, listing, and the access rule for executions.
- **The `__str__` helpers and `get_partial_key`** of the main models
  (`main_models.dfy`).

Python values (`None`, booleans, numbers, strings, lists, dicts and objects
with `__dict__` or `_asdict`) are the datatype `PyValues.Py`. A dict is a
sequence of entries in insertion order. `pyvalues.dfy` also gives Python's
`x or y`, `dict[k] = v`, `dict.update`, `dict.pop`, `str.replace`,
`str.rfind`, slicing and `str.lower` on those values.

Imperative code is modelled imperatively:

- the handler and the shared list are classes;
- the drains, the dispatch loop and the rendering loops are `while` loops;
- the link table and the function table are classes whose methods update
  them.

Each such method is tied by its postcondition to a function of its inputs,
and the properties are lemmas about those functions.

## Model

| member | source | states |
|---|---|---|
| ApiUtils.SerializeToDict | oa/api/utils.py:16-29 | Primitives come back unchanged. The call succeeds exactly when every visited value is a primitive, list, dict, `__dict__` object or `_asdict` object, and the result then holds no object. Lists keep length and order and dicts keep their keys, each element converted. A `__dict__` object becomes a dict of exactly its attributes not starting with `_`, in order, each value converted. An object with only `_asdict` becomes the keys of `_asdict()` in order, each value converted. Any other object raises the `not serializable` TypeError. |
| ApiUtils.SerializeList | oa/api/utils.py:22-23 | The list comprehension succeeds iff every element converts; the result has one converted element per element, in order. |
| ApiUtils.SerializeEntries | oa/api/utils.py:20-21 | The dict comprehension keeps the keys in order and converts every value; it fails iff some value does not convert. |
| ApiUtils.SerializeObject | oa/api/utils.py:24-29 | The `__dict__` branch gives exactly the public attributes, in order, each value converted. `_asdict` is used only without `__dict__`, and gives its keys in order, each value converted. An object with neither raises the TypeError. |
| ApiUtils.PlainIsFixedPoint | oa/api/utils.py:16-29 | A value built of primitives, lists and dicts converts to itself. |
| ApiUtils.SerializeIdempotent | oa/api/utils.py:16-29 | Converting a converted value changes nothing. |
| ApiUtils.FindProject | oa/api/utils.py:50 | The project lookup finds a row of that id owned by that user, or there is none. |
| ApiUtils.FirstProjectOf | oa/api/utils.py:54-56 | A project of the user that no earlier row of the user precedes (the first in table order), or none exactly when the user owns no project. |
| ApiUtils.FindLink | oa/api/utils.py:75 | The presented token is parsed as a UUID first: text that is not a UUID raises `ValidationError`. Otherwise the link whose stored token is the canonical form, or none exactly when no link has it. |
| ApiUtils.UserProject | oa/api/utils.py:47-57 | There are four outcomes. A non-integer id gives 400 "Invalid project id.". An integer id that is not the user's gives the 500 "Project not found" of `aget_object_or_404`. No id and no project gives 404 "No OpenAI key found.". Otherwise the project is the user's own, with the given id when one was given. |
| ApiUtils.ResolveClientKey | oa/api/utils.py:60-81 | For a user, success and failure are those of `aget_user_project` with the session's `selected_project_id`, and the key is that project's key. For an anonymous request, the key of the project of the link whose token it presents. 401 exactly when anonymous without a token; a `ValidationError` exactly when the token is not a UUID; 403 exactly when it is a UUID that matches no link. 401, 403 and `ValidationError` only for anonymous requests, 400, 404 and 500 only for users. |
| ApiUtils.HeaderTokenTakesPrecedence | oa/api/utils.py:72 | With a non-empty `X-Token` header the `token` query parameter never changes the outcome. |
| ApiUtils.TokenSpellingIrrelevant | oa/api/utils.py:72-76 | Two spellings of the same UUID (case, hyphens) give the same outcome: only the canonical token is compared. |
| Events.NormalizeAll | oa/api/utils.py:101-114 | One annotation record per snapshot annotation, in order, file citations carrying the file id and "Unknown File". |
| Events.RecordToPy | oa/api/utils.py:92-147 | Every queued record is a dict whose first key is `type`, naming the callback that queued it. |
| Events.ImageUrlToken | oa/main/views.py:108-113 | The image URL extends the routed path, and does so exactly when the handler has a token, by `?token=<token>`. |
| Events.SharedQueue.constructor | oa/main/views.py:177 | The shared list starts empty. |
| Events.EventHandler.constructor | oa/main/views.py:56-62 | A new handler has an empty message, no annotations, is not done, and keeps its queue and token. |
| Events.EventHandler.OnMessageCreated | oa/api/utils.py:92-95 | Resets message and annotations; appends exactly `message_created` to the queue. |
| Events.EventHandler.OnTextDelta | oa/api/utils.py:97-121 | The message grows by the delta (unchanged for an empty one); the annotations are rebuilt from the snapshot alone; one `text_delta` record with the new text and annotations is appended. |
| Events.EventHandler.OnMessageDone | oa/api/utils.py:123-129 | Appends one `message_done` record with the current text and annotations; nothing else changes. |
| Events.EventHandler.OnImageFileDone | oa/main/views.py:108-120 | Appends the `<img>` embed of the image URL (with the token when there is one) to the message; appends one `image_file` record with empty annotations. |
| Events.EventHandler.OnEnd | oa/api/utils.py:145-147 | Sets `stream_done`; appends `end_of_stream`; message and annotations unchanged. |
| Events.TranslateAll | oa/api/utils.py:92-147 | A run of callbacks queues exactly one record per callback. |
| Events.TextOnlyGrows | oa/api/utils.py:97-136 | Between two `message_created` callbacks the text only grows: each text-carrying record (delta, image or message-done) extends the text before it and is extended by the final text. |
| Events.AnnotationsNotAccumulated | oa/api/utils.py:101-114 | A delta's annotations depend on its snapshot only, never on earlier deltas; every file citation is named "Unknown File". |
| Events.TranslateNoEnd | oa/api/utils.py:92-143 | No callback other than `on_end` queues `end_of_stream`, and none queues an `error` record. |
| Events.Fire | oa/api/utils.py:92-147 | Firing a callback moves the handler and appends to its queue exactly as the pure translator says, keeping earlier records. |
| PyValues.FirstUnencodable | oa/api/views.py:558 | `json.dumps` of a tool result fails exactly when the result holds an object. |
| Relay.CallOutput | oa/api/views.py:550-564 | An unregistered name gives `{"error": "Function <name> not found"}`. A raising handler gives `{"error": "Error executing function <name>: <msg>"}`, and so does a result `json.dumps` cannot encode. Otherwise the output is `json.dumps` of the result. |
| Relay.DispatchOutputs | oa/api/views.py:543-566 | The batch succeeds exactly when every call's arguments are JSON. It then has one output per call, in call order, each echoing its call's id. Otherwise it fails with the decoding error of the first malformed call. |
| Relay.DispatchBatch | oa/main/views.py:197-224 | The tool-call loop computes exactly the batch result above, stopping at the first malformed argument string. |
| Relay.UpToEndPrefix | oa/api/views.py:594-600 | The final drain sends a prefix of the queue with no `end_of_stream` before its last frame. |
| Relay.UpToEndStops | oa/api/views.py:594-600 | What it sends ends with `end_of_stream` exactly when the queue holds one. |
| Relay.Drain | oa/api/views.py:586-592 | Draining empties the queue and sends one `data: <json>\n\n` frame per record, in FIFO order. |
| Relay.FinalDrain | oa/main/views.py:254-261 | The post-stream drain sends the frames of the queue up to and including the first `end_of_stream`, and nothing after it. |
| Relay.PlainRunRecords | oa/main/views.py:186-261 | Without tool calls the client gets the records of the handler's callbacks, in order, followed by one `end_of_stream`. |
| Relay.EndOfStreamCount | oa/main/views.py:226-261 | The handlers never produce an `error` record. A run that completes sends one `end_of_stream` per submission plus one, and ends with it. A run that raised sends at most one per submission. |
| Relay.ErrorFrameLast | oa/main/views.py:263-266 | The client sees at most one `error` frame, and it is the last thing sent exactly when the relay raised. |
| Relay.SubmissionsAnswerActions | oa/main/views.py:190-235 | Every submission answers a `requires_action` event of the outer stream: it carries that event's run id and its batch's outputs. Events inside a resumed stream are never answered. |
| Relay.ActionsAnsweredInOrder | oa/main/views.py:190-235 | The submissions answer the outer `submit_tool_outputs` events one each, in order, up to where the relay raised. A relay that did not raise answers every one of them. |
| Relay.RunResumed | oa/main/views.py:226-244 | The resumed stream runs a fresh handler without a token on the same queue, drains after every event, and sends exactly the frames of its callbacks' records. Its own `end_of_stream` is left on the queue. |
| Relay.AnswerRequiredAction | oa/main/views.py:190-244 | The `requires_action` branch gives the batch's outputs and, when they exist, the resumed stream's frames. |
| Relay.HandleEvent | oa/main/views.py:186-252 | One upstream event moves the handler, sends the frames and makes the submissions the reference step gives, or raises into the error frame. |
| Relay.EventStream | oa/main/views.py:176-266 | `event_stream` yields exactly the frames, and submits exactly the tool outputs, that the reference relay gives for the same upstream stream. |
| Relay.MainStreamResponses | oa/main/views.py:166-271 | An `APIError` from client resolution answers JSON `{"error": msg}` with its status before any stream opens. A token that is not a UUID raises `ValidationError` out of the view, which `except APIError` does not catch. Otherwise the response is an event stream with `Cache-Control: no-cache` and `X-Accel-Buffering: no`, and its handler gets the `token` query parameter. |
| Relay.ApiStreamResponses | oa/api/views.py:522-610 | The API's stream response carries the same two headers and its handler has no token. |
| Uploads.TableWellFormed | oa/api/views.py:242-261 | Every supported extension is a dot, then lower-case text with no dot. |
| Uploads.NoDotUnsupported | oa/api/views.py:263-265 | A name without a dot is never supported. |
| Uploads.SupportedSuffix | oa/api/views.py:263-265 | Any name ending in a listed extension is supported: only the text after the last dot decides. |
| Uploads.SupportIgnoresCase | oa/api/views.py:263-265 | The check ignores letter case. |
| Uploads.UploadsPartitioned | oa/api/views.py:267-286 | Every upload is either listed as uploaded or as failed, never both. `failed_files` holds a `{filename, error}` entry for exactly the uploads whose creation raised, with their name and message. |
| Uploads.CreatedWhereSound | oa/api/views.py:267-286 | Every listed file is a created upload passing the filter. |
| Uploads.CreatedWhereComplete | oa/api/views.py:267-286 | Every created upload passing the filter is listed. |
| Uploads.SupportedFilesExactly | oa/api/views.py:276-280 | The supported files are exactly the created uploads whose name passes `is_supported_file`, and no more than the uploaded ones. |
| Uploads.UploadAll | oa/api/views.py:267-286 | The upload loop builds exactly the uploaded, failed and supported lists. |
| Uploads.AssignToStores | oa/api/views.py:288-302 | For each selected store: one batch call with all supported ids when there are several, one single-file call when there is one, none when there is none. A missing store list counts as empty. |
| Uploads.UploadFiles | oa/api/views.py:239-309 | The endpoint answers the three lists and the store ids. It makes no store call when no file is supported; otherwise one call per store: a batch of every supported file id when there are several, the single id when there is one. |
| Messages.CitationMarker | oa/main/views.py:314 | The replacement of a citation opens with ` [<index + 1>] ` and ends with the file information. |
| Messages.DownloadLinkToken | oa/main/views.py:319-323 | The download link carries `?token=<token>` exactly when a token is given. |
| Messages.Render | oa/main/views.py:296-339 | The content renders unless some item's lookup crashed. |
| Messages.FormatAll | oa/main/views.py:358-362 | All messages are formatted, one result per message in order, or none when one crashed. |
| Messages.ApplyAnnotations | oa/main/views.py:302-326 | The annotation loop rewrites the text exactly as the annotations applied in order. |
| Messages.RenderItem | oa/main/views.py:297-339 | One content item renders as its text fragment, its image embed or the "Unsupported content type" note. |
| Messages.FormatMessage | oa/main/views.py:293-356 | `format_message` builds the content item by item and names the message as `Format` says. |
| Messages.FetchMessages | oa/main/views.py:285-365 | `fetch_messages` returns every message formatted, in order, or `[]` on any failure other than a handled lookup error. |
| Messages.AllOrNothing | oa/main/views.py:358-365 | The result is empty or has one entry per message with its role; a crash anywhere empties it. |
| Messages.NamePolicy | oa/main/views.py:341-350 | A non-assistant message is named by its role; an assistant message by its assistant's name, or "assistant" when that lookup fails. |
| Messages.FragmentWrapped | oa/main/views.py:328-339 | Every content item renders as one `<p>…</p>` paragraph. |
| Messages.RenderWrapped | oa/main/views.py:328-339 | A message with content opens with `<p>` and closes with `</p>`. |
| Messages.AbsentAnnotationsUnchanged | oa/main/views.py:302-326 | Annotations whose text does not occur leave the text unchanged. |
| Messages.TextWithoutMatchesUnchanged | oa/main/views.py:298-328 | Such a text item renders as its own text in one paragraph. |
| Messages.CitationNumbered | oa/main/views.py:304-314 | A citation at position `i` whose text occurs puts ` [i+1] (<filename>)` in the text, or the "not available" note when the file cannot be retrieved. |
| Messages.FilePathLinked | oa/main/views.py:317-326 | A file-path annotation whose text occurs puts the download link in the text. |
| Sharing.LinksFor | oa/main/views.py:572 | The links counted are exactly those of that assistant and project. |
| Sharing.SelectedProject | oa/main/views.py:559-568 | The session's project id, else the query's. None gives "No project selected."; a non-integer id or one that is not the user's gives "Invalid project selected."; otherwise the user's project with that id. No other answer is possible. |
| Sharing.ViewsOf | oa/main/views.py:596-599 | One view per link, in order. |
| Sharing.LinkTable.ShareAssistant | oa/main/views.py:553-606 | The view answers and updates the link table exactly as `Share` says. |
| Sharing.ShareAddsAtMostOne | oa/main/views.py:570-589 | One call adds at most one link: only on a POST that succeeds, with fewer than five links for that assistant and project, and for them. Every other call leaves the table unchanged. |
| Sharing.PostAtLimitRefused | oa/main/views.py:572-577 | A POST with five or more links creates nothing and answers the info status. |
| Sharing.GetListsExactly | oa/main/views.py:591-604 | A GET changes nothing, answers "no links" exactly when the pair has none, and otherwise lists one view per link of the pair. |
| Sharing.LinkLimitHolds | oa/main/views.py:570-589 | Any series of calls run one after another, by any users, for any assistants, with any methods, tokens and failures, keeps every assistant and project at or below five links. |
| Http.BuildHeaders | oa/tools/models.py:35-37 | An `Authorization: Bearer <token>` header exactly when a bearer token is set, and no other header. |
| Http.ArgumentsPlacement | oa/tools/models.py:40-48 | GET sends the arguments as query parameters; every other method sends them as a JSON body. |
| FunctionModels.StoredFunction.Save | oa/function_calls/models.py:24-27 | An empty slug becomes `slugify(name)`; a non-empty one is kept; no other field changes. |
| FunctionModels.StoredFunction.GetDefinition | oa/function_calls/models.py:29-36 | Exactly the keys `name`, `description` and `parameters`, the last being the argument schema. |
| FunctionModels.SaveKeepsSlug | oa/function_calls/models.py:24-27 | A non-empty slug survives a save, and saving twice is saving once. |
| FunctionModels.ExtraContextOverrides | oa/function_calls/models.py:65-68 | In the environment, extra-context keys win, even over `kwargs`; `kwargs` holds the arguments; nothing else is bound. |
| FunctionModels.LocalExecute | oa/function_calls/models.py:59-98 | The answer always has type "local", the slug and the result type. Status 400 with the message and no result when the code raises. Otherwise status 200 with exactly the final variables whose names are not dunders, unless one of them holds a value JSON cannot encode: `execute` then raises the `not JSON serializable` TypeError. |
| FunctionModels.PlanExternalRequest | oa/function_calls/models.py:113-133 | A `url` argument overrides the endpoint and is not forwarded; with neither there is a ValueError. The Bearer header is sent only with a token. GET goes to the chosen URL with the arguments as params. Other methods go to the stored endpoint, not the override, with a JSON body. |
| FunctionModels.ExternalResult | oa/function_calls/models.py:135-144 | A JSON answer is decoded; any other answer is returned as raw content. An error status, and any exception raised in the client that is not a transport error, propagates unchanged. A transport error becomes `RuntimeError("Request failed: …")`. |
| FunctionModels.ExternalExecute | oa/function_calls/models.py:113-144 | Nothing is sent exactly when there is no target; otherwise the request sent is the planned one (method, Bearer header iff a token, GET to the `url` argument with params, other methods to the stored endpoint with a JSON body, the arguments other than `url`), and the result is the shaping of its answer. |
| FunctionSchemas.PropertiesKeys | oa/tools/models.py:25-29 | The properties have a key for each parameter name and no other. |
| FunctionSchemas.PropertiesUnique | oa/tools/models.py:25-29 | No property key occurs twice. |
| FunctionSchemas.PropertiesLastWins | oa/tools/models.py:25-29 | A name's property is that of its last parameter. |
| FunctionSchemas.RequiredExactly | oa/tools/models.py:30-31 | `required` lists exactly the required parameters' names. |
| Tools.ParameterLabel | oa/tools/models.py:67-68 | `<tool name>::<parameter name>`. |
| Tools.GetDescription | oa/tools/models.py:14-32 | The loop over the parameters builds exactly the reference description. |
| Tools.DescriptionShape | oa/tools/models.py:15-24 | Keys `name`, `description`, `strict` (true) and `parameters`, whose `type` is "object". |
| Tools.ParametersListed | oa/tools/models.py:25-29 | The properties are keyed by exactly the parameters' names. |
| Tools.RequiredParameters | oa/tools/models.py:30-31 | `required` holds exactly the names of the required parameters. |
| Tools.PropertyOfParameter | oa/tools/models.py:26-29 | A parameter's property is its type label and description. |
| Tools.Execute | oa/tools/models.py:34-53 | The request always goes to the stored endpoint, with the Bearer header exactly when a token is set. GET sends the arguments as params and other methods as a JSON body. A request failure becomes `RuntimeError("API request failed: …")`. |
| AssistantTools.Execute | oa/tools-x/base.py:9-13 | `None` exactly when `main` returns (its value dropped); `{'Error': <message>}` when it raises. |
| AssistantTools.TypeName | oa/tools-x/base.py:53-58 | "string" without an annotation, the text of a string annotation, the class name for a class, and `AttributeError` for an annotation without `__name__`. |
| AssistantTools.Definition | oa/tools-x/base.py:15-66 | The loop over the constructor's signature gives exactly the reference definition. It raises `UnboundLocalError` when the constructor has no docstring and a parameter other than `self` exists, and otherwise `AttributeError` when such a parameter's annotation has no `__name__`. |
| AssistantTools.RowsAreNonSelf | oa/tools-x/base.py:47-50 | The rows are exactly those of the parameters other than `self`. |
| AssistantTools.SelfNeverListed | oa/tools-x/base.py:47-64 | `self` is never a property or required. Every other parameter is a property, and it is required exactly when it has no default. |
| FunctionApi.WithDefaults | oa/function_calls/api.py:139-146 | Omitted fields default to "", `{}`, "", `{}`, "application/json" and version 1. |
| FunctionApi.CreatedDefaults | oa/function_calls/api.py:139-164 | A function created without version or result type gets version 1 and JSON results. It is linked to exactly the creating project, and its slug comes from its name. |
| FunctionApi.Patched | oa/function_calls/api.py:181-208 | The update never changes uuid, slug, version or project links, and an empty payload changes nothing. |
| FunctionApi.PatchIdempotent | oa/function_calls/api.py:196-208 | Applying the same update twice is applying it once. |
| FunctionApi.FunctionObject.ApplyUpdate | oa/function_calls/api.py:196-210 | The field-by-field assignments and the save give exactly the patched, saved function. |
| FunctionApi.FindLinked | oa/function_calls/api.py:193 | The function with that uuid linked to the caller's project, or none. |
| FunctionApi.FunctionTable.UpdateFunction | oa/function_calls/api.py:190-224 | The view answers and updates the table exactly as `UpdateSpec` says. |
| FunctionApi.UpdateTouchesOnlyTarget | oa/function_calls/api.py:190-224 | "Not found" exactly when no function has that uuid and the caller's project. An update exactly when, in addition, the save succeeds. Only that function changes; its version, uuid and links never do. Each of the six updatable fields keeps its value when omitted, and on an update the stored function holds every given field's new value. |
| FunctionApi.ListFunctions | oa/function_calls/api.py:39-50 | One entry per local function, in order, each of type "local". |
| FunctionApi.FindBySlug | oa/function_calls/api.py:87 | The function with that slug, or none exactly when no function has it. |
| FunctionApi.GetFunctionExecutions | oa/function_calls/api.py:84-110 | An empty list for an unknown slug or a local function not linked to the caller's project; otherwise that function's executions. |
| FunctionApi.ExecutionsExactly | oa/function_calls/api.py:95-108 | The list holds exactly the executions of that function. |
| FunctionApi.ExecutionsKeepOrder | oa/function_calls/api.py:95 | Rows given newest first are listed newest first. |
| MainModels.PartialKey | oa/main/models.py:19-22 | `None` exactly for an empty key. Otherwise the first eight characters (or the whole key), `...`, then the last five (or the whole key). |
| MainModels.PartialKeyHidesMiddle | oa/main/models.py:21 | A key longer than 13 shows as `key[:8] + "..." + key[-5:]`, 16 characters long, and a key longer than 16 is never shown whole. |
| MainModels.ProjectLabel | oa/main/models.py:16-17 | The name when it is set and not empty, else the partial key; `None` exactly when both are empty, in which case `str()` raises `TypeError`. |
| MainModels.ThreadLabel | oa/main/models.py:31-32 | The OpenAI id when set and not empty, else the uuid. |
| MainModels.SharedLinkLabel | oa/main/models.py:42-43 | "Shared link for " followed by the assistant id. |

## Left out

- The asynchronous machinery is modelled as sequential steps over an input sequence of events. That covers `async`/`await`, `asyncio.to_thread`, `asyncio.sleep(0)` and the `StreamingHttpResponse` generator. `asyncio.gather` keeps order, so `fetch_messages` is a sequential map.
- The OpenAI SDK is not modelled. Upstream streams are `Relay.Stream` values; file, image, assistant and message lookups are functions in `Messages.Backend`; file creation in the upload view is a per-file outcome. Vector-store calls are returned as a list of planned calls, and their exceptions are not modelled.
- The SDK's timing of `on_end` is taken as after the last event of a stream. The resumed handler's `end_of_stream` therefore goes out with the drain that follows the `requires_action` event.
- `exec`, HTTP transport (httpx, requests), `json.dumps`/`json.loads`, `slugify`, `reverse`, `build_absolute_uri` and base64 are parameters or inputs. `json.loads` of tool arguments is an already-decided `Relay.Args` value.
- The function registry (`FUNCTION_IMPLEMENTATIONS`) is an input map. Instantiating a class and running `main` is one outcome per argument value.
- Database reads are sequences in table order, and ordering (`order_by('-time')`, primary-key order for `afirst`) is that of the input sequence. Writes are the methods of `Sharing.LinkTable` and `FunctionApi.FunctionTable`.
- `function_calls/api.py` addresses local functions by uuid and links them to projects through a `projects` relation. `function_calls/models.py` shows a single `project` foreign key instead. The API file is followed.
- `datetime.isoformat` and the uuid-to-text conversions are abstracted: times are integers and uuids are their canonical text. Parsing a shared-link token as a UUID is the input `parseUuid`.
- FunctionApi.FindLinked: the `uuid` column of local functions is not shown in `oa/function_calls/models.py`, so the path parameter is compared as text. If that column is a UUID field, text that is not a UUID would raise and other spellings of the same UUID would match; neither is modelled. If two rows shared a uuid and both were linked to the caller's project, `aget` would raise `MultipleObjectsReturned`, which the view does not catch; the model updates the first of them instead.
- Sharing.LinkLimitHolds: the limit holds only when calls run one after another. The count and the create are not atomic, so concurrent POSTs at four links can each pass the check and leave more than five links.
- FunctionModels.LocalExecute: `JsonResponse`'s encoder also accepts datetimes, decimals and UUIDs, which `PyValues.Py` has no case for; every object value is taken as one it refuses.
- The SDK is taken to fire at most one handler callback per upstream event. It can fire two for one event, for example `on_image_file_done` and then `on_message_done`. The model reads such an event as two events in a row, which sends the same frames.
- `int()` is modelled on an optional sign followed by decimal digits. Surrounding whitespace and underscores, which Python accepts, are not.
- `str.lower` is modelled on ASCII letters only.
- The AssistantTool docstring parsing (`docstring_parser`) and `inspect.signature` are inputs: a map of documented parameters and a list of signature parameters.
- Messages.Annotate: a citation whose `file_id` is `None` is looked up like any other id; what the SDK does with `None` is not modelled.
- Sharing.Share: exceptions raised while building the URLs of the GET answer (the 500 branch) are not modelled.
- FunctionApi.UpdateSpec: a save that raises is an input (`saveError`), and the 400 answer then leaves the table as it was. The create endpoint's own 400 branch is not modelled apart from its defaults.
- Relay.EventStream: the `print` calls and the `thread_id`/`assistant_id` arguments, which only go to the SDK, are not modelled.
- Messages.FetchMessages: the `logger.warning` and `logger.error` calls are not modelled.
- Messages.FetchSpec: only the first page of the message listing is rendered, as in the source; the input `listed` stands for that page, so threads longer than one page are not modelled as a whole.
- The CRUD endpoints, authentication classes, templates and other views of the same files are pass-through wrappers and are not part of this model. `BearerAuth` of `oa/function_calls/api.py` returns an `AuthenticationError` instead of raising it; that class is not part of this model.
