# A2A playground: a verified model of its core logic

The A2A playground is a web client for talking to a remote A2A agent, plus a small Go
backend-for-frontend (BFF) that serves the client and forwards its calls to the agent.
This project models the parts of both that make decisions:

- **Conversation timeline** (`Messages`, `MessagesStore`).
  - Streamed responses are classified into timeline entries.
  - Read-only entry views (`ConversationMessage`).
  - User input parts are encoded into wire parts. The streaming path base64-encodes file bytes as in section 4 of RFC 4648 (`Base64`, `TextEncoding`).
  - Timestamp-ordered, deduplicating insertion (`addMessage`).
  - The session context id, and the "last non-empty context id wins" fold over a response stream.
- **Structured data** (`DataPartUtils`, `OAuth`, `JsValue`).
  - Protobuf Struct-like trees are normalised into plain objects.
  - The function-call test.
  - OAuth credential-request detection.
  - The deep-copy rewrite of an auth config.
  - JavaScript values, truthiness, `?.`, `??` and `JSON.parse(JSON.stringify(x))` are modelled in `JsValue`.
- **Stores**:
  - the agent-header editor and its projection to an object and to JSON text (`AgentHeaders`, `JsonText`);
  - the snackbar queue (`Snackbar`);
  - the drawer state machine (`AgentPlayground`);
  - the input-part constructors (`ContentInput`).
- **Routing and paths**:
  - the OAuth-callback navigation guard and the route table (`Router`);
  - agent URL normalisation and the start-up refusal (`AgentUrl`);
  - the single-page-app fallback of the static handler (`StaticFiles`).
- **BFF plumbing**:
  - the `X-A2A-Agent-Headers` header, carried through the request context (`HeadersContext`);
  - the JSON-RPC proxy's mapping of agent errors to Connect codes, its lazily cached client and its forwarding handlers (`JsonRpcProxy`).

Stateful source code becomes classes with `modifies` clauses. Each class method is proved equal to a pure function of the old state, and the properties are proved about those functions. Loops in the source are loops here, with invariants.

Modelling choices:

- Go errors are a datatype of wrappers.
- Clocks, fresh ids (`uuidv7`, `uuidv4`), protobuf conversions, `json.Unmarshal` and the agent client's calls are all given as parameters.
- `*a2a.Error` is taken to unwrap to its `Err` field.
- The header lookup in `HeadersContext` uses the header name as written, standing for its canonical form.

## Model

| member | source | states |
|---|---|---|
| Messages.StateText | app/src/pages/playground/store/messages.ts:53-74 | each of the eight named states gets its own label; exactly the other states read "Status update" |
| Messages.StateTextDistinguishes | app/src/pages/playground/store/messages.ts:53-74 | two states with the same label are the same named state |
| Messages.StreamResponseToAgentMessage | app/src/pages/playground/store/messages.ts:98-144 | null exactly for a missing or unknown case or a missing value; otherwise an entry of the case's kind holding the payload's record, stamped `now`, whose id is the message's own non-empty id or the fresh one |
| Messages.ConversationMessage.GetPayloadType | app/src/pages/playground/store/messages.ts:198-211 | `msg` exactly for agent messages; each other kind keeps its own type |
| Messages.ConversationMessage.GetPayloadTypeLabel | app/src/pages/playground/store/messages.ts:279-292 | one of four labels, "Message" exactly for `msg` |
| Messages.ConversationMessage.GetRole | app/src/pages/playground/store/messages.ts:294-300 | "user" exactly for a user agent message; "" exactly for entries that are not agent messages |
| Messages.ConversationMessage.GetParts | app/src/pages/playground/store/messages.ts:221-236 | the parts of the agent message, the artifact, the status update's message or the task's status message, by kind; `[]` when the record, its status or the status message is missing |
| Messages.ConversationMessage.GetContextId | app/src/pages/playground/store/messages.ts:242-249 | the context id of the entry's own record; `""` when that record is missing |
| Messages.ConversationMessage.GetTaskId | app/src/pages/playground/store/messages.ts:251-261 | a task's name loses exactly one leading `tasks/`; a status update and an artifact update give their record's `taskId`; a missing record gives "" |
| Messages.ConversationMessage.GetState | app/src/pages/playground/store/messages.ts:267-272 | a state only for a status update that has a status, and then it is that status's `state` |
| Messages.ConversationMessage.GetStateText | app/src/pages/playground/store/messages.ts:274-277 | defined exactly where the state is, and then it is that state's label |
| Messages.ConversationMessage.GetStatusUpdate | app/src/pages/playground/store/messages.ts:302-305 | the status update of a status-update entry; nothing for the other kinds |
| Messages.ConversationMessage.GetSourceMessage | app/src/pages/playground/store/messages.ts:311-316 | the agent message itself, or the status's message of a status update that has one (nothing when the update or its status is missing); nothing for tasks and artifacts |
| Messages.FromUnified | app/src/pages/playground/store/messages.ts:198-203 | the view holds the entry, and its key is the entry id, `-`, then the fresh suffix |
| Messages.ClassifiedEntryAgrees | app/src/pages/playground/store/messages.ts:98-144 | a classified response's view reports the payload's own context id and the matching payload type |
| Messages.TaskIdIsSuffix | app/src/pages/playground/store/messages.ts:255-258 | a task entry's id is a suffix of its name, shorter by 0 or 6 characters |
| Messages.OrDefault | app/src/pages/playground/store/messages.ts:165-166 | `s \|\| fallback` for strings |
| Messages.WirePart | app/src/pages/playground/store/messages.ts:154-179 | text parts carry their text; file and audio parts carry their bytes with mime and name (an empty audio mime type becomes audio/mp4 and an empty audio name recording.mp4; file fields pass as given) |
| Messages.Base64TextRoundTrip | app/src/pages/playground/store/messages.ts:43-51 | the streamed bytes are the ASCII of the base 64 text, and decoding gives the original bytes back |
| Messages.BytesToBase64 | app/src/pages/playground/store/messages.ts:31-37 | the character loop and `btoa` give the base 64 encoding of the bytes |
| Messages.EncodeParts | app/src/pages/playground/store/messages.ts:395-417 | one wire part per input part, in order |
| Messages.UserMessageToAgentMessage | app/src/pages/playground/store/messages.ts:146-190 | a user message with no task and no references, the given or fresh id, the given context id or "", and one raw-byte part per input part in order |
| MessagesStore.InsertIndex | app/src/pages/playground/store/messages.ts:364-371 | the first index whose timestamp is strictly later, or the length |
| MessagesStore.InsertIndexIsFirstLater | app/src/pages/playground/store/messages.ts:366-371 | the index the loop stops at is the one `InsertIndex` names |
| MessagesStore.AddDuplicateIsNoOp | app/src/pages/playground/store/messages.ts:362-363 | an entry whose id is present leaves the list unchanged |
| MessagesStore.AddInsertsOnce | app/src/pages/playground/store/messages.ts:364-374 | otherwise the list grows by one, with the entry at the insert index and the rest kept |
| MessagesStore.AddMultiset | app/src/pages/playground/store/messages.ts:361-374 | the list is a permutation of the old one, plus the entry when it is new |
| MessagesStore.AddKeepsSorted | app/src/pages/playground/store/messages.ts:361-374 | a timestamp-sorted list stays sorted |
| MessagesStore.AddKeepsIdsUnique | app/src/pages/playground/store/messages.ts:361-374 | distinct ids stay distinct |
| MessagesStore.AddIdempotent | app/src/pages/playground/store/messages.ts:361-374 | adding the same entry twice is adding it once |
| MessagesStore.NoContextIdKeepsStart | app/src/pages/playground/store/messages.ts:434-458 | a stream with no context id keeps the starting one |
| MessagesStore.LastContextIdWins | app/src/pages/playground/store/messages.ts:434-458 | otherwise the last non-empty context id of the stream wins |
| MessagesStore.SessionIdCall | app/src/pages/playground/store/messages.ts:350-355 | returns the stored id when it is non-empty, otherwise a fresh one that is then stored |
| MessagesStore.SessionIdStable | app/src/pages/playground/store/messages.ts:350-355 | a second call returns what the first returned |
| MessagesStore.FunctionResponsePart | app/src/pages/playground/store/messages.ts:470-475 | one data part `{id, name, response}` tagged `adk_type: function_response`, whose `id` is the call id and whose `name` the call name |
| MessagesStore.Store.constructor | app/src/pages/playground/store/messages.ts:347-348 | no entries and no session id |
| MessagesStore.Store.GetOrCreateSessionContextId | app/src/pages/playground/store/messages.ts:350-355 | the call and the new session id are those of `SessionIdCall` |
| MessagesStore.Store.ClearSessionContextId | app/src/pages/playground/store/messages.ts:357-359 | the session id is unset |
| MessagesStore.Store.AddMessage | app/src/pages/playground/store/messages.ts:361-375 | the search loop and splice leave the list equal to `Added` of the old one |
| MessagesStore.Store.GetMessages | app/src/pages/playground/store/messages.ts:377-379 | the current list |
| MessagesStore.Store.ClearMessages | app/src/pages/playground/store/messages.ts:381-383 | the list is empty |
| MessagesStore.Store.ResolveContextId | app/src/pages/playground/store/messages.ts:437-456 | the loop returns the last non-empty context id and stores it as the session id; with none, both are unchanged |
| MessagesStore.Store.SendStreamingMessage | app/src/pages/playground/store/messages.ts:385-459 | the request is in the given context, or else the session's; it has base 64 parts; the result is the stream's last context id; without one in the stream the session id is kept when a context id was given, else it is the (possibly fresh) session id |
| MessagesStore.Store.SendFunctionResponse | app/src/pages/playground/store/messages.ts:461-517 | a user message with the one function-response part, the task referenced when given, and the stream's last context id |
| Base64.SextetChar | app/src/pages/playground/store/messages.ts:36 | every 6-bit value maps to an alphabet character |
| Base64.SextetRoundTrip | app/src/pages/playground/store/messages.ts:36 | the alphabet maps back to the value |
| Base64.CharRoundTrip | app/src/pages/playground/store/messages.ts:36 | and each alphabet character back to itself |
| Base64.EncodeLength | app/src/pages/playground/store/messages.ts:36 | four characters per started group of three bytes |
| Base64.DecodeEncode | app/src/pages/playground/store/messages.ts:36 | decoding the encoding gives the bytes back |
| Base64.EncodeIsAscii | app/src/pages/playground/store/messages.ts:36 | the encoding uses only the alphabet and `=`, all ASCII |
| TextEncoding.Latin1String | app/src/pages/playground/store/messages.ts:32-35 | one character per byte, with that code |
| TextEncoding.Btoa | app/src/pages/playground/store/messages.ts:36 | defined exactly on Latin-1 text |
| TextEncoding.BtoaOfLatin1 | app/src/pages/playground/store/messages.ts:31-37 | `btoa` of the byte string is the base 64 of the bytes |
| TextEncoding.Utf8Char | app/src/pages/playground/store/messages.ts:39-41 | one to four bytes, one exactly for ASCII |
| TextEncoding.Utf8Encode | app/src/pages/playground/store/messages.ts:39-41 | at least one byte per character |
| TextEncoding.Utf8OfAscii | app/src/pages/playground/store/messages.ts:39-41 | ASCII text encodes to its own codes |
| TextEncoding.AsciiDecode | app/src/pages/playground/store/messages.ts:39-41 | inverse of that encoding on ASCII bytes |
| TextEncoding.AsciiRoundTrip | app/src/pages/playground/store/messages.ts:39-41 | encode then decode is the identity on ASCII text |
| ContentInput.TypeTag | app/src/pages/playground/components/ContentInput/types.ts:2-30 | "text", "file" or "audio", exactly by kind |
| ContentInput.NewTextPart | app/src/pages/playground/components/ContentInput/types.ts:5-13 | a text part holding the content unchanged |
| ContentInput.NewFilePart | app/src/pages/playground/components/ContentInput/types.ts:21-26 | an omitted mime type or name comes from the file; a given one, even "", is kept |
| ContentInput.NewAudioPart | app/src/pages/playground/components/ContentInput/types.ts:35-40 | an omitted mime type or name becomes audio/mp4 or recording.mp4 |
| JsValue.Get | app/src/pages/playground/store/dataPartUtils.ts:33-38 | a present property's value, otherwise `undefined` |
| JsValue.OptGet | app/src/utils/oauth.ts:34-35 | `?.`: `undefined` on a nullish base |
| JsValue.Coalesce | app/src/utils/oauth.ts:36 | `??`: the right side exactly when the left is nullish |
| JsValue.NatToDecimal | app/src/pages/playground/store/dataPartUtils.ts:51-53 | a non-empty string of digits |
| JsValue.JsonClone | app/src/utils/oauth.ts:82 | the JSON copy keeps the kind, the array length and the keys whose value is not `undefined` |
| JsValue.CloneItems | app/src/utils/oauth.ts:82 | array items copied in place, `undefined` ones becoming `null` |
| JsValue.JsonCloneIsJson | app/src/utils/oauth.ts:82 | the copy is JSON data |
| JsValue.JsonCloneOfJson | app/src/utils/oauth.ts:82 | copying JSON data changes nothing |
| JsValue.JsonCloneIdempotent | app/src/utils/oauth.ts:82 | copying twice is copying once |
| JsValue.JsonCloneGet | app/src/utils/oauth.ts:82 | reading a property of the copy is copying the property |
| JsValue.JsonCloneTruthy | app/src/utils/oauth.ts:82 | the copy is truthy exactly when the original is |
| DataPartUtils.NormalizeValue | app/src/pages/playground/store/dataPartUtils.ts:32-40 | fields tried in the order string, bool, non-null nullValue (gives null), number (gives the number), list, struct; a non-array truthy list or the built-in `values` method gives a TypeError; `undefined` when none applies, a TypeError on a nullish value |
| DataPartUtils.NormalizeValueNested | app/src/pages/playground/store/dataPartUtils.ts:37-38 | a list normalises element by element to an array of the same length, failing exactly when an element fails; a truthy struct gives its normalised record, failing exactly when that fails |
| DataPartUtils.NormalizeItems | app/src/pages/playground/store/dataPartUtils.ts:37 | a list normalises item by item, keeping length and order; it throws exactly when an item does |
| DataPartUtils.PairValue | app/src/pages/playground/store/dataPartUtils.ts:51 | the second element of a pair |
| DataPartUtils.FromPairs | app/src/pages/playground/store/dataPartUtils.ts:47-56 | the pairs form: the keys are those of the pairs whose value is an object |
| DataPartUtils.KeptKeys | app/src/pages/playground/store/dataPartUtils.ts:49-52 | the record keys whose value is an object |
| DataPartUtils.FromEntries | app/src/pages/playground/store/dataPartUtils.ts:47-56 | the record form: exactly the kept keys, each normalised; throws exactly when one does |
| DataPartUtils.NormalizeStructLike | app/src/pages/playground/store/dataPartUtils.ts:42-57 | `{}` without a truthy `fieldsMap` and for a truthy scalar one; the record or pairs form otherwise |
| DataPartUtils.LastPairWins | app/src/pages/playground/store/dataPartUtils.ts:51-55 | a later pair with the same key overwrites an earlier one |
| DataPartUtils.PairsKeepKey | app/src/pages/playground/store/dataPartUtils.ts:51-55 | keys that no later pair names keep their value |
| DataPartUtils.NormalizeStructLikeLoop | app/src/pages/playground/store/dataPartUtils.ts:42-57 | the entries loop computes `NormalizeStructLike` |
| DataPartUtils.ValueToPlainObject | app/src/pages/playground/store/dataPartUtils.ts:62-73 | `{}` for a falsy value, for non-object JSON and on failure; otherwise the JSON object |
| DataPartUtils.Unwrapped | app/src/pages/playground/store/dataPartUtils.ts:91-94 | one level of an object-valued `data` field is unwrapped |
| DataPartUtils.NormalizeDataPartToObject | app/src/pages/playground/store/dataPartUtils.ts:82-102 | `{}` for nullish input; protobuf values through `valueToPlainObject`; a struct-like shape gives the object `NormalizeStructLike` computes; other objects as they are |
| DataPartUtils.NormalizeDataPartNotTotal | app/src/pages/playground/store/dataPartUtils.ts:82-102 | an array passes through as an array, and a numeric pair throws |
| DataPartUtils.NormalizeDataPartToPlainObject | app/src/pages/playground/store/dataPartUtils.ts:82-102 | a plain object for every input, equal to the code's result wherever that is an object |
| DataPartUtils.PlainObjectOfPairs | app/src/pages/playground/store/dataPartUtils.ts:98 | a struct-like record in pairs form normalises to the pairs' map |
| DataPartUtils.PlainObjectLastPairWins | app/src/pages/playground/store/dataPartUtils.ts:51-55 | and there the last pair with a key decides its value |
| DataPartUtils.FunctionCallShape | app/src/pages/playground/store/dataPartUtils.ts:108-112 | a function call is exactly an object whose `id` and `name` are non-empty strings |
| OAuth.AuthRequestShape | app/src/utils/oauth.ts:22-30 | an auth request is exactly a call named `adk_request_credential` whose `args.authConfig.exchangedAuthCredential.oauth2.authUri` is a non-empty string |
| OAuth.GetAuthUriFromCall | app/src/utils/oauth.ts:33-37 | "" when the URI is missing; the non-empty URI for an auth request |
| OAuth.GetAuthConfigFromCall | app/src/utils/oauth.ts:40-43 | `args.authConfig`, or `{}` when it is nullish |
| OAuth.CloneKeepsCasts | app/src/utils/oauth.ts:82-88 | the deep copy keeps the object shape the casts need |
| OAuth.BuildAuthResponsePayload | app/src/utils/oauth.ts:77-96 | the step-by-step rewrite of the copy computes the payload |
| OAuth.PayloadSetsUris | app/src/utils/oauth.ts:83-94 | the payload has `exchangedAuthCredential.oauth2` holding the two URIs |
| OAuth.PayloadPreservesOthers | app/src/utils/oauth.ts:82-95 | every other field, at each level, is the copied one |
| OAuth.PayloadKeepsAuthUri | app/src/utils/oauth.ts:82-95 | in particular `authUri` survives |
| OAuth.PayloadIsJson | app/src/utils/oauth.ts:77-96 | the payload is JSON data |
| OAuth.PayloadIdempotent | app/src/utils/oauth.ts:77-96 | rebuilding from the payload with the same URIs gives it back |
| Strings.TrimStart | app/src/store/agentHeaders.ts:50 | drops exactly the leading white space |
| Strings.TrimEnd | app/src/store/agentHeaders.ts:50 | drops exactly the trailing white space |
| Strings.Trim | app/src/store/agentHeaders.ts:50 | a slice of the input with no white space at either end |
| Strings.TrimIdempotent | cmd/a2a-playground/main.go:107 | trimming twice is trimming once |
| JsonText.EscapeChar | app/src/store/agentHeaders.ts:60 | a character stands for itself exactly when it is not a quote, a backslash or a control character; otherwise it becomes a backslash escape |
| JsonText.StringifyObject | app/src/store/agentHeaders.ts:60 | braces around the members; "{}" exactly for the empty object |
| JsonText.ParseObject | internal/bff/headers.go:32 | the empty object exactly for "{}" |
| JsonText.StringRoundTrip | app/src/store/agentHeaders.ts:60 | an escaped string parses back to itself |
| JsonText.ObjectRoundTrip | app/src/store/agentHeaders.ts:60 | a stringified object parses back to its pairs |
| JsonText.ToMap | internal/bff/headers.go:32 | the map of the pairs, on the keys of the pairs, later pairs winning |
| AgentHeaders.NewEntry | app/src/store/agentHeaders.ts:17-23 | missing key and value become "" |
| AgentHeaders.KeepOthersSlices | app/src/store/agentHeaders.ts:25-27 | the filter keeps every entry but the one at the index |
| AgentHeaders.RemoveExactlyOne | app/src/store/agentHeaders.ts:25-27 | an index in range removes exactly that entry, keeping order; another index changes nothing |
| AgentHeaders.Updated | app/src/store/agentHeaders.ts:29-39 | only the given fields of the entry at an index in range change; the length and other entries stay; out of range is a no-op |
| AgentHeaders.UpdateWithOwnFields | app/src/store/agentHeaders.ts:29-39 | updating an entry with its own fields changes nothing |
| AgentHeaders.Lookup | app/src/store/agentHeaders.ts:47-54 | a key is found exactly when present, with its value when keys are unique |
| AgentHeaders.Put | app/src/store/agentHeaders.ts:51 | `obj[k] = v`: the key is added or replaced, and the other keys keep their value |
| AgentHeaders.HeadersObject | app/src/store/agentHeaders.ts:47-54 | an object with unique keys |
| AgentHeaders.HeadersObjectKeys | app/src/store/agentHeaders.ts:47-54 | its keys are exactly the non-empty trimmed row keys |
| AgentHeaders.HeadersObjectLastWins | app/src/store/agentHeaders.ts:47-54 | the last row with a trimmed key gives it its value |
| AgentHeaders.HeadersObjectEmpty | app/src/store/agentHeaders.ts:47-54 | the object is empty exactly when every row key trims to "" |
| AgentHeaders.HeadersJson | app/src/store/agentHeaders.ts:57-61 | null exactly for the empty object; otherwise JSON text that parses back to the object |
| AgentHeaders.Store.constructor | app/src/store/agentHeaders.ts:15 | no rows |
| AgentHeaders.Store.AddHeader | app/src/store/agentHeaders.ts:17-23 | one row appended, with "" for a missing key or value |
| AgentHeaders.Store.RemoveHeader | app/src/store/agentHeaders.ts:25-27 | the rows become `WithoutIndex` of the old ones |
| AgentHeaders.Store.UpdateHeader | app/src/store/agentHeaders.ts:29-39 | the rows become `Updated` of the old ones |
| AgentHeaders.Store.AddPreset | app/src/store/agentHeaders.ts:42-44 | one row `{key, ""}` appended |
| AgentHeaders.Store.GetHeadersObject | app/src/store/agentHeaders.ts:47-54 | the loop computes the headers object of the rows |
| AgentHeaders.Store.GetHeadersJson | app/src/store/agentHeaders.ts:57-61 | the JSON text of that object, or null |
| Snackbar.ShowEntry | app/src/store/snackbar.ts:21-30 | the defaults, then the caller's options: caller keys win, the default holds where no key is given |
| Snackbar.SeverityOptions | app/src/store/snackbar.ts:32-66 | text, colour and default icon of the severity, then the caller's options |
| Snackbar.SeverityEntry | app/src/store/snackbar.ts:32-66 | the queued entry has the severity's colour, the text and its icon unless the caller gives one |
| Snackbar.SeverityColorsDistinct | app/src/store/snackbar.ts:32-66 | the four severities have different colours |
| Snackbar.SpliceOne | app/src/store/snackbar.ts:68-70 | `splice(index, 1)`: an index in range removes that entry, keeping order; past the end, nothing |
| Snackbar.SpliceNegative | app/src/store/snackbar.ts:68-70 | a negative index counts from the end |
| Snackbar.SpliceKeepsOrder | app/src/store/snackbar.ts:68-70 | the remaining entries keep their relative order |
| Snackbar.Store.constructor | app/src/store/snackbar.ts:19 | an empty queue |
| Snackbar.Store.Show | app/src/store/snackbar.ts:21-30 | one entry appended at the end, the rest untouched |
| Snackbar.Store.Notify | app/src/store/snackbar.ts:32-66 | `error`, `success`, `warn`, `info`: `Show` of the severity options |
| Snackbar.Store.Remove | app/src/store/snackbar.ts:68-70 | the queue becomes `SpliceOne` of the old one |
| Snackbar.Store.Clear | app/src/store/snackbar.ts:72-74 | an empty queue |
| AgentPlayground.ToggleDetails | app/src/pages/playground/store/agentPlayground.ts:16-18 | flips the details drawer, nothing else changes |
| AgentPlayground.ToggleHeaders | app/src/pages/playground/store/agentPlayground.ts:20-22 | flips the headers drawer, nothing else changes |
| AgentPlayground.OpenDetails | app/src/pages/playground/store/agentPlayground.ts:24-26 | opens the details drawer, nothing else changes |
| AgentPlayground.CloseDetails | app/src/pages/playground/store/agentPlayground.ts:28-30 | closes it, nothing else changes |
| AgentPlayground.SetMessage | app/src/pages/playground/store/agentPlayground.ts:32-34 | only the message changes |
| AgentPlayground.OpenForMessage | app/src/pages/playground/store/agentPlayground.ts:36-40 | message set, mode `message`, drawer open; the headers drawer stays |
| AgentPlayground.Reset | app/src/pages/playground/store/agentPlayground.ts:42-46 | closed, mode `message`, no message; the headers drawer stays |
| AgentPlayground.ToggleDetailsTwice | app/src/pages/playground/store/agentPlayground.ts:16-18 | toggling twice restores the state |
| AgentPlayground.ToggleHeadersTwice | app/src/pages/playground/store/agentPlayground.ts:20-22 | toggling twice restores the state |
| AgentPlayground.OpenCloseIdempotent | app/src/pages/playground/store/agentPlayground.ts:24-30 | opening and closing are idempotent |
| AgentPlayground.ResetIdempotent | app/src/pages/playground/store/agentPlayground.ts:42-46 | resetting is idempotent |
| AgentPlayground.Store.constructor | app/src/pages/playground/store/agentPlayground.ts:11-14 | the initial state |
| AgentPlayground.Store.ToggleDetailsDrawer | app/src/pages/playground/store/agentPlayground.ts:16-18 | the new state is `ToggleDetails` of the old |
| AgentPlayground.Store.ToggleHeadersDrawer | app/src/pages/playground/store/agentPlayground.ts:20-22 | the new state is `ToggleHeaders` of the old |
| AgentPlayground.Store.OpenDetailsDrawer | app/src/pages/playground/store/agentPlayground.ts:24-26 | the new state is `OpenDetails` of the old |
| AgentPlayground.Store.CloseDetailsDrawer | app/src/pages/playground/store/agentPlayground.ts:28-30 | the new state is `CloseDetails` of the old |
| AgentPlayground.Store.SetDetailsDrawerMessage | app/src/pages/playground/store/agentPlayground.ts:32-34 | the new state is `SetMessage` of the old |
| AgentPlayground.Store.OpenDetailsDrawerForMessage | app/src/pages/playground/store/agentPlayground.ts:36-40 | the new state is `OpenForMessage` of the old |
| AgentPlayground.Store.ResetDrawerState | app/src/pages/playground/store/agentPlayground.ts:42-46 | the new state is `Reset` of the old |
| Router.Guard | app/src/plugins/router/index.ts:23-31 | `/oauth-callback` proceeds; elsewhere a truthy `code` redirects there with the same query; without one, proceed |
| Router.RedirectTargetProceeds | app/src/plugins/router/index.ts:24-27 | the redirect target passes the guard: at most one redirect |
| Router.ResolveRedirect | app/src/plugins/router/index.ts:5-18 | the two routes stay; any other path goes to `/` with the query kept |
| Router.Navigate | app/src/plugins/router/index.ts:5-31 | every navigation ends on one of the two routes with its query |
| Router.CodeLandsOnCallback | app/src/plugins/router/index.ts:5-31 | with a truthy `code`, every navigation ends on the callback view, query intact |
| Router.NoCodeKeepsPath | app/src/plugins/router/index.ts:5-31 | without one, the callback stays and every other path shows the playground |
| Router.NavigateIdempotent | app/src/plugins/router/index.ts:5-31 | navigating to where a navigation ended stays there |
| AgentUrl.TrimPrefix | cmd/a2a-playground/main.go:114 | `strings.TrimPrefix`: the prefix and the result make the input |
| AgentUrl.NormalizeAgentURL | cmd/a2a-playground/main.go:106-128 | blank gives ""; gRPC gives a suffix of the trimmed URL; JSON-RPC gives the trimmed URL or "" |
| AgentUrl.GrpcStripsOneScheme | cmd/a2a-playground/main.go:111-120 | gRPC drops exactly one leading `http://` or `https://` |
| AgentUrl.GrpcEmptyExactly | cmd/a2a-playground/main.go:106-120 | gRPC gives "" exactly for a blank URL or a bare scheme |
| AgentUrl.JsonRpcAcceptsExactly | cmd/a2a-playground/main.go:121-127 | JSON-RPC keeps a trimmed URL with a scheme and refuses anything else |
| AgentUrl.GoTrimSpaceIdempotent | cmd/a2a-playground/main.go:107 | trimming a trimmed URL changes nothing |
| AgentUrl.JsonRpcIdempotent | cmd/a2a-playground/main.go:106-127 | JSON-RPC normalisation is idempotent |
| AgentUrl.RunServeCheck | cmd/a2a-playground/main.go:54-61 | the server refuses to start exactly when the normalised URL is "" |
| AgentUrl.DefaultUrlByProtocol | cmd/a2a-playground/main.go:39 | the default URL starts over gRPC and is refused over JSON-RPC |
| StaticFiles.StripTrailingSlashes | internal/bff/static.go:51 | a prefix without trailing slashes, dropping only slashes |
| StaticFiles.AfterLastSlash | internal/bff/static.go:51 | the slash-free tail after the last slash |
| StaticFiles.GoBase | internal/bff/static.go:51 | `filepath.Base`: "." for "", never empty |
| StaticFiles.HasExtensionOfLastElement | internal/bff/static.go:50-53 | for a path not ending in `/`, a dot after the last slash |
| StaticFiles.HasExtensionIgnoresTrailingSlash | internal/bff/static.go:50-53 | a trailing slash does not change the answer |
| StaticFiles.GoBaseOfElement | internal/bff/static.go:51 | the base of `dir/w` is `w` |
| StaticFiles.SpaPath | internal/bff/static.go:31-46 | the original path or `/index.html`; assets and paths with an extension unchanged; every other path but `/` falls back |
| StaticFiles.RootForwardedUnchanged | internal/bff/static.go:34-41 | `/` is forwarded as `/`, and `/index.html` as itself |
| StaticFiles.ServeSpa | internal/bff/static.go:33-45 | the request path becomes `SpaPath` of the old one, and that is what is forwarded |
| StaticFiles.ResolveDotSlash | internal/bff/static.go:43-45 | `./` resolves to the path up to its last slash |
| StaticFiles.SpaFallbackRedirectsToItself | internal/bff/static.go:43-45 | a client route ending in `/` is redirected to `./`, which is that same route |
| StaticFiles.SettingsRouteLoops | internal/bff/static.go:43-45 | `/settings/` redirects to `/settings/` |
| StaticFiles.SpaPathServingRoot | internal/bff/static.go:31-46 | the fallback forwarding `/`: assets unchanged as before |
| StaticFiles.ServingRootNeverRedirectsFallback | internal/bff/static.go:31-46 | with it, only requests that themselves end in `/index.html` are redirected |
| HeadersContext.HeaderGet | internal/bff/headers.go:27 | the first value of the header, or "" |
| HeadersContext.ExtractAgentHeaders | internal/bff/headers.go:26-36 | nil for an absent or empty header and for a parse error; the parsed map otherwise |
| HeadersContext.AgentHeadersFromContext | internal/bff/headers.go:15-22 | the stored string map, or nil when none is stored |
| HeadersContext.WithAgentHeaders | internal/bff/headers.go:39-44 | nil leaves the context unchanged; otherwise the map is stored |
| HeadersContext.HeadersRoundTrip | internal/bff/headers.go:15-22 | attached headers are read back as they were |
| HeadersContext.NoHeadersInBackground | internal/bff/headers.go:16-19 | with nothing attached, nil |
| HeadersContext.OtherKeysTransparent | internal/bff/headers.go:15-22 | values under other keys do not hide the headers |
| HeadersContext.LatestAttachWins | internal/bff/headers.go:39-44 | the latest attach wins |
| HeadersContext.BrowserHeadersReachAgent | internal/bff/headers.go:26-44 | the header the browser sends is extracted into exactly the map of its headers object |
| HeadersContext.ToMapAt | internal/bff/headers.go:32 | with distinct keys, each pair's value is in the map |
| HeadersContext.AgentSeesLastRow | internal/bff/headers.go:26-44 | the agent call sees, for each trimmed key, the value of its last row |
| JsonRpcProxy.AsA2AError | internal/bff/jsonrpc_proxy.go:291-292 | `errors.As` finds an error wrapped inside the one given |
| JsonRpcProxy.CodeNumber | internal/bff/jsonrpc_proxy.go:284-307 | the gRPC numbers of the codes, 1 to 16 |
| JsonRpcProxy.CodeNumbersDistinct | internal/bff/jsonrpc_proxy.go:284-307 | different codes have different numbers |
| JsonRpcProxy.A2ACode | internal/bff/jsonrpc_proxy.go:293-306 | task-not-found wins; Unknown exactly when no listed sentinel is in the chain |
| JsonRpcProxy.ToConnectError | internal/bff/jsonrpc_proxy.go:284-307 | nil exactly for nil or an end of stream in the chain; otherwise one of six codes around the original error, Unknown without an a2a error |
| JsonRpcProxy.SentinelTable | internal/bff/jsonrpc_proxy.go:293-304 | the code for each sentinel |
| JsonRpcProxy.EarlierCaseWins | internal/bff/jsonrpc_proxy.go:293-304 | the cases are tried in order |
| JsonRpcProxy.EofIsNoError | internal/bff/jsonrpc_proxy.go:288-290 | a wrapped end of stream is not an error |
| JsonRpcProxy.WrappingKeepsCode | internal/bff/jsonrpc_proxy.go:284-307 | wrapping an error keeps its code |
| JsonRpcProxy.PlainIsUnknown | internal/bff/jsonrpc_proxy.go:306 | any other error is Unknown |
| JsonRpcProxy.GetClientSpec | internal/bff/jsonrpc_proxy.go:33-52 | the cached client once set; otherwise the creation outcome, cached only on success |
| JsonRpcProxy.CachedClientIsStable | internal/bff/jsonrpc_proxy.go:33-52 | once a client is returned, every later call returns it |
| JsonRpcProxy.FailedCreationRetries | internal/bff/jsonrpc_proxy.go:47-49 | a failed creation leaves the cache empty |
| JsonRpcProxy.UnaryForward | internal/bff/jsonrpc_proxy.go:86-104 | Unavailable exactly without a client; InvalidArgument for a failed request conversion; the call's mapped error for a failed call; Internal for a failed response conversion; a response (the converted answer) exactly when every step succeeds; neither exactly for an end of stream from the call |
| JsonRpcProxy.UnaryEofGivesNeither | internal/bff/jsonrpc_proxy.go:95-98 | a unary call failing with a wrapped end of stream yields no response and no error |
| JsonRpcProxy.ToConnectErrorUnary | internal/bff/jsonrpc_proxy.go:284-307 | the mapping for unary calls: an end of stream becomes Unknown, all else as before |
| JsonRpcProxy.UnaryForwardAnswering | internal/bff/jsonrpc_proxy.go:86-104 | always a response or an error, and as before except for an end of stream |
| JsonRpcProxy.Forward | internal/bff/jsonrpc_proxy.go:116-128 | the loop sends at most one event per item |
| JsonRpcProxy.SentArePrefix | internal/bff/jsonrpc_proxy.go:116-128 | the events sent are the first items of the stream, in arrival order |
| JsonRpcProxy.StreamErrorEnd | internal/bff/jsonrpc_proxy.go:117-119 | a stream error ends the handler cleanly exactly when it is an end of stream |
| JsonRpcProxy.AllForwarded | internal/bff/jsonrpc_proxy.go:116-128 | with no error, every event is sent in order and the handler ends cleanly |
| JsonRpcProxy.StopsAtStreamError | internal/bff/jsonrpc_proxy.go:116-119 | nothing at or after the first stream error is sent |
| JsonRpcProxy.EndsAtStreamError | internal/bff/jsonrpc_proxy.go:116-119 | when the events before it go through, the first stream error decides the end: its mapped code, or a clean end for an end of stream |
| JsonRpcProxy.ForwardLoop | internal/bff/jsonrpc_proxy.go:116-128 | the loop computes `Forward` from the first send on |
| JsonRpcProxy.StreamHandler | internal/bff/jsonrpc_proxy.go:107-129 | Unavailable without a client, InvalidArgument on a bad request, otherwise the loop |
| JsonRpcProxy.Proxy.constructor | internal/bff/jsonrpc_proxy.go:28-30 | the URL, no client yet |
| JsonRpcProxy.Proxy.GetClient | internal/bff/jsonrpc_proxy.go:33-52 | cache and result are those of `GetClientSpec` |
| JsonRpcProxy.Proxy.ForwardUnary | internal/bff/jsonrpc_proxy.go:86-104 | the unary handlers (also lines 131-150, 157-176 and 203-281, and `GetAgentCard` at 309-324) compute `UnaryForward` |
| JsonRpcProxy.Proxy.ListTasks | internal/bff/jsonrpc_proxy.go:152-155 | always Unimplemented |
| JsonRpcProxy.Proxy.ForwardStream | internal/bff/jsonrpc_proxy.go:178-201 | `SendStreamingMessage` and `TaskSubscription` (also 106-129) compute `StreamHandler` |

## Left out

- Network, streaming transport and the agent client.
  - The agent client's calls, the protobuf conversions (`create`, `fromJson`, `toJson`, pbconv), `stream.Send` and `a2aclient.NewFromEndpoints` are parameters or given outcomes.
  - The `for await` over a response stream is a fold over a given sequence of payloads.
  - `createA2AClient`, the gRPC proxy in internal/bff/proxy.go and `NewJSONRPCProxy`/`Handler`: internal/bff/proxy.go is not part of this model.
- The agent-headers interceptor of the JSON-RPC proxy: it copies a map in Go's unspecified map order.
- `taskIDFromName` is a conversion step that can fail, given as an outcome.
- Concurrency: the mutex around the client cache; the cache is modelled sequentially.
- Nondeterminism:
  - `uuidv7`, `uuidv4` and `Date.now` are parameters.
  - `ConversationMessage`'s key suffix is a parameter.
- Browser and persistence: `openOAuthPopup`, and the localStorage load and save with the `watch` in agentHeaders.ts.
- `ensureStatusHasText`: it computes a label and changes nothing.
- Numbers are integers. Floating point, `NaN` and `-0` are not modelled.
- JavaScript objects are maps, so key order is not modelled. A `__proto__` key is treated as an ordinary key.
- `JsonText.ParseObject` (used as `json.Unmarshal` in `HeadersContext.CompactUnmarshal`) reads only the compact form `JSON.stringify` writes:
  - no white space;
  - no surrogate escapes;
  - duplicate keys, last wins.
  
  `HeadersContext.ExtractAgentHeaders` itself takes any unmarshal function.
- HTTP header-name canonicalisation in `Header.Get`.
- vue-router route matching (case, trailing slashes, params).
  - `Router.ResolveRedirect` assumes a string redirect keeps the query.
  - `Router.Navigate` assumes the second navigation after a guard redirect runs the guard once more.
- `http.FileServer` is modelled only for its redirect of paths ending in `/index.html` to `./`.
- `filepath.Base` is modelled with `/` as the only separator.
- Go errors:
  - `errors.Join` is modelled for two errors.
  - Custom `Is` and `As` methods on error types are not modelled.
  - `*a2a.Error` is assumed to unwrap to its `Err`.
- MessagesStore.SessionIdCall: requires a non-empty fresh id, as `uuidv7` always gives one.
- MessagesStore.Store.SendStreamingMessage: requires a non-empty fresh session id for the same reason.
- OAuth.BuildAuthResponsePayload: requires `exchangedAuthCredential`, and `oauth2` inside it, to be objects when truthy. The source casts them so, and a truthy scalar there would throw or be lost in the source.
- MessagesStore.Store.SendStreamingMessage: the `onStreamMessage` callback that `sendStreamingMessage` and `sendFunctionResponse` call with every response is not modelled; it is caller code. The model returns the request and the resolved context id.
- MessagesStore.Store.SendFunctionResponse: the `onStreamMessage` callback is not modelled, as above.
- OAuth.BuildAuthResponsePayload: objects are values here, so the deep copy, aliasing and in-place mutation of the caller's `authConfig` are not modelled; "the argument is unchanged" holds by value semantics only.
- AgentHeaders.HeadersJson: `JSON.stringify` writes integer-like keys first, in ascending order, then the others in insertion order. The model keeps insertion order for all keys, so the text can differ in member order (rows `b`, `2` give `{"2":…,"b":…}` in JavaScript). The parsed object is the same.
- DataPartUtils: `val.listValue?.values` on an array `listValue` is the built-in `values` method. This case is told apart by `ListValuesIsMethod` and not interpreted further.

## Findings

| source | as written | input that shows it | evidently intended | confidence | as-written member | corrected member |
|---|---|---|---|---|---|---|
| app/src/pages/playground/store/dataPartUtils.ts:82-102 | an array is returned unchanged, and a `fieldsMap` pair that is not an array throws a TypeError | `[1]`, and `{fieldsMap: [5]}` | a plain key-value object for every input | not executed | DataPartUtils.NormalizeDataPartNotTotal | DataPartUtils.NormalizeDataPartToPlainObject |
| internal/bff/static.go:43-45 | a client route is served by rewriting the path to `/index.html`, which `http.FileServer` answers with a redirect to `./` | `/settings/`: `./` resolves to `/settings/` again, a redirect loop | serve the SPA's index page for client routes without a redirect | not executed | StaticFiles.SpaFallbackRedirectsToItself | StaticFiles.ServingRootNeverRedirectsFallback |
| internal/bff/jsonrpc_proxy.go:95-98 | a unary call whose error wraps `io.EOF` is mapped to nil, so the handler returns neither a response nor an error | `Wrapped(msg, EOF)` from the call, e.g. an empty JSON body | an end of stream ends only a stream; a unary call reports an error | low, not executed | JsonRpcProxy.UnaryEofGivesNeither | JsonRpcProxy.UnaryForwardAnswering |
