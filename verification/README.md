# Claude Code API gateway: event-to-response translation, in Dafny

This project models the core of an OpenAI-compatible chat-completion gateway
that runs the `claude` command-line assistant as a subprocess. The core turns
the CLI's line-delimited `stream-json` output into OpenAI responses. The
model keeps the gateway's own terms:

- **Content extraction** (`JsonContent`, `Streaming`, `OpenAI`). There are two
  separate rules over a `string | [block]` content value. The single-block
  rule is `ExtractTextContent`. The join-all rule is `GetTextContent`.
- **Converter and SSE framing** (`Streaming`). Every chunk carries the
  converter's fixed identity. There are three chunk shapes. Frames use the
  `data: …` + blank-line form of the event-stream format (section 9.2 of the
  WHATWG HTML Living Standard). The stream ends with `data: [DONE]`.
- **The chat handler** (`Chat`). It normalises the request (last user or
  system message wins, explicit system prompt, defaults). It then serves
  either streamed mode or buffered mode over the same event sequence.
  Buffered mode adds a fallback text and synthetic usage.
- **Process management** (`ClaudeManager`). The model covers the CLI argument
  list, the stdout parser as a fold over lines, session-id adoption, the
  running flag and `Stop`. It also covers the capacity gate and the run-once
  version probe. Nothing is ever registered, so the gate never fires for a
  positive ceiling. A ceiling of 0 or less refuses every call.
- **Middleware decisions** (`Middleware`): CORS origin matching, Bearer-token
  extraction and API-key membership.
- **Model listing** (`ModelsApi`): owned-by string, `created = base + index`,
  get-model and capabilities.

Things the model takes as inputs:

- the subprocess: a start outcome plus the lines it writes to stdout;
- the JSON decoder, `decode: string -> Option<Event>`;
- chunk serialisation, `encode: Chunk -> string`;
- UUID strings and the clock;
- the session id the handler reads right after start. That read races the
  parser's write (internal/api/chat.go:106 against
  internal/claude/manager.go:87), so it is an arbitrary input.

The output channel becomes the finite sequence of forwarded events. Its
closing is the end of that sequence. Process and manager state are immutable
records, and every operation returns the next state.

Modules: `Wrappers` (Option/Result), `Seqs` (first/last index, the
search-with-break loop), `Text` (Go's `unicode.IsSpace`, `strings.Join`,
`len(strings.Fields)`, `strings.TrimSpace`, `%d`), `JsonContent`,
`ClaudeEvents`, `OpenAI`, `Streaming`, `ClaudeManager`, `Chat`, `Middleware`
and `ModelsApi`.

Three details of the code the model keeps:

- Buffered mode extracts each event's text with the single-block rule
  (internal/api/chat.go:158), not the join-all rule. The join-all rule only
  reads request messages (internal/api/chat.go:58, 60).
- Under the join-all rule, a block whose `text` key holds a non-string
  contributes nothing. Its `content` is not consulted
  (internal/models/openai.go:22-26).
- The stdout loop uses a `bufio.Scanner` with its default 64 KiB token limit.
  A line that long ends the parse as end-of-file would (`TooLong` in
  `ClaudeManager`). Blank and undecodable lines never stop it.

## Model

| member | source | states |
|---|---|---|
| Text.CountFields | internal/api/chat.go:174 | the whitespace-field count used as completion tokens is the number of maximal non-space runs, and it is 0 exactly when the text is all white space |
| Text.FieldCountOfJoinedWords | internal/api/chat.go:174 | words without white space joined by single spaces count as exactly that many fields |
| Text.JoinAppend | internal/api/chat.go:168 | joining two non-empty fragment lists puts exactly one separator between their joins |
| Text.JoinEmptyIff | internal/api/chat.go:168-171 | a newline join of non-empty fragments is empty exactly when there are no fragments |
| Text.TrimSpace | internal/claude/manager.go:152 | the cached version is the input with only leading and trailing white space removed, and it neither starts nor ends with white space |
| Text.TrimSpaceIdempotent | internal/claude/manager.go:152 | trimming a trimmed version string changes nothing |
| OpenAI.GetTextContent | internal/models/openai.go:14-37 | a string content is returned as is and any other non-list shape yields ""; a list with no contributing item yields "" and a list with one contributing item yields that item's text |
| OpenAI.NonStringTextHidesContent | internal/models/openai.go:22-26 | a block whose "text" key holds a non-string contributes nothing; its "content" key is never consulted |
| OpenAI.FragmentsAppend | internal/models/openai.go:20-33 | join-all fragments of a list are those of its parts in list order; nothing is merged or reordered |
| OpenAI.FragmentsOfOne | internal/models/openai.go:21-30 | one item contributes its string text; with no text key, its string content; otherwise nothing |
| OpenAI.FragmentsNone | internal/models/openai.go:21-31 | a list in which no item contributes (non-objects, non-string text, no usable key) yields no fragments |
| OpenAI.FragmentsAll | internal/models/openai.go:20-33 | when every item contributes there is one fragment per item, each at its item's position |
| OpenAI.GetTextContentScalar | internal/models/openai.go:14-37 | string content is returned unchanged and any other non-list shape yields "" |
| OpenAI.GetTextContentNothingUsable | internal/models/openai.go:20-33 | an empty or all-skipped list yields "" |
| OpenAI.GetTextContentAppend | internal/models/openai.go:20-33 | fragments are newline-joined: splitting a list into two contributing halves splits the text at one "\n" |
| Streaming.FirstText | internal/streaming/sse.go:114-123 | the scan returns the text of the first object whose type is "text" and whose text is a string, or "" when there is none |
| Streaming.ExtractTextContent | internal/streaming/sse.go:110-126 | plain strings come back unchanged; for block lists the first accepted block's text is returned and every block before it is rejected; anything else yields "" |
| Streaming.ExtractIgnoresLaterBlocks | internal/streaming/sse.go:115-122 | once a list holds an accepted block, appending blocks after it never changes the result, so no text is merged |
| Streaming.ExtractWithoutTextBlock | internal/streaming/sse.go:114-125 | a list with no accepted block (including "text"-typed blocks with non-string text) yields "" |
| Streaming.RulesDiffer | internal/streaming/sse.go:110-126 | the single-block and join-all rules give different texts: a block with only a string "content" counts for join-all alone, and of two text blocks the single-block rule keeps the first while join-all gives both joined by a newline |
| Streaming.CompletionId | internal/streaming/sse.go:53 | a completion id is "chatcmpl-" followed by the first 29 characters of the UUID string, 38 characters in all |
| Streaming.NewConverter | internal/streaming/sse.go:49-56 | the converter keeps the model and session id it is given, takes the clock reading as its creation time, and its id is "chatcmpl-" followed by the first 29 characters of the UUID (38 characters) |
| Streaming.InitialChunk | internal/streaming/sse.go:59-74 | the initial chunk reads back as the role-only opener (role "assistant", empty content, null finish reason) with the converter's id, created and model |
| Streaming.ContentChunk | internal/streaming/sse.go:77-91 | a content chunk reads back as a delta whose content is exactly its argument, with no role and null finish reason, under the converter's identity |
| Streaming.FinalChunk | internal/streaming/sse.go:94-107 | the final chunk reads back as an empty delta with finish reason "stop", under the converter's identity |
| Streaming.ChunkRoundTrip | internal/streaming/sse.go:59-107 | every chunk shape reads back as itself, and any chunk that reads back as a kind under a converter's identity is exactly that converter's chunk of that kind |
| Streaming.FormatEvent | internal/streaming/sse.go:18-21 | a frame is "data: " + payload + "\n\n", and the payload can be read back from it |
| Streaming.FormatDone | internal/streaming/sse.go:24-26 | the done sentinel is exactly the frame whose payload is "[DONE]" |
| Streaming.RenderAllIsWire | internal/streaming/sse.go:18-26 | the bytes written for a frame sequence are the frames' payloads written in order |
| Streaming.WireRoundTrip | internal/streaming/sse.go:18-21 | payloads without raw newlines are recovered exactly and in order by splitting the concatenated frames |
| ClaudeManager.BuildArgs | internal/claude/manager.go:34-47 | the list is "-p" and the prompt, then "--system-prompt" only for a non-empty system prompt, then "--model" only for a non-empty model, then the four fixed output flags; the inputs can be read back from it |
| ClaudeManager.ParseArgsInvertsBuild | internal/claude/manager.go:34-47 | every argument list of that shape is the one built from what it contains, so the reading is exact both ways |
| ClaudeManager.Forwarded | internal/claude/manager.go:73-91 | the parser forwards at most one event per stdout line; all-blank output forwards nothing; a first line too long for the scanner forwards nothing |
| ClaudeManager.ForwardedAppend | internal/claude/manager.go:73-91 | forwarding is in input order: the events forwarded for two stretches of readable lines are those of each in turn |
| ClaudeManager.ForwardedOne | internal/claude/manager.go:74-90 | a readable line forwards its decoded event when it is non-blank and decodes, and nothing otherwise |
| ClaudeManager.SkippedLineIsInvisible | internal/claude/manager.go:75-83 | a blank or undecodable line neither appears among the events nor stops the loop |
| ClaudeManager.ForwardedComesFromLines | internal/claude/manager.go:73-91 | every forwarded event is the decoding of some non-blank input line |
| ClaudeManager.AdoptSessionId | internal/claude/manager.go:86-88 | a set session id is kept; an unset one becomes the id of the first event carrying a non-empty id, or stays empty |
| ClaudeManager.AdoptAppend | internal/claude/manager.go:86-88 | adopting across two event stretches is adopting across each in turn |
| ClaudeManager.SessionIdStable | internal/claude/manager.go:86-88 | once adopted, the session id is never overwritten by later events |
| ClaudeManager.Start | internal/claude/manager.go:52-67 | a start failure returns its wrapped error and no process; only a successful start yields a running process with an empty queue and the built argument list, its other fields unchanged |
| ClaudeManager.RunParser | internal/claude/manager.go:70-94 | the parser loop appends exactly the forwarded events to the queue, adopts the session id from them, and leaves the running flag false |
| ClaudeManager.Stop | internal/claude/manager.go:116-124 | Stop clears the running flag, kills the OS process if one exists, and changes nothing else |
| ClaudeManager.StopIdempotent | internal/claude/manager.go:116-124 | stopping twice is the same as stopping once |
| ClaudeManager.CreateSession | internal/claude/manager.go:163-183 | the call is refused for capacity, before any process is built, exactly when the active session count is at least the ceiling; the manager and its active session count are never changed, because the process is not registered |
| ClaudeManager.GateNeverFires | internal/claude/manager.go:164-179 | from a manager under its ceiling, every call of any series gives exactly what Start alone gives |
| ClaudeManager.GateAlwaysFires | internal/claude/manager.go:164-169 | from a manager whose registry already meets the ceiling (a fresh one with a ceiling of 0 or less), every call of any series is refused for capacity with that ceiling |
| ClaudeManager.FreshManagerNeverRefuses | internal/claude/manager.go:164-179 | a fresh manager with a positive ceiling accepts every successful launch, however many |
| ClaudeManager.ActiveSessionCount | internal/claude/manager.go:186-190 | the count is zero exactly when the registry is empty; it is the number the capacity gate compares (see CreateSession and SessionCountStable) |
| ClaudeManager.SessionCountStable | internal/claude/manager.go:163-190 | no series of CreateSession calls changes the active session count, so from a fresh manager it stays 0 however many sessions start |
| ClaudeManager.CleanupAll | internal/claude/manager.go:193-201 | every registered process is stopped, the registry ends empty and the active count is 0 |
| ClaudeManager.GetVersion | internal/claude/manager.go:145-160 | the first call probes and caches the trimmed output; later calls return the cache without error; an error comes only from a call whose own probe failed with nothing cached |
| ClaudeManager.CachedAfterFirst | internal/claude/manager.go:145-160 | once probed, every later call returns the cached value without error and runs no probe |
| ClaudeManager.VersionRunsOnce | internal/claude/manager.go:145-160 | from a fresh manager the probe runs exactly once; the first call fails iff its probe failed; later calls return the trimmed output, or "" after a failed probe, without error |
| Chat.LastTextSnoc | internal/api/chat.go:56-62 | appending a message overrides a role's prompt exactly when it has that role |
| Chat.ScanPrompts | internal/api/chat.go:56-62 | the forward loop leaves the text of the last user message and of the last system message |
| Chat.Prepare | internal/api/chat.go:48-83 | the request fails with missing_user_message exactly when the last user text is empty; otherwise a non-empty system_prompt overrides, the model defaults, and the project id becomes "default" when empty |
| Chat.LastUserMessageWins | internal/api/chat.go:56-62 | a trailing user message with text becomes the prompt, whatever came before |
| Chat.EmptyLastUserMessageRejected | internal/api/chat.go:64-73 | a trailing user message without text makes the request a 400 even if earlier user messages had text |
| Chat.EventTexts | internal/api/chat.go:133-144 | the fragments are non-empty and at most one per event |
| Chat.EventTextsAppend | internal/api/chat.go:133-144 | before any result, fragments come out in event order, one stretch after another |
| Chat.EventTextsOne | internal/api/chat.go:134-140 | an event yields a fragment exactly when it is an assistant event with a message and non-empty single-block text |
| Chat.EventTextsStopAtResult | internal/api/chat.go:141-143 | nothing after the first result event is read |
| Chat.StreamResponse | internal/api/chat.go:128-149 | the streaming loop with its early break emits the initial frame, one content frame per fragment, then the final frame and [DONE] |
| Chat.StreamShape | internal/api/chat.go:128-149 | a streamed response opens with the initial chunk and ends with final and [DONE]; all chunks share the converter's identity; the deltas are exactly the fragments in order; with no fragments only initial, final and done remain |
| Chat.BufferedText | internal/api/chat.go:153-171 | the reply text is never empty: it is the newline-joined fragments, or the fixed fallback when there are none |
| Chat.BufferedResponse | internal/api/chat.go:152-196 | the response has one assistant choice with finish reason "stop" holding the buffered text; prompt tokens 10, completion tokens its field count, total their sum |
| Chat.BufferedMatchesStreamed | internal/api/chat.go:128-171 | buffered text is the newline-join of exactly the deltas streamed mode sends for the same events, or the fallback when it sends none |
| Chat.HelloWorldScenario | internal/api/chat.go:128-171 | [assistant "Hello", assistant "World", result] streams initial, "Hello", "World", final, done, and buffers to "Hello\nWorld" |
| Chat.ResultOnlyScenario | internal/api/chat.go:128-193 | a lone result streams initial, final, done, and buffers to the fallback text with 6 completion tokens |
| Chat.FallbackFieldCount | internal/api/chat.go:170-174 | the fallback text counts as six fields |
| Chat.HandleChatCompletion | internal/api/chat.go:35-116 | 400 exactly when the last user text is empty, and then no start is attempted; a start is attempted exactly when the capacity gate passes, and a process runs exactly when it also spawns, in the joined project directory with the argument list built from the prepared prompt, model and system prompt, its queue holding what the parser forwarded; 503 exactly on a capacity refusal or a failed start, with that error; otherwise stream or JSON by the stream flag, under the observed or fresh session id; the JSON reply is the full buffered response: its one choice, usage 10 plus the field count, completion id, creation time, model, session id and project id |
| Middleware.Cors | internal/api/middleware.go:14-40 | the origin is allowed iff some entry is "*" or equals it; an allowed origin is echoed itself; the credentials, methods and headers headers are always set; OPTIONS is answered 204 either way |
| Middleware.BearerToken | internal/api/middleware.go:84-87 | "Bearer " is stripped only from a header longer than 7 characters that starts with it; otherwise the token is the whole header |
| Middleware.BearerTokenRoundTrip | internal/api/middleware.go:84-87 | "Bearer " + key yields the key for every non-empty key, and the bare "Bearer " is its own token |
| Middleware.Authenticate | internal/api/middleware.go:66-109 | with auth off every request passes; an empty header gets 401 "Missing Authorization header"; otherwise the request passes iff the token equals a configured key, else 401 "Invalid API key" |
| ModelsApi.BaseTimestampIsNewYear2024 | internal/api/models.go:35 | the base creation time is the Unix time of 2024-01-01T00:00:00Z |
| ModelsApi.OwnedBy | internal/api/models.go:29-33 | the owner is "anthropic" exactly for an empty version, and otherwise exactly "anthropic-claude-" followed by the version |
| ModelsApi.OwnedByInjective | internal/api/models.go:29-33 | distinct versions give distinct owner strings |
| ModelsApi.ListModels | internal/api/models.go:28-51 | the list object is "list", with one "model" object per configured model in config order, created base + index, owned according to the reported version |
| ModelsApi.GetModel | internal/api/models.go:55-70 | any requested id is echoed without validation, created at the base time |
| ModelsApi.Capabilities | internal/api/models.go:73-93 | one entry per configured model in order, each supporting streaming and tools, and total is the entry count |

## Left out

- JSON decoding and encoding: `decode` and `encode` are parameters. Request binding (`ShouldBindJSON` and its validator tags, internal/api/chat.go:36-45) is left out with its 400 "Invalid request" reply. Its `required` tag on `model` rejects an empty model, so over HTTP the `DefaultModel` fallback that `Chat.Prepare` models is never reached.
- Subprocess and concurrency machinery: `exec.CommandContext`, pipes, the stderr and `Wait` goroutines, mutexes, the channel's capacity of 100 and its backpressure. The parser runs to completion, in order, before a consumer reads.
- Timeouts (`StreamingTimeoutSecs`, internal/api/chat.go:90): a deadline only truncates the CLI's output, and the stdout lines are already an arbitrary finite sequence.
- `sync.Once` making concurrent `GetVersion` callers wait: the calls are sequential in the model.
- UUID generation and `time.Now`: they are inputs.
- HTTP and gin plumbing: response headers, `Flush`, routing, status writing. Status codes appear only as `Reply` and `AuthResult` constructors. gin's `c.Header` deletes a header set to "", so an allowed empty origin sends no Allow-Origin header. That is not modelled.
- `LoggingMiddleware` and all logging calls, because they only log.
- `FormatError` (internal/streaming/sse.go:29-38), because no handler calls it.
- Project directory creation (`os.MkdirAll`, internal/api/chat.go:85). `filepath.Join` is a parameter `joinPath`, so its path cleaning (and what a `..` in `project_id` does) is not modelled.
- Event fields the gateway never reads: subtype, model, cwd, tools, result, error, usage, cost, duration. The ignored request fields (temperature, top_p, max_tokens, stop, penalties, user) are left out too.
- Integer widths: `Created` values and token counts are unbounded integers, so int64 overflow of `base + index` is not modelled.
- Strings are sequences of Unicode scalar values. Invalid UTF-8 cannot be represented. Go measures `len` in bytes. For the `"Bearer "` test this gives the same answer, because the prefix is ASCII: a header longer than 7 bytes that starts with it has at least one more character.
- `ClaudeManager.TooLong` measures the scanner token after the line terminator is removed. The scanner buffers a CRLF line's carriage return too, so such a line is one byte closer to the limit than the model counts.
- internal/config/config.go (environment loading, binary discovery) and cmd/server/main.go (startup, shutdown, signal handling) are I/O and wiring. Their constants appear as parameters: `ChatConfig`, the `maxSessions` argument and the configured model list.
- The model list comes from `cfg.Models`, which internal/config/config.go does not define. It is an abstract sequence of (id, name, description).
- JSON `null` versus `[]` for an empty model or capability list is encoding and is not modelled.
