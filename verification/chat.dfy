/**
 * The chat-completion handler (internal/api/chat.go): request normalisation,
 * the streamed and the buffered consumption of one process's events, and the
 * handler that ties them to session creation.
 */
module Chat {
  import opened Wrappers
  import opened Seqs
  import opened Text
  import opened JsonContent
  import opened ClaudeEvents
  import opened OpenAI
  import opened Streaming
  import opened ClaudeManager

  const DefaultProjectId := "default"
  const FallbackText := "Hello! I'm Claude, ready to help."
  const PromptTokens := 10
  const MissingUserMessage := ErrorDetail("At least one user message is required", "invalid_request_error", "missing_user_message")

  // ---------------------------------------------------------------------------
  // Request normalisation

  function RoleIs(role: string): ChatMessage -> bool
  {
    (m: ChatMessage) => m.role == role
  }

  /** The join-all text of the last message with the given role, or "" when there is none. */
  function LastText(ms: seq<ChatMessage>, role: string): string
  {
    var k := LastIndex(ms, RoleIs(role));
    if k >= 0 then GetTextContent(ms[k]) else ""
  }

  /** Appending a message overrides the role's text exactly when it has that role. */
  lemma LastTextSnoc(ms: seq<ChatMessage>, m: ChatMessage, role: string)
    ensures LastText(ms + [m], role) == if m.role == role then GetTextContent(m) else LastText(ms, role)
  {
    assert (ms + [m])[..|ms|] == ms;
  }

  /** The handler's forward loop over the messages: later user/system messages overwrite earlier ones. */
  method ScanPrompts(ms: seq<ChatMessage>) returns (userPrompt: string, systemPrompt: string)
    ensures userPrompt == LastText(ms, "user")
    ensures systemPrompt == LastText(ms, "system")
  {
    userPrompt, systemPrompt := "", "";
    var i := 0;
    while i < |ms|
      invariant 0 <= i <= |ms|
      invariant userPrompt == LastText(ms[..i], "user")
      invariant systemPrompt == LastText(ms[..i], "system")
    {
      var msg := ms[i];
      assert ms[..i + 1] == ms[..i] + [msg];
      LastTextSnoc(ms[..i], msg, "user");
      LastTextSnoc(ms[..i], msg, "system");
      if msg.role == "user" {
        userPrompt := GetTextContent(msg);
      } else if msg.role == "system" {
        systemPrompt := GetTextContent(msg);
      }
      i := i + 1;
    }
    assert ms[..i] == ms;
  }

  /** What the handler launches the CLI with. */
  datatype Prepared = Prepared(model: string, userPrompt: string, systemPrompt: string, projectId: string)

  /** Model default, prompt extraction, the missing-user-message check and the project default. */
  function Prepare(req: ChatCompletionRequest, defaultModel: string): (r: Result<Prepared, ErrorDetail>)
    ensures r.Failure? <==> LastText(req.messages, "user") == ""
    ensures r.Failure? ==> r.error == MissingUserMessage
    ensures r.Success? ==>
              && r.value.userPrompt == LastText(req.messages, "user")
              && r.value.systemPrompt == (if req.systemPrompt != "" then req.systemPrompt else LastText(req.messages, "system"))
              && r.value.model == (if req.model != "" then req.model else defaultModel)
              && r.value.projectId == (if req.projectId != "" then req.projectId else DefaultProjectId)
              && r.value.projectId != ""
  {
    var model := if req.model == "" then defaultModel else req.model;
    var userPrompt := LastText(req.messages, "user");
    if userPrompt == "" then Failure(MissingUserMessage)
    else
      var systemPrompt := if req.systemPrompt != "" then req.systemPrompt else LastText(req.messages, "system");
      var projectId := if req.projectId == "" then DefaultProjectId else req.projectId;
      Success(Prepared(model, userPrompt, systemPrompt, projectId))
  }

  /** The last user message decides the prompt: appending one with text makes it the prompt. */
  lemma LastUserMessageWins(req: ChatCompletionRequest, defaultModel: string, m: ChatMessage)
    requires m.role == "user" && GetTextContent(m) != ""
    ensures var r := Prepare(req.(messages := req.messages + [m]), defaultModel);
            r.Success? && r.value.userPrompt == GetTextContent(m)
  {
    LastTextSnoc(req.messages, m, "user");
  }

  /** A trailing user message without text turns any request into a missing-user-message error. */
  lemma EmptyLastUserMessageRejected(req: ChatCompletionRequest, defaultModel: string, m: ChatMessage)
    requires m.role == "user" && GetTextContent(m) == ""
    ensures Prepare(req.(messages := req.messages + [m]), defaultModel) == Failure(MissingUserMessage)
  {
    LastTextSnoc(req.messages, m, "user");
  }

  // ---------------------------------------------------------------------------
  // Events to text deltas

  /** An event both consumption loops turn into a text fragment. */
  predicate Qualifies(e: Event)
  {
    e.kind == AssistantKind && e.message.Some? && ExtractTextContent(e.message.value.content) != ""
  }

  function EventText(e: Event): string
    requires e.message.Some?
  {
    ExtractTextContent(e.message.value.content)
  }

  /** The fragments the loops collect: one per qualifying event, in order, up to the first result. */
  function EventTexts(events: seq<Event>): (texts: seq<string>)
    ensures forall i :: 0 <= i < |texts| ==> texts[i] != ""
    ensures |texts| <= |events|
  {
    if |events| == 0 then []
    else
      var e := events[0];
      var here := if Qualifies(e) then [EventText(e)] else [];
      if IsResult(e) then here else here + EventTexts(events[1..])
  }

  /** Stretches of events without a result contribute their fragments one after the other. */
  lemma {:induction false} EventTextsAppend(a: seq<Event>, b: seq<Event>)
    requires forall i :: 0 <= i < |a| ==> !IsResult(a[i])
    ensures EventTexts(a + b) == EventTexts(a) + EventTexts(b)
  {
    if |a| == 0 {
      assert a + b == b;
    } else {
      assert (a + b)[0] == a[0];
      assert (a + b)[1..] == a[1..] + b;
      EventTextsAppend(a[1..], b);
    }
  }

  lemma EventTextsOne(e: Event)
    ensures EventTexts([e]) == if Qualifies(e) then [EventText(e)] else []
  {
    assert [e][1..] == [];
  }

  /** Nothing after the first result is read. */
  lemma {:induction false} EventTextsStopAtResult(events: seq<Event>, k: nat)
    requires k < |events| && IsResult(events[k])
    ensures EventTexts(events) == EventTexts(events[..k + 1])
  {
    if !IsResult(events[0]) {
      assert events[..k + 1][1..] == events[1..][..k];
      EventTextsStopAtResult(events[1..], k - 1);
    } else {
      assert events[..k + 1][0] == events[0];
    }
  }

  // ---------------------------------------------------------------------------
  // Streamed mode

  function ContentFrames(c: Converter, texts: seq<string>): (frames: seq<Frame>)
    ensures |frames| == |texts|
    ensures forall i :: 0 <= i < |texts| ==> frames[i] == Data(ContentChunk(c, texts[i]))
  {
    seq(|texts|, i requires 0 <= i < |texts| => Data(ContentChunk(c, texts[i])))
  }

  /** The frames of handleStreamingResponse: initial, one content frame per fragment, final, [DONE]. */
  function StreamFrames(c: Converter, events: seq<Event>): seq<Frame>
  {
    [Data(InitialChunk(c))] + ContentFrames(c, EventTexts(events)) + [Data(FinalChunk(c)), Done]
  }

  /** One more qualifying fragment is one more content frame at the end. */
  lemma {:induction false} ContentFramesSnoc(c: Converter, texts: seq<string>, t: string)
    ensures ContentFrames(c, texts + [t]) == ContentFrames(c, texts) + [Data(ContentChunk(c, t))]
  {
  }

  /** Reading one more event before any result extends the fragments by that event's own. */
  lemma {:induction false} EventTextsStep(events: seq<Event>, i: nat)
    requires i < |events| && forall j :: 0 <= j < i ==> !IsResult(events[j])
    ensures EventTexts(events[..i + 1]) ==
              EventTexts(events[..i]) + (if Qualifies(events[i]) then [EventText(events[i])] else [])
  {
    assert events[..i + 1] == events[..i] + [events[i]];
    EventTextsAppend(events[..i], [events[i]]);
    EventTextsOne(events[i]);
  }

  /** The streaming loop: read events until a result or the end of the queue, writing a frame per fragment. */
  method StreamResponse(c: Converter, events: seq<Event>) returns (frames: seq<Frame>)
    ensures frames == StreamFrames(c, events)
  {
    frames := [Data(InitialChunk(c))];
    ghost var texts: seq<string> := [];
    var i := 0;
    while i < |events|
      invariant 0 <= i <= |events|
      invariant forall j :: 0 <= j < i ==> !IsResult(events[j])
      invariant texts == EventTexts(events[..i])
      invariant frames == [Data(InitialChunk(c))] + ContentFrames(c, texts)
    {
      var msg := events[i];
      EventTextsStep(events, i);
      if msg.kind == AssistantKind && msg.message.Some? {
        var content := ExtractTextContent(msg.message.value.content);
        if content != "" {
          ContentFramesSnoc(c, texts, content);
          frames := frames + [Data(ContentChunk(c, content))];
          texts := texts + [content];
        }
      }
      if msg.kind == ResultKind {
        EventTextsStopAtResult(events, i);
        texts := EventTexts(events);
        break;
      }
      i := i + 1;
    }
    if i == |events| {
      assert events[..i] == events;
    }
    frames := frames + [Data(FinalChunk(c)), Done];
  }

  /** The text deltas a client reads from the content frames of a stream. */
  function Deltas(frames: seq<Frame>): seq<string>
  {
    if |frames| == 0 then []
    else
      var here := match frames[0]
        case Data(ch) => (match Classify(ch) case Some(ContentDelta(t)) => [t] case _ => [])
        case Done => [];
      here + Deltas(frames[1..])
  }

  lemma {:induction false} DeltasAppend(a: seq<Frame>, b: seq<Frame>)
    ensures Deltas(a + b) == Deltas(a) + Deltas(b)
  {
    if |a| == 0 {
      assert a + b == b;
    } else {
      assert (a + b)[0] == a[0];
      assert (a + b)[1..] == a[1..] + b;
      DeltasAppend(a[1..], b);
    }
  }

  lemma {:induction false} DeltasOfContentFrames(c: Converter, texts: seq<string>)
    ensures Deltas(ContentFrames(c, texts)) == texts
  {
    if |texts| > 0 {
      var fs := ContentFrames(c, texts);
      assert fs[1..] == ContentFrames(c, texts[1..]);
      DeltasOfContentFrames(c, texts[1..]);
      assert [texts[0]] + texts[1..] == texts;
    }
  }

  /**
   * The shape of every streamed response: it opens with the initial chunk,
   * closes with the final chunk and [DONE], every chunk carries the
   * converter's identity, and the deltas a client reads are the fragments,
   * each non-empty, in event order.
   */
  lemma StreamShape(c: Converter, events: seq<Event>)
    ensures var frames := StreamFrames(c, events);
            && |frames| == |EventTexts(events)| + 3
            && frames[0] == Data(InitialChunk(c))
            && frames[|frames| - 2] == Data(FinalChunk(c))
            && frames[|frames| - 1] == Done
            && (forall i :: 0 <= i < |frames| - 1 ==> frames[i].Data? && FromConverter(frames[i].chunk, c))
            && (forall i :: 1 <= i < |frames| - 2 ==>
                  frames[i].Data? && Classify(frames[i].chunk) == Some(ContentDelta(EventTexts(events)[i - 1])))
            && Deltas(frames) == EventTexts(events)
  {
    var texts := EventTexts(events);
    var frames := StreamFrames(c, events);
    var init := [Data(InitialChunk(c))];
    var tail := [Data(FinalChunk(c)), Done];
    DeltasAppend(init + ContentFrames(c, texts), tail);
    DeltasAppend(init, ContentFrames(c, texts));
    DeltasOfContentFrames(c, texts);
    assert init[1..] == [] && tail[1..] == [Done] && tail[1..][1..] == [];
    assert Deltas(init) == [];
    assert Deltas(tail) == [];
  }

  // ---------------------------------------------------------------------------
  // Buffered mode

  /** The reply text: the fragments joined by newlines, or the fallback when there are none. */
  function BufferedText(events: seq<Event>): (text: string)
    ensures text != ""
    ensures EventTexts(events) == [] ==> text == FallbackText
    ensures EventTexts(events) != [] ==> text == Join(EventTexts(events), "\n")
  {
    var joined := Join(EventTexts(events), "\n");
    JoinEmptyIff(EventTexts(events), "\n");
    if joined == "" then FallbackText else joined
  }

  /** handleNonStreamingResponse, with the UUID and the clock reading as inputs. */
  method BufferedResponse(events: seq<Event>, model: string, sessionId: string, projectId: string, uuid: string, now: int)
    returns (resp: ChatCompletionResponse)
    requires |uuid| >= 29
    ensures resp.choices == [ChatCompletionChoice(0, ChatMessage("assistant", Str(BufferedText(events)), ""), StopReason)]
    ensures resp.usage.promptTokens == PromptTokens
    ensures resp.usage.completionTokens == FieldCount(BufferedText(events))
    ensures resp.usage.totalTokens == PromptTokens + resp.usage.completionTokens
    ensures resp.id == CompletionId(uuid) && resp.objectType == "chat.completion" && resp.created == now
    ensures resp.model == model && resp.sessionId == sessionId && resp.projectId == projectId
  {
    var contentParts: seq<string> := [];
    var i := 0;
    while i < |events|
      invariant 0 <= i <= |events|
      invariant forall j :: 0 <= j < i ==> !IsResult(events[j])
      invariant contentParts == EventTexts(events[..i])
    {
      var msg := events[i];
      EventTextsAppend(events[..i], [msg]);
      assert events[..i + 1] == events[..i] + [msg];
      EventTextsOne(msg);
      if msg.kind == AssistantKind && msg.message.Some? {
        var content := ExtractTextContent(msg.message.value.content);
        if content != "" {
          contentParts := contentParts + [content];
        }
      }
      assert contentParts == EventTexts(events[..i + 1]);
      if msg.kind == ResultKind {
        EventTextsStopAtResult(events, i);
        break;
      }
      i := i + 1;
    }
    if i == |events| {
      assert events[..i] == events;
    }
    assert contentParts == EventTexts(events);
    var completeContent := Join(contentParts, "\n");
    JoinEmptyIff(contentParts, "\n");
    if completeContent == "" {
      completeContent := FallbackText;
    }
    var wordCount := CountFields(completeContent);
    resp := ChatCompletionResponse(
      CompletionId(uuid), "chat.completion", now, model,
      [ChatCompletionChoice(0, ChatMessage("assistant", Str(completeContent), ""), StopReason)],
      Usage(PromptTokens, wordCount, PromptTokens + wordCount),
      sessionId, projectId);
  }

  /**
   * The two modes agree: the buffered text is the newline-join of exactly the
   * deltas the streamed mode would send for the same events, or the fallback
   * when it would send none.
   */
  lemma BufferedMatchesStreamed(c: Converter, events: seq<Event>)
    ensures var deltas := Deltas(StreamFrames(c, events));
            BufferedText(events) == if deltas == [] then FallbackText else Join(deltas, "\n")
  {
    StreamShape(c, events);
  }

  // ---------------------------------------------------------------------------
  // Scenarios

  function AssistantSays(text: string): Event
  {
    Event(AssistantKind, Some(Message("assistant", Str(text))), "")
  }

  const ResultEvent := Event(ResultKind, None, "")

  /** Two assistant texts and a result: two deltas in order, and their join as the buffered reply. */
  lemma HelloWorldScenario(c: Converter)
    ensures StreamFrames(c, [AssistantSays("Hello"), AssistantSays("World"), ResultEvent])
         == [Data(InitialChunk(c)), Data(ContentChunk(c, "Hello")), Data(ContentChunk(c, "World")),
             Data(FinalChunk(c)), Done]
    ensures BufferedText([AssistantSays("Hello"), AssistantSays("World"), ResultEvent]) == "Hello\nWorld"
  {
    var events := [AssistantSays("Hello"), AssistantSays("World"), ResultEvent];
    assert events[1..] == [AssistantSays("World"), ResultEvent];
    assert events[1..][1..] == [ResultEvent];
    assert EventTexts([ResultEvent]) == [];
    assert EventTexts(events) == ["Hello", "World"];
    assert ["Hello", "World"][1..] == ["World"];
    assert Join(["Hello", "World"], "\n") == "Hello" + "\n" + "World";
  }

  /** A lone result: no content frames, and the fallback text with its six fields as completion tokens. */
  lemma ResultOnlyScenario(c: Converter)
    ensures StreamFrames(c, [ResultEvent]) == [Data(InitialChunk(c)), Data(FinalChunk(c)), Done]
    ensures BufferedText([ResultEvent]) == FallbackText
    ensures FieldCount(BufferedText([ResultEvent])) == 6
  {
    assert EventTexts([ResultEvent]) == [];
    FallbackFieldCount();
  }

  /** The fallback text is six whitespace-separated fields. */
  lemma FallbackFieldCount()
    ensures FieldCount(FallbackText) == 6
  {
    var words := ["Hello!", "I'm", "Claude,", "ready", "to", "help."];
    assert Join(words, " ") == FallbackText;
    FieldCountOfJoinedWords(words);
  }

  // ---------------------------------------------------------------------------
  // HandleChatCompletion

  /** The configuration values the handler reads. */
  datatype ChatConfig = ChatConfig(defaultModel: string, projectRoot: string, maxConcurrentSessions: int)

  /** What the handler writes. */
  datatype Reply =
    | BadRequest(error: ErrorDetail)                                             // 400
    | Unavailable(error: ErrorDetail)                                            // 503
    | EventStream(sessionId: string, projectId: string, frames: seq<Frame>)     // 200 text/event-stream
    | Completion(response: ChatCompletionResponse)                             // 200 JSON

  function UnavailableError(e: LaunchError): ErrorDetail
  {
    ErrorDetail("Failed to start Claude: " + ErrorText(e), "service_unavailable", "claude_unavailable")
  }

  /**
   * HandleChatCompletion after request binding. The world is given as inputs:
   * the start outcome and stdout lines of the CLI, the JSON decoder, the
   * session id read from the process right after start (a racy read of the
   * parser's write, so any value), two UUID strings and the clock.
   * `launched` tells whether a process start was attempted; `process` is the
   * CLI process that ran, once its output has been read.
   */
  method HandleChatCompletion(
    req: ChatCompletionRequest, cfg: ChatConfig, m: Manager,
    joinPath: (string, string) -> string,
    outcome: StartOutcome, stdout: seq<string>, decode: string -> Option<Event>,
    observedSessionId: string, sessionUuid: string, completionUuid: string, now: int)
    returns (reply: Reply, launched: bool, process: Option<Process>)
    requires |completionUuid| >= 29
    ensures reply.BadRequest? <==> LastText(req.messages, "user") == ""
    ensures reply.BadRequest? ==> reply.error == MissingUserMessage && !launched
    ensures launched <==> LastText(req.messages, "user") != "" && |m.processes| < cfg.maxConcurrentSessions
    ensures process.Some? <==>
              LastText(req.messages, "user") != "" && |m.processes| < cfg.maxConcurrentSessions && outcome.Spawned?
    ensures process.Some? ==>
              var P := Prepare(req, cfg.defaultModel).value;
              && process.value.args == BuildArgs(P.userPrompt, P.model, P.systemPrompt)
              && process.value.projectPath == joinPath(cfg.projectRoot, P.projectId)
              && process.value.output == Forwarded(stdout, decode)
              && !process.value.isRunning
    ensures reply.Unavailable? <==>
              LastText(req.messages, "user") != "" && (|m.processes| >= cfg.maxConcurrentSessions || !outcome.Spawned?)
    ensures reply.Unavailable? && |m.processes| >= cfg.maxConcurrentSessions ==>
              reply.error == UnavailableError(CapacityReached(cfg.maxConcurrentSessions))
    ensures reply.Unavailable? && |m.processes| < cfg.maxConcurrentSessions ==>
              !outcome.Spawned? && reply.error == UnavailableError(StartError(outcome))
    ensures reply.EventStream? ==>
              && req.stream
              && reply.projectId == Prepare(req, cfg.defaultModel).value.projectId
              && reply.sessionId == (if observedSessionId != "" then observedSessionId else sessionUuid)
              && reply.frames == StreamFrames(
                   NewConverter(Prepare(req, cfg.defaultModel).value.model, reply.sessionId, completionUuid, now),
                   Forwarded(stdout, decode))
    ensures reply.Completion? ==>
              && !req.stream
              && reply.response.choices ==
                   [ChatCompletionChoice(0, ChatMessage("assistant", Str(BufferedText(Forwarded(stdout, decode))), ""), StopReason)]
              && reply.response.usage ==
                   Usage(PromptTokens, FieldCount(BufferedText(Forwarded(stdout, decode))),
                         PromptTokens + FieldCount(BufferedText(Forwarded(stdout, decode))))
              && reply.response.id == CompletionId(completionUuid)
              && reply.response.objectType == "chat.completion"
              && reply.response.created == now
              && reply.response.model == Prepare(req, cfg.defaultModel).value.model
              && reply.response.sessionId == (if observedSessionId != "" then observedSessionId else sessionUuid)
              && reply.response.projectId == Prepare(req, cfg.defaultModel).value.projectId
  {
    var prepared := Prepare(req, cfg.defaultModel);
    if prepared.Failure? {
      return BadRequest(prepared.error), false, None;
    }
    var p := prepared.value;
    assert p == Prepare(req, cfg.defaultModel).value;
    var projectPath := joinPath(cfg.projectRoot, p.projectId);
    var (_, started) := CreateSession(m, cfg.maxConcurrentSessions, projectPath, p.userPrompt, p.model, p.systemPrompt, outcome);
    launched := !(started.Failure? && started.error.CapacityReached?);
    if started.Failure? {
      return Unavailable(UnavailableError(started.error)), launched, None;
    }
    var proc := RunParser(started.value, stdout, decode);
    assert proc.output == Forwarded(stdout, decode);
    process := Some(proc);
    var sessionId := if observedSessionId == "" then sessionUuid else observedSessionId;
    if req.stream {
      var converter := NewConverter(p.model, sessionId, completionUuid, now);
      var frames := StreamResponse(converter, proc.output);
      reply := EventStream(sessionId, p.projectId, frames);
    } else {
      var response := BufferedResponse(proc.output, p.model, sessionId, p.projectId, completionUuid, now);
      reply := Completion(response);
    }
  }
}
