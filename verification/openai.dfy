/**
 * OpenAI-compatible request and response shapes (internal/models/openai.go)
 * and the join-all text rule applied to request messages.
 */
module OpenAI {
  import opened Wrappers
  import opened Text
  import opened JsonContent

  /** A chat message; `name` is kept because the response echoes the record shape. */
  datatype ChatMessage = ChatMessage(role: string, content: Content, name: string)

  /**
   * The request fields the handler reads. The sampling parameters
   * (temperature, top_p, max_tokens, stop, penalties, user) are accepted and
   * ignored by the gateway, so they are not represented.
   */
  datatype ChatCompletionRequest = ChatCompletionRequest(
    model: string,
    messages: seq<ChatMessage>,
    stream: bool,
    projectId: string,
    sessionId: string,
    systemPrompt: string)

  datatype ChatCompletionChoice = ChatCompletionChoice(index: int, message: ChatMessage, finishReason: string)

  datatype Usage = Usage(promptTokens: int, completionTokens: int, totalTokens: int)

  datatype ChatCompletionResponse = ChatCompletionResponse(
    id: string,
    objectType: string,
    created: int,
    model: string,
    choices: seq<ChatCompletionChoice>,
    usage: Usage,
    sessionId: string,
    projectId: string)

  /** A streaming delta; the empty string stands for an omitted (omitempty) field. */
  datatype Delta = Delta(role: string, content: string)

  /** A streaming choice; None is the JSON null finish_reason. */
  datatype ChunkChoice = ChunkChoice(index: int, delta: Delta, finishReason: Option<string>)

  datatype Chunk = Chunk(id: string, objectType: string, created: int, model: string, choices: seq<ChunkChoice>)

  datatype ModelObject = ModelObject(id: string, objectType: string, created: int, ownedBy: string)

  datatype ModelList = ModelList(objectType: string, data: seq<ModelObject>)

  /** ErrorDetail; the empty code stands for an omitted one. */
  datatype ErrorDetail = ErrorDetail(message: string, errType: string, code: string)

  // ---------------------------------------------------------------------------
  // ChatMessage.GetTextContent: the join-all rule

  /**
   * What one list item contributes: an object's string "text"; failing a
   * "text" key at all, its string "content". A "text" key holding a
   * non-string contributes nothing and hides "content".
   */
  function BlockFragment(b: Block): Option<string>
  {
    match b
    case NonObject => None
    case Object(_, text, content) =>
      if !text.Missing? then
        (if text.JString? then Some(text.s) else None)
      else if content.JString? then Some(content.s)
      else None
  }

  /** The contributions of the items, in list order. */
  function Fragments(items: seq<Block>): (parts: seq<string>)
    ensures |parts| <= |items|
  {
    if |items| == 0 then []
    else
      var here := match BlockFragment(items[0]) case Some(f) => [f] case None => [];
      here + Fragments(items[1..])
  }

  /**
   * The join-all rule: a plain string as is; for a block list, the
   * contributions joined with newlines; anything else, "".
   */
  function GetTextContent(m: ChatMessage): (r: string)
    ensures m.content.Str? ==> r == m.content.s
    ensures m.content.Other? ==> r == ""
    ensures m.content.Blocks? && Fragments(m.content.items) == [] ==> r == ""
    ensures m.content.Blocks? && |Fragments(m.content.items)| == 1 ==> r == Fragments(m.content.items)[0]
  {
    match m.content
    case Str(s) => s
    case Blocks(items) => Join(Fragments(items), "\n")
    case Other => ""
  }

  /** Fragments distributes over concatenation: list order is kept and nothing is merged. */
  lemma {:induction false} FragmentsAppend(a: seq<Block>, b: seq<Block>)
    ensures Fragments(a + b) == Fragments(a) + Fragments(b)
  {
    if |a| > 0 {
      assert (a + b)[1..] == a[1..] + b;
      FragmentsAppend(a[1..], b);
    } else {
      assert a + b == b;
    }
  }

  /** Every item contributes exactly its own fragment, in position. */
  lemma {:induction false} FragmentsOfOne(b: Block)
    ensures Fragments([b]) == (match BlockFragment(b) case Some(f) => [f] case None => [])
  {
    assert [b][1..] == [];
  }

  /** A list none of whose items contributes yields no fragments at all. */
  lemma {:induction false} FragmentsNone(items: seq<Block>)
    requires forall i :: 0 <= i < |items| ==> BlockFragment(items[i]) == None
    ensures Fragments(items) == []
  {
    if |items| > 0 {
      FragmentsNone(items[1..]);
    }
  }

  /** When every item contributes, there is one fragment per item, in order. */
  lemma {:induction false} FragmentsAll(items: seq<Block>)
    requires forall i :: 0 <= i < |items| ==> BlockFragment(items[i]).Some?
    ensures |Fragments(items)| == |items|
    ensures forall i :: 0 <= i < |items| ==> Fragments(items)[i] == BlockFragment(items[i]).value
  {
    if |items| > 0 {
      FragmentsAll(items[1..]);
    }
  }

  /** String content is returned unchanged; any non-string, non-list shape yields "". */
  lemma GetTextContentScalar(m: ChatMessage)
    ensures m.content.Str? ==> GetTextContent(m) == m.content.s
    ensures m.content.Other? ==> GetTextContent(m) == ""
  {
  }

  /** An empty list, or one in which no item contributes, yields "". */
  lemma GetTextContentNothingUsable(m: ChatMessage)
    requires m.content.Blocks?
    requires forall i :: 0 <= i < |m.content.items| ==> BlockFragment(m.content.items[i]) == None
    ensures GetTextContent(m) == ""
  {
    FragmentsNone(m.content.items);
  }

  /**
   * Splitting a block list into two parts that each contribute something
   * splits the text at exactly one newline.
   */
  lemma GetTextContentAppend(role: string, a: seq<Block>, b: seq<Block>)
    requires Fragments(a) != [] && Fragments(b) != []
    ensures GetTextContent(ChatMessage(role, Blocks(a + b), ""))
         == GetTextContent(ChatMessage(role, Blocks(a), "")) + "\n" + GetTextContent(ChatMessage(role, Blocks(b), ""))
  {
    FragmentsAppend(a, b);
    JoinAppend(Fragments(a), Fragments(b), "\n");
  }

  /** A "text" key holding a non-string contributes nothing, whatever "content" holds. */
  lemma NonStringTextHidesContent(role: string, kind: Field, content: Field, name: string)
    ensures GetTextContent(ChatMessage(role, Blocks([Object(kind, NonString, content)]), name)) == ""
  {
    FragmentsOfOne(Object(kind, NonString, content));
  }
}
