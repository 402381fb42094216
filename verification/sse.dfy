/**
 * Server-sent-event framing and the chunk converter (internal/streaming/sse.go).
 * Frames follow the `data: <payload>` + blank-line form of the event-stream
 * format, section 9.2 of the WHATWG HTML Living Standard.
 */
module Streaming {
  import opened Wrappers
  import opened Seqs
  import opened JsonContent
  import opened OpenAI

  const ChunkObject := "chat.completion.chunk"
  const StopReason := "stop"
  const CompletionIdPrefix := "chatcmpl-"

  // ---------------------------------------------------------------------------
  // ExtractTextContent: the single-block rule

  /** A block the single-block rule accepts: an object whose "type" is "text" and whose "text" is a string. */
  predicate IsTextBlock(b: Block)
  {
    b.Object? && b.kind == JString("text") && b.text.JString?
  }

  /** The scan of sse.go: the text of the first accepted block, or "" when none is accepted. */
  function FirstText(items: seq<Block>): (r: string)
    ensures var k := FirstIndex(items, IsTextBlock);
            r == if k < |items| then items[k].text.s else ""
  {
    if |items| == 0 then ""
    else if IsTextBlock(items[0]) then items[0].text.s
    else
      assert FirstIndex(items, IsTextBlock) == 1 + FirstIndex(items[1..], IsTextBlock);
      FirstText(items[1..])
  }

  function ExtractTextContent(c: Content): (r: string)
    ensures c.Str? ==> r == c.s
    ensures c.Other? ==> r == ""
    ensures c.Blocks? ==>
              var k := FirstIndex(c.items, IsTextBlock);
              && (forall j :: 0 <= j < k ==> !IsTextBlock(c.items[j]))
              && (k < |c.items| ==> IsTextBlock(c.items[k]) && r == c.items[k].text.s)
              && (k == |c.items| ==> r == "")
  {
    match c
    case Str(s) => s
    case Blocks(items) => FirstText(items)
    case Other => ""
  }

  /** Blocks after the first accepted one are never looked at: nothing is merged in. */
  lemma {:induction false} ExtractIgnoresLaterBlocks(a: seq<Block>, b: seq<Block>)
    requires exists i :: 0 <= i < |a| && IsTextBlock(a[i])
    ensures ExtractTextContent(Blocks(a + b)) == ExtractTextContent(Blocks(a))
  {
    if !IsTextBlock(a[0]) {
      assert (a + b)[1..] == a[1..] + b;
      var i :| 0 <= i < |a| && IsTextBlock(a[i]);
      assert IsTextBlock(a[1..][i - 1]);
      ExtractIgnoresLaterBlocks(a[1..], b);
    }
  }

  /** A block list without any accepted block yields "", whatever else it holds. */
  lemma ExtractWithoutTextBlock(items: seq<Block>)
    requires forall i :: 0 <= i < |items| ==> !IsTextBlock(items[i])
    ensures ExtractTextContent(Blocks(items)) == ""
  {
  }

  /**
   * The single-block rule and the join-all rule are different functions: a
   * block with only a string "content" counts for the second alone, and of
   * two text blocks the first rule keeps one while the second joins both.
   */
  lemma RulesDiffer()
    ensures var only := [Object(Missing, Missing, JString("x"))];
            ExtractTextContent(Blocks(only)) == "" && GetTextContent(ChatMessage("user", Blocks(only), "")) == "x"
    ensures var two := [Object(JString("text"), JString("a"), Missing), Object(JString("text"), JString("b"), Missing)];
            ExtractTextContent(Blocks(two)) == "a" && GetTextContent(ChatMessage("user", Blocks(two), "")) == "a\nb"
  {
    var only := [Object(Missing, Missing, JString("x"))];
    FragmentsOfOne(only[0]);
    var two := [Object(JString("text"), JString("a"), Missing), Object(JString("text"), JString("b"), Missing)];
    assert two == [two[0]] + [two[1]];
    FragmentsAppend([two[0]], [two[1]]);
    FragmentsOfOne(two[0]);
    FragmentsOfOne(two[1]);
    assert Fragments(two) == ["a", "b"];
    assert ["a", "b"][1..] == ["b"];
  }

  // ---------------------------------------------------------------------------
  // Converter and the three chunk shapes

  /** Per-response identity, fixed when the converter is built. */
  datatype Converter = Converter(model: string, sessionId: string, completionId: string, created: int)

  /** "chatcmpl-" and the first 29 characters of a UUID string (slicing a shorter string panics in Go). */
  function CompletionId(uuid: string): (id: string)
    requires |uuid| >= 29
    ensures |id| == 38
    ensures id[..|CompletionIdPrefix|] == CompletionIdPrefix && id[|CompletionIdPrefix|..] == uuid[..29]
  {
    CompletionIdPrefix + uuid[..29]
  }

  /** NewConverter, with the UUID and the clock reading (Unix seconds) as inputs. */
  function NewConverter(model: string, sessionId: string, uuid: string, now: int): (c: Converter)
    requires |uuid| >= 29
    ensures c.model == model && c.sessionId == sessionId && c.created == now
    ensures c.completionId == CompletionId(uuid)
  {
    Converter(model, sessionId, CompletionId(uuid), now)
  }

  /** What a streamed chunk says: the opening role marker, one text delta, or the stop marker. */
  datatype ChunkKind = Initial | ContentDelta(text: string) | Final

  /** The identity fields of a chunk are the converter's. */
  predicate FromConverter(ch: Chunk, c: Converter)
  {
    ch.id == c.completionId && ch.created == c.created && ch.model == c.model
  }

  /** Reads a chunk back: which of the three shapes it has, if any. */
  function Classify(ch: Chunk): Option<ChunkKind>
  {
    if ch.objectType != ChunkObject || |ch.choices| != 1 || ch.choices[0].index != 0 then None
    else
      var choice := ch.choices[0];
      if choice.finishReason == None && choice.delta.role == "assistant" && choice.delta.content == "" then Some(Initial)
      else if choice.finishReason == None && choice.delta.role == "" then Some(ContentDelta(choice.delta.content))
      else if choice.finishReason == Some(StopReason) && choice.delta == Delta("", "") then Some(Final)
      else None
  }

  function MakeChunk(c: Converter, choice: ChunkChoice): Chunk
  {
    Chunk(c.completionId, ChunkObject, c.created, c.model, [choice])
  }

  /** CreateInitialChunk: role "assistant", empty content, null finish reason. */
  function InitialChunk(c: Converter): (ch: Chunk)
    ensures Classify(ch) == Some(Initial) && FromConverter(ch, c)
  {
    MakeChunk(c, ChunkChoice(0, Delta("assistant", ""), None))
  }

  /** CreateContentChunk: the delta content is the argument itself, with no role and no finish reason. */
  function ContentChunk(c: Converter, text: string): (ch: Chunk)
    ensures Classify(ch) == Some(ContentDelta(text)) && FromConverter(ch, c)
  {
    MakeChunk(c, ChunkChoice(0, Delta("", text), None))
  }

  /** CreateFinalChunk: an empty delta and finish reason "stop". */
  function FinalChunk(c: Converter): (ch: Chunk)
    ensures Classify(ch) == Some(Final) && FromConverter(ch, c)
  {
    MakeChunk(c, ChunkChoice(0, Delta("", ""), Some(StopReason)))
  }

  function ChunkOf(c: Converter, k: ChunkKind): Chunk
  {
    match k
    case Initial => InitialChunk(c)
    case ContentDelta(t) => ContentChunk(c, t)
    case Final => FinalChunk(c)
  }

  /**
   * A chunk is determined by its kind and its converter: reading a chunk back
   * and rebuilding it from the converter gives the same chunk, and every
   * built chunk reads back as the kind it was built for.
   */
  lemma ChunkRoundTrip(c: Converter, ch: Chunk, k: ChunkKind)
    ensures Classify(ChunkOf(c, k)) == Some(k) && FromConverter(ChunkOf(c, k), c)
    ensures Classify(ch) == Some(k) && FromConverter(ch, c) ==> ch == ChunkOf(c, k)
  {
    if Classify(ch) == Some(k) && FromConverter(ch, c) {
      assert ch.choices == [ch.choices[0]];
    }
  }

  // ---------------------------------------------------------------------------
  // SSE framing

  datatype Frame = Data(chunk: Chunk) | Done

  /** FormatEvent on an already serialised payload. */
  function FormatEvent(payload: string): (frame: string)
    ensures PayloadOf(frame) == Some(payload)
  {
    "data: " + payload + "\n\n"
  }

  /** FormatDone: the end-of-stream sentinel is the frame whose payload is "[DONE]". */
  function FormatDone(): (frame: string)
    ensures frame == FormatEvent("[DONE]")
    ensures PayloadOf(frame) == Some("[DONE]")
  {
    "data: [DONE]\n\n"
  }

  /** The payload of a single frame, if the string is one. */
  function PayloadOf(frame: string): Option<string>
  {
    if |frame| >= 8 && frame[..6] == "data: " && frame[|frame| - 2..] == "\n\n"
    then Some(frame[6..|frame| - 2])
    else None
  }

  /** The payload each frame carries, chunks serialised by `encode` (json.Marshal). */
  function FramePayload(f: Frame, encode: Chunk -> string): string
  {
    match f
    case Data(ch) => encode(ch)
    case Done => "[DONE]"
  }

  function Render(f: Frame, encode: Chunk -> string): (s: string)
    ensures s == FormatEvent(FramePayload(f, encode))
  {
    match f
    case Data(ch) => FormatEvent(encode(ch))
    case Done => FormatDone()
  }

  /** The bytes written for a sequence of frames. */
  function RenderAll(frames: seq<Frame>, encode: Chunk -> string): string
  {
    if |frames| == 0 then "" else Render(frames[0], encode) + RenderAll(frames[1..], encode)
  }

  /** The wire form of a list of payloads. */
  function Wire(payloads: seq<string>): string
  {
    if |payloads| == 0 then "" else FormatEvent(payloads[0]) + Wire(payloads[1..])
  }

  /** Position of the first newline at or after i, or |s|. */
  function NextNewline(s: string, i: nat): (k: nat)
    requires i <= |s|
    ensures i <= k <= |s|
    ensures forall j :: i <= j < k ==> s[j] != '\n'
    ensures k < |s| ==> s[k] == '\n'
    decreases |s| - i
  {
    if i == |s| || s[i] == '\n' then i else NextNewline(s, i + 1)
  }

  /** A client's reading of the stream: split the bytes back into frame payloads. */
  function SplitWire(s: string): Option<seq<string>>
    decreases |s|
  {
    if |s| == 0 then Some([])
    else if |s| < 6 || s[..6] != "data: " then None
    else
      var k := NextNewline(s, 6);
      if k + 2 > |s| || s[k..k + 2] != "\n\n" then None
      else
        match SplitWire(s[k + 2..])
        case None => None
        case Some(rest) => Some([s[6..k]] + rest)
  }

  predicate NoNewline(p: string)
  {
    forall i :: 0 <= i < |p| ==> p[i] != '\n'
  }

  /** The payloads of a sequence of frames, frame by frame. */
  function Payloads(frames: seq<Frame>, encode: Chunk -> string): (ps: seq<string>)
    ensures |ps| == |frames|
    ensures forall i :: 0 <= i < |frames| ==> ps[i] == FramePayload(frames[i], encode)
  {
    if |frames| == 0 then [] else [FramePayload(frames[0], encode)] + Payloads(frames[1..], encode)
  }

  /** Rendering frames is writing their payloads in frame order. */
  lemma {:induction false} RenderAllIsWire(frames: seq<Frame>, encode: Chunk -> string)
    ensures RenderAll(frames, encode) == Wire(Payloads(frames, encode))
  {
    if |frames| > 0 {
      RenderAllIsWire(frames[1..], encode);
      assert Payloads(frames, encode)[1..] == Payloads(frames[1..], encode);
    }
  }

  /**
   * Payloads without a raw newline (json.Marshal never emits one) are
   * recovered exactly, in order, by splitting the concatenated frames.
   */
  lemma {:induction false} WireRoundTrip(payloads: seq<string>)
    requires forall i :: 0 <= i < |payloads| ==> NoNewline(payloads[i])
    ensures SplitWire(Wire(payloads)) == Some(payloads)
  {
    if |payloads| > 0 {
      var p := payloads[0];
      var s := Wire(payloads);
      var tail := Wire(payloads[1..]);
      assert s == "data: " + p + "\n\n" + tail;
      assert s[..6] == "data: ";
      var k := NextNewline(s, 6);
      assert s[6 + |p|] == '\n';
      assert forall j :: 6 <= j < 6 + |p| ==> s[j] == p[j - 6];
      assert k == 6 + |p|;
      assert s[k..k + 2] == "\n\n";
      assert s[k + 2..] == tail;
      assert s[6..k] == p;
      WireRoundTrip(payloads[1..]);
      assert [p] + payloads[1..] == payloads;
    }
  }
}
