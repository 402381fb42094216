/** The decoded form of one line of the CLI's stream-json output (internal/models/claude.go). */
module ClaudeEvents {
  import opened Wrappers
  import opened JsonContent

  const AssistantKind := "assistant"
  const ResultKind := "result"

  /** ClaudeMessageContent: a role and a polymorphic content value. */
  datatype Message = Message(role: string, content: Content)

  /**
   * ClaudeMessage, restricted to the fields the gateway reads: the `type`
   * discriminator, the optional `message` and the `session_id`.
   */
  datatype Event = Event(kind: string, message: Option<Message>, sessionId: string)

  predicate IsResult(e: Event)
  {
    e.kind == ResultKind
  }
}
