/**
 * The shared message types: a chat message as the widget stores it and the
 * envelope exchanged over the socket, together with what `JSON.parse` can
 * make of a text frame.
 */
module Messages {
  import opened Wrappers

  datatype Role = User | Assistant

  /** Delivery status. The shared `ChatMessage` type has no such field; the
      widget adds it to every message it stores. */
  datatype Status = Sending | Sent | Streaming | Failed

  datatype ChatMessage = ChatMessage(
    id: string,
    content: string,
    role: Role,
    timestamp: int,
    userId: string,
    projectId: Option<string>,
    status: Status)

  /** The envelope's `type`; any other value, or none, is `OtherType`. */
  datatype MessageType = UserMessageType | AssistantMessageType | ErrorType | ConnectionStatusType | OtherType

  /** The fields of the untyped `data` object that either side reads or writes.
      An absent `isComplete` reads as false. */
  datatype Payload = Payload(
    content: Option<string>,
    isComplete: bool,
    error: Option<string>,
    message: Option<string>)

  /** A parsed envelope; `data` is `None` when it is `null` or absent. */
  datatype Envelope = Envelope(kind: MessageType, messageId: Option<string>, data: Option<Payload>)

  /** A text frame after `JSON.parse`: not JSON at all, the JSON value `null`
      (on which reading `.type` throws), or a value read as an envelope. */
  datatype Frame = Malformed | NullValue | Json(envelope: Envelope)

  /** JavaScript truthiness of an optional string: present and non-empty. */
  predicate Truthy(o: Option<string>) {
    o.Some? && o.value != ""
  }

  /** The content of an `assistant_message` envelope, "" when it has none. */
  function ContentOf(e: Envelope): string {
    if e.data.Some? && e.data.value.content.Some? then e.data.value.content.value else ""
  }

  /** Whether an envelope is an `assistant_message` flagged `isComplete`. */
  predicate IsTerminal(e: Envelope) {
    e.kind == AssistantMessageType && e.data.Some? && e.data.value.isComplete
  }
}
