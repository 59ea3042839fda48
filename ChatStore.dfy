/**
 * The widget's chat store: a record of flags and the message list, and the
 * actions that compute the next record from the current one.
 */
module ChatStore {
  import opened Wrappers
  import opened Messages

  datatype ChatState = ChatState(
    isOpen: bool,
    isConnected: bool,
    isConnecting: bool,
    messages: seq<ChatMessage>,
    currentMessage: string,
    error: Option<string>)

  /** The store's initial state: closed, disconnected, no messages, no error. */
  function Initial(): (s: ChatState)
    ensures !s.isOpen && !s.isConnected && !s.isConnecting
    ensures s.messages == [] && s.currentMessage == "" && s.error == None
  {
    ChatState(false, false, false, [], "", None)
  }

  function ToggleChat(s: ChatState): (r: ChatState)
    ensures r.isOpen == !s.isOpen
    ensures r.(isOpen := s.isOpen) == s
  {
    s.(isOpen := !s.isOpen)
  }

  function SetConnecting(s: ChatState, connecting: bool): (r: ChatState)
    ensures r.isConnecting == connecting
    ensures r.(isConnecting := s.isConnecting) == s
  {
    s.(isConnecting := connecting)
  }

  /** Connecting ends; a successful connection clears the error, a lost one keeps it. */
  function SetConnected(s: ChatState, connected: bool): (r: ChatState)
    ensures r.isConnected == connected && !r.isConnecting
    ensures connected ==> r.error == None
    ensures !connected ==> r.error == s.error
    ensures r.isOpen == s.isOpen && r.messages == s.messages && r.currentMessage == s.currentMessage
  {
    s.(isConnected := connected, isConnecting := false, error := if connected then None else s.error)
  }

  /** Recording an error (or clearing it with `None`) also marks the store disconnected. */
  function SetError(s: ChatState, error: Option<string>): (r: ChatState)
    ensures r.error == error && !r.isConnecting && !r.isConnected
    ensures r.isOpen == s.isOpen && r.messages == s.messages && r.currentMessage == s.currentMessage
  {
    s.(error := error, isConnecting := false, isConnected := false)
  }

  function AddMessage(s: ChatState, m: ChatMessage): (r: ChatState)
    ensures |r.messages| == |s.messages| + 1
    ensures r.messages[..|s.messages|] == s.messages && r.messages[|s.messages|] == m
    ensures r.(messages := s.messages) == s
  {
    s.(messages := s.messages + [m])
  }

  /** Replace the content of every message with this id; nothing else changes. */
  function UpdateMessage(s: ChatState, id: string, content: string): (r: ChatState)
    ensures |r.messages| == |s.messages|
    ensures forall i :: 0 <= i < |s.messages| ==>
      r.messages[i] == if s.messages[i].id == id then s.messages[i].(content := content) else s.messages[i]
    ensures r.(messages := s.messages) == s
  {
    s.(messages := seq(|s.messages|, i requires 0 <= i < |s.messages| =>
      if s.messages[i].id == id then s.messages[i].(content := content) else s.messages[i]))
  }

  function SetCurrentMessage(s: ChatState, message: string): (r: ChatState)
    ensures r.currentMessage == message
    ensures r.(currentMessage := s.currentMessage) == s
  {
    s.(currentMessage := message)
  }

  function ClearMessages(s: ChatState): (r: ChatState)
    ensures r.messages == []
    ensures r.(messages := s.messages) == s
  {
    s.(messages := [])
  }

  /** Whether some stored message has this id (the widget's `messages.find`). */
  predicate HasMessage(s: ChatState, id: string) {
    exists i :: 0 <= i < |s.messages| && s.messages[i].id == id
  }

  /** Toggling twice restores the state. */
  lemma ToggleChatInvolution(s: ChatState)
    ensures ToggleChat(ToggleChat(s)) == s
  {
  }

  /** Updating keeps every message's id, role, status, timestamp and owner. */
  lemma UpdateMessageKeepsIdentity(s: ChatState, id: string, content: string, i: nat)
    requires i < |s.messages|
    ensures var m := UpdateMessage(s, id, content).messages[i];
      m.id == s.messages[i].id && m.role == s.messages[i].role && m.status == s.messages[i].status
      && m.timestamp == s.messages[i].timestamp && m.userId == s.messages[i].userId
      && m.projectId == s.messages[i].projectId
    ensures s.messages[i].id == id ==> UpdateMessage(s, id, content).messages[i].content == content
  {
  }

  /** Updating an id that no message has changes nothing. */
  lemma UpdateMessageAbsent(s: ChatState, id: string, content: string)
    requires !HasMessage(s, id)
    ensures UpdateMessage(s, id, content) == s
  {
    var r := UpdateMessage(s, id, content);
    assert r.messages == s.messages;
  }

  /** Updating twice with the same id and content is updating once. */
  lemma UpdateMessageIdempotent(s: ChatState, id: string, content: string)
    ensures UpdateMessage(UpdateMessage(s, id, content), id, content) == UpdateMessage(s, id, content)
  {
    var r1 := UpdateMessage(s, id, content);
    var r2 := UpdateMessage(r1, id, content);
    assert r2.messages == r1.messages;
  }

  /** A message added and then updated is the same as one added with the new content. */
  lemma UpdateAfterAdd(s: ChatState, m: ChatMessage, content: string)
    requires !HasMessage(s, m.id)
    ensures UpdateMessage(AddMessage(s, m), m.id, content) == AddMessage(s, m.(content := content))
  {
    var r1 := UpdateMessage(AddMessage(s, m), m.id, content);
    var r2 := AddMessage(s, m.(content := content));
    assert r1.messages == r2.messages;
  }

  /** Clearing twice is clearing once, and clearing then adding leaves exactly that message. */
  lemma ClearMessagesThenAdd(s: ChatState, m: ChatMessage)
    ensures ClearMessages(ClearMessages(s)) == ClearMessages(s)
    ensures AddMessage(ClearMessages(s), m).messages == [m]
  {
  }
}
