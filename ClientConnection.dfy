/**
 * The widget's connection controller: one socket at a time, retry timers with
 * exponential backoff, fail-fast sends, and the handler that folds incoming
 * envelopes into the chat store.
 */
module ClientConnection {
  import opened Wrappers
  import opened Strings
  import opened Messages
  import opened ChatStore

  const MaxReconnectAttempts: nat := 5
  const BaseDelay: nat := 1000
  const MaxDelay: nat := 10000

  const CreateFailure := "Failed to establish connection"
  const ConnectionFailure := "Connection failed. Please try again."
  const NotConnected := "Not connected. Please wait for connection."
  const SendFailure := "Failed to send message"
  const DefaultError := "An error occurred"

  /** The socket's `readyState`. `Closing` is the window between a close
      begun by the server or the network and the `close` event. */
  datatype ReadyState = Connecting | Open | Closing | Closed

  /** The `userId` and `projectId` query parameters of a socket URL. */
  datatype UpgradeQuery = UpgradeQuery(userId: Option<string>, projectId: Option<string>)

  function Pow2(n: nat): (r: nat)
    ensures r >= 1
  {
    if n == 0 then 1 else 2 * Pow2(n - 1)
  }

  /** `min(1000 * 2^attempts, 10000)`. */
  function Backoff(attempts: nat): (d: nat)
    ensures d <= MaxDelay && d <= BaseDelay * Pow2(attempts)
    ensures d == MaxDelay || d == BaseDelay * Pow2(attempts)
  {
    if BaseDelay * Pow2(attempts) < MaxDelay then BaseDelay * Pow2(attempts) else MaxDelay
  }

  /** `msg_` followed by the time-and-random stamp. */
  function GenerateMessageId(stamp: string): (id: string)
    ensures StartsWith(id, "msg_") && id[4..] == stamp
  {
    "msg_" + stamp
  }

  /** The query a new socket is opened with: the user always, the project only when set. */
  function ConnectQuery(userId: string, projectId: Option<string>): (q: UpgradeQuery)
    ensures q.userId == Some(userId)
    ensures q.projectId.Some? <==> Truthy(projectId)
    ensures q.projectId.Some? ==> q.projectId == projectId
  {
    UpgradeQuery(Some(userId), if Truthy(projectId) then projectId else None)
  }

  /** `setConnecting(true)` then `setError(undefined)`, and on a URL that does
      not parse `setError(...)` then `setConnecting(false)`. */
  function ConnectStore(s: ChatState, urlValid: bool): (r: ChatState)
    ensures !r.isConnecting && !r.isConnected
    ensures r.error == if urlValid then None else Some(CreateFailure)
    ensures r.isOpen == s.isOpen && r.messages == s.messages && r.currentMessage == s.currentMessage
  {
    var s1 := SetError(SetConnecting(s, true), None);
    if urlValid then s1 else SetConnecting(SetError(s1, Some(CreateFailure)), false)
  }

  /** The message a send adds to the store. */
  function UserChatMessage(id: string, content: string, now: int, userId: string, projectId: Option<string>): ChatMessage {
    ChatMessage(id, content, User, now, userId, projectId, Sending)
  }

  /** The envelope a send transmits. */
  function UserEnvelope(id: string, content: string): Envelope {
    Envelope(UserMessageType, Some(id), Some(Payload(Some(content), false, None, None)))
  }

  /** The store after one incoming frame (the `onmessage` handler): an upsert
      by id that never drops, reorders or re-identifies a stored message, and
      that touches neither the open flag nor the draft. `Connection.OnFrame`
      performs the same steps on the store field. */
  function HandleFrame(s: ChatState, frame: Frame, userId: string, projectId: Option<string>, now: int): (r: ChatState)
    ensures r.isOpen == s.isOpen && r.currentMessage == s.currentMessage
    ensures |s.messages| <= |r.messages| <= |s.messages| + 1
    ensures forall i :: 0 <= i < |s.messages| ==>
      r.messages[i].id == s.messages[i].id && r.messages[i].role == s.messages[i].role
      && r.messages[i].status == s.messages[i].status
    ensures |r.messages| == |s.messages| + 1 ==>
      frame.Json? && frame.envelope.kind == AssistantMessageType && frame.envelope.messageId.Some?
      && !HasMessage(s, frame.envelope.messageId.value)
      && r.messages[|s.messages|].id == frame.envelope.messageId.value && r.messages[|s.messages|].role == Assistant
  {
    match frame
    case Malformed => s
    case NullValue => s
    case Json(e) =>
      match e.kind
      case AssistantMessageType =>
        if e.data.Some? && Truthy(e.messageId) && Truthy(e.data.value.content) then
          var id := e.messageId.value;
          var content := e.data.value.content.value;
          if HasMessage(s, id) then UpdateMessage(s, id, content)
          else AddMessage(s, ChatMessage(id, content, Assistant, now, userId, projectId,
                                         if e.data.value.isComplete then Sent else Streaming))
        else s
      case ErrorType =>
        if e.data.Some? then SetError(s, Some(if Truthy(e.data.value.error) then e.data.value.error.value else DefaultError))
        else s
      case _ => s
  }

  class Connection {
    const userId: string
    const projectId: Option<string>
    /** Whether the configured URL parses; when it does not, creating a socket throws. */
    const urlValid: bool

    var socket: Option<ReadyState>
    var reconnectAttempts: nat
    /** Pending retry timers, by timer id, with their delays. */
    var timers: map<nat, nat>
    var nextTimer: nat
    /** The most recently scheduled timer: the only one `disconnect` can clear. */
    var reconnectTimeout: Option<nat>
    var store: ChatState
    /** The query of every socket created, in order. */
    var created: seq<UpgradeQuery>
    /** Every envelope transmitted, in order. */
    var transmitted: seq<Envelope>
    /** Whether a retry was ever scheduled while another was still pending. */
    ghost var overlapped: bool

    ghost predicate Valid()
      reads this
    {
      && (forall t :: t in timers ==> t < nextTimer && timers[t] in {1000, 2000, 4000, 8000, 10000})
      && (reconnectTimeout.Some? ==> reconnectTimeout.value < nextTimer)
      && (!overlapped ==> reconnectAttempts + |timers.Keys| <= MaxReconnectAttempts)
    }

    constructor (userId: string, projectId: Option<string>, urlValid: bool)
      ensures Valid()
      ensures this.userId == userId && this.projectId == projectId && this.urlValid == urlValid
      ensures socket == None && reconnectAttempts == 0 && timers == map[] && nextTimer == 0 && reconnectTimeout == None
      ensures store == Initial() && created == [] && transmitted == [] && !overlapped
    {
      this.userId := userId;
      this.projectId := projectId;
      this.urlValid := urlValid;
      socket := None;
      reconnectAttempts := 0;
      timers := map[];
      nextTimer := 0;
      reconnectTimeout := None;
      store := Initial();
      created := [];
      transmitted := [];
      overlapped := false;
    }

    /** Open a socket unless one is already open or connecting. */
    method Connect()
      requires Valid()
      modifies this
      ensures Valid()
      ensures old(socket) == Some(Open) || old(socket) == Some(Connecting) ==>
        socket == old(socket) && store == old(store) && created == old(created)
      ensures old(socket) != Some(Open) && old(socket) != Some(Connecting) ==>
        && store == ConnectStore(old(store), urlValid)
        && socket == (if urlValid then Some(Connecting) else old(socket))
        && created == old(created) + (if urlValid then [ConnectQuery(userId, projectId)] else [])
      ensures reconnectAttempts == old(reconnectAttempts) && timers == old(timers) && nextTimer == old(nextTimer)
      ensures reconnectTimeout == old(reconnectTimeout) && transmitted == old(transmitted) && overlapped == old(overlapped)
    {
      if socket == Some(Open) || socket == Some(Connecting) {
        return;
      }
      store := SetConnecting(store, true);
      store := SetError(store, None);
      if !urlValid {
        store := SetError(store, Some(CreateFailure));
        store := SetConnecting(store, false);
        return;
      }
      created := created + [ConnectQuery(userId, projectId)];
      socket := Some(Connecting);
    }

    method OnOpen()
      requires Valid() && socket == Some(Connecting)
      modifies this
      ensures Valid()
      ensures socket == Some(Open) && reconnectAttempts == 0 && store == SetConnected(old(store), true)
      ensures store.isConnected && store.error == None
      ensures timers == old(timers) && nextTimer == old(nextTimer) && reconnectTimeout == old(reconnectTimeout)
      ensures created == old(created) && transmitted == old(transmitted) && overlapped == old(overlapped)
    {
      store := SetConnected(store, true);
      reconnectAttempts := 0;
      socket := Some(Open);
    }

    /** The server or the network starts closing the socket; the `close` event
        comes later. Until then the socket is neither open nor connecting. */
    method OnClosing()
      requires Valid() && (socket == Some(Open) || socket == Some(Connecting))
      modifies this
      ensures Valid()
      ensures socket == Some(Closing) && store == old(store)
      ensures reconnectAttempts == old(reconnectAttempts) && timers == old(timers) && nextTimer == old(nextTimer)
      ensures reconnectTimeout == old(reconnectTimeout) && created == old(created) && transmitted == old(transmitted)
      ensures overlapped == old(overlapped)
    {
      socket := Some(Closing);
    }

    /** The current socket closes; its close handler then runs. */
    method OnClose(wasClean: bool)
      requires Valid() && socket.Some? && socket.value != Closed
      modifies this
      ensures Valid()
      ensures socket == Some(Closed) && store == SetConnected(old(store), false)
      ensures !wasClean && old(reconnectAttempts) < MaxReconnectAttempts ==>
        && timers == old(timers)[old(nextTimer) := Backoff(old(reconnectAttempts))]
        && old(nextTimer) !in old(timers)
        && reconnectTimeout == Some(old(nextTimer)) && nextTimer == old(nextTimer) + 1
      ensures wasClean || old(reconnectAttempts) >= MaxReconnectAttempts ==>
        timers == old(timers) && reconnectTimeout == old(reconnectTimeout) && nextTimer == old(nextTimer)
      ensures wasClean || old(reconnectAttempts) >= MaxReconnectAttempts ==> overlapped == old(overlapped)
      ensures !wasClean && old(reconnectAttempts) < MaxReconnectAttempts ==>
        overlapped == (old(overlapped) || old(timers) != map[])
      ensures reconnectAttempts == old(reconnectAttempts) && created == old(created) && transmitted == old(transmitted)
    {
      socket := Some(Closed);
      CloseHandler(wasClean);
    }

    /** The `onclose` handler of any socket this controller created, the
        current one or one it has already forgotten (after `disconnect`, or
        after a reconnect while the old socket was closing): it marks the store
        disconnected and, on an unclean close below the attempt ceiling,
        schedules one retry. It does not look at the current socket. */
    method CloseHandler(wasClean: bool)
      requires Valid()
      modifies this
      ensures Valid()
      ensures socket == old(socket) && store == SetConnected(old(store), false)
      ensures !wasClean && old(reconnectAttempts) < MaxReconnectAttempts ==>
        && timers == old(timers)[old(nextTimer) := Backoff(old(reconnectAttempts))]
        && old(nextTimer) !in old(timers)
        && reconnectTimeout == Some(old(nextTimer)) && nextTimer == old(nextTimer) + 1
      ensures wasClean || old(reconnectAttempts) >= MaxReconnectAttempts ==>
        timers == old(timers) && reconnectTimeout == old(reconnectTimeout) && nextTimer == old(nextTimer)
      ensures wasClean || old(reconnectAttempts) >= MaxReconnectAttempts ==> overlapped == old(overlapped)
      ensures !wasClean && old(reconnectAttempts) < MaxReconnectAttempts ==>
        overlapped == (old(overlapped) || old(timers) != map[])
      ensures reconnectAttempts == old(reconnectAttempts) && created == old(created) && transmitted == old(transmitted)
    {
      store := SetConnected(store, false);
      if !wasClean && reconnectAttempts < MaxReconnectAttempts {
        BackoffScheduleIn(reconnectAttempts);
        overlapped := overlapped || |timers.Keys| > 0;
        timers := timers[nextTimer := Backoff(reconnectAttempts)];
        reconnectTimeout := Some(nextTimer);
        nextTimer := nextTimer + 1;
      }
    }

    method OnError()
      requires Valid() && socket.Some? && socket.value != Closed
      modifies this
      ensures Valid()
      ensures store == SetConnected(SetError(old(store), Some(ConnectionFailure)), false)
      ensures socket == old(socket) && reconnectAttempts == old(reconnectAttempts) && timers == old(timers)
      ensures reconnectTimeout == old(reconnectTimeout) && created == old(created) && transmitted == old(transmitted)
      ensures nextTimer == old(nextTimer) && overlapped == old(overlapped)
    {
      store := SetError(store, Some(ConnectionFailure));
      store := SetConnected(store, false);
    }

    /** A retry timer fires: count the attempt, then connect. */
    method FireRetry(t: nat)
      requires Valid() && t in timers
      modifies this
      ensures Valid()
      ensures reconnectAttempts == old(reconnectAttempts) + 1 && timers == old(timers) - {t}
      ensures !overlapped ==> reconnectAttempts <= MaxReconnectAttempts
      ensures old(socket) == Some(Open) || old(socket) == Some(Connecting) ==>
        socket == old(socket) && store == old(store) && created == old(created)
      ensures old(socket) != Some(Open) && old(socket) != Some(Connecting) ==>
        && store == ConnectStore(old(store), urlValid)
        && socket == (if urlValid then Some(Connecting) else old(socket))
        && created == old(created) + (if urlValid then [ConnectQuery(userId, projectId)] else [])
      ensures nextTimer == old(nextTimer) && reconnectTimeout == old(reconnectTimeout)
      ensures transmitted == old(transmitted) && overlapped == old(overlapped)
    {
      assert timers.Keys == (timers - {t}).Keys + {t};
      timers := timers - {t};
      reconnectAttempts := reconnectAttempts + 1;
      Connect();
    }

    /** Fail fast when not open; otherwise store the message, then transmit it. */
    method Send(content: string, stamp: string, now: int, sendThrows: bool)
      requires Valid()
      modifies this
      ensures Valid()
      ensures old(socket) != Some(Open) ==>
        store == SetError(old(store), Some(NotConnected)) && transmitted == old(transmitted)
      ensures old(socket) == Some(Open) ==>
        var id := GenerateMessageId(stamp);
        var m := UserChatMessage(id, content, now, userId, projectId);
        && store.messages == UpdateMessage(AddMessage(old(store), m), id, content).messages
        && (!HasMessage(old(store), id) ==> store.messages == old(store.messages) + [m])
        && |store.messages| == |old(store.messages)| + 1 && store.messages[|old(store.messages)|] == m
        && transmitted == old(transmitted) + (if sendThrows then [] else [UserEnvelope(id, content)])
        && (sendThrows ==> store == SetError(old(store), Some(SendFailure)).(messages := store.messages))
        && (!sendThrows ==> store == old(store).(messages := store.messages))
      ensures socket == old(socket) && reconnectAttempts == old(reconnectAttempts) && timers == old(timers)
      ensures reconnectTimeout == old(reconnectTimeout) && created == old(created)
      ensures nextTimer == old(nextTimer) && overlapped == old(overlapped)
    {
      if socket != Some(Open) {
        store := SetError(store, Some(NotConnected));
        return;
      }
      var messageId := GenerateMessageId(stamp);
      var userMessage := UserChatMessage(messageId, content, now, userId, projectId);
      store := AddMessage(store, userMessage);
      if !sendThrows {
        transmitted := transmitted + [UserEnvelope(messageId, content)];
        store := UpdateMessage(store, messageId, content);
      } else {
        store := UpdateMessage(store, messageId, content);
        store := SetError(store, Some(SendFailure));
      }
      if !HasMessage(old(store), messageId) {
        UpdateAfterAdd(old(store), userMessage, content);
      }
    }

    /** The `onmessage` handler; an unparsable frame, or a throwing read, changes
        nothing. Its branches follow those of `HandleFrame` one for one. */
    method OnFrame(frame: Frame, now: int)
      requires Valid()
      modifies this
      ensures Valid()
      ensures store == HandleFrame(old(store), frame, userId, projectId, now)
      ensures socket == old(socket) && reconnectAttempts == old(reconnectAttempts) && timers == old(timers)
      ensures reconnectTimeout == old(reconnectTimeout) && created == old(created) && transmitted == old(transmitted)
      ensures nextTimer == old(nextTimer) && overlapped == old(overlapped)
    {
      if frame.Json? {
        var message := frame.envelope;
        if message.kind == AssistantMessageType {
          if message.data.Some? && Truthy(message.messageId) && Truthy(message.data.value.content) {
            var id := message.messageId.value;
            var content := message.data.value.content.value;
            if HasMessage(store, id) {
              store := UpdateMessage(store, id, content);
            } else {
              var status := if message.data.value.isComplete then Sent else Streaming;
              store := AddMessage(store, ChatMessage(id, content, Assistant, now, userId, projectId, status));
            }
          }
        } else if message.kind == ErrorType {
          if message.data.Some? {
            var error := message.data.value.error;
            store := SetError(store, Some(if Truthy(error) then error.value else DefaultError));
          }
        }
      }
    }

    /** Clear the latest retry timer, close and forget the socket. */
    method Disconnect()
      requires Valid()
      modifies this
      ensures Valid()
      ensures timers == if old(reconnectTimeout).Some? then old(timers) - {old(reconnectTimeout).value} else old(timers)
      ensures socket == None && store == SetConnected(old(store), false)
      ensures reconnectAttempts == old(reconnectAttempts) && nextTimer == old(nextTimer)
      ensures reconnectTimeout == old(reconnectTimeout) && created == old(created) && transmitted == old(transmitted)
      ensures overlapped == old(overlapped)
    {
      if reconnectTimeout.Some? {
        var t := reconnectTimeout.value;
        assert timers.Keys - {t} == (timers - {t}).Keys;
        timers := timers - {t};
      }
      socket := None;
      store := SetConnected(store, false);
    }
  }

  // ---------------------------------------------------------------------------
  // Backoff

  lemma {:induction false} Pow2Monotone(a: nat, b: nat)
    requires a <= b
    ensures Pow2(a) <= Pow2(b)
    decreases b
  {
    if a < b {
      Pow2Monotone(a, b - 1);
    }
  }

  /** The delays for attempts 0 to 4. */
  lemma BackoffSchedule()
    ensures Backoff(0) == 1000 && Backoff(1) == 2000 && Backoff(2) == 4000
    ensures Backoff(3) == 8000 && Backoff(4) == 10000
  {
    assert Pow2(1) == 2 && Pow2(2) == 4 && Pow2(3) == 8 && Pow2(4) == 16;
  }

  lemma BackoffScheduleIn(attempts: nat)
    requires attempts < MaxReconnectAttempts
    ensures Backoff(attempts) in {1000, 2000, 4000, 8000, 10000}
  {
    BackoffSchedule();
  }

  /** More attempts never wait less, and from attempt 4 on the wait is the ceiling. */
  lemma BackoffMonotone(a: nat, b: nat)
    requires a <= b
    ensures Backoff(a) <= Backoff(b)
    ensures 4 <= a ==> Backoff(a) == MaxDelay
  {
    Pow2Monotone(a, b);
    if 4 <= a {
      Pow2Monotone(4, a);
      BackoffSchedule();
    }
  }

  // ---------------------------------------------------------------------------
  // Incoming frames

  /** An `assistant_message` for a known id replaces that message's content
      and keeps the number of messages. */
  lemma AssistantFrameUpdatesExisting(s: ChatState, e: Envelope, userId: string, projectId: Option<string>, now: int)
    requires e.kind == AssistantMessageType && e.data.Some? && Truthy(e.messageId) && Truthy(e.data.value.content)
    requires HasMessage(s, e.messageId.value)
    ensures var r := HandleFrame(s, Json(e), userId, projectId, now);
      |r.messages| == |s.messages|
      && forall i :: 0 <= i < |s.messages| ==>
        r.messages[i].id == s.messages[i].id && r.messages[i].status == s.messages[i].status
        && r.messages[i].content == (if s.messages[i].id == e.messageId.value then e.data.value.content.value else s.messages[i].content)
  {
  }

  /** An `assistant_message` for a new id appends one message, `sent` when
      complete and `streaming` otherwise. */
  lemma AssistantFrameAppendsNew(s: ChatState, e: Envelope, userId: string, projectId: Option<string>, now: int)
    requires e.kind == AssistantMessageType && e.data.Some? && Truthy(e.messageId) && Truthy(e.data.value.content)
    requires !HasMessage(s, e.messageId.value)
    ensures var r := HandleFrame(s, Json(e), userId, projectId, now);
      r.messages[..|s.messages|] == s.messages && |r.messages| == |s.messages| + 1
      && var m := r.messages[|s.messages|];
      m.id == e.messageId.value && m.content == e.data.value.content.value && m.role == Assistant
      && m.status == (if e.data.value.isComplete then Sent else Streaming)
  {
  }

  /** An `assistant_message` without id or content, an `error` frame without
      `data`, a frame that does not parse, and a `connection_status` or unknown
      frame change nothing. */
  lemma IgnoredFrames(s: ChatState, frame: Frame, userId: string, projectId: Option<string>, now: int)
    requires frame.Malformed? || frame.NullValue?
      || (frame.Json? && frame.envelope.kind in {ConnectionStatusType, OtherType, UserMessageType})
      || (frame.Json? && frame.envelope.kind == ErrorType && frame.envelope.data.None?)
      || (frame.Json? && frame.envelope.kind == AssistantMessageType &&
          (frame.envelope.data.None? || !Truthy(frame.envelope.messageId) || !Truthy(frame.envelope.data.value.content)))
    ensures HandleFrame(s, frame, userId, projectId, now) == s
  {
  }

  /** An `error` frame records its `data.error`, or a default text, and marks
      the store disconnected. */
  lemma ErrorFrameSetsError(s: ChatState, e: Envelope, userId: string, projectId: Option<string>, now: int)
    requires e.kind == ErrorType && e.data.Some?
    ensures var r := HandleFrame(s, Json(e), userId, projectId, now);
      r.error == Some(if Truthy(e.data.value.error) then e.data.value.error.value else DefaultError)
      && !r.isConnected && !r.isConnecting && r.messages == s.messages
  {
  }

  // ---------------------------------------------------------------------------
  // Retry scenarios

  /** Repeated unclean closes with no open in between: exactly five retries
      fire, with delays 1, 2, 4, 8 and 10 seconds, and the sixth close
      schedules nothing. */
  method RetriesStopAfterFive() returns (delays: seq<nat>, attempts: nat, pendingAfter: nat)
    ensures delays == [1000, 2000, 4000, 8000, 10000]
    ensures attempts == MaxReconnectAttempts && pendingAfter == 0
  {
    var c := new Connection("user", None, true);
    c.Connect();
    delays := [];
    BackoffSchedule();
    while |delays| < 5
      invariant c.Valid() && !c.overlapped
      invariant c.socket == Some(Connecting) && c.timers == map[]
      invariant c.reconnectAttempts == |delays| <= 5
      invariant forall k :: 0 <= k < |delays| ==> delays[k] == Backoff(k)
    {
      c.OnClose(false);
      var t := c.reconnectTimeout.value;
      delays := delays + [c.timers[t]];
      c.FireRetry(t);
      assert c.timers == map[];
    }
    c.OnClose(false);
    attempts := c.reconnectAttempts;
    pendingAfter := |c.timers.Keys|;
  }

  /** While an open socket is closing, a send fails fast and transmits nothing,
      and a connect is not held back by the guard: it creates a second socket. */
  method SendAndConnectWhileClosing() returns (error: Option<string>, transmittedCount: nat, createdCount: nat)
    ensures error == Some(NotConnected) && transmittedCount == 0 && createdCount == 2
  {
    var c := new Connection("user", None, true);
    c.Connect();
    c.OnOpen();
    c.OnClosing();
    c.Send("hello", "1", 0, false);
    error := c.store.error;
    transmittedCount := |c.transmitted|;
    c.Connect();
    createdCount := |c.created|;
  }

  /** `disconnect` while the socket is still connecting closes it before it
      opens, so its close is unclean; its handler, still attached, schedules a
      retry, and that retry opens a new socket after the disconnect. */
  method DisconnectWhileConnectingReconnects() returns (createdCount: nat, state: Option<ReadyState>)
    ensures createdCount == 2 && state == Some(Connecting)
  {
    var c := new Connection("user", None, true);
    c.Connect();
    c.Disconnect();
    c.CloseHandler(false);
    var t := c.reconnectTimeout.value;
    c.FireRetry(t);
    createdCount := |c.created|;
    state := c.socket;
  }

  /** A manual reconnect while a retry is pending leaves two timers; disconnect
      clears only the later one, so one retry still fires afterwards. */
  method OverlappingRetryOutlivesDisconnect() returns (pendingAfter: nat)
    ensures pendingAfter == 1
  {
    var c := new Connection("user", None, true);
    c.Connect();
    c.OnClose(false);
    c.Connect();
    c.OnClose(false);
    assert c.timers.Keys == {0, 1};
    c.Disconnect();
    assert c.timers.Keys == {0};
    pendingAfter := |c.timers.Keys|;
  }
}
