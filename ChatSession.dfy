/**
 * The per-session server object: upgrade gate, the map of accepted sockets,
 * the inbound-frame handler, the mock answer stream and the cumulative emitter.
 * A socket is modelled by the log of envelopes sent on it.
 */
module ChatSession {
  import opened Wrappers
  import opened Strings
  import opened Messages

  const Anonymous := "anonymous"
  const AckText := "Processing your message..."
  const ProcessFailure := "Failed to process message"
  const GenerateFailure := "Failed to generate response"

  /** What the session object reads from an inbound HTTP request: the
      `Upgrade` header and the `userId` / `projectId` query parameters. */
  datatype Request = Request(upgrade: Option<string>, userIdParam: Option<string>, projectIdParam: Option<string>)

  datatype SessionInfo = SessionInfo(userId: string, projectId: Option<string>)

  /** An answer stream: the chunks it yields, and whether `read()` then
      rejects (`fails`) instead of reporting done. */
  datatype ChunkStream = ChunkStream(chunks: seq<string>, fails: bool)

  /** The server end of a socket: the user and project its listeners captured
      when it was accepted, and every envelope sent on it so far. */
  class ServerSocket {
    const userId: string
    const projectId: Option<string>
    var sent: seq<Envelope>

    constructor (userId: string, projectId: Option<string>)
      ensures this.userId == userId && this.projectId == projectId && sent == []
    {
      this.userId := userId;
      this.projectId := projectId;
      sent := [];
    }

    method Send(e: Envelope)
      modifies this
      ensures sent == old(sent) + [e]
    {
      sent := sent + [e];
    }
  }

  /** `userId` parameter, or "anonymous" when it is absent or empty. */
  function UserIdFrom(param: Option<string>): (r: string)
    ensures r != ""
    ensures Truthy(param) ==> r == param.value
    ensures !Truthy(param) ==> r == Anonymous
  {
    if Truthy(param) then param.value else Anonymous
  }

  /** `projectId` parameter, with an empty value read as absent. */
  function ProjectIdFrom(param: Option<string>): (r: Option<string>)
    ensures r.Some? <==> Truthy(param)
    ensures r.Some? ==> r == param && r.value != ""
  {
    if Truthy(param) then param else None
  }

  /** The retrieval scope: the user's folder, or the project folder inside it. */
  function ScopeFilter(userId: string, projectId: Option<string>): (r: string)
    ensures StartsWith(r, userId) && |r| > |userId| && r[|r| - 1] == '/'
    ensures Truthy(projectId) ==> r == userId + "/" + projectId.value + "/"
    ensures !Truthy(projectId) ==> r == userId + "/"
  {
    if Truthy(projectId) then userId + "/" + projectId.value + "/" else userId + "/"
  }

  function AckEnvelope(): Envelope {
    Envelope(AssistantMessageType, None, Some(Payload(Some(AckText), false, None, None)))
  }

  function ContentEnvelope(content: string, isComplete: bool): Envelope {
    Envelope(AssistantMessageType, None, Some(Payload(Some(content), isComplete, None, None)))
  }

  /** Error frames carry their text in `data.message`. */
  function ErrorEnvelope(message: string): Envelope {
    Envelope(ErrorType, None, Some(Payload(None, false, None, Some(message))))
  }

  /** How a template literal renders the `content` field: a missing one reads "undefined". */
  function QueryText(content: Option<string>): string {
    if content.Some? then content.value else "undefined"
  }

  const MockHead := "I understand you're asking about: \""
  const MockMiddle := "\". This is a mock response from the "

  /** The fixed answer text the mock query builds from the query and scope:
      the query appears verbatim after a fixed opening, and the scope after it. */
  function MockResponse(query: string, scopeFilter: string): (r: string)
    ensures StartsWith(r, MockHead)
    ensures var q := |MockHead|; q + |query| <= |r| && r[q..q + |query|] == query
    ensures var f := |MockHead| + |query| + |MockMiddle|;
      f + |scopeFilter| <= |r| && r[f..f + |scopeFilter|] == scopeFilter
  {
    MockHead + query + MockMiddle + scopeFilter + " scope. AutoRAG integration coming soon!"
  }

  /** Each word followed by one space. */
  function Spaced(words: seq<string>): seq<string> {
    seq(|words|, i requires 0 <= i < |words| => words[i] + " ")
  }

  /** The chunks the mock stream yields for a text: one per `' '`-separated word. */
  function MockChunks(text: string): seq<string> {
    Spaced(Split(text, ' '))
  }

  /** The non-terminal frames for a chunk sequence: the i-th carries chunks 0..i joined. */
  function CumulativeFrames(chunks: seq<string>): (r: seq<Envelope>)
    ensures |r| == |chunks|
    ensures forall i :: 0 <= i < |r| ==> r[i].messageId == None
  {
    seq(|chunks|, i requires 0 <= i < |chunks| => ContentEnvelope(Concat(chunks[..i + 1]), false))
  }

  /** Everything the emitter sends for a stream. */
  function StreamFrames(stream: ChunkStream): (r: seq<Envelope>)
    ensures forall i :: 0 <= i < |r| ==> r[i].messageId == None
  {
    CumulativeFrames(stream.chunks)
      + if stream.fails then [] else [ContentEnvelope(Concat(stream.chunks), true)]
  }

  /** Everything the query-and-stream step sends, including the caught failure. */
  function PipelineFrames(stream: ChunkStream): (r: seq<Envelope>)
    ensures forall i :: 0 <= i < |r| ==> r[i].messageId == None
  {
    StreamFrames(stream) + if stream.fails then [ErrorEnvelope(GenerateFailure)] else []
  }

  /** What a `user_message` with this content produces on its socket. */
  function UserMessageReply(content: Option<string>, userId: string, projectId: Option<string>): (r: seq<Envelope>)
    ensures |r| >= 1 && r[0] == AckEnvelope()
    ensures forall i :: 0 <= i < |r| ==> r[i].messageId == None
  {
    var text := MockResponse(QueryText(content), ScopeFilter(userId, projectId));
    [AckEnvelope()] + PipelineFrames(ChunkStream(MockChunks(text), false))
  }

  /** Every envelope the message listener sends in answer to one inbound frame:
      nothing exactly for a parsed envelope of another type, and never a
      `messageId` on any of them. */
  function Reply(frame: Frame, userId: string, projectId: Option<string>): (r: seq<Envelope>)
    ensures r == [] <==> frame.Json? && frame.envelope.kind != UserMessageType
    ensures forall i :: 0 <= i < |r| ==> r[i].messageId == None
  {
    match frame
    case Malformed => [ErrorEnvelope(ProcessFailure)]
    case NullValue => [ErrorEnvelope(ProcessFailure)]
    case Json(env) =>
      if env.kind != UserMessageType then []
      else if env.data.None? then [ErrorEnvelope(ProcessFailure)]
      else UserMessageReply(env.data.value.content, userId, projectId)
  }

  /** The mock stream: words are enqueued one at a time, advancing an index. */
  method QueryAutoRAG(query: string, scopeFilter: string) returns (stream: ChunkStream)
    ensures stream == ChunkStream(MockChunks(MockResponse(query, scopeFilter)), false)
  {
    var words := Split(MockResponse(query, scopeFilter), ' ');
    var chunks: seq<string> := [];
    var index := 0;
    while index < |words|
      invariant 0 <= index <= |words|
      invariant |chunks| == index
      invariant forall i :: 0 <= i < index ==> chunks[i] == words[i] + " "
    {
      chunks := chunks + [words[index] + " "];
      index := index + 1;
    }
    stream := ChunkStream(chunks, false);
  }

  /** Read the stream to its end, sending the running content after every chunk
      and one complete frame at the end; a rejected read ends it early. */
  method StreamResponse(stream: ChunkStream, socket: ServerSocket) returns (completed: bool)
    modifies socket
    ensures completed == !stream.fails
    ensures socket.sent == old(socket.sent) + StreamFrames(stream)
  {
    var chunks := stream.chunks;
    ghost var frames := CumulativeFrames(chunks);
    var fullContent := "";
    var i := 0;
    while true
      invariant 0 <= i <= |chunks|
      invariant fullContent == Concat(chunks[..i])
      invariant socket.sent == old(socket.sent) + frames[..i]
      decreases |chunks| - i
    {
      if i == |chunks| {
        assert chunks[..i] == chunks && frames[..i] == frames;
        if stream.fails {
          completed := false;
          return;
        }
        socket.Send(ContentEnvelope(fullContent, true));
        break;
      }
      var value := chunks[i];
      assert chunks[..i + 1][..i] == chunks[..i];
      fullContent := fullContent + value;
      socket.Send(ContentEnvelope(fullContent, false));
      assert frames[..i + 1] == frames[..i] + [frames[i]];
      i := i + 1;
    }
    completed := true;
  }

  /** Query, then stream; a failure anywhere in between sends one error frame. */
  method RunPipeline(stream: ChunkStream, socket: ServerSocket)
    modifies socket
    ensures socket.sent == old(socket.sent) + PipelineFrames(stream)
  {
    var completed := StreamResponse(stream, socket);
    if !completed {
      socket.Send(ErrorEnvelope(GenerateFailure));
    }
  }

  class ChatSessionObject {
    var sessions: map<ServerSocket, SessionInfo>

    /** Every entry records the user and project its socket was accepted with.
        This is bookkeeping only: the listeners use the values they captured,
        and nothing reads the map's values back. */
    ghost predicate Valid()
      reads this
    {
      forall s :: s in sessions ==> sessions[s] == SessionInfo(s.userId, s.projectId)
    }

    constructor ()
      ensures Valid() && sessions == map[]
    {
      sessions := map[];
    }

    /** Only a `websocket` upgrade request is accepted; any other gets 400. */
    method Fetch(request: Request) returns (status: nat, body: Option<string>, socket: ServerSocket?)
      requires Valid()
      modifies this
      ensures Valid()
      ensures request.upgrade == Some("websocket") ==>
        status == 101 && body == None && socket != null && fresh(socket) && socket !in old(sessions)
        && sessions == old(sessions)[socket := SessionInfo(socket.userId, socket.projectId)]
        && socket.userId == UserIdFrom(request.userIdParam)
        && socket.projectId == ProjectIdFrom(request.projectIdParam)
        && socket.sent == []
      ensures request.upgrade != Some("websocket") ==>
        status == 400 && body == Some("Expected WebSocket") && socket == null && sessions == old(sessions)
    {
      if request.upgrade == Some("websocket") {
        var s := HandleWebSocket(request);
        status, body, socket := 101, None, s;
      } else {
        status, body, socket := 400, Some("Expected WebSocket"), null;
      }
    }

    /** Accept a new socket and record it under its own key. */
    method HandleWebSocket(request: Request) returns (socket: ServerSocket)
      requires Valid()
      modifies this
      ensures Valid() && fresh(socket) && socket.sent == []
      ensures socket.userId == UserIdFrom(request.userIdParam)
      ensures socket.projectId == ProjectIdFrom(request.projectIdParam)
      ensures socket !in old(sessions)
      ensures sessions == old(sessions)[socket := SessionInfo(socket.userId, socket.projectId)]
      ensures |sessions| == |old(sessions)| + 1
    {
      var userId := UserIdFrom(request.userIdParam);
      var projectId := ProjectIdFrom(request.projectIdParam);
      socket := new ServerSocket(userId, projectId);
      sessions := sessions[socket := SessionInfo(userId, projectId)];
    }

    /** The close listener: forget exactly this socket. */
    method OnClose(socket: ServerSocket)
      requires Valid()
      modifies this
      ensures Valid()
      ensures sessions == old(sessions) - {socket}
      ensures forall s :: s in old(sessions) && s != socket ==> s in sessions && sessions[s] == old(sessions)[s]
    {
      sessions := sessions - {socket};
    }

    /** The message listener: parse failures and thrown handlers become one error frame. */
    method OnMessage(socket: ServerSocket, frame: Frame)
      modifies socket
      ensures socket.sent == old(socket.sent) + Reply(frame, socket.userId, socket.projectId)
    {
      match frame
      case Malformed =>
        socket.Send(ErrorEnvelope(ProcessFailure));
      case NullValue =>
        socket.Send(ErrorEnvelope(ProcessFailure));
      case Json(env) =>
        var threw := ProcessMessage(env, socket, socket.userId, socket.projectId);
        if threw {
          socket.Send(ErrorEnvelope(ProcessFailure));
        }
    }

    /** Dispatch on the envelope type. Reading the content of a `user_message`
        whose `data` is missing throws before anything is sent. */
    method ProcessMessage(message: Envelope, socket: ServerSocket, userId: string, projectId: Option<string>)
      returns (threw: bool)
      modifies socket
      ensures threw <==> message.kind == UserMessageType && message.data.None?
      ensures message.kind != UserMessageType ==> socket.sent == old(socket.sent)
      ensures threw ==> socket.sent == old(socket.sent)
      ensures message.kind == UserMessageType && message.data.Some? ==>
        socket.sent == old(socket.sent) + UserMessageReply(message.data.value.content, userId, projectId)
    {
      threw := false;
      if message.kind == UserMessageType {
        if message.data.None? {
          threw := true;
          return;
        }
        var userMessage := QueryText(message.data.value.content);
        socket.Send(AckEnvelope());
        var scopeFilter := ScopeFilter(userId, projectId);
        var response := QueryAutoRAG(userMessage, scopeFilter);
        RunPipeline(response, socket);
      }
    }
  }

  // ---------------------------------------------------------------------------
  // Properties of the specification functions

  /** The frames of a stream: n cumulative non-terminal frames, then exactly one
      terminal frame with the whole text unless the stream failed. */
  lemma StreamFramesShape(stream: ChunkStream)
    ensures var frames := StreamFrames(stream); var n := |stream.chunks|;
      |frames| == n + (if stream.fails then 0 else 1)
      && (forall i :: 0 <= i < n ==> frames[i].kind == AssistantMessageType && ContentOf(frames[i]) == Concat(stream.chunks[..i + 1]))
      && (forall i :: 0 <= i < |frames| ==> (IsTerminal(frames[i]) <==> !stream.fails && i == n))
      && (!stream.fails ==> ContentOf(frames[n]) == Concat(stream.chunks))
  {
  }

  /** Each frame's content is a prefix of every later frame's, so lengths never decrease. */
  lemma StreamFramesCumulative(stream: ChunkStream, i: nat, j: nat)
    requires i <= j < |StreamFrames(stream)|
    ensures StartsWith(ContentOf(StreamFrames(stream)[j]), ContentOf(StreamFrames(stream)[i]))
    ensures |ContentOf(StreamFrames(stream)[i])| <= |ContentOf(StreamFrames(stream)[j])|
  {
    var frames := StreamFrames(stream);
    var n := |stream.chunks|;
    var ci := if i < n then i + 1 else n;
    var cj := if j < n then j + 1 else n;
    assert ContentOf(frames[i]) == Concat(stream.chunks[..ci]) by {
      if i == n { assert stream.chunks[..n] == stream.chunks; }
    }
    assert ContentOf(frames[j]) == Concat(stream.chunks[..cj]) by {
      if j == n { assert stream.chunks[..n] == stream.chunks; }
    }
    ConcatPrefix(stream.chunks, ci, cj);
  }

  /** Concatenating word-plus-space chunks gives the joined words plus one space. */
  lemma {:induction false} SpacedConcat(words: seq<string>)
    requires |words| >= 1
    ensures Concat(Spaced(words)) == Join(words, ' ') + " "
    decreases |words|
  {
    if |words| == 1 {
      assert Spaced(words) == [] + [words[0] + " "];
    } else {
      SpacedConcat(words[1..]);
      assert Spaced(words) == [words[0] + " "] + Spaced(words[1..]);
      ConcatAppend([words[0] + " "], Spaced(words[1..]));
      assert Concat([words[0] + " "]) == Concat([]) + (words[0] + " ");
    }
  }

  /** The mock stream yields one chunk per word, each a word and a space, and
      its chunks together are the text plus one trailing space. */
  lemma MockChunksCover(text: string)
    ensures |MockChunks(text)| == |Split(text, ' ')| == Occurrences(text, ' ') + 1
    ensures forall i :: 0 <= i < |MockChunks(text)| ==>
      MockChunks(text)[i] == Split(text, ' ')[i] + " " && ' ' !in Split(text, ' ')[i]
    ensures Concat(MockChunks(text)) == text + " "
  {
    SplitLength(text, ' ');
    SplitPiecesHaveNoSeparator(text, ' ');
    SpacedConcat(Split(text, ' '));
    JoinSplit(text, ' ');
  }

  /** What the emitter sends for the mock answer to a query: one cumulative
      frame per word, then one terminal frame holding the text and a space. */
  lemma MockStreamFrames(query: string, scopeFilter: string)
    ensures var text := MockResponse(query, scopeFilter);
      var frames := StreamFrames(ChunkStream(MockChunks(text), false));
      |frames| == Occurrences(text, ' ') + 2
      && IsTerminal(frames[|frames| - 1]) && ContentOf(frames[|frames| - 1]) == text + " "
      && forall i :: 0 <= i < |frames| - 1 ==> !IsTerminal(frames[i])
  {
    var text := MockResponse(query, scopeFilter);
    MockChunksCover(text);
    StreamFramesShape(ChunkStream(MockChunks(text), false));
  }

  /** For a `user_message` the acknowledgment comes first, then the stream,
      ending in its only terminal frame; no error frame is sent. */
  lemma UserMessageReplyOrder(content: Option<string>, userId: string, projectId: Option<string>)
    ensures var reply := UserMessageReply(content, userId, projectId);
      var text := MockResponse(QueryText(content), ScopeFilter(userId, projectId));
      |reply| == Occurrences(text, ' ') + 3
      && reply[0] == AckEnvelope() && !IsTerminal(reply[0]) && ContentOf(reply[0]) == AckText
      && IsTerminal(reply[|reply| - 1]) && ContentOf(reply[|reply| - 1]) == text + " "
      && (forall i :: 0 <= i < |reply| - 1 ==> !IsTerminal(reply[i]))
      && (forall i :: 0 <= i < |reply| ==> reply[i].kind == AssistantMessageType)
  {
    var text := MockResponse(QueryText(content), ScopeFilter(userId, projectId));
    var stream := ChunkStream(MockChunks(text), false);
    MockStreamFrames(QueryText(content), ScopeFilter(userId, projectId));
    StreamFramesShape(stream);
    var reply := UserMessageReply(content, userId, projectId);
    assert reply == [AckEnvelope()] + StreamFrames(stream);
  }

  /** A text that starts with the word "I" streams "I " first. */
  lemma FirstFrameOfWordI(text: string)
    requires |text| >= 2 && text[..2] == "I "
    ensures |StreamFrames(ChunkStream(MockChunks(text), false))| >= 2
    ensures ContentOf(StreamFrames(ChunkStream(MockChunks(text), false))[0]) == "I "
  {
    var tail := text[2..];
    assert text == "I" + [' '] + tail;
    SplitAtSeparator("I", ' ', tail);
    SplitWithoutSeparator("I", ' ');
    var chunks := MockChunks(text);
    assert chunks[0] == "I ";
    assert chunks[..1] == [] + ["I "];
    assert Concat(chunks[..1]) == Concat([]) + "I ";
    var frames := CumulativeFrames(chunks);
    assert |frames| == |chunks| >= 1;
    assert frames[0] == ContentEnvelope(Concat(chunks[..1]), false);
  }

  lemma MockResponseStartsWithI(query: string, scopeFilter: string)
    ensures var text := MockResponse(query, scopeFilter); |text| >= 2 && text[..2] == "I "
  {
    var text := MockResponse(query, scopeFilter);
    assert text == MockHead + (text[|MockHead|..]);
    assert MockHead[..2] == "I ";
  }

  /** The acknowledgment is not part of the cumulative sequence: the first
      streamed frame holds only "I ", far shorter than the acknowledgment. */
  lemma AckIsNotAPrefixOfTheStream(content: Option<string>, userId: string, projectId: Option<string>)
    ensures var reply := UserMessageReply(content, userId, projectId);
      |reply| >= 2 && ContentOf(reply[1]) == "I " && |ContentOf(reply[1])| < |ContentOf(reply[0])|
  {
    var text := MockResponse(QueryText(content), ScopeFilter(userId, projectId));
    MockResponseStartsWithI(QueryText(content), ScopeFilter(userId, projectId));
    FirstFrameOfWordI(text);
    var reply := UserMessageReply(content, userId, projectId);
    assert reply == [AckEnvelope()] + StreamFrames(ChunkStream(MockChunks(text), false));
  }

  /** A frame of any other type gets no reply; an unparsable frame, or a
      `user_message` without `data`, gets exactly one error frame. */
  lemma ReplyErrorCases(frame: Frame, userId: string, projectId: Option<string>)
    ensures frame.Json? && frame.envelope.kind != UserMessageType ==> Reply(frame, userId, projectId) == []
    ensures frame.Malformed? || frame.NullValue? || (frame.Json? && frame.envelope.kind == UserMessageType && frame.envelope.data.None?)
      ==> Reply(frame, userId, projectId) == [ErrorEnvelope(ProcessFailure)]
  {
  }

  /** The scope filter can be taken apart again: its `/`-separated pieces are
      the user, the project if there is one, and a final empty piece. */
  lemma ScopeFilterPieces(userId: string, projectId: Option<string>)
    requires '/' !in userId
    requires projectId.Some? ==> '/' !in projectId.value
    ensures Truthy(projectId) ==> Split(ScopeFilter(userId, projectId), '/') == [userId, projectId.value, ""]
    ensures !Truthy(projectId) ==> Split(ScopeFilter(userId, projectId), '/') == [userId, ""]
  {
    SplitWithoutSeparator(userId, '/');
    if Truthy(projectId) {
      var p := projectId.value;
      SplitWithoutSeparator(p, '/');
      assert userId + "/" + p + "/" == userId + ['/'] + (p + ['/'] + "");
      SplitAtSeparator(userId, '/', p + ['/'] + "");
      SplitAtSeparator(p, '/', "");
    } else {
      assert userId + "/" == userId + ['/'] + "";
      SplitAtSeparator(userId, '/', "");
    }
  }
}
