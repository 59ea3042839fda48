/**
 * The worker's entry point: a dispatch on the request method (`verb`) and URL path
 * that answers preflight, health and embed requests itself and hands
 * `/socket/<id>` requests to the session object named by `<id>`.
 */
module EdgeRouter {
  import opened Wrappers
  import opened Strings

  const SocketPrefix := "/socket/"
  const ScriptType := "application/javascript"
  const ScriptCache := "public, max-age=3600"

  /** The two bootstrap scripts whose text the worker serves. */
  datatype Script = IframeEmbed | PureJsEmbed

  datatype Body = NoBody | Text(text: string) | ScriptBody(script: Script)

  /** A response the worker builds (`cors` when it carries the CORS headers),
      or the hand-off to the session object addressed by this name. */
  datatype Response =
    | Response(status: nat, body: Body, cors: bool, contentType: Option<string>, cacheControl: Option<string>)
    | ForwardToSession(sessionName: string)

  function Preflight(): Response { Response(200, NoBody, true, None, None) }
  function MissingSession(): Response { Response(400, Text("Session ID required"), false, None, None) }
  function Health(): Response { Response(200, Text("OK"), true, None, None) }
  function ScriptResponse(script: Script): Response { Response(200, ScriptBody(script), true, Some(ScriptType), Some(ScriptCache)) }
  function NotFound(): Response { Response(404, Text("Not Found"), true, None, None) }

  /** For a socket path, `split('/')` has at least three pieces and the third
      is the first piece of what follows the prefix. */
  lemma SocketPathSplit(path: string)
    requires StartsWith(path, SocketPrefix)
    ensures |Split(path, '/')| >= 3 && Split(path, '/')[2] == Split(path[|SocketPrefix|..], '/')[0]
  {
    var x := path[|SocketPrefix|..];
    assert path == [] + ['/'] + ("socket" + ['/'] + x);
    SplitAtSeparator([], '/', "socket" + ['/'] + x);
    SplitAtSeparator("socket", '/', x);
    SplitWithoutSeparator("socket", '/');
  }

  /** The session id in a socket path: `pathname.split('/')[2]`. */
  function SessionSegment(path: string): (id: string)
    requires StartsWith(path, SocketPrefix)
    ensures '/' !in id
  {
    SocketPathSplit(path);
    SplitPiecesHaveNoSeparator(path, '/');
    Split(path, '/')[2]
  }

  function Route(verb: string, path: string): (r: Response)
    ensures r.ForwardToSession? ==>
      verb != "OPTIONS" && StartsWith(path, SocketPrefix) && r.sessionName != "" && '/' !in r.sessionName
  {
    if verb == "OPTIONS" then Preflight()
    else if StartsWith(path, SocketPrefix) then
      var sessionId := SessionSegment(path);
      if sessionId == "" then MissingSession() else ForwardToSession(sessionId)
    else if path == "/health" then Health()
    else if path == "/embed.js" then ScriptResponse(IframeEmbed)
    else if path == "/embed-js.js" then ScriptResponse(PureJsEmbed)
    else NotFound()
  }

  /** Preflight is answered for every path, before any path is looked at. */
  lemma OptionsAlwaysPreflight(path: string)
    ensures Route("OPTIONS", path) == Preflight()
  {
  }

  /** `/socket/<id>` followed by nothing or by `/...` goes to the session named
      `<id>`, or is refused when `<id>` is empty; what follows never matters. */
  lemma SocketRoute(verb: string, id: string, rest: string)
    requires verb != "OPTIONS" && '/' !in id && (rest == [] || rest[0] == '/')
    ensures Route(verb, SocketPrefix + id + rest) == if id == "" then MissingSession() else ForwardToSession(id)
    ensures Route(verb, SocketPrefix + id + rest) == Route(verb, SocketPrefix + id)
  {
    var path := SocketPrefix + id + rest;
    assert path[..|SocketPrefix|] == SocketPrefix;
    assert path[|SocketPrefix|..] == id + rest;
    SocketPathSplit(path);
    FirstPiece(id, '/', rest);
    var path' := SocketPrefix + id;
    assert path'[..|SocketPrefix|] == SocketPrefix;
    assert path'[|SocketPrefix|..] == id + [];
    SocketPathSplit(path');
    FirstPiece(id, '/', []);
  }

  /** A socket path is always forwarded or refused, whatever else it spells. */
  lemma SocketPrefixWins(verb: string, path: string)
    requires verb != "OPTIONS" && StartsWith(path, SocketPrefix)
    ensures Route(verb, path).ForwardToSession? || Route(verb, path) == MissingSession()
  {
  }

  lemma HealthRoute(verb: string)
    requires verb != "OPTIONS"
    ensures Route(verb, "/health") == Health()
  {
  }

  /** The iframe bootstrap script, served as cacheable JavaScript. */
  lemma IframeEmbedRoute(verb: string)
    requires verb != "OPTIONS"
    ensures Route(verb, "/embed.js") == ScriptResponse(IframeEmbed)
    ensures Route(verb, "/embed.js").contentType == Some(ScriptType) && Route(verb, "/embed.js").cacheControl == Some(ScriptCache)
  {
    assert !StartsWith("/embed.js", SocketPrefix) by { assert "/embed.js"[..|SocketPrefix|][1] != SocketPrefix[1]; }
  }

  /** The script-only bootstrap, served the same way. */
  lemma PureJsEmbedRoute(verb: string)
    requires verb != "OPTIONS"
    ensures Route(verb, "/embed-js.js") == ScriptResponse(PureJsEmbed)
    ensures Route(verb, "/embed-js.js").contentType == Some(ScriptType) && Route(verb, "/embed-js.js").cacheControl == Some(ScriptCache)
  {
    assert !StartsWith("/embed-js.js", SocketPrefix) by { assert "/embed-js.js"[..|SocketPrefix|][1] != SocketPrefix[1]; }
  }

  /** Exactly the paths that match no route get 404. */
  lemma UnmatchedNotFound(verb: string, path: string)
    requires verb != "OPTIONS"
    ensures Route(verb, path) == NotFound() <==>
      !StartsWith(path, SocketPrefix) && path != "/health" && path != "/embed.js" && path != "/embed-js.js"
  {
    IframeEmbedRoute(verb);
    PureJsEmbedRoute(verb);
  }
}
