/** `_routeMessage`: how one inbound frame is classified and what the router then does to the socket and to the
    collaborators. Each frame is routed atomically; routing reads the registry but never changes it. */
module Routing {
  import opened Wrappers
  import opened JsText
  import opened Rpc
  import opened Socket
  import opened Registry

  /** How the "message" handler ended: normally, or with an exception escaping it (its promise rejects). */
  datatype Ending = Finished | Rejected

  /** The socket after routing one frame, and how the handler ended. */
  datatype Routed = Routed(wire: Wire, ending: Ending)

  /** What `this._objSessions[id].clientWebSocketTransportPlugin` evaluates to: a TypeError when the session has
      already been deleted, `null`, or the plugin. */
  datatype PluginLookup = SessionGone | Unbound | Bound(plugin: Plugin)

  function LookupPlugin(r: Router, id: nat): (l: PluginLookup)
    ensures l.SessionGone? <==> id !in r.sessions
    ensures l.Unbound? <==> id in r.sessions && r.sessions[id].transportPlugin.None?
    ensures l.Bound? ==> r.sessions[id].transportPlugin == Some(l.plugin)
  {
    if id !in r.sessions then SessionGone
    else
      match r.sessions[id].transportPlugin
      case None => Unbound
      case Some(p) => Bound(p)
  }

  /** Whether `v.hasOwnProperty(key)` can be called on a decoded value: not on `null`, and not on an object with an
      own "hasOwnProperty" member, which shadows the inherited method and, coming from JSON, is never callable. On
      any other value the call returns normally. */
  predicate OwnPropertyQueryable(v: JsonValue)
  {
    match v
    case JsonNull => false
    case JsonObject(m) => "hasOwnProperty" !in m
    case JsonOther(_) => true
  }

  /** The own property names `hasOwnProperty` can find on a decoded value other than `null`. */
  function OwnKeys(v: JsonValue): set<string>
  {
    match v
    case JsonObject(m) => m.Keys
    case _ => {}
  }

  /** The request handed to `processRequest`: it always carries the connection ID; when the socket's normalized
      path names an endpoint it carries that endpoint, the raw frame and the decoded object, and otherwise only a
      METHOD_NOT_FOUND fault as its call result, since the throw comes before the body is stored. */
  function BuildRequest(env: Env, server: Server, s: Session, frame: string, v: JsonValue): (req: IncomingRequest)
    ensures req.connectionID == s.connectionID
    ensures var path := env.normalizePath(s.socket.url);
      if path in server.endpoints then
        && req.endpoint == Some(server.endpoints[path])
        && req.requestBody == Some(frame) && req.requestObject == Some(v)
        && req.callResult == None
      else
        && req.callResult == Some(Fault(METHOD_NOT_FOUND))
        && req.endpoint == None && req.requestBody == None && req.requestObject == None
  {
    var path := env.normalizePath(s.socket.url);
    if path in server.endpoints then
      IncomingRequest(s.connectionID, Some(server.endpoints[path]), Some(frame), Some(v), None)
    else
      IncomingRequest(s.connectionID, None, None, None, Some(Fault(METHOD_NOT_FOUND)))
  }

  /** The catch block for a frame `jsonDecodeSafe` rejects: a PARSE_ERROR frame when a server is present and the
      session has no plugin, then an unconditional close with 1011. When a server is present and the session is
      gone, reading its plugin throws out of the handler before anything is sent or closed. */
  function OnUndecodable(r: Router, id: nat, ready: ReadyState): Routed
  {
    var w := Wire(ready, []);
    if r.server.Some? then
      match LookupPlugin(r, id)
      case SessionGone => Routed(w, Rejected)
      case Unbound =>
        var w1 := Send(w, ErrorFrame(PARSE_ERROR));
        Routed(Close(w1, INTERNAL_ERROR_CLOSE, UndecodableFrame), Finished)
      case Bound(_) =>
        Routed(Close(w, INTERNAL_ERROR_CLOSE, UndecodableFrame), Finished)
    else
      Routed(Close(w, INTERNAL_ERROR_CLOSE, UndecodableFrame), Finished)
  }

  /** How the guarded block ended: it ran to completion, or it threw into the catch-all handler; `nullish` says the
      thrown value is `null` or `undefined`, which only a collaborator's rejection can produce. */
  datatype Tried = Completed(wire: Wire) | Raised(wire: Wire, nullish: bool)

  /** The try block: a `method` key makes the frame a request (checked first), a `result` or `error` key a
      response, anything else an error. So is a value on which `hasOwnProperty` itself throws (see
      `OwnPropertyQueryable`), before any key is looked at. A request's answer is written back only when
      `JSON.stringify` can serialize it; otherwise the TypeError it throws goes to the catch-all. */
  function TryRoute(env: Env, r: Router, s: Session, ready: ReadyState, frame: string, v: JsonValue): Tried
  {
    var w := Wire(ready, []);
    if !OwnPropertyQueryable(v) then
      Raised(w, false)
    else if "method" in OwnKeys(v) then
      if r.server.None? then
        Raised(if ready == Open then Send(w, ErrorFrame(PARSE_ERROR)) else w, false)
      else
        var req := BuildRequest(env, r.server.value, s, frame, v);
        var w1 := Note(w, RequestProcessed(req));
        match env.processRequest(req)
        case Returned(resp) =>
          if resp.serializable then Completed(Send(w1, ResponseFrame(resp))) else Raised(w1, false)
        case Threw(nullish) => Raised(w1, nullish)
    else if "result" in OwnKeys(v) || "error" in OwnKeys(v) then
      match LookupPlugin(r, s.connectionID)
      case SessionGone => Raised(w, false)
      case Unbound =>
        var w1 := if r.server.None? && ready == Open then Send(w, ErrorFrame(PARSE_ERROR)) else w;
        Raised(if w1.state == Open then Close(w1, INTERNAL_ERROR_CLOSE, PhantomResponse) else w1, false)
      case Bound(p) =>
        var w1 := Note(w, ResponseProcessed(p, frame, v));
        match env.processResponse(p, frame, v)
        case Returned(_) => Completed(w1)
        case Threw(nullish) => Raised(w1, nullish)
    else
      Raised(w, false)
  }

  /** The catch-all block for an error that is `nullish` or not: an INTERNAL_ERROR frame when a server is present,
      the session has no plugin and the socket is OPEN; then a close with 1011 if the socket is OPEN. It throws out
      of the handler, before anything is sent or closed, in two cases: with a server present and the session gone,
      reading its plugin throws; and where the INTERNAL_ERROR frame would be built, reading `message` off a `null`
      or `undefined` error throws. */
  function OnUncaught(r: Router, id: nat, ready: ReadyState, nullish: bool): Routed
  {
    var w := Wire(ready, []);
    var guarded :=
      if r.server.None? then Some(w)
      else
        match LookupPlugin(r, id)
        case SessionGone => None
        case Unbound =>
          if ready != Open then Some(w)
          else if nullish then None
          else Some(Send(w, ErrorFrame(INTERNAL_ERROR)))
        case Bound(_) => Some(w);
    match guarded
    case None => Routed(w, Rejected)
    case Some(w1) =>
      Routed(if w1.state == Open then Close(w1, INTERNAL_ERROR_CLOSE, UncleanState) else w1, Finished)
  }

  /** `_routeMessage(strMessage, objSession)` for session `s` whose socket is in state `ready`. The result holds the
      socket's state afterwards and exactly the calls made while routing this frame. Routing never reopens the
      socket, and writes nothing once it has closed it. */
  function RouteMessage(env: Env, r: Router, s: Session, ready: ReadyState, frame: string): Routed
  {
    if |Trim(frame)| == 0 then
      Routed(Wire(ready, []), Finished)
    else
      match env.decode(frame)
      case Malformed => OnUndecodable(r, s.connectionID, ready)
      case Parsed(v) =>
        match TryRoute(env, r, s, ready, frame, v)
        case Completed(w1) => Routed(w1, Finished)
        case Raised(w1, nullish) =>
          var out := OnUncaught(r, s.connectionID, w1.state, nullish);
          Routed(Wire(out.wire.state, w1.trace + out.wire.trace), out.ending)
  }
}
