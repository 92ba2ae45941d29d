/** The router's failure policy written as a flat decision table: from the frame's shape and the few facts the
    router consults (server present, the session's plugin, the ready state, and how the collaborators answered)
    to the exact calls made, the final ready state and how the handler ends. */
module FailurePolicy {
  import opened Wrappers
  import opened JsText
  import opened Rpc
  import opened Socket
  import opened Routing

  /** The shape of a frame as the router tests it: white space only, not JSON, a request (`method` present,
      whatever else is), a response (`result` or `error` present), or neither — which includes every value on
      which the key test itself throws. */
  datatype FrameKind =
    | Blank
    | Undecodable
    | RequestShaped(value: JsonValue)
    | ResponseShaped(value: JsonValue)
    | Unshaped(value: JsonValue)

  function Classify(env: Env, frame: string): FrameKind
  {
    if AllWhitespace(frame) then Blank
    else
      match env.decode(frame)
      case Malformed => Undecodable
      case Parsed(v) =>
        if !OwnPropertyQueryable(v) then Unshaped(v)
        else if "method" in OwnKeys(v) then RequestShaped(v)
        else if "result" in OwnKeys(v) || "error" in OwnKeys(v) then ResponseShaped(v)
        else Unshaped(v)
  }

  /** The ready state after `close` is called on a socket in state `ready`. */
  function AfterClose(ready: ReadyState): ReadyState
  {
    if ready == Closed then Closed else Closing
  }

  /** The table. `served` says a local server is present, `look` what the session's plugin slot holds, `req` the
      request built for a request frame, `answer` how `processRequest` ended on it, and `resolved` how
      `processResponse` ended on a response frame. A request counts as answered only when `processRequest` returns
      an object `JSON.stringify` can serialize. Every row other than a blank frame, an answered request or a
      resolved response ends the connection, or throws out of the handler, and sends at most one diagnostic first:
      - an undecodable frame gets PARSE_ERROR when a server is present and the session has no plugin, whatever the
        ready state, and is always followed by a close;
      - a request with no server, and a response on a session with no plugin and no server, get PARSE_ERROR, only
        on an OPEN socket;
      - a failed request or an unshaped frame gets INTERNAL_ERROR when a server is present, the session has no
        plugin and the socket is OPEN;
      and the close, outside the undecodable row, happens only on an OPEN socket. The handler throws out with nothing
      sent or closed when a server is present and the session is gone (except for a blank frame or an answered
      request), and when a request's processing throws `null` or `undefined` on a live session with no plugin and
      an OPEN socket, where building the INTERNAL_ERROR frame reads `message` off that value. */
  function Policy(k: FrameKind, frame: string, ready: ReadyState, served: bool, look: PluginLookup,
                  req: IncomingRequest, answer: Completion<Response>, resolved: Completion<()>): Routed
  {
    var open := ready == Open;
    var shut := if open then [CloseCalled(INTERNAL_ERROR_CLOSE, UncleanState)] else [];
    var after := if open then Closing else ready;
    match k
    case Blank => Routed(Wire(ready, []), Finished)
    case Undecodable =>
      if served && look.SessionGone? then Routed(Wire(ready, []), Rejected)
      else
        Routed(Wire(AfterClose(ready),
                    (if served && look.Unbound? then [SendCalled(ErrorFrame(PARSE_ERROR))] else [])
                    + [CloseCalled(INTERNAL_ERROR_CLOSE, UndecodableFrame)]),
               Finished)
    case RequestShaped(_) =>
      if !served then
        Routed(Wire(after, if open then [SendCalled(ErrorFrame(PARSE_ERROR))] + shut else []), Finished)
      else if Answered(answer) then
        Routed(Wire(ready, [RequestProcessed(req), SendCalled(ResponseFrame(answer.value))]), Finished)
      else if look.SessionGone? || (look.Unbound? && open && answer == Threw(true)) then
        Routed(Wire(ready, [RequestProcessed(req)]), Rejected)
      else
        Routed(Wire(after, [RequestProcessed(req)]
                           + (if look.Unbound? && open then [SendCalled(ErrorFrame(INTERNAL_ERROR))] else [])
                           + shut),
               Finished)
    case ResponseShaped(v) =>
      if look.Bound? then
        if resolved.Returned? then Routed(Wire(ready, [ResponseProcessed(look.plugin, frame, v)]), Finished)
        else Routed(Wire(after, [ResponseProcessed(look.plugin, frame, v)] + shut), Finished)
      else if look.Unbound? then
        Routed(Wire(after, (if !served && open then [SendCalled(ErrorFrame(PARSE_ERROR))] else [])
                           + (if open then [CloseCalled(INTERNAL_ERROR_CLOSE, PhantomResponse)] else [])),
               Finished)
      else if served then Routed(Wire(ready, []), Rejected)
      else Routed(Wire(after, shut), Finished)
    case Unshaped(_) =>
      if served && look.SessionGone? then Routed(Wire(ready, []), Rejected)
      else
        Routed(Wire(after, (if served && look.Unbound? && open then [SendCalled(ErrorFrame(INTERNAL_ERROR))] else [])
                           + shut),
               Finished)
  }

  /** A handler that finishes normally leaves the socket OPEN only for a blank frame, an answered request, or a
      response the plugin resolved, and only if it was OPEN to begin with. */
  lemma PolicyKeepsOpenOnlyWhenHandled(k: FrameKind, frame: string, ready: ReadyState, served: bool, look: PluginLookup,
                                       req: IncomingRequest, answer: Completion<Response>, resolved: Completion<()>)
    ensures var out := Policy(k, frame, ready, served, look, req, answer, resolved);
      out.wire.state == Open && out.ending == Finished ==>
        && ready == Open
        && (|| k.Blank?
            || (k.RequestShaped? && served && Answered(answer))
            || (k.ResponseShaped? && look.Bound? && resolved.Returned?))
  {
  }

  /** Each row writes at most one frame. */
  lemma PolicySendsAtMostOnce(k: FrameKind, frame: string, ready: ReadyState, served: bool, look: PluginLookup,
                              req: IncomingRequest, answer: Completion<Response>, resolved: Completion<()>)
    ensures var t := Policy(k, frame, ready, served, look, req, answer, resolved).wire.trace;
      forall i, j :: 0 <= i < |t| && 0 <= j < |t| && IsSend(t[i]) && IsSend(t[j]) ==> i == j
  {
  }

  /** `processRequest` is called, once and with `req`, exactly in the request rows with a server. */
  lemma PolicyProcessesRequestIff(k: FrameKind, frame: string, ready: ReadyState, served: bool, look: PluginLookup,
                                  req: IncomingRequest, answer: Completion<Response>, resolved: Completion<()>)
    ensures var t := Policy(k, frame, ready, served, look, req, answer, resolved).wire.trace;
      && ((exists i :: 0 <= i < |t| && t[i].RequestProcessed?) <==> k.RequestShaped? && served)
      && (forall i :: 0 <= i < |t| && t[i].RequestProcessed? ==> i == 0 && t[i] == RequestProcessed(req))
  {
    var t := Policy(k, frame, ready, served, look, req, answer, resolved).wire.trace;
    if k.RequestShaped? && served {
      assert t[0].RequestProcessed?;
    }
  }

  /** `processResponse` is called, once and with the plugin, the raw frame and the decoded value, exactly in the
      response rows whose session has a plugin. */
  lemma PolicyProcessesResponseIff(k: FrameKind, frame: string, ready: ReadyState, served: bool, look: PluginLookup,
                                   req: IncomingRequest, answer: Completion<Response>, resolved: Completion<()>)
    ensures var t := Policy(k, frame, ready, served, look, req, answer, resolved).wire.trace;
      && ((exists i :: 0 <= i < |t| && t[i].ResponseProcessed?) <==> k.ResponseShaped? && look.Bound?)
      && (forall i :: 0 <= i < |t| && t[i].ResponseProcessed? ==>
            i == 0 && t[i] == ResponseProcessed(look.plugin, frame, k.value))
  {
    var t := Policy(k, frame, ready, served, look, req, answer, resolved).wire.trace;
    if k.ResponseShaped? && look.Bound? {
      assert t[0].ResponseProcessed?;
    }
  }

  /** On a socket that is not OPEN, the only frames a row writes are the PARSE_ERROR for an undecodable frame and
      the answer of `processRequest`: every other send is guarded by the ready state. */
  lemma PolicyGuardsSendsOnClosedSocket(k: FrameKind, frame: string, ready: ReadyState, served: bool, look: PluginLookup,
                                        req: IncomingRequest, answer: Completion<Response>, resolved: Completion<()>)
    requires ready != Open
    ensures var t := Policy(k, frame, ready, served, look, req, answer, resolved).wire.trace;
      forall i :: 0 <= i < |t| && IsSend(t[i]) ==>
        (k.Undecodable? && t[i] == SendCalled(ErrorFrame(PARSE_ERROR)))
        || (k.RequestShaped? && t[i] == SendCalled(ResponseFrame(answer.value)))
  {
  }

  /** No row writes a frame after it has called `close`. */
  lemma PolicyNoSendAfterClose(k: FrameKind, frame: string, ready: ReadyState, served: bool, look: PluginLookup,
                               req: IncomingRequest, answer: Completion<Response>, resolved: Completion<()>)
    ensures NoSendAfterClose(Policy(k, frame, ready, served, look, req, answer, resolved).wire.trace)
  {
  }

  /** The ready state moves only through a `close` call, and then to what `close` makes of it; in particular a
      socket that was not OPEN never becomes OPEN. */
  lemma PolicyChangesStateOnlyByClose(k: FrameKind, frame: string, ready: ReadyState, served: bool,
                                      look: PluginLookup, req: IncomingRequest, answer: Completion<Response>,
                                      resolved: Completion<()>)
    ensures var out := Policy(k, frame, ready, served, look, req, answer, resolved).wire;
      out.state == ready || (HasClose(out.trace) && out.state == AfterClose(ready))
  {
    var out := Policy(k, frame, ready, served, look, req, answer, resolved).wire;
    if out.state != ready {
      assert out.trace[|out.trace| - 1].CloseCalled?;
    }
  }

  /** A row that ends by throwing out of the handler has a server, has called nothing but, possibly,
      `processRequest`, and is either on a deleted session or a request whose processing threw `null` or `undefined`
      on a session with no plugin and an OPEN socket. */
  lemma PolicyRejectsOnlyUntouched(k: FrameKind, frame: string, ready: ReadyState, served: bool,
                                   look: PluginLookup, req: IncomingRequest, answer: Completion<Response>,
                                   resolved: Completion<()>)
    ensures var out := Policy(k, frame, ready, served, look, req, answer, resolved);
      out.ending == Rejected ==>
        && served && out.wire.state == ready
        && (out.wire.trace == [] || out.wire.trace == [RequestProcessed(req)])
        && (look.SessionGone? || (k.RequestShaped? && look.Unbound? && ready == Open && answer == Threw(true)))
  {
  }
}
