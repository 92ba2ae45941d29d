/** What routing one frame does, branch by branch of the source, and — since `RouteMessage` follows the
    failure-policy table on every input — the general properties of that table, transferred to the router. */
module RoutingProperties {
  import opened Wrappers
  import opened JsText
  import opened Rpc
  import opened Socket
  import opened Registry
  import opened Routing
  import opened FailurePolicy

  /** The request the router builds for a frame, when it builds one. */
  function RequestFor(env: Env, r: Router, s: Session, frame: string): IncomingRequest
  {
    var k := Classify(env, frame);
    if r.server.Some? && k.RequestShaped? then BuildRequest(env, r.server.value, s, frame, k.value)
    else IncomingRequest(s.connectionID, None, None, None, None)
  }

  /** How the session's plugin resolves a response frame, when one is consulted. */
  function ResolutionFor(env: Env, r: Router, s: Session, frame: string): Completion<()>
  {
    var k := Classify(env, frame);
    var look := LookupPlugin(r, s.connectionID);
    if look.Bound? && k.ResponseShaped? then env.processResponse(look.plugin, frame, k.value) else Threw(false)
  }

  /** The table row a frame falls in, with the collaborators' answers filled in where the row consults them. */
  function Prescribed(env: Env, r: Router, s: Session, ready: ReadyState, frame: string): Routed
  {
    var req := RequestFor(env, r, s, frame);
    Policy(Classify(env, frame), frame, ready, r.server.Some?, LookupPlugin(r, s.connectionID), req,
           env.processRequest(req), ResolutionFor(env, r, s, frame))
  }

  /** A frame of white space only is ignored: nothing is sent, nothing is closed, nothing is called. */
  lemma BlankFrameIsIgnored(env: Env, r: Router, s: Session, ready: ReadyState, frame: string)
    requires AllWhitespace(frame)
    ensures RouteMessage(env, r, s, ready, frame) == Routed(Wire(ready, []), Finished)
  {
    TrimEmptyIffAllWhitespace(frame);
  }

  /** A frame that does not decode: one PARSE_ERROR frame exactly when a server is present and the session has no
      plugin, then always a close with 1011, and no collaborator is called — except on a session already deleted while
      a server is present, where reading the session throws out of the handler before anything is done. */
  lemma UndecodableFrameIsFatal(env: Env, r: Router, s: Session, ready: ReadyState, frame: string)
    requires Classify(env, frame) == Undecodable
    ensures RouteMessage(env, r, s, ready, frame) ==
      if r.server.Some? && s.connectionID !in r.sessions then Routed(Wire(ready, []), Rejected)
      else
        Routed(Wire(AfterClose(ready),
                    (if r.server.Some? && r.sessions[s.connectionID].transportPlugin.None?
                     then [SendCalled(ErrorFrame(PARSE_ERROR))] else [])
                    + [CloseCalled(INTERNAL_ERROR_CLOSE, UndecodableFrame)]),
               Finished)
  {
    TrimEmptyIffAllWhitespace(frame);
  }

  /** A request with no local server: a PARSE_ERROR frame and a close with 1011 if the socket is OPEN, nothing
      otherwise; `processRequest` is never reached. */
  lemma RequestWithoutServerIsRefused(env: Env, r: Router, s: Session, ready: ReadyState, frame: string)
    requires Classify(env, frame).RequestShaped?
    requires r.server.None?
    ensures RouteMessage(env, r, s, ready, frame) ==
      if ready == Open then
        Routed(Wire(Closing, [SendCalled(ErrorFrame(PARSE_ERROR)), CloseCalled(INTERNAL_ERROR_CLOSE, UncleanState)]),
               Finished)
      else Routed(Wire(ready, []), Finished)
  {
    TrimEmptyIffAllWhitespace(frame);
  }

  /** A request with a local server whose `processRequest` returns an object `JSON.stringify` can serialize: the
      request is processed once and its result is written back unmodified; the socket stays as it was, even when the
      endpoint is unknown. */
  lemma AnsweredRequestIsSentBack(env: Env, r: Router, s: Session, ready: ReadyState, frame: string)
    requires Classify(env, frame).RequestShaped? && r.server.Some?
    requires Answered(env.processRequest(BuildRequest(env, r.server.value, s, frame, Classify(env, frame).value)))
    ensures var req := BuildRequest(env, r.server.value, s, frame, Classify(env, frame).value);
      RouteMessage(env, r, s, ready, frame) ==
        Routed(Wire(ready, [RequestProcessed(req), SendCalled(ResponseFrame(env.processRequest(req).value))]),
               Finished)
  {
    TrimEmptyIffAllWhitespace(frame);
  }

  /** On an endpoint path the server does not know, the request reaches `processRequest` carrying a METHOD_NOT_FOUND
      fault and no body, and, when `processRequest` answers with an object that serializes, the connection is not
      closed for it. */
  lemma UnknownEndpointIsARequestFault(env: Env, r: Router, s: Session, ready: ReadyState, frame: string)
    requires Classify(env, frame).RequestShaped? && r.server.Some?
    requires env.normalizePath(s.socket.url) !in r.server.value.endpoints
    requires Answered(env.processRequest(BuildRequest(env, r.server.value, s, frame, Classify(env, frame).value)))
    ensures var out := RouteMessage(env, r, s, ready, frame);
      && |out.wire.trace| == 2
      && out.wire.trace[0].RequestProcessed?
      && out.wire.trace[0].request.callResult == Some(Fault(METHOD_NOT_FOUND))
      && out.wire.trace[0].request.requestBody == None
      && !HasClose(out.wire.trace)
      && out.wire.state == ready
  {
    AnsweredRequestIsSentBack(env, r, s, ready, frame);
  }

  /** A request the server does not answer — `processRequest` throws, or resolves to an object `JSON.stringify`
      throws on — after the one `processRequest` call the catch-all policy applies: on a live session,
      INTERNAL_ERROR if it has no plugin and the socket is OPEN, then a close if OPEN. The catch-all itself throws,
      and nothing more happens, on a deleted session, and where it would build the INTERNAL_ERROR frame from a
      `null` or `undefined` error. */
  lemma FailedRequestIsFatal(env: Env, r: Router, s: Session, ready: ReadyState, frame: string)
    requires Classify(env, frame).RequestShaped? && r.server.Some?
    requires !Answered(env.processRequest(BuildRequest(env, r.server.value, s, frame, Classify(env, frame).value)))
    ensures var req := BuildRequest(env, r.server.value, s, frame, Classify(env, frame).value);
      RouteMessage(env, r, s, ready, frame) ==
        if s.connectionID !in r.sessions then Routed(Wire(ready, [RequestProcessed(req)]), Rejected)
        else if ready != Open then Routed(Wire(ready, [RequestProcessed(req)]), Finished)
        else if r.sessions[s.connectionID].transportPlugin.None? then
          if env.processRequest(req) == Threw(true) then Routed(Wire(Open, [RequestProcessed(req)]), Rejected)
          else
            Routed(Wire(Closing, [RequestProcessed(req), SendCalled(ErrorFrame(INTERNAL_ERROR)),
                                  CloseCalled(INTERNAL_ERROR_CLOSE, UncleanState)]), Finished)
        else
          Routed(Wire(Closing, [RequestProcessed(req), CloseCalled(INTERNAL_ERROR_CLOSE, UncleanState)]), Finished)
  {
    TrimEmptyIffAllWhitespace(frame);
    var v := Classify(env, frame).value;
    assert env.decode(frame) == Parsed(v);
    assert OwnPropertyQueryable(v) && "method" in OwnKeys(v);
    var req := BuildRequest(env, r.server.value, s, frame, v);
    assert TryRoute(env, r, s, ready, frame, v) ==
      Raised(Wire(ready, [RequestProcessed(req)]), env.processRequest(req) == Threw(true));
  }

  /** An answer `JSON.stringify` throws on never reaches the socket: no response frame is written, whatever the
      socket state, and on a live session with no plugin and an OPEN socket the catch-all reports INTERNAL_ERROR and
      closes the socket instead. */
  lemma UnserializableAnswerIsNotSent(env: Env, r: Router, s: Session, ready: ReadyState, frame: string)
    requires Classify(env, frame).RequestShaped? && r.server.Some?
    requires var c := env.processRequest(BuildRequest(env, r.server.value, s, frame, Classify(env, frame).value));
      c.Returned? && !c.value.serializable
    ensures var t := RouteMessage(env, r, s, ready, frame).wire.trace;
      forall i :: 0 <= i < |t| && t[i].SendCalled? ==> !t[i].frame.ResponseFrame?
    ensures ready == Open && s.connectionID in r.sessions && r.sessions[s.connectionID].transportPlugin.None? ==>
      var out := RouteMessage(env, r, s, ready, frame);
      && out.wire.state == Closing && out.ending == Finished
      && SendCalled(ErrorFrame(INTERNAL_ERROR)) in out.wire.trace
  {
    FailedRequestIsFatal(env, r, s, ready, frame);
  }

  /** A response on a live session that has no plugin yet answers no call of ours: `processResponse` is not reached,
      the socket ends up not OPEN, a PARSE_ERROR frame goes out only when there is no server and the socket was OPEN,
      and no INTERNAL_ERROR frame is ever sent, because the catch-all finds the socket already closing. */
  lemma PhantomResponseIsFatal(env: Env, r: Router, s: Session, ready: ReadyState, frame: string)
    requires Classify(env, frame).ResponseShaped?
    requires s.connectionID in r.sessions && r.sessions[s.connectionID].transportPlugin.None?
    ensures RouteMessage(env, r, s, ready, frame) ==
      if ready != Open then Routed(Wire(ready, []), Finished)
      else if r.server.None? then
        Routed(Wire(Closing, [SendCalled(ErrorFrame(PARSE_ERROR)), CloseCalled(INTERNAL_ERROR_CLOSE, PhantomResponse)]),
               Finished)
      else Routed(Wire(Closing, [CloseCalled(INTERNAL_ERROR_CLOSE, PhantomResponse)]), Finished)
    ensures RouteMessage(env, r, s, ready, frame).wire.state != Open
    ensures SendCalled(ErrorFrame(INTERNAL_ERROR)) !in RouteMessage(env, r, s, ready, frame).wire.trace
  {
    TrimEmptyIffAllWhitespace(frame);
    var v := Classify(env, frame).value;
    assert env.decode(frame) == Parsed(v);
    assert OwnPropertyQueryable(v) && "method" !in OwnKeys(v);
    var t := TryRoute(env, r, s, ready, frame, v);
    assert t.Raised? && t.wire.state != Open;
  }

  /** A response on a session with a plugin is handed to that plugin as exactly the raw frame and the decoded value;
      if resolving it throws, the socket is closed if OPEN and nothing is sent, since this side acts as a client. */
  lemma BoundResponseIsDelivered(env: Env, r: Router, s: Session, ready: ReadyState, frame: string)
    requires Classify(env, frame).ResponseShaped?
    requires s.connectionID in r.sessions && r.sessions[s.connectionID].transportPlugin.Some?
    ensures var p := r.sessions[s.connectionID].transportPlugin.value;
      var v := Classify(env, frame).value;
      RouteMessage(env, r, s, ready, frame) ==
        if env.processResponse(p, frame, v).Returned? || ready != Open
        then Routed(Wire(ready, [ResponseProcessed(p, frame, v)]), Finished)
        else Routed(Wire(Closing, [ResponseProcessed(p, frame, v), CloseCalled(INTERNAL_ERROR_CLOSE, UncleanState)]),
                    Finished)
  {
    TrimEmptyIffAllWhitespace(frame);
  }

  /** A response routed after its session was deleted: reading the session's plugin throws a TypeError, which the
      catch-all catches; with a server present the catch-all throws again while reading it, so the handler rejects
      with nothing done, and without one the socket is closed if OPEN and nothing is sent. */
  lemma ResponseOnDeletedSession(env: Env, r: Router, s: Session, ready: ReadyState, frame: string)
    requires Classify(env, frame).ResponseShaped?
    requires s.connectionID !in r.sessions
    ensures RouteMessage(env, r, s, ready, frame) ==
      if r.server.Some? then Routed(Wire(ready, []), Rejected)
      else if ready == Open then Routed(Wire(Closing, [CloseCalled(INTERNAL_ERROR_CLOSE, UncleanState)]), Finished)
      else Routed(Wire(ready, []), Finished)
  {
    TrimEmptyIffAllWhitespace(frame);
    var v := Classify(env, frame).value;
    assert env.decode(frame) == Parsed(v);
    assert OwnPropertyQueryable(v) && "method" !in OwnKeys(v) && ("result" in OwnKeys(v) || "error" in OwnKeys(v));
  }

  /** A frame that is neither a request nor a response, or on which the key test throws, goes to the catch-all:
      INTERNAL_ERROR only when a server is present, the session has no plugin and the socket is OPEN; then a close
      with 1011 if OPEN. With a server and a deleted session, the catch-all throws before doing anything. */
  lemma UnshapedFrameIsFatal(env: Env, r: Router, s: Session, ready: ReadyState, frame: string)
    requires Classify(env, frame).Unshaped?
    ensures RouteMessage(env, r, s, ready, frame) ==
      if r.server.Some? && s.connectionID !in r.sessions then Routed(Wire(ready, []), Rejected)
      else if ready != Open then Routed(Wire(ready, []), Finished)
      else if r.server.Some? && r.sessions[s.connectionID].transportPlugin.None? then
        Routed(Wire(Closing, [SendCalled(ErrorFrame(INTERNAL_ERROR)), CloseCalled(INTERNAL_ERROR_CLOSE, UncleanState)]),
               Finished)
      else Routed(Wire(Closing, [CloseCalled(INTERNAL_ERROR_CLOSE, UncleanState)]), Finished)
  {
    TrimEmptyIffAllWhitespace(frame);
    var v := Classify(env, frame).value;
    assert env.decode(frame) == Parsed(v);
    assert !OwnPropertyQueryable(v) || ("method" !in OwnKeys(v) && "result" !in OwnKeys(v) && "error" !in OwnKeys(v));
    assert TryRoute(env, r, s, ready, frame, v) == Raised(Wire(ready, []), false);
  }

  /** An object with its own "hasOwnProperty" member is never routed by its keys, even when it has `method`, `result`
      or `error`: the key test throws, no collaborator is called, and an OPEN socket is closed unless the handler
      throws out on a deleted session. */
  lemma ShadowedKeyTestIsFatal(env: Env, r: Router, s: Session, ready: ReadyState, frame: string)
    requires !AllWhitespace(frame)
    requires env.decode(frame).Parsed? && env.decode(frame).value.JsonObject?
    requires "hasOwnProperty" in env.decode(frame).value.members
    ensures Classify(env, frame).Unshaped?
    ensures var t := RouteMessage(env, r, s, ready, frame).wire.trace;
      forall i :: 0 <= i < |t| ==> !t[i].RequestProcessed? && !t[i].ResponseProcessed?
    ensures ready == Open && (r.server.None? || s.connectionID in r.sessions) ==>
      RouteMessage(env, r, s, ready, frame).wire.state == Closing
  {
    assert !OwnPropertyQueryable(env.decode(frame).value);
    UnshapedFrameIsFatal(env, r, s, ready, frame);
  }

  // What the table prescribes in each of the cases above, the same outcome as the branch lemma states;
  // `RouteMessageFollowsPolicy` pairs each branch lemma with its row.

  /** A blank frame's row. */
  lemma BlankRow(env: Env, r: Router, s: Session, ready: ReadyState, frame: string)
    requires AllWhitespace(frame)
    ensures Prescribed(env, r, s, ready, frame) == Routed(Wire(ready, []), Finished)
  {
  }

  /** The row of a frame that does not decode. */
  lemma UndecodableRow(env: Env, r: Router, s: Session, ready: ReadyState, frame: string)
    requires Classify(env, frame) == Undecodable
    ensures Prescribed(env, r, s, ready, frame) ==
      if r.server.Some? && s.connectionID !in r.sessions then Routed(Wire(ready, []), Rejected)
      else
        Routed(Wire(AfterClose(ready),
                    (if r.server.Some? && r.sessions[s.connectionID].transportPlugin.None?
                     then [SendCalled(ErrorFrame(PARSE_ERROR))] else [])
                    + [CloseCalled(INTERNAL_ERROR_CLOSE, UndecodableFrame)]),
               Finished)
  {
  }

  /** The row of a request with no local server. */
  lemma RequestWithoutServerRow(env: Env, r: Router, s: Session, ready: ReadyState, frame: string)
    requires Classify(env, frame).RequestShaped?
    requires r.server.None?
    ensures Prescribed(env, r, s, ready, frame) ==
      if ready == Open then
        Routed(Wire(Closing, [SendCalled(ErrorFrame(PARSE_ERROR)), CloseCalled(INTERNAL_ERROR_CLOSE, UncleanState)]),
               Finished)
      else Routed(Wire(ready, []), Finished)
  {
  }

  /** The row of a request the server answers with an object that serializes. */
  lemma AnsweredRequestRow(env: Env, r: Router, s: Session, ready: ReadyState, frame: string)
    requires Classify(env, frame).RequestShaped? && r.server.Some?
    requires Answered(env.processRequest(BuildRequest(env, r.server.value, s, frame, Classify(env, frame).value)))
    ensures var req := BuildRequest(env, r.server.value, s, frame, Classify(env, frame).value);
      Prescribed(env, r, s, ready, frame) ==
        Routed(Wire(ready, [RequestProcessed(req), SendCalled(ResponseFrame(env.processRequest(req).value))]),
               Finished)
  {
  }

  /** The row of a request the server does not answer. */
  lemma FailedRequestRow(env: Env, r: Router, s: Session, ready: ReadyState, frame: string)
    requires Classify(env, frame).RequestShaped? && r.server.Some?
    requires !Answered(env.processRequest(BuildRequest(env, r.server.value, s, frame, Classify(env, frame).value)))
    ensures var req := BuildRequest(env, r.server.value, s, frame, Classify(env, frame).value);
      Prescribed(env, r, s, ready, frame) ==
        if s.connectionID !in r.sessions then Routed(Wire(ready, [RequestProcessed(req)]), Rejected)
        else if ready != Open then Routed(Wire(ready, [RequestProcessed(req)]), Finished)
        else if r.sessions[s.connectionID].transportPlugin.None? then
          if env.processRequest(req) == Threw(true) then Routed(Wire(Open, [RequestProcessed(req)]), Rejected)
          else
            Routed(Wire(Closing, [RequestProcessed(req), SendCalled(ErrorFrame(INTERNAL_ERROR)),
                                  CloseCalled(INTERNAL_ERROR_CLOSE, UncleanState)]), Finished)
        else
          Routed(Wire(Closing, [RequestProcessed(req), CloseCalled(INTERNAL_ERROR_CLOSE, UncleanState)]), Finished)
  {
  }

  /** The row of a response on a session with no plugin. */
  lemma PhantomResponseRow(env: Env, r: Router, s: Session, ready: ReadyState, frame: string)
    requires Classify(env, frame).ResponseShaped?
    requires s.connectionID in r.sessions && r.sessions[s.connectionID].transportPlugin.None?
    ensures Prescribed(env, r, s, ready, frame) ==
      if ready != Open then Routed(Wire(ready, []), Finished)
      else if r.server.None? then
        Routed(Wire(Closing, [SendCalled(ErrorFrame(PARSE_ERROR)), CloseCalled(INTERNAL_ERROR_CLOSE, PhantomResponse)]),
               Finished)
      else Routed(Wire(Closing, [CloseCalled(INTERNAL_ERROR_CLOSE, PhantomResponse)]), Finished)
  {
  }

  /** The row of a response on a session with a plugin. */
  lemma BoundResponseRow(env: Env, r: Router, s: Session, ready: ReadyState, frame: string)
    requires Classify(env, frame).ResponseShaped?
    requires s.connectionID in r.sessions && r.sessions[s.connectionID].transportPlugin.Some?
    ensures var p := r.sessions[s.connectionID].transportPlugin.value;
      var v := Classify(env, frame).value;
      Prescribed(env, r, s, ready, frame) ==
        if env.processResponse(p, frame, v).Returned? || ready != Open
        then Routed(Wire(ready, [ResponseProcessed(p, frame, v)]), Finished)
        else Routed(Wire(Closing, [ResponseProcessed(p, frame, v), CloseCalled(INTERNAL_ERROR_CLOSE, UncleanState)]),
                    Finished)
  {
  }

  /** The row of a response on a deleted session. */
  lemma DeletedSessionResponseRow(env: Env, r: Router, s: Session, ready: ReadyState, frame: string)
    requires Classify(env, frame).ResponseShaped?
    requires s.connectionID !in r.sessions
    ensures Prescribed(env, r, s, ready, frame) ==
      if r.server.Some? then Routed(Wire(ready, []), Rejected)
      else if ready == Open then Routed(Wire(Closing, [CloseCalled(INTERNAL_ERROR_CLOSE, UncleanState)]), Finished)
      else Routed(Wire(ready, []), Finished)
  {
  }

  /** The row of a frame that is neither a request nor a response. */
  lemma UnshapedRow(env: Env, r: Router, s: Session, ready: ReadyState, frame: string)
    requires Classify(env, frame).Unshaped?
    ensures Prescribed(env, r, s, ready, frame) ==
      if r.server.Some? && s.connectionID !in r.sessions then Routed(Wire(ready, []), Rejected)
      else if ready != Open then Routed(Wire(ready, []), Finished)
      else if r.server.Some? && r.sessions[s.connectionID].transportPlugin.None? then
        Routed(Wire(Closing, [SendCalled(ErrorFrame(INTERNAL_ERROR)), CloseCalled(INTERNAL_ERROR_CLOSE, UncleanState)]),
               Finished)
      else Routed(Wire(Closing, [CloseCalled(INTERNAL_ERROR_CLOSE, UncleanState)]), Finished)
  {
  }

  /** `_routeMessage` does exactly what the failure-policy table prescribes, for every frame, session, socket state
      and collaborator behaviour. */
  lemma RouteMessageFollowsPolicy(env: Env, r: Router, s: Session, ready: ReadyState, frame: string)
    ensures RouteMessage(env, r, s, ready, frame) == Prescribed(env, r, s, ready, frame)
  {
    match Classify(env, frame)
    case Blank =>
      BlankFrameIsIgnored(env, r, s, ready, frame);
      BlankRow(env, r, s, ready, frame);
    case Undecodable =>
      UndecodableFrameIsFatal(env, r, s, ready, frame);
      UndecodableRow(env, r, s, ready, frame);
    case RequestShaped(v) =>
      if r.server.None? {
        RequestWithoutServerIsRefused(env, r, s, ready, frame);
        RequestWithoutServerRow(env, r, s, ready, frame);
      } else if Answered(env.processRequest(BuildRequest(env, r.server.value, s, frame, v))) {
        AnsweredRequestIsSentBack(env, r, s, ready, frame);
        AnsweredRequestRow(env, r, s, ready, frame);
      } else {
        FailedRequestIsFatal(env, r, s, ready, frame);
        FailedRequestRow(env, r, s, ready, frame);
      }
    case ResponseShaped(_) =>
      if s.connectionID !in r.sessions {
        ResponseOnDeletedSession(env, r, s, ready, frame);
        DeletedSessionResponseRow(env, r, s, ready, frame);
      } else if r.sessions[s.connectionID].transportPlugin.None? {
        PhantomResponseIsFatal(env, r, s, ready, frame);
        PhantomResponseRow(env, r, s, ready, frame);
      } else {
        BoundResponseIsDelivered(env, r, s, ready, frame);
        BoundResponseRow(env, r, s, ready, frame);
      }
    case Unshaped(_) =>
      UnshapedFrameIsFatal(env, r, s, ready, frame);
      UnshapedRow(env, r, s, ready, frame);
  }

  /** After routing a frame the socket is still OPEN, with the handler finished, only when it was OPEN and the frame
      was blank, a request the server answered with an object that serializes, or a response the session's plugin
      resolved. */
  lemma OnlyHandledFramesKeepTheSocketOpen(env: Env, r: Router, s: Session, ready: ReadyState, frame: string)
    ensures var out := RouteMessage(env, r, s, ready, frame);
      var k := Classify(env, frame);
      out.wire.state == Open && out.ending == Finished ==>
        && ready == Open
        && (|| k.Blank?
            || (k.RequestShaped? && r.server.Some? && Answered(env.processRequest(RequestFor(env, r, s, frame))))
            || (k.ResponseShaped? && LookupPlugin(r, s.connectionID).Bound?
                && ResolutionFor(env, r, s, frame).Returned?))
  {
    RouteMessageFollowsPolicy(env, r, s, ready, frame);
    var req := RequestFor(env, r, s, frame);
    PolicyKeepsOpenOnlyWhenHandled(Classify(env, frame), frame, ready, r.server.Some?, LookupPlugin(r, s.connectionID),
                                   req, env.processRequest(req), ResolutionFor(env, r, s, frame));
  }

  /** Routing one frame writes at most one frame to the socket. */
  lemma AtMostOneFrameSent(env: Env, r: Router, s: Session, ready: ReadyState, frame: string)
    ensures var t := RouteMessage(env, r, s, ready, frame).wire.trace;
      forall i, j :: 0 <= i < |t| && 0 <= j < |t| && IsSend(t[i]) && IsSend(t[j]) ==> i == j
  {
    RouteMessageFollowsPolicy(env, r, s, ready, frame);
    var req := RequestFor(env, r, s, frame);
    PolicySendsAtMostOnce(Classify(env, frame), frame, ready, r.server.Some?, LookupPlugin(r, s.connectionID),
                          req, env.processRequest(req), ResolutionFor(env, r, s, frame));
  }

  /** While routing one frame, nothing is written to the socket after that frame's own `close` call. Across frames
      this does not hold: a later request on a socket left CLOSING is still answered (see
      `ClosedSocketGetsOnlyUnguardedSends`). */
  lemma NoFrameSentAfterClose(env: Env, r: Router, s: Session, ready: ReadyState, frame: string)
    ensures NoSendAfterClose(RouteMessage(env, r, s, ready, frame).wire.trace)
  {
    RouteMessageFollowsPolicy(env, r, s, ready, frame);
    var req := RequestFor(env, r, s, frame);
    PolicyNoSendAfterClose(Classify(env, frame), frame, ready, r.server.Some?, LookupPlugin(r, s.connectionID),
                           req, env.processRequest(req), ResolutionFor(env, r, s, frame));
  }

  /** `processRequest` is reached exactly for a request-shaped frame with a local server, once, first, and with the
      request built for the frame. */
  lemma ProcessRequestCalledIff(env: Env, r: Router, s: Session, ready: ReadyState, frame: string)
    ensures var t := RouteMessage(env, r, s, ready, frame).wire.trace;
      && ((exists i :: 0 <= i < |t| && t[i].RequestProcessed?) <==>
            Classify(env, frame).RequestShaped? && r.server.Some?)
      && (forall i :: 0 <= i < |t| && t[i].RequestProcessed? ==>
            i == 0 && t[i] == RequestProcessed(RequestFor(env, r, s, frame)))
  {
    RouteMessageFollowsPolicy(env, r, s, ready, frame);
    var req := RequestFor(env, r, s, frame);
    PolicyProcessesRequestIff(Classify(env, frame), frame, ready, r.server.Some?, LookupPlugin(r, s.connectionID),
                              req, env.processRequest(req), ResolutionFor(env, r, s, frame));
  }

  /** `processResponse` is reached exactly for a response-shaped frame on a session that has a plugin, once, first,
      and with that plugin, the raw frame and the decoded value. */
  lemma ProcessResponseCalledIff(env: Env, r: Router, s: Session, ready: ReadyState, frame: string)
    ensures var t := RouteMessage(env, r, s, ready, frame).wire.trace;
      var k := Classify(env, frame);
      && ((exists i :: 0 <= i < |t| && t[i].ResponseProcessed?) <==>
            && k.ResponseShaped?
            && s.connectionID in r.sessions && r.sessions[s.connectionID].transportPlugin.Some?)
      && (forall i :: 0 <= i < |t| && t[i].ResponseProcessed? ==>
            && i == 0
            && t[i] == ResponseProcessed(r.sessions[s.connectionID].transportPlugin.value, frame, k.value))
  {
    RouteMessageFollowsPolicy(env, r, s, ready, frame);
    var req := RequestFor(env, r, s, frame);
    PolicyProcessesResponseIff(Classify(env, frame), frame, ready, r.server.Some?, LookupPlugin(r, s.connectionID),
                               req, env.processRequest(req), ResolutionFor(env, r, s, frame));
  }

  /** On a socket that is not OPEN, the router writes only the two frames it does not guard: the PARSE_ERROR for an
      undecodable frame and the answer to a request. */
  lemma ClosedSocketGetsOnlyUnguardedSends(env: Env, r: Router, s: Session, ready: ReadyState, frame: string)
    requires ready != Open
    ensures var t := RouteMessage(env, r, s, ready, frame).wire.trace;
      forall i :: 0 <= i < |t| && IsSend(t[i]) ==>
        || (Classify(env, frame).Undecodable? && t[i] == SendCalled(ErrorFrame(PARSE_ERROR)))
        || (Classify(env, frame).RequestShaped?
            && t[i] == SendCalled(ResponseFrame(env.processRequest(RequestFor(env, r, s, frame)).value)))
  {
    RouteMessageFollowsPolicy(env, r, s, ready, frame);
    var req := RequestFor(env, r, s, frame);
    PolicyGuardsSendsOnClosedSocket(Classify(env, frame), frame, ready, r.server.Some?,
                                    LookupPlugin(r, s.connectionID), req, env.processRequest(req),
                                    ResolutionFor(env, r, s, frame));
  }

  /** The ready state changes only through a `close` call, to CLOSING unless already CLOSED; a socket that was not
      OPEN is never reopened. */
  lemma StateChangesOnlyByClose(env: Env, r: Router, s: Session, ready: ReadyState, frame: string)
    ensures var w := RouteMessage(env, r, s, ready, frame).wire;
      w.state == ready || (HasClose(w.trace) && w.state == AfterClose(ready))
  {
    RouteMessageFollowsPolicy(env, r, s, ready, frame);
    var req := RequestFor(env, r, s, frame);
    PolicyChangesStateOnlyByClose(Classify(env, frame), frame, ready, r.server.Some?,
                                  LookupPlugin(r, s.connectionID), req, env.processRequest(req),
                                  ResolutionFor(env, r, s, frame));
  }

  /** The handler throws out only where the catch-all itself throws, and only with a server present: on a session
      already deleted, or for a request whose processing threw `null` or `undefined` on a live session with no plugin
      and an OPEN socket. It has then done nothing but, for a request, the one `processRequest` call. */
  lemma RejectionOnlyWhenCatchAllThrows(env: Env, r: Router, s: Session, ready: ReadyState, frame: string)
    ensures var out := RouteMessage(env, r, s, ready, frame);
      out.ending == Rejected ==>
        && r.server.Some? && out.wire.state == ready
        && (out.wire.trace == [] || out.wire.trace == [RequestProcessed(RequestFor(env, r, s, frame))])
        && (|| s.connectionID !in r.sessions
            || (&& Classify(env, frame).RequestShaped?
                && r.sessions[s.connectionID].transportPlugin.None? && ready == Open
                && env.processRequest(RequestFor(env, r, s, frame)) == Threw(true)))
  {
    RouteMessageFollowsPolicy(env, r, s, ready, frame);
    var req := RequestFor(env, r, s, frame);
    PolicyRejectsOnlyUntouched(Classify(env, frame), frame, ready, r.server.Some?,
                               LookupPlugin(r, s.connectionID), req, env.processRequest(req),
                               ResolutionFor(env, r, s, frame));
  }
}
