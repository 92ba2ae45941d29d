/** The websocket as the router drives it: a ready state plus the trace of calls the router has made on it
    (and on the collaborators it hands frames to). */
module Socket {
  import opened Rpc

  /** `WebSocket.CONNECTING`, `OPEN`, `CLOSING`, `CLOSED`. */
  datatype ReadyState = Connecting | Open | Closing | Closed

  /** Close status 1011, "Internal Error" (section 7.4.1 of RFC 6455 and the IANA close code registry). */
  const INTERNAL_ERROR_CLOSE: int := 1011

  /** A frame the router writes: an error envelope `{"id": null, "jsonrpc": "2.0", "error": {...}}`, of which only
      the code is kept, or the serialized result of `processRequest`. */
  datatype Outgoing = ErrorFrame(code: int) | ResponseFrame(response: Response)

  /** Why the router closed the socket: the frame could not be decoded, a response arrived with no reverse-calls
      client, the catch-all handler ran, or the transport reported an error (with its message). */
  datatype CloseReason = UndecodableFrame | PhantomResponse | UncleanState | TransportError(message: string)

  /** One call the router makes while handling events. */
  datatype Effect =
    | SendCalled(frame: Outgoing)
    | CloseCalled(code: int, reason: CloseReason)
    | RequestProcessed(request: IncomingRequest)
    | ResponseProcessed(plugin: Plugin, raw: string, decoded: JsonValue)

  /** The socket's ready state and everything the router has done to it so far. */
  datatype Wire = Wire(state: ReadyState, trace: seq<Effect>)

  /** `webSocket.send(frame)`: recorded whatever the ready state; sending does not change it. */
  function Send(w: Wire, f: Outgoing): Wire
  {
    Wire(w.state, w.trace + [SendCalled(f)])
  }

  /** `webSocket.close(code, reason)`: recorded whatever the ready state; a socket that is not yet closed starts
      closing, so it is no longer OPEN afterwards. */
  function Close(w: Wire, code: int, reason: CloseReason): Wire
  {
    Wire(if w.state == Closed then Closed else Closing, w.trace + [CloseCalled(code, reason)])
  }

  /** A call into a collaborator, recorded in the trace; the socket itself is untouched. */
  function Note(w: Wire, e: Effect): Wire
  {
    Wire(w.state, w.trace + [e])
  }

  /** Whether `e` writes a frame. */
  predicate IsSend(e: Effect)
  {
    e.SendCalled?
  }

  /** Once a trace closes the socket, it writes nothing more. */
  predicate NoSendAfterClose(t: seq<Effect>)
  {
    forall i, j :: 0 <= i < j < |t| && t[i].CloseCalled? ==> !IsSend(t[j])
  }

  /** Whether a trace closes the socket somewhere. */
  predicate HasClose(t: seq<Effect>)
  {
    exists i :: 0 <= i < |t| && t[i].CloseCalled?
  }
}
