# Bidirectional websocket router, modelled in Dafny

This project models `BidirectionalWebsocketRouter`, the piece of a JSON-RPC 2.0 library that carries calls in both
directions over a single websocket. The model covers three parts of it:

- **Connection registry.** The constructor, `addWebSocket`, and the socket's `close` and `error` handlers. These hand
  out connection IDs from a pre-incremented counter and keep one session record per live connection.
- **Reverse-calls client factory.** `connectionIDToClient` and `_makeReverseCallsClient`. They build the client for
  calls back to the peer lazily, at most once per session, and set its bidirectional transport plugin at the same
  moment.
- **Per-frame router.** `_routeMessage`, the `message` handler. It classifies each inbound frame and then applies a
  fail-fast policy. A request goes to the local server. A response goes to the session's transport plugin. Anything
  it cannot handle draws at most one error frame, and then a close with status 1011 if the socket is still OPEN
  (always, for a frame that does not decode). In a few cases the error handling itself throws, and the handler
  rejects with nothing sent or closed.

Everything is a pure function over immutable data:

- **`Registry.Router`** holds the optional local server, the counter, the session map and the log of
  "madeReverseCallsClient" events.
- **`Socket.Wire`** is the socket: its ready state plus the trace of calls the router made while handling one event.
  Those calls are `send`, `close`, `processRequest` and `processResponse`.
- **`Rpc.Env`** holds the collaborators the router calls but does not define, as function values:
  - `jsonDecodeSafe`, which returns a value or reports a malformed frame;
  - `EndpointBase.normalizePath`;
  - `Server.processRequest`;
  - the plugin's `processResponse`.

  The last two either return or throw. A throw records whether the thrown value is `null` or `undefined`. An
  answer of `processRequest` records whether `JSON.stringify` can serialize it.

`Routing.RouteMessage` is written branch by branch after the source. That includes the path where the session has
been deleted before its frame is routed. There, reading `this._objSessions[id].clientWebSocketTransportPlugin`
throws a TypeError:

- at the first catch block and in the catch-all, when a server is present, that error escapes the handler and its
  promise rejects (`Routing.Rejected`);
- in the response branch, the catch-all catches it.

The catch-all throws in one more case. It builds its INTERNAL_ERROR frame from `error.message` (:316). So when
`processRequest` rejects with `null` or `undefined` on a live session with no plugin and an OPEN socket, that read
throws, and the handler rejects with no frame sent and no close. A `processRequest` answer that `JSON.stringify`
throws on, because it holds a BigInt or a cycle, is not sent: the TypeError from :265 goes to the catch-all like any
other failure.

`FailurePolicy.Policy` restates the same behaviour as a flat decision table. `RoutingProperties.RouteMessageFollowsPolicy`
proves the two agree on every input. The general properties are proved once on the table and carried over to the
router.

The INTERNAL_ERROR send in the catch-all is guarded by the ready state as well as by the server and plugin tests
(src/BidirectionalWebsocketRouter.js:308-310). So a response on a session with no plugin, with a server present,
gets no INTERNAL_ERROR frame: the close at :288 has already moved the socket out of OPEN.

The key tests call `objMessage.hasOwnProperty(...)` (:216, :267). They throw into the catch-all both on `null` and
on an object with its own "hasOwnProperty" member, because that member shadows the inherited method and a decoded
JSON value is never callable. Such a frame is routed as neither a request nor a response, whatever else it holds.

The connection counter is a JS Number. `++` counts exactly up to 2^53. At 2^53 it rounds 2^53 + 1 back to 2^53, so
the counter stops there. `Registry.Increment` models this. The registry properties that need fresh IDs are proved
for runs that stay within that range, and `Lifecycle.IDReusedPastExactRange` shows what happens beyond it.

## Model

| member | source | states |
|---|---|---|
| JsText.TrimStart | src/BidirectionalWebsocketRouter.js:176 | the result is a suffix of the input, everything dropped is ECMAScript white space, and the result does not start with white space |
| JsText.TrimEnd | src/BidirectionalWebsocketRouter.js:176 | the result is a prefix of the input, everything dropped is white space, and the result does not end with white space |
| JsText.TrimEmptyIffAllWhitespace | src/BidirectionalWebsocketRouter.js:176 | `strMessage.trim().length` is zero exactly when the frame is white space only (both directions) |
| JsText.Trim | src/BidirectionalWebsocketRouter.js:176 | `String.prototype.trim`, composed of `TrimStart` and `TrimEnd`; its behaviour is stated by `JsText.TrimEmptyIffAllWhitespace` and `JsText.TrimIsSlice` |
| JsText.TrimIsSlice | src/BidirectionalWebsocketRouter.js:176 | trimming keeps a contiguous slice of the frame and removes only white space, and only at the two ends |
| Rpc.InstanceOfReflexive | src/BidirectionalWebsocketRouter.js:133-136 | a client is an instance of the class it was built with, so the `instanceof` assertion accepts that class |
| Rpc.InstanceOfTransitive | src/BidirectionalWebsocketRouter.js:133-136 | `instanceof` accepts every ancestor of an accepted class |
| Rpc.InstanceOfAntisymmetric | src/BidirectionalWebsocketRouter.js:133-136 | two classes that each accept the other's instances are the same class |
| Registry.New | src/BidirectionalWebsocketRouter.js:30-40 | a new router keeps the given server, has no sessions and no events, satisfies the registry invariant, and its first registration gets ID 1 |
| Registry.AddWebSocket | src/BidirectionalWebsocketRouter.js:50-101 | a socket that is not OPEN returns nothing and leaves the router unchanged. An OPEN one returns the incremented counter (counter+1 below 2^53, 2^53 again at 2^53). It stores exactly that key with a session holding neither client nor plugin, and leaves every other session, the server and the event log alone. Below 2^53 and under the invariant, the ID was not in use and the invariant is kept |
| Registry.OnClose | src/BidirectionalWebsocketRouter.js:70-75 | removes exactly that connection's key, leaves every other session, the counter, the server and the event log unchanged, and keeps the invariant |
| Registry.OnError | src/BidirectionalWebsocketRouter.js:77-90 | changes the registry as the close handler does; the socket ends not OPEN; a close with 1011 and the error's message is appended exactly when the socket was OPEN, and otherwise the socket is untouched |
| Registry.MakeReverseCallsClient | src/BidirectionalWebsocketRouter.js:152-162 | the client has the requested class and the socket's URL; the session's plugin becomes a bidirectional transport on that socket and is the client's only plugin; nothing else in the session changes; exactly one event carrying the client is appended |
| Registry.ConnectionIDToClient | src/BidirectionalWebsocketRouter.js:113-140 | an unknown ID fails with "not found", and only it does. The first call builds a client of the requested class at the socket's URL. It stores that client and the bidirectional transport on the socket in the session, which otherwise stays as it was. The transport is the client's only plugin. It appends one event and changes no other session; a later call returns the stored client and changes nothing if `instanceof` accepts the class, and fails the assertion otherwise; a successful call keeps the invariant |
| Lifecycle.Step | src/BidirectionalWebsocketRouter.js:50-140 | one registry event: `addWebSocket`, a close, an error, or `connectionIDToClient`, which changes nothing when it throws; stated by the lemmas below |
| Lifecycle.Run | src/BidirectionalWebsocketRouter.js:50-140 | a sequence of registry events applied in order; stated by `Lifecycle.RunPreservesValid`, `Lifecycle.IssuedAreConsecutive` and `Lifecycle.IDsFromFreshRouter` |
| Lifecycle.StepAdvancesCounter | src/BidirectionalWebsocketRouter.js:58 | an event hands out at most one ID, the incremented counter, and leaves the counter there; otherwise the counter is unchanged |
| Lifecycle.IssuedCountsOpenRegistrations | src/BidirectionalWebsocketRouter.js:52-58 | exactly the registrations of OPEN sockets hand out an ID, whatever the registry holds, so "within 2^53" can be stated on the events alone |
| Lifecycle.StepPreservesValid | src/BidirectionalWebsocketRouter.js:50-140 | registration, close, error and client resolution each keep the registry invariant, unless a registration finds the counter already at 2^53 |
| Lifecycle.RunPreservesValid | src/BidirectionalWebsocketRouter.js:50-140 | the invariant holds after any sequence of registry events whose OPEN registrations, added to the starting counter, stay within 2^53 |
| Lifecycle.IssuedAreConsecutive | src/BidirectionalWebsocketRouter.js:58 | within 2^53, the IDs handed out over a run are the consecutive numbers after the starting counter, and the counter ends at the last one |
| Lifecycle.IDsFromFreshRouter | src/BidirectionalWebsocketRouter.js:38-58 | from a new router, over the first 2^53 registrations, the n-th registration gets ID n, so IDs strictly increase and are never reused, even after a close; the invariant holds throughout |
| Lifecycle.ResolveIsMemoized | src/BidirectionalWebsocketRouter.js:123-139 | after a successful resolution, asking again with the same class or any ancestor returns the same result: the identical client, with nothing emitted or changed |
| Lifecycle.ResolveWithSubclassFails | src/BidirectionalWebsocketRouter.js:133-136 | once a client exists, asking for a proper subclass of its class fails the `instanceof` assertion |
| Lifecycle.EmittedAtMostOncePerConnection | src/BidirectionalWebsocketRouter.js:123-159 | over the first 2^53 registrations, "madeReverseCallsClient" is emitted at most once per connection |
| Lifecycle.IDReusedPastExactRange | src/BidirectionalWebsocketRouter.js:58-68 | once the counter reaches 2^53, the next registration gets 2^53 again and its fresh session replaces the one stored under that ID |
| Routing.LookupPlugin | src/BidirectionalWebsocketRouter.js:269 | reading the session's plugin throws exactly when the session is gone, gives `null` exactly when the session has no plugin, and otherwise gives that plugin |
| Routing.OwnPropertyQueryable | src/BidirectionalWebsocketRouter.js:216 | `hasOwnProperty` can be called on every decoded value except `null` and an object with its own "hasOwnProperty" member; used by `Routing.TryRoute` and `FailurePolicy.Classify`, and stated by `RoutingProperties.ShadowedKeyTestIsFatal` |
| Routing.OnUndecodable | src/BidirectionalWebsocketRouter.js:188-212 | the catch block for a frame that does not decode; stated by `RoutingProperties.UndecodableFrameIsFatal` |
| Routing.TryRoute | src/BidirectionalWebsocketRouter.js:214-302 | the try block: request, response or neither, with the calls each makes. An answer `JSON.stringify` throws on (a BigInt or a cycle, :265) raises into the catch-all instead of being sent, and a collaborator's throw carries whether it threw `null`/`undefined`; stated by the `RoutingProperties` branch lemmas |
| Routing.OnUncaught | src/BidirectionalWebsocketRouter.js:303-333 | the catch-all block, including its own two throws: reading the plugin of a deleted session, and reading `message` off a `null`/`undefined` error where the INTERNAL_ERROR frame is built (:316); stated by `RoutingProperties.FailedRequestIsFatal`, `RoutingProperties.UnshapedFrameIsFatal`, `RoutingProperties.BoundResponseIsDelivered` and `RoutingProperties.RejectionOnlyWhenCatchAllThrows` |
| Routing.RouteMessage | src/BidirectionalWebsocketRouter.js:171-334 | `_routeMessage` as a whole; stated exactly, branch by branch, by the `RoutingProperties` branch lemmas, and as the decision table by `RoutingProperties.RouteMessageFollowsPolicy` |
| FailurePolicy.Classify | src/BidirectionalWebsocketRouter.js:176-300 | the frame's shape in the order the router tests it: blank, undecodable, then, when the key test can run, `method` before `result`/`error`; its use is stated by `RoutingProperties.RouteMessageFollowsPolicy` |
| FailurePolicy.Policy | src/BidirectionalWebsocketRouter.js:171-334 | the decision table; stated by the `FailurePolicy.Policy*` lemmas and tied to the router by `RoutingProperties.RouteMessageFollowsPolicy` |
| Routing.BuildRequest | src/BidirectionalWebsocketRouter.js:236-261 | the request always carries the connection ID. On a known endpoint path it also carries the endpoint, the raw frame and the decoded object, and no fault. On an unknown path it carries only a METHOD_NOT_FOUND fault, because the throw comes before the body is stored |
| FailurePolicy.PolicyKeepsOpenOnlyWhenHandled | src/BidirectionalWebsocketRouter.js:171-334 | in the decision table, a handler that finishes normally leaves the socket OPEN only for a blank frame, a request answered with a serializable object or a resolved response, and only if the socket was OPEN |
| FailurePolicy.PolicySendsAtMostOnce | src/BidirectionalWebsocketRouter.js:171-334 | every row of the table writes at most one frame |
| FailurePolicy.PolicyProcessesRequestIff | src/BidirectionalWebsocketRouter.js:216-266 | the table calls `processRequest` exactly in the request rows with a server, as the first call and with the built request |
| FailurePolicy.PolicyProcessesResponseIff | src/BidirectionalWebsocketRouter.js:267-297 | the table calls `processResponse` exactly in the response rows whose session has a plugin, as the first call and with the raw frame and the decoded value |
| FailurePolicy.PolicyGuardsSendsOnClosedSocket | src/BidirectionalWebsocketRouter.js:171-334 | on a socket that is not OPEN, the table writes only the two unguarded frames: the PARSE_ERROR for an undecodable frame and the answer to a request |
| FailurePolicy.PolicyNoSendAfterClose | src/BidirectionalWebsocketRouter.js:171-334 | no row of the table writes a frame after its close |
| FailurePolicy.PolicyChangesStateOnlyByClose | src/BidirectionalWebsocketRouter.js:171-334 | in the table the ready state changes only through a close call, and then to what `close` makes of it |
| FailurePolicy.PolicyRejectsOnlyUntouched | src/BidirectionalWebsocketRouter.js:171-334 | a row that throws out of the handler has a server, leaves the state unchanged, has called nothing but possibly `processRequest`, and is on a deleted session or is a request whose processing threw `null`/`undefined` on a session with no plugin and an OPEN socket |
| RoutingProperties.BlankFrameIsIgnored | src/BidirectionalWebsocketRouter.js:176-180 | a white-space-only frame produces no call at all and leaves the socket as it was |
| RoutingProperties.UndecodableFrameIsFatal | src/BidirectionalWebsocketRouter.js:184-212 | a frame that does not decode gets one PARSE_ERROR frame exactly when a server is present and the session has no plugin, then always a close with 1011, and no collaborator call; with a server and a deleted session, the handler throws out before doing anything |
| RoutingProperties.RequestWithoutServerIsRefused | src/BidirectionalWebsocketRouter.js:216-233 | a request with no local server gets a PARSE_ERROR frame and a 1011 close if the socket is OPEN, and nothing otherwise; `processRequest` is never called |
| RoutingProperties.AnsweredRequestIsSentBack | src/BidirectionalWebsocketRouter.js:236-265 | with a server whose `processRequest` returns an object `JSON.stringify` can serialize, the router makes exactly one `processRequest` call with the built request and sends back its result unmodified, and the socket keeps its state |
| RoutingProperties.UnknownEndpointIsARequestFault | src/BidirectionalWebsocketRouter.js:244-265 | on an unknown endpoint path the request reaches `processRequest` with a METHOD_NOT_FOUND fault and no body, and, when `processRequest` returns an answer that serializes, the connection is not closed |
| RoutingProperties.FailedRequestIsFatal | src/BidirectionalWebsocketRouter.js:264-333 | when `processRequest` throws, or returns an answer `JSON.stringify` throws on, the catch-all runs after the one call. On a deleted session it throws out. On a socket that is not OPEN it does nothing more. With a plugin it closes with 1011. With no plugin it sends INTERNAL_ERROR and closes with 1011, except when the error is `null`/`undefined`: then reading its `message` throws out of the handler with nothing sent or closed |
| RoutingProperties.UnserializableAnswerIsNotSent | src/BidirectionalWebsocketRouter.js:264-316 | an answer `JSON.stringify` throws on is never written, in any socket state; on a live session with no plugin and an OPEN socket the catch-all sends INTERNAL_ERROR and the socket ends CLOSING instead |
| RoutingProperties.PhantomResponseIsFatal | src/BidirectionalWebsocketRouter.js:267-295 | a response on a session without a plugin never reaches `processResponse`. The socket ends not OPEN. PARSE_ERROR goes out only with no server on an OPEN socket. No INTERNAL_ERROR frame is ever sent |
| RoutingProperties.BoundResponseIsDelivered | src/BidirectionalWebsocketRouter.js:296 | a response on a session with a plugin is handed to that plugin with exactly the raw frame and the decoded value; if that throws, the socket is closed if OPEN and nothing is sent |
| RoutingProperties.ResponseOnDeletedSession | src/BidirectionalWebsocketRouter.js:269 | a response on a deleted session: with a server, the handler throws out with nothing done; without one, the socket is closed if OPEN and nothing is sent |
| RoutingProperties.UnshapedFrameIsFatal | src/BidirectionalWebsocketRouter.js:298-333 | a frame that is neither a request nor a response gets INTERNAL_ERROR only with a server, no plugin and an OPEN socket, then a 1011 close if OPEN; with a server and a deleted session the handler throws out |
| RoutingProperties.ShadowedKeyTestIsFatal | src/BidirectionalWebsocketRouter.js:216 | an object with its own "hasOwnProperty" member is classed as neither request nor response, whatever keys it has; neither collaborator is called; an OPEN socket ends CLOSING unless the handler throws out on a deleted session |
| RoutingProperties.RouteMessageFollowsPolicy | src/BidirectionalWebsocketRouter.js:171-334 | on every frame, session, ready state and collaborator behaviour, `_routeMessage` does exactly what the decision table prescribes |
| RoutingProperties.OnlyHandledFramesKeepTheSocketOpen | src/BidirectionalWebsocketRouter.js:171-334 | if the socket is still OPEN and the handler finished normally, the socket was OPEN and the frame was blank, a request the server answered with a serializable object, or a response the plugin resolved |
| RoutingProperties.AtMostOneFrameSent | src/BidirectionalWebsocketRouter.js:171-334 | routing one frame writes at most one frame to the socket |
| RoutingProperties.NoFrameSentAfterClose | src/BidirectionalWebsocketRouter.js:303-333 | while routing one frame, nothing is written to the socket after that frame's own `close` call; a later frame's answer on a socket left CLOSING is not excluded (see `RoutingProperties.ClosedSocketGetsOnlyUnguardedSends`) |
| RoutingProperties.ProcessRequestCalledIff | src/BidirectionalWebsocketRouter.js:216-266 | `processRequest` is called exactly for a request with a local server, even one that also has `result` or `error`, once, first, and with the built request |
| RoutingProperties.ProcessResponseCalledIff | src/BidirectionalWebsocketRouter.js:267-297 | `processResponse` is called exactly for a response on a session with a plugin, once, first, and with that plugin, the raw frame and the decoded value |
| RoutingProperties.ClosedSocketGetsOnlyUnguardedSends | src/BidirectionalWebsocketRouter.js:195-265 | on a socket that is not OPEN the router writes only the unguarded PARSE_ERROR for an undecodable frame and the answer to a request |
| RoutingProperties.StateChangesOnlyByClose | src/BidirectionalWebsocketRouter.js:171-334 | the ready state changes only through a close call, to CLOSING unless already CLOSED; a socket that was not OPEN is never made OPEN |
| RoutingProperties.RejectionOnlyWhenCatchAllThrows | src/BidirectionalWebsocketRouter.js:193-316 | the handler throws out only with a server present, on a deleted session or for a request whose processing threw `null`/`undefined` on a live session with no plugin and an OPEN socket, and then has done nothing except, for a request, the one `processRequest` call |

## Left out

- The `ws` library is not modelled: no handshake and no events beyond `close`, `error` and `message`. A socket is a
  ready state plus the calls made on it.
- `send` is recorded whatever the ready state, and `webSocket.send` itself never throws. The library's own handling
  of a send on a socket that is not OPEN is not part of this model. Of the `JSON.stringify` calls, only the one on a
  request's answer (:265) can throw; the error frames the router builds itself always serialize.
- `close` is recorded whatever the ready state. It moves any state except CLOSED to CLOSING. The later move to
  CLOSED belongs to the library.
- The URL fallback `webSocket.url ? webSocket.url : webSocket.upgradeReq.url` is not modelled. A socket has one URL.
- Message texts are not modelled: close reasons, error messages and `JSON.stringify` pretty-printing. Error frames
  keep only their JSON-RPC code, and closes keep their status code and a reason tag. The one exception is the error
  handler, whose close reason carries the error's message.
- `JSONRPC.Utils.jsonDecodeSafe` is a parameter (`Env.decode`). A decoded value is `null`, an object (only its keys
  matter), or any other JSON value.
- `Server.processRequest`, `EndpointBase.normalizePath`, the plugin's `processResponse` and the client classes are
  parameters. `normalizePath` is taken not to throw. A class is a name with an optional base class, and `instanceof`
  follows the base chain.
- Registry.MakeReverseCallsClient, Registry.ConnectionIDToClient: a client class's constructor is taken to start the
  client with no plugins, so the transport added at :157 is its only plugin. A subclass whose constructor adds
  plugins of its own is not modelled; for it, only "the transport is the last plugin added" would hold.
- Registry.ConnectionIDToClient, Lifecycle.EmittedAtMostOncePerConnection: "madeReverseCallsClient" listeners are
  taken to return normally without calling back into the router. `emit` at :159 runs them synchronously, before :125
  stores the client. A listener that throws would leave the session with a plugin and no client. A listener that
  calls `connectionIDToClient` for the same ID would find no client yet and emit a second event. Listeners are
  outside the router.
- `Exception.js` is not part of this model. Its codes are taken from section 5.1 of the JSON-RPC 2.0 specification:
  -32700, -32601 and -32603.
- The `assert`s on argument types at :34 and :115-116 are enforced by Dafny's types and not modelled as failures.
- Concurrency is not modelled. The awaits at :264 and :296 let message handlers interleave; here each frame is routed
  atomically. The registry events are a separate, sequential `Lifecycle.Event` stream. Routing reads the registry and
  never changes it, so `processRequest` re-entering `connectionIDToClient` during a request is not modelled.
- `incomingRequest.bidirectionalWebsocketRouter`, the back-reference to the router, is not modelled.
- Console logging is not modelled. Of the EventEmitter, only the "madeReverseCallsClient" events are kept, in a log
  that also records the connection each event was for.
- Installing the three handlers in `addWebSocket` is not modelled as data. Their behaviour is `Registry.OnClose`,
  `Registry.OnError` and `Routing.RouteMessage`.
