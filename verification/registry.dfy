/** The connection registry of `BidirectionalWebsocketRouter`: sessions keyed by connection ID, the ID counter,
    the socket lifecycle handlers and the lazily built reverse-calls client. */
module Registry {
  import opened Wrappers
  import opened Rpc
  import opened Socket

  /** One live connection: its socket, its ID, and the reverse-calls client with its transport plugin,
      both `None` until first requested. */
  datatype Session = Session(
    socket: SocketRef,
    connectionID: nat,
    clientReverseCalls: Option<Client>,
    transportPlugin: Option<Plugin>)

  /** A "madeReverseCallsClient" event. Listeners receive the client; the log also keeps the connection it
      was made for, so that "once per session" can be stated. */
  datatype Emission = MadeReverseCallsClient(connectionID: nat, client: Client)

  /** The router's state: the optional local server, the last connection ID handed out, the live sessions,
      and every "madeReverseCallsClient" event emitted so far. */
  datatype Router = Router(
    server: Option<Server>,
    counter: nat,
    sessions: map<nat, Session>,
    emitted: seq<Emission>)

  /** 2^53. Up to it the JS Number `_nServerWebSocketConnectionIDCounter` counts exactly; past it `++` rounds
      2^53 + 1 back to 2^53, so the counter stays there. */
  const EXACT_COUNTER_LIMIT: nat := 0x20_0000_0000_0000

  /** `++counter` on a Number counter that started at 0 and only ever went up, so never exceeds 2^53. */
  function Increment(n: nat): nat
  {
    if n < EXACT_COUNTER_LIMIT then n + 1 else n
  }

  /** The connections a "madeReverseCallsClient" event has been emitted for. */
  function EmittedIDs(log: seq<Emission>): set<nat>
  {
    set i | 0 <= i < |log| :: log[i].connectionID
  }

  /** The registry invariant:
      - the counter is one a Number counter can reach;
      - every live session sits under its own ID, and that ID has been issued;
      - a session has a client exactly when it has a transport plugin, and the client carries that plugin;
      - events were emitted only for issued IDs, at most once per connection;
      - a live session has a client exactly when an event was emitted for it, and the event carried that client. */
  ghost predicate Valid(r: Router)
  {
    && r.counter <= EXACT_COUNTER_LIMIT
    && (forall k :: k in r.sessions ==> 1 <= k <= r.counter && r.sessions[k].connectionID == k)
    && (forall k :: k in r.sessions ==>
          (r.sessions[k].clientReverseCalls.Some? <==> r.sessions[k].transportPlugin.Some?))
    && (forall k :: k in r.sessions && r.sessions[k].clientReverseCalls.Some? ==>
          r.sessions[k].clientReverseCalls.value.plugins == [r.sessions[k].transportPlugin.value])
    && (forall i :: 0 <= i < |r.emitted| ==> 1 <= r.emitted[i].connectionID <= r.counter)
    && (forall i, j :: 0 <= i < j < |r.emitted| ==> r.emitted[i].connectionID != r.emitted[j].connectionID)
    && (forall k :: k in r.sessions ==> (r.sessions[k].clientReverseCalls.Some? <==> k in EmittedIDs(r.emitted)))
    && (forall i :: 0 <= i < |r.emitted| && r.emitted[i].connectionID in r.sessions ==>
          r.sessions[r.emitted[i].connectionID].clientReverseCalls == Some(r.emitted[i].client))
  }

  /** `new BidirectionalWebsocketRouter(jsonrpcServer)`. */
  function New(server: Option<Server>): (r: Router)
    ensures r.server == server && r.sessions == map[] && r.emitted == []
    ensures forall s: SocketRef :: AddWebSocket(r, s, Open).id == Some(1)
    ensures Valid(r)
  {
    Router(server, 0, map[], [])
  }

  /** What `addWebSocket` leaves behind: the router and the connection ID it returned, if any. */
  datatype Added = Added(router: Router, id: Option<nat>)

  /** `addWebSocket(webSocket)`: a socket that is not OPEN is ignored; an OPEN one gets the incremented counter as
      its ID and a fresh session with neither client nor plugin, stored under that ID. Below 2^53 the ID is new;
      at 2^53 it is handed out again and the session stored under it is replaced. Installing the close, error and
      message handlers is modelled by `OnClose`, `OnError` and `Routing.RouteMessage`. */
  function AddWebSocket(r: Router, socket: SocketRef, state: ReadyState): (a: Added)
    ensures state != Open ==> a == Added(r, None)
    ensures state == Open ==>
      && a.id == Some(Increment(r.counter))
      && a.router.counter == Increment(r.counter)
      && a.router.server == r.server && a.router.emitted == r.emitted
      && a.router.sessions.Keys == r.sessions.Keys + {Increment(r.counter)}
      && a.router.sessions[Increment(r.counter)] == Session(socket, Increment(r.counter), None, None)
      && (forall k :: k in r.sessions && k != Increment(r.counter) ==> a.router.sessions[k] == r.sessions[k])
    ensures state == Open && r.counter < EXACT_COUNTER_LIMIT ==> a.id == Some(r.counter + 1)
    ensures Valid(r) && state == Open && r.counter < EXACT_COUNTER_LIMIT ==>
      r.counter + 1 !in r.sessions && |a.router.sessions| == |r.sessions| + 1
    ensures Valid(r) && (state != Open || r.counter < EXACT_COUNTER_LIMIT) ==> Valid(a.router)
  {
    if state != Open then
      Added(r, None)
    else
      var id := Increment(r.counter);
      assert Valid(r) && r.counter < EXACT_COUNTER_LIMIT ==> id !in r.sessions && id !in EmittedIDs(r.emitted);
      var r' := r.(counter := id, sessions := r.sessions[id := Session(socket, id, None, None)]);
      assert r'.sessions.Keys == r.sessions.Keys + {id};
      Added(r', Some(id))
  }

  /** The socket's "close" handler: forgets the session of connection `id`. */
  function OnClose(r: Router, id: nat): (r': Router)
    ensures r'.sessions.Keys == r.sessions.Keys - {id}
    ensures forall k :: k in r'.sessions ==> r'.sessions[k] == r.sessions[k]
    ensures r'.server == r.server && r'.counter == r.counter && r'.emitted == r.emitted
    ensures Valid(r) ==> Valid(r')
  {
    r.(sessions := r.sessions - {id})
  }

  /** What the "error" handler leaves behind: the router and the socket. */
  datatype Errored = Errored(router: Router, wire: Wire)

  /** The socket's "error" handler: forgets the session like "close" does, then closes the socket with 1011 and the
      error's message, but only if it is still OPEN. */
  function OnError(r: Router, id: nat, w: Wire, message: string): (e: Errored)
    ensures e.router == OnClose(r, id)
    ensures e.wire.state != Open
    ensures w.state == Open ==>
      e.wire.trace == w.trace + [CloseCalled(INTERNAL_ERROR_CLOSE, TransportError(message))]
    ensures w.state != Open ==> e.wire == w
  {
    var r' := r.(sessions := r.sessions - {id});
    if w.state == Open then Errored(r', Close(w, INTERNAL_ERROR_CLOSE, TransportError(message)))
    else Errored(r', w)
  }

  /** What `_makeReverseCallsClient` produces: the new client, the session with its plugin set, and the event log. */
  datatype Made = Made(client: Client, session: Session, emitted: seq<Emission>)

  /** `_makeReverseCallsClient(webSocket, ClientClass, objSession)`: builds a client of the requested class addressed at
      the socket's URL, sets a bidirectional transport plugin on the session, adds it to the client, and emits
      "madeReverseCallsClient" with the client. It does not store the client on the session: its caller does. */
  function MakeReverseCallsClient(log: seq<Emission>, s: Session, cls: ClientClass): (m: Made)
    ensures m.client.cls == cls && m.client.endpointURL == s.socket.url
    ensures m.session.transportPlugin == Some(WebSocketTransport(s.socket, true))
    ensures m.client.plugins == [m.session.transportPlugin.value]
    ensures m.session == s.(transportPlugin := m.session.transportPlugin)
    ensures m.emitted == log + [MadeReverseCallsClient(s.connectionID, m.client)]
  {
    var plugin := WebSocketTransport(s.socket, true);
    var client := Client(cls, s.socket.url, [plugin]);
    Made(client, s.(transportPlugin := Some(plugin)), log + [MadeReverseCallsClient(s.connectionID, client)])
  }

  /** The two ways `connectionIDToClient` fails: the thrown "not found" error and the failed `instanceof` assertion. */
  datatype ResolveError = ConnectionNotFound(id: nat) | ClientClassMismatch

  /** A successful `connectionIDToClient`: the router afterwards and the client returned. */
  datatype Resolved = Resolved(router: Router, client: Client)

  /** `connectionIDToClient(nConnectionID, ClientClass)`. */
  function ConnectionIDToClient(r: Router, id: nat, cls: ClientClass): (res: Result<Resolved, ResolveError>)
    ensures id !in r.sessions <==> res == Err(ConnectionNotFound(id))
    ensures id in r.sessions && r.sessions[id].clientReverseCalls.None? ==>
      && res.Ok?
      && res.value.client.cls == cls
      && res.value.router.sessions.Keys == r.sessions.Keys
      && res.value.client.endpointURL == r.sessions[id].socket.url
      && res.value.router.sessions[id] ==
           r.sessions[id].(clientReverseCalls := Some(res.value.client),
                           transportPlugin := Some(WebSocketTransport(r.sessions[id].socket, true)))
      && res.value.client.plugins == [WebSocketTransport(r.sessions[id].socket, true)]
      && res.value.router.emitted == r.emitted + [MadeReverseCallsClient(r.sessions[id].connectionID, res.value.client)]
      && res.value.router.server == r.server && res.value.router.counter == r.counter
      && (forall k :: k in r.sessions && k != id ==> res.value.router.sessions[k] == r.sessions[k])
    ensures id in r.sessions && r.sessions[id].clientReverseCalls.Some? ==>
      if InstanceOf(r.sessions[id].clientReverseCalls.value.cls, cls)
      then res == Ok(Resolved(r, r.sessions[id].clientReverseCalls.value))
      else res == Err(ClientClassMismatch)
    ensures Valid(r) && res.Ok? ==> Valid(res.value.router)
  {
    if id !in r.sessions then
      Err(ConnectionNotFound(id))
    else
      var s := r.sessions[id];
      if s.clientReverseCalls.None? then
        var m := MakeReverseCallsClient(r.emitted, s, cls);
        var r' := r.(sessions := r.sessions[id := m.session.(clientReverseCalls := Some(m.client))],
                     emitted := m.emitted);
        assert Valid(r) ==> Valid(r') by {
          if Valid(r) {
            EmittedIDsAppend(r.emitted, MadeReverseCallsClient(id, m.client));
          }
        }
        Ok(Resolved(r', m.client))
      else if InstanceOf(s.clientReverseCalls.value.cls, cls) then
        Ok(Resolved(r, s.clientReverseCalls.value))
      else
        Err(ClientClassMismatch)
  }

  /** Appending an event adds exactly its connection to the emitted set. */
  lemma EmittedIDsAppend(log: seq<Emission>, e: Emission)
    ensures EmittedIDs(log + [e]) == EmittedIDs(log) + {e.connectionID}
  {
    var log' := log + [e];
    assert log'[|log|] == e;
    forall k | k in EmittedIDs(log)
      ensures k in EmittedIDs(log')
    {
      var i :| 0 <= i < |log| && log[i].connectionID == k;
      assert log'[i] == log[i];
    }
  }
}
