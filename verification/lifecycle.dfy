/** Sequences of registry events (registrations, closes, errors, reverse-client requests) and what holds across them. */
module Lifecycle {
  import opened Wrappers
  import opened Rpc
  import opened Socket
  import opened Registry

  /** One event that changes the registry: `addWebSocket`, a socket's "close" or "error" event, or a call of
      `connectionIDToClient` (from application code or from a request handler). */
  datatype Event =
    | Register(socket: SocketRef, state: ReadyState)
    | SocketClosed(id: nat)
    | SocketErrored(id: nat, wire: Wire, message: string)
    | Resolve(id: nat, cls: ClientClass)

  /** The registry after one event; a failed `connectionIDToClient` throws and changes nothing. */
  function Step(r: Router, e: Event): Router
  {
    match e
    case Register(s, st) => AddWebSocket(r, s, st).router
    case SocketClosed(id) => OnClose(r, id)
    case SocketErrored(id, w, m) => OnError(r, id, w, m).router
    case Resolve(id, cls) =>
      match ConnectionIDToClient(r, id, cls)
      case Ok(res) => res.router
      case Err(_) => r
  }

  /** The registry after a sequence of events. */
  function Run(r: Router, es: seq<Event>): Router
    decreases |es|
  {
    if es == [] then r else Run(Step(r, es[0]), es[1..])
  }

  /** The connection ID one event hands out: `addWebSocket`'s return value, when it returns one. */
  function StepIssued(r: Router, e: Event): seq<nat>
  {
    match e
    case Register(s, st) =>
      (match AddWebSocket(r, s, st).id
       case Some(i) => [i]
       case None => [])
    case _ => []
  }

  /** The connection IDs `addWebSocket` returned during a sequence of events, in order. */
  function Issued(r: Router, es: seq<Event>): seq<nat>
    decreases |es|
  {
    if es == [] then [] else StepIssued(r, es[0]) + Issued(Step(r, es[0]), es[1..])
  }

  /** How many events of a sequence register an OPEN socket: the registrations that hand out an ID. */
  function OpenRegistrations(es: seq<Event>): nat
    decreases |es|
  {
    if es == [] then 0
    else (if es[0].Register? && es[0].state == Open then 1 else 0) + OpenRegistrations(es[1..])
  }

  /** One event hands out at most one ID, the incremented counter, and leaves the counter at the ID it handed out. */
  lemma StepAdvancesCounter(r: Router, e: Event)
    ensures |StepIssued(r, e)| <= 1
    ensures Step(r, e).counter == if |StepIssued(r, e)| == 0 then r.counter else Increment(r.counter)
    ensures forall i :: 0 <= i < |StepIssued(r, e)| ==> StepIssued(r, e)[i] == Increment(r.counter)
  {
  }

  /** Every registration of an OPEN socket, and nothing else, hands out an ID, whatever the registry holds. */
  lemma {:induction false} IssuedCountsOpenRegistrations(r: Router, es: seq<Event>)
    ensures |Issued(r, es)| == OpenRegistrations(es)
    decreases |es|
  {
    if es != [] {
      IssuedCountsOpenRegistrations(Step(r, es[0]), es[1..]);
    }
  }

  /** The registry invariant holds after every event that does not register a socket once the counter has reached
      2^53. */
  lemma StepPreservesValid(r: Router, e: Event)
    requires Valid(r)
    requires r.counter + |StepIssued(r, e)| <= EXACT_COUNTER_LIMIT
    ensures Valid(Step(r, e))
  {
  }

  /** The registry invariant holds after any sequence of events that does not register a socket once the counter
      has reached 2^53. */
  lemma {:induction false} RunPreservesValid(r: Router, es: seq<Event>)
    requires Valid(r)
    requires r.counter + OpenRegistrations(es) <= EXACT_COUNTER_LIMIT
    ensures Valid(Run(r, es))
    decreases |es|
  {
    if es != [] {
      StepAdvancesCounter(r, es[0]);
      IssuedCountsOpenRegistrations(Step(r, es[0]), es[1..]);
      StepPreservesValid(r, es[0]);
      RunPreservesValid(Step(r, es[0]), es[1..]);
    }
  }

  /** Registrations hand out the IDs following the counter, one by one, and the counter ends at the last one, as long
      as the counter stays within 2^53. */
  lemma {:induction false} IssuedAreConsecutive(r: Router, es: seq<Event>)
    requires r.counter + OpenRegistrations(es) <= EXACT_COUNTER_LIMIT
    ensures Run(r, es).counter == r.counter + |Issued(r, es)|
    ensures forall i :: 0 <= i < |Issued(r, es)| ==> Issued(r, es)[i] == r.counter + 1 + i
    decreases |es|
  {
    IssuedCountsOpenRegistrations(r, es);
    if es != [] {
      StepAdvancesCounter(r, es[0]);
      IssuedCountsOpenRegistrations(Step(r, es[0]), es[1..]);
      IssuedAreConsecutive(Step(r, es[0]), es[1..]);
    }
  }

  /** From a fresh router, over the first 2^53 registrations, the n-th registration gets ID n: IDs start at 1, only
      grow, and are never handed out twice, even after the session that held one has been closed. */
  lemma IDsFromFreshRouter(server: Option<Server>, es: seq<Event>)
    requires OpenRegistrations(es) <= EXACT_COUNTER_LIMIT
    ensures forall i :: 0 <= i < |Issued(New(server), es)| ==> Issued(New(server), es)[i] == i + 1
    ensures forall i, j :: 0 <= i < j < |Issued(New(server), es)| ==> Issued(New(server), es)[i] < Issued(New(server), es)[j]
    ensures Valid(Run(New(server), es))
  {
    IssuedAreConsecutive(New(server), es);
    RunPreservesValid(New(server), es);
  }

  /** Asking again for a reverse-calls client, with the class it was requested with or any ancestor of it, returns the
      very same client and changes nothing. */
  lemma ResolveIsMemoized(r: Router, id: nat, cls: ClientClass, later: ClientClass)
    requires ConnectionIDToClient(r, id, cls).Ok?
    requires InstanceOf(cls, later)
    ensures var first := ConnectionIDToClient(r, id, cls).value;
      ConnectionIDToClient(first.router, id, later) == Ok(first)
  {
    var s := r.sessions[id];
    if s.clientReverseCalls.Some? {
      InstanceOfTransitive(s.clientReverseCalls.value.cls, cls, later);
    }
  }

  /** A client first requested with some class is not an instance of a proper subclass, so asking for one fails. */
  lemma ResolveWithSubclassFails(r: Router, id: nat, cls: ClientClass, sub: ClientClass)
    requires id in r.sessions && r.sessions[id].clientReverseCalls.None?
    requires InstanceOf(sub, cls) && sub != cls
    ensures var first := ConnectionIDToClient(r, id, cls).value;
      ConnectionIDToClient(first.router, id, sub) == Err(ClientClassMismatch)
  {
    if InstanceOf(cls, sub) {
      InstanceOfAntisymmetric(sub, cls);
    }
  }

  /** A "madeReverseCallsClient" event is emitted at most once per connection, over the first 2^53 registrations. */
  lemma EmittedAtMostOncePerConnection(server: Option<Server>, es: seq<Event>)
    requires OpenRegistrations(es) <= EXACT_COUNTER_LIMIT
    ensures var log := Run(New(server), es).emitted;
      forall i, j :: 0 <= i < j < |log| ==> log[i].connectionID != log[j].connectionID
  {
    RunPreservesValid(New(server), es);
  }

  /** Past 2^53 the counter no longer moves: two registrations in a row, the first taking ID 2^53, both get 2^53, and
      the second socket's fresh session replaces the first one's. */
  lemma IDReusedPastExactRange(r: Router, a: SocketRef, b: SocketRef)
    requires r.counter == EXACT_COUNTER_LIMIT - 1
    ensures Issued(r, [Register(a, Open), Register(b, Open)]) == [EXACT_COUNTER_LIMIT, EXACT_COUNTER_LIMIT]
    ensures var end := Run(r, [Register(a, Open), Register(b, Open)]);
      && EXACT_COUNTER_LIMIT in end.sessions
      && end.sessions[EXACT_COUNTER_LIMIT] == Session(b, EXACT_COUNTER_LIMIT, None, None)
  {
    var es := [Register(a, Open), Register(b, Open)];
    var r1 := Step(r, es[0]);
    var r2 := Step(r1, es[1]);
    assert es[1..] == [es[1]] && es[1..][1..] == [];
    assert Run(r, es) == Run(r1, es[1..]) == Run(r2, []) == r2;
    assert Issued(r, es) == StepIssued(r, es[0]) + (StepIssued(r1, es[1]) + Issued(r2, []));
  }
}
