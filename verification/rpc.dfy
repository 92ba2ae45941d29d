/** The JSON-RPC collaborators the router talks to, reduced to the shapes the router observes.
    None of them is implemented here: their behaviour enters the model as the function values of `Env`. */
module Rpc {
  import opened Wrappers

  /** Error codes of `JSONRPC.Exception`, the reserved codes of section 5.1 of the JSON-RPC 2.0 specification. */
  const PARSE_ERROR: int := -32700
  const METHOD_NOT_FOUND: int := -32601
  const INTERNAL_ERROR: int := -32603

  /** A decoded frame, as far as `hasOwnProperty` can tell. An object is its own properties (name to raw member text);
      `null` makes `hasOwnProperty` throw; every other value (array, string, number, boolean) has none of the keys
      the router asks about. */
  datatype JsonValue = JsonNull | JsonObject(members: map<string, string>) | JsonOther(text: string)

  /** The result of `JSONRPC.Utils.jsonDecodeSafe`: it throws (`Malformed`) or yields a value. */
  datatype Decoded = Malformed | Parsed(value: JsonValue)

  /** A socket as the session refers to it: an identity and the URL the peer connected to (`webSocket.url`). */
  datatype SocketRef = SocketRef(handle: nat, url: string)

  /** An endpoint descriptor of the local server, found under its normalized path. */
  datatype Endpoint = Endpoint(path: string)

  /** The local `JSONRPC.Server`, seen through its endpoint table. */
  datatype Server = Server(endpoints: map<string, Endpoint>)

  /** A `JSONRPC.Exception` stored as a request's call result: only its code matters to the router. */
  datatype Fault = Fault(code: int)

  /** `JSONRPC.IncomingRequest` as the router fills it in before handing it to `processRequest`. Fields the router
      leaves unset are `None`. */
  datatype IncomingRequest = IncomingRequest(
    connectionID: nat,
    endpoint: Option<Endpoint>,
    requestBody: Option<string>,
    requestObject: Option<JsonValue>,
    callResult: Option<Fault>)

  /** The object `processRequest` resolves to, which the router serializes without looking inside: the text
      `JSON.stringify` makes of it, and whether `JSON.stringify` can serialize it at all (it throws on a BigInt or a
      cyclic reference inside). */
  datatype Response = Response(text: string, serializable: bool)

  /** `processRequest` resolved to an object `JSON.stringify` can serialize: the only answer the router writes back. */
  predicate Answered(c: Completion<Response>)
  {
    c.Returned? && c.value.serializable
  }

  /** A client class: a name and the class it extends, if any. */
  datatype ClientClass = ClientClass(name: string, base: Option<ClientClass>)

  /** `x instanceof C` for an object `x` built by `new created(...)`: `C` is `created` or one of its ancestors. */
  predicate InstanceOf(created: ClientClass, asked: ClientClass)
  {
    created == asked || (created.base.Some? && InstanceOf(created.base.value, asked))
  }

  /** `JSONRPC.Plugins.Client.WebSocketTransport`, bound to a socket, with its bidirectional-mode flag. */
  datatype Plugin = WebSocketTransport(socket: SocketRef, bidirectional: bool)

  /** A reverse-calls client: its class, the endpoint URL it was constructed with, and the plugins added to it. */
  datatype Client = Client(cls: ClientClass, endpointURL: string, plugins: seq<Plugin>)

  /** The foreign code the router calls while routing one frame. */
  datatype Env = Env(
    decode: string -> Decoded,
    normalizePath: string -> string,
    processRequest: IncomingRequest -> Completion<Response>,
    processResponse: (Plugin, string, JsonValue) -> Completion<()>)

  /** Every object built by a class is an instance of that class. */
  lemma InstanceOfReflexive(c: ClientClass)
    ensures InstanceOf(c, c)
  {
  }

  /** An object is an instance of every ancestor of an ancestor of its class. */
  lemma {:induction false} InstanceOfTransitive(a: ClientClass, b: ClientClass, c: ClientClass)
    requires InstanceOf(a, b) && InstanceOf(b, c)
    ensures InstanceOf(a, c)
  {
    if a != b {
      InstanceOfTransitive(a.base.value, b, c);
    }
  }

  /** A base-class object is never an instance of a proper subclass: `instanceof` follows the chain upwards only. */
  lemma {:induction false} InstanceOfAntisymmetric(a: ClientClass, b: ClientClass)
    requires InstanceOf(a, b) && InstanceOf(b, a)
    ensures a == b
  {
    if a != b {
      InstanceOfTransitive(a.base.value, b, a);
      AncestorIsSmaller(a.base.value, a);
    }
  }

  /** An ancestor is structurally smaller than its descendant (a class cannot extend itself). */
  lemma {:induction false} AncestorIsSmaller(a: ClientClass, b: ClientClass)
    requires InstanceOf(a, b)
    ensures Depth(b) <= Depth(a)
  {
    if a != b {
      AncestorIsSmaller(a.base.value, b);
    }
  }

  /** The length of a class's inheritance chain. */
  function Depth(c: ClientClass): nat
  {
    match c.base
    case None => 0
    case Some(b) => 1 + Depth(b)
  }
}
