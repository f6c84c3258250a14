/** `jupyter_server_proxy/websocket.py`: the dispatch of `GET` between the
    plain HTTP handler and the websocket upgrade, the keyword arguments
    `pingable_ws_connect` builds for the client connection, and the client
    connection that forwards the backend's pings to a callback. */
module WebSocket {
  import opened Common
  import opened HttpHeaders
  import Forwarding

  // ---------------------------------------------------------------------
  // GET dispatch

  /** Where `WebSocketHandlerMixin.get` sends a request. */
  datatype GetTarget = HttpGet | WebSocketGet

  /** `get`: the websocket handler iff the `Upgrade` header, lowered, is
      `websocket` (a missing header counting as empty); else `http_get`. */
  function Dispatch(h: Headers): (t: GetTarget)
    ensures t == WebSocketGet <==> Forwarding.WantsWebsocket(h)
  {
    if LowerAscii(Get(h, "Upgrade").GetOr("")) != "websocket" then HttpGet else WebSocketGet
  }

  /** A request without an `Upgrade` header, in any spelling, is plain
      HTTP; one with it, in any spelling, is a websocket request iff its
      value lowered is `websocket`. */
  lemma DispatchByUpgrade(h: Headers, m: string, v: string)
    requires NormalizeHeader(m) == NormalizeHeader("Upgrade")
    ensures !Has(h, m) ==> Dispatch(h) == HttpGet
    ensures Dispatch(Set(h, m, v)) == if LowerAscii(v) == "websocket" then WebSocketGet else HttpGet
  {
    SameHeader(h, m, "Upgrade", v);
    SetGetSame(h, m, v, "Upgrade");
    if !Has(h, m) {
      assert LowerAscii("") == "";
    }
  }

  // ---------------------------------------------------------------------
  // pingable_ws_connect

  /** A Python argument value, as far as its truthiness goes. */
  datatype PyValue = PyNone | PyInt(n: int) | PyObject(id: string)

  /** Python truthiness: None and 0 are false. */
  predicate Truthy(v: PyValue) {
    !v.PyNone? && v != PyInt(0)
  }

  /** The size the library uses when it has no `_default_max_message_size`. */
  const FallbackMaxMessageSize: int := 10 * 1024 * 1024

  /** The keyword arguments of the client connection: the request, empty
      compression options, the two callbacks, the maximum message size (the
      library's default, else 10 MiB), the subprotocols, and the resolver
      only when it is truthy. */
  function ConnectKwargs(request: PyValue, onMessage: PyValue, onPing: PyValue, subprotocols: PyValue,
                         resolver: PyValue, libraryMaxSize: Option<int>): (kw: map<string, PyValue>)
    ensures kw.Keys == {"request", "compression_options", "on_message_callback", "on_ping_callback",
                        "max_message_size", "subprotocols"} + (if Truthy(resolver) then {"resolver"} else {})
    ensures kw["request"] == request && kw["on_message_callback"] == onMessage
    ensures kw["on_ping_callback"] == onPing && kw["subprotocols"] == subprotocols
    ensures libraryMaxSize.Some? ==> kw["max_message_size"] == PyInt(libraryMaxSize.value)
    ensures libraryMaxSize.None? ==> kw["max_message_size"] == PyInt(10485760)
    ensures "resolver" in kw ==> kw["resolver"] == resolver
  {
    var extra: map<string, PyValue> := if Truthy(resolver) then map["resolver" := resolver] else map[];
    var kw := map["request" := request, "compression_options" := PyObject("{}"),
                  "on_message_callback" := onMessage, "on_ping_callback" := onPing,
                  "max_message_size" := PyInt(libraryMaxSize.GetOr(FallbackMaxMessageSize)),
                  "subprotocols" := subprotocols];
    kw + extra
  }

  /** A truthy resolver adds exactly the `resolver` entry to the arguments
      a connection without one gets. */
  lemma ResolverOnlyAdds(request: PyValue, onMessage: PyValue, onPing: PyValue, subprotocols: PyValue,
                         resolver: PyValue, libraryMaxSize: Option<int>)
    ensures var without := ConnectKwargs(request, onMessage, onPing, subprotocols, PyNone, libraryMaxSize);
      var with := ConnectKwargs(request, onMessage, onPing, subprotocols, resolver, libraryMaxSize);
      with == (if Truthy(resolver) then without["resolver" := resolver] else without)
  {
    var without := ConnectKwargs(request, onMessage, onPing, subprotocols, PyNone, libraryMaxSize);
    var with := ConnectKwargs(request, onMessage, onPing, subprotocols, resolver, libraryMaxSize);
    if Truthy(resolver) {
      assert with.Keys == without["resolver" := resolver].Keys;
    } else {
      assert with.Keys == without.Keys;
    }
  }

  /** `PingableWSClientConnection`: the keyword arguments its parent
      constructor received and the ping callback it keeps (None while the
      attribute was never set); `pinged` is the data handed to the callback. */
  class PingableConnection {
    var parentKwargs: map<string, PyValue>
    var pingCallback: Option<PyValue>
    var pinged: seq<bytes>

    /** `__init__(**kwargs)`: `on_ping_callback` is taken out of the
        arguments and kept before the parent sees them. */
    constructor(kwargs: map<string, PyValue>)
      ensures parentKwargs == kwargs - {"on_ping_callback"}
      ensures "on_ping_callback" !in parentKwargs
      ensures pingCallback == (if "on_ping_callback" in kwargs then Some(kwargs["on_ping_callback"]) else None)
      ensures pinged == []
    {
      var cb: Option<PyValue> := None;
      var rest := kwargs;
      if "on_ping_callback" in kwargs {
        cb := Some(kwargs["on_ping_callback"]);
        rest := rest - {"on_ping_callback"};
      }
      parentKwargs := rest;
      pingCallback := cb;
      pinged := [];
    }

    /** `on_ping(data)`: the data goes to the callback iff it is truthy;
        a never-set callback attribute raises AttributeError. */
    method OnPing(data: bytes) returns (r: Result<()>)
      modifies this
      ensures pingCallback == old(pingCallback) && parentKwargs == old(parentKwargs)
      ensures old(pingCallback).None? ==> r == Err(AttributeError) && pinged == old(pinged)
      ensures old(pingCallback).Some? ==> r == Ok(())
      ensures old(pingCallback).Some? && Truthy(old(pingCallback).value) ==> pinged == old(pinged) + [data]
      ensures old(pingCallback).Some? && !Truthy(old(pingCallback).value) ==> pinged == old(pinged)
    {
      if pingCallback.None? {
        return Err(AttributeError);
      }
      if Truthy(pingCallback.value) {
        pinged := pinged + [data];
      }
      r := Ok(());
    }
  }

  /** `pingable_ws_connect`: the connection is made with the arguments
      above, so it always holds the ping callback, and its parent never
      sees it. */
  method PingableConnect(request: PyValue, onMessage: PyValue, onPing: PyValue, subprotocols: PyValue,
                         resolver: PyValue, libraryMaxSize: Option<int>)
    returns (conn: PingableConnection)
    ensures fresh(conn)
    ensures conn.pingCallback == Some(onPing) && conn.pinged == []
    ensures conn.parentKwargs
      == ConnectKwargs(request, onMessage, onPing, subprotocols, resolver, libraryMaxSize) - {"on_ping_callback"}
  {
    var kwargs := ConnectKwargs(request, onMessage, onPing, subprotocols, resolver, libraryMaxSize);
    conn := new PingableConnection(kwargs);
  }
}
