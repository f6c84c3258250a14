/** LocalProxyHandler: the request/response forwarding rules shared by
    jupyter_server_proxy/handlers.py and nbserverproxy/handlers.py (their
    `proxy`, `open`, relay callbacks and `select_subprotocol` coincide; the
    one place where they differ, the port given to url_path_join, is kept
    apart in NbHandlers). The backend fetch and the backend websocket are
    inputs and output buffers. */
module Forwarding {
  import opened Common
  import opened HttpHeaders

  /** The `port` argument: the regex capture (a string) or the allocated
      integer port a supervising subclass passes. */
  datatype PortArg = PortStr(s: string) | PortInt(n: int)

  /** `str(port)`, which is also what `'{port}'.format(port=port)` gives. */
  function PortText(p: PortArg): (r: string)
    ensures p.PortStr? ==> r == p.s
    ensures p.PortInt? ==> r == IntToString(p.n)
  {
    match p
    case PortStr(s) => s
    case PortInt(n) => IntToString(n)
  }

  const ProxyConnection: string := "Proxy-Connection"
  const ForwardedContext: string := "X-Forwarded-Context"
  const ProxyContextPath: string := "X-ProxyContextPath"

  /** Response headers that are never copied from the backend. */
  const HopByHop: set<string> := {"Content-Length", "Transfer-Encoding", "Content-Encoding", "Connection"}

  /** tornado stores the context path header as `X-Proxycontextpath`, the
      name the backend sees. */
  lemma ContextPathHeaderName()
    ensures NormalizeHeader(ProxyContextPath) == "X-Proxycontextpath"
  {
    NormalizeHeaderExample();
  }

  /** The body given to the backend request: a non-empty body as it is, an
      empty one as b'' for POST and as no body for any other method. */
  function NormalizeBody(body: bytes, verb: string): (r: Option<bytes>)
    ensures |body| > 0 ==> r == Some(body)
    ensures |body| == 0 ==> (r == Some([]) <==> verb == "POST")
    ensures |body| == 0 ==> (r == None <==> verb != "POST")
  {
    if |body| > 0 then Some(body) else if verb == "POST" then Some([]) else None
  }

  function QuerySuffix(query: string): (r: string)
    ensures query == "" <==> r == ""
    ensures query != "" ==> r == "?" + query
  {
    if query == "" then "" else "?" + query
  }

  /** The backend URL of an HTTP request. */
  function HttpBackendUri(port: string, path: string, query: string): (r: string)
    ensures StartsWith(r, "http://localhost:" + port + path)
    ensures query == "" <==> r == "http://localhost:" + port + path
  {
    "http://localhost:" + port + path + QuerySuffix(query)
  }

  /** A forwarded websocket path, or the path of a supervised request,
      always starts with '/'. */
  function WsPath(path: string): (r: string)
    ensures StartsWith(r, "/")
    ensures StartsWith(path, "/") ==> r == path
    ensures !StartsWith(path, "/") ==> r == "/" + path
  {
    if StartsWith(path, "/") then path else "/" + path
  }

  /** The backend URL of a websocket connection. */
  function WsBackendUri(port: string, path: string, query: string): (r: string)
    ensures StartsWith(r, "ws://127.0.0.1:" + port + "/")
    ensures query == "" <==> r == "ws://127.0.0.1:" + port + WsPath(path)
  {
    "ws://127.0.0.1:" + port + WsPath(path) + QuerySuffix(query)
  }

  /** `url_path_join(base_url, 'proxy', str(port))`: where the backend is
      told it is mounted. */
  function ContextPath(baseUrl: string, port: PortArg): (r: string)
    ensures StartsWith(baseUrl, "/") ==> StartsWith(r, "/")
  {
    UrlPathJoin([baseUrl, "proxy", PortText(port)])
  }

  /** `if 'Proxy-Connection' in headers: del headers['Proxy-Connection']` */
  function StripProxyConnection(h: Headers): Headers {
    if Has(h, ProxyConnection) then Delete(h, ProxyConnection) else h
  }

  /** The request headers forwarded to the backend: the client's headers
      without Proxy-Connection, with both context headers set. */
  function ForwardHeaders(h: Headers, ctx: string): Headers {
    Set(Set(StripProxyConnection(h), ForwardedContext, ctx), ProxyContextPath, ctx)
  }

  /** The client's `Proxy-Connection` is gone in whatever case it was sent,
      and every other header is left as it was. */
  lemma StripProxyConnectionSpec(h: Headers)
    ensures forall m :: NormalizeHeader(m) == NormalizeHeader(ProxyConnection) ==> !Has(StripProxyConnection(h), m)
    ensures forall m :: NormalizeHeader(m) != NormalizeHeader(ProxyConnection) ==>
      Get(StripProxyConnection(h), m) == Get(h, m)
    ensures WellFormed(h) ==> WellFormed(StripProxyConnection(h))
  {
    if Has(h, ProxyConnection) {
      DeleteRemoves(h, ProxyConnection);
      if WellFormed(h) {
        DeleteWellFormed(h, ProxyConnection);
      }
      forall m | NormalizeHeader(m) != NormalizeHeader(ProxyConnection)
        ensures Get(StripProxyConnection(h), m) == Get(h, m)
      {
        DeleteGetOther(h, ProxyConnection, m);
      }
    } else {
      forall m | NormalizeHeader(m) == NormalizeHeader(ProxyConnection)
        ensures !Has(h, m)
      {
        SameHeader(h, m, ProxyConnection, "");
      }
    }
  }

  /** What the backend sees of the client's headers: no Proxy-Connection in
      any case, both context headers equal to the context path under any
      spelling, the context path stored under its normalized name (a
      client's own header of that name, in any case, replaced), and every
      other header as the client sent it. */
  lemma ForwardHeadersSpec(h: Headers, ctx: string)
    requires WellFormed(h)
    ensures WellFormed(ForwardHeaders(h, ctx))
    ensures forall m :: NormalizeHeader(m) == NormalizeHeader(ProxyConnection) ==> !Has(ForwardHeaders(h, ctx), m)
    ensures forall m :: NormalizeHeader(m) == NormalizeHeader(ForwardedContext) ==>
      Get(ForwardHeaders(h, ctx), m) == Some(ctx)
    ensures forall m :: NormalizeHeader(m) == NormalizeHeader(ProxyContextPath) ==>
      Get(ForwardHeaders(h, ctx), m) == Some(ctx)
    ensures Field(NormalizeHeader(ProxyContextPath), [ctx]) in ForwardHeaders(h, ctx)
    ensures forall m :: NormalizeHeader(m) !in {NormalizeHeader(ProxyConnection), NormalizeHeader(ForwardedContext),
                                                NormalizeHeader(ProxyContextPath)} ==>
      Get(ForwardHeaders(h, ctx), m) == Get(h, m)
  {
    var stripped := StripProxyConnection(h);
    var mid := Set(stripped, ForwardedContext, ctx);
    var r := Set(mid, ProxyContextPath, ctx);
    var pc, fc, cp := NormalizeHeader(ProxyConnection), NormalizeHeader(ForwardedContext), NormalizeHeader(ProxyContextPath);
    assert |pc| == 16 && |fc| == 19 && |cp| == 18;
    StripProxyConnectionSpec(h);
    SetWellFormed(stripped, ForwardedContext, ctx);
    SetWellFormed(mid, ProxyContextPath, ctx);
    forall m | NormalizeHeader(m) == pc
      ensures !Has(r, m)
    {
      SetGetOther(stripped, ForwardedContext, ctx, m);
      SetGetOther(mid, ProxyContextPath, ctx, m);
    }
    forall m | NormalizeHeader(m) == fc
      ensures Get(r, m) == Some(ctx)
    {
      SetGetSame(stripped, ForwardedContext, ctx, m);
      SetGetOther(mid, ProxyContextPath, ctx, m);
    }
    forall m | NormalizeHeader(m) == cp
      ensures Get(r, m) == Some(ctx)
    {
      SetGetSame(mid, ProxyContextPath, ctx, m);
    }
    SetShape(mid, ProxyContextPath, ctx);
    HasIndex(mid, ProxyContextPath);
    if Has(mid, ProxyContextPath) {
      var i :| 0 <= i < |mid| && mid[i].name == cp;
      assert r[i] == Field(cp, [ctx]);
    } else {
      assert r[|mid|] == Field(cp, [ctx]);
    }
    forall m | NormalizeHeader(m) !in {pc, fc, cp}
      ensures Get(r, m) == Get(h, m)
    {
      SetGetOther(mid, ProxyContextPath, ctx, m);
      SetGetOther(stripped, ForwardedContext, ctx, m);
    }
  }

  /** `headers.get("Upgrade", "").lower() == 'websocket'` */
  predicate WantsWebsocket(h: Headers) {
    LowerAscii(Get(h, "Upgrade").GetOr("")) == "websocket"
  }

  /** The `httpclient.HTTPRequest` the proxy builds. */
  datatype BackendRequest = BackendRequest(
    uri: string, verb: string, body: Option<bytes>, headers: Headers, followRedirects: bool)

  /** The request the proxy sends for a client request. `proxy_request_options`
      contributes `follow_redirects=False`. */
  function ForwardRequest(h: Headers, verb: string, body: bytes, query: string,
                          baseUrl: string, port: PortArg, path: string): (r: BackendRequest)
    ensures r.uri == HttpBackendUri(PortText(port), path, query)
    ensures r.verb == verb && r.body == NormalizeBody(body, verb) && !r.followRedirects
    ensures r.headers == ForwardHeaders(h, ContextPath(baseUrl, port))
  {
    BackendRequest(HttpBackendUri(PortText(port), path, query), verb,
                   NormalizeBody(body, verb), ForwardHeaders(h, ContextPath(baseUrl, port)), false)
  }

  /** The websocket request of `open`: the client's headers as they are. */
  datatype WsRequest = WsRequest(uri: string, headers: Headers)

  /** How the fetch ended: no error, an error whose type is exactly
      `httpclient.HTTPError` (a response with an error status), or any other
      error (connection refused, timeout, ...), with its text. */
  datatype FetchError = NoError | HttpError | OtherError(text: string)

  datatype FetchReply = FetchReply(code: int, reason: Option<string>, headers: Headers, body: bytes, error: FetchError)

  /** What the handler writes to its client. */
  datatype Chunk = Text(text: string) | Data(data: bytes)

  /** A websocket message: `str` (sent as text) or `bytes` (sent binary). */
  datatype Message = TextMessage(text: string) | BinaryMessage(data: bytes)

  /** The backend headers that reach the client, in `get_all` order with
      repeats kept. */
  function ClientHeaders(backend: Headers): seq<(string, string)> {
    FilterPairs(GetAll(backend), HopByHop)
  }

  /** The loop of `proxy` that rebuilds the response headers: starting from
      an empty HTTPHeaders, add every backend (name, value) pair whose name is
      not hop-by-hop. The result is well formed. For well-formed backend
      headers (tornado has normalized their names) the result is exactly the
      backend fields without the hop-by-hop ones, so no hop-by-hop header
      survives in any spelling, and its `get_all` yields exactly the backend
      pairs without them, in order, repeats kept. */
  method FilterResponseHeaders(backend: Headers) returns (acc: Headers)
    ensures acc == AddAll([], ClientHeaders(backend)) && WellFormed(acc)
    ensures WellFormed(backend) ==> acc == FilterFields(backend, HopByHop) && GetAll(acc) == ClientHeaders(backend)
    ensures WellFormed(backend) ==> forall m :: NormalizeHeader(m) in HopByHop ==> !Has(acc, m)
  {
    var pairs := GetAll(backend);
    acc := [];
    var i := 0;
    while i < |pairs|
      invariant 0 <= i <= |pairs|
      invariant acc == AddAll([], FilterPairs(pairs[..i], HopByHop))
    {
      AddFilteredStep(pairs, i, HopByHop);
      if pairs[i].0 !in HopByHop {
        acc := Add(acc, pairs[i].0, pairs[i].1);
      }
      i := i + 1;
    }
    assert pairs[..|pairs|] == pairs;
    AddAllWellFormed([], ClientHeaders(backend));
    if WellFormed(backend) {
      RebuildFiltered(backend, HopByHop);
      GetAllFiltered(backend, HopByHop);
      forall m | NormalizeHeader(m) in HopByHop
        ensures !Has(acc, m)
      {
        FilterFieldsDrops(backend, HopByHop, m);
      }
    }
  }

  /** What the handler has told its client so far: `set_status`, the
      response headers (`self._headers`) and everything written. */
  datatype Response = Response(status: int, reason: Option<string>, headers: Headers, written: seq<Chunk>)

  /** The response after the fetch: a non-HTTP error gives 500 with the
      error text as body and the default headers left alone; anything else
      copies status and reason, replaces the default headers by the backend's
      minus the hop-by-hop ones, and writes a non-empty backend body. */
  function Reply(prev: Response, reply: FetchReply): (r: Response)
    ensures reply.error.OtherError? ==>
      r == Response(500, None, prev.headers, prev.written + [Text(reply.error.text)])
    ensures !reply.error.OtherError? ==>
      && r.status == reply.code && r.reason == reply.reason
      && r.headers == AddAll([], ClientHeaders(reply.headers))
      && (|reply.body| > 0 ==> r.written == prev.written + [Data(reply.body)])
      && (|reply.body| == 0 ==> r.written == prev.written)
  {
    if reply.error.OtherError? then
      Response(500, None, prev.headers, prev.written + [Text(reply.error.text)])
    else
      Response(reply.code, reply.reason, AddAll([], ClientHeaders(reply.headers)),
               prev.written + (if |reply.body| > 0 then [Data(reply.body)] else []))
  }

  /** The websocket side of the handler: whether the backend connection
      exists (`hasattr(self, 'ws')`), what went each way, and which ends
      were closed. */
  datatype Relay = Relay(
    connected: bool,
    toBackend: seq<Message>, toClient: seq<Message>,
    pingsToBackend: seq<bytes>, pingsToClient: seq<bytes>,
    clientClosed: bool, backendClosed: bool)

  /** The proxy handler for one client request. */
  class ProxyHandler {
    const verb: string
    const body: bytes
    const query: string
    const baseUrl: string
    var reqHeaders: Headers
    var response: Response
    /** Number of `_record_activity` calls (the timestamp is not modelled). */
    var activity: nat
    var relay: Relay

    constructor (reqHeaders: Headers, verb: string, body: bytes, query: string, baseUrl: string, defaultHeaders: Headers)
      ensures this.reqHeaders == reqHeaders && this.verb == verb && this.body == body
      ensures this.query == query && this.baseUrl == baseUrl
      ensures response == Response(200, None, defaultHeaders, [])
      ensures activity == 0 && relay == Relay(false, [], [], [], [], false, false)
    {
      this.reqHeaders := reqHeaders;
      this.verb := verb;
      this.body := body;
      this.query := query;
      this.baseUrl := baseUrl;
      response := Response(200, None, defaultHeaders, []);
      activity := 0;
      relay := Relay(false, [], [], [], [], false, false);
    }

    /** `proxy(port, proxied_path)`: shape the backend request, then turn the
        backend's reply (an input) into the client response. */
    method Proxy(port: PortArg, path: string, reply: FetchReply) returns (req: BackendRequest)
      modifies this
      ensures reqHeaders == StripProxyConnection(old(reqHeaders))
      ensures req == ForwardRequest(old(reqHeaders), verb, body, query, baseUrl, port, path)
      ensures response == Reply(old(response), reply)
      ensures activity == old(activity) + 2 && relay == old(relay)
    {
      req := ShapeRequest(port, path);
      Respond(reply);
    }

    /** The part of `proxy` before the fetch. An Upgrade: websocket request
        gets status 500 here, which `Respond` always overwrites. */
    method ShapeRequest(port: PortArg, path: string) returns (req: BackendRequest)
      modifies this
      ensures reqHeaders == StripProxyConnection(old(reqHeaders))
      ensures req == ForwardRequest(old(reqHeaders), verb, body, query, baseUrl, port, path)
      ensures response.headers == old(response.headers) && response.written == old(response.written)
      ensures activity == old(activity) + 1 && relay == old(relay)
    {
      var clientHeaders := reqHeaders;
      reqHeaders := StripProxyConnection(reqHeaders);
      activity := activity + 1;
      if WantsWebsocket(reqHeaders) {
        response := response.(status := 500, reason := None);
      }
      req := ForwardRequest(clientHeaders, verb, body, query, baseUrl, port, path);
    }

    /** The part of `proxy` after the fetch. */
    method Respond(reply: FetchReply)
      modifies this
      ensures response == Reply(old(response), reply)
      ensures reqHeaders == old(reqHeaders) && activity == old(activity) + 1 && relay == old(relay)
    {
      activity := activity + 1;
      if reply.error.OtherError? {
        response := response.(status := 500, reason := None, written := response.written + [Text(reply.error.text)]);
      } else {
        var headers := FilterResponseHeaders(reply.headers);
        var extra := if |reply.body| > 0 then [Data(reply.body)] else [];
        response := Response(reply.code, reply.reason, headers, response.written + extra);
      }
    }

    /** `open(port, proxied_path)`: the websocket request to the backend. The
        connection itself is made later, by `Connected`. */
    method Open(port: PortArg, path: string) returns (req: WsRequest)
      ensures req.uri == WsBackendUri(PortText(port), path, query)
      ensures req.headers == reqHeaders
    {
      req := WsRequest(WsBackendUri(PortText(port), path, query), reqHeaders);
    }

    /** `start_websocket_connection` once the backend accepted. */
    method Connected()
      modifies this
      ensures relay == old(relay).(connected := true) && activity == old(activity) + 2
      ensures reqHeaders == old(reqHeaders) && response == old(response)
    {
      activity := activity + 1;
      relay := relay.(connected := true);
      activity := activity + 1;
    }

    /** `message_cb`: a backend message goes to the client with its kind
        kept; None (backend gone) closes the client connection. */
    method BackendMessage(m: Option<Message>)
      modifies this
      ensures activity == old(activity) + 1
      ensures m.None? ==> relay == old(relay).(clientClosed := true)
      ensures m.Some? ==> relay == old(relay).(toClient := old(relay).toClient + [m.value])
      ensures reqHeaders == old(reqHeaders) && response == old(response)
    {
      activity := activity + 1;
      if m.None? {
        relay := relay.(clientClosed := true);
      } else {
        relay := relay.(toClient := relay.toClient + [m.value]);
      }
    }

    /** `ping_cb`: a backend ping is passed on to the client. */
    method BackendPing(data: bytes)
      modifies this
      ensures activity == old(activity) + 1
      ensures relay == old(relay).(pingsToClient := old(relay).pingsToClient + [data])
      ensures reqHeaders == old(reqHeaders) && response == old(response)
    {
      activity := activity + 1;
      relay := relay.(pingsToClient := relay.pingsToClient + [data]);
    }

    /** `on_message`: a client message reaches the backend only once connected. */
    method OnMessage(m: Message)
      modifies this
      ensures activity == old(activity) + 1
      ensures relay == if old(relay).connected then old(relay).(toBackend := old(relay).toBackend + [m]) else old(relay)
      ensures reqHeaders == old(reqHeaders) && response == old(response)
    {
      activity := activity + 1;
      if relay.connected {
        relay := relay.(toBackend := relay.toBackend + [m]);
      }
    }

    /** `on_ping`: a client ping reaches the backend only once connected. */
    method OnPing(data: bytes)
      modifies this
      ensures activity == old(activity) + 1
      ensures relay == if old(relay).connected then old(relay).(pingsToBackend := old(relay).pingsToBackend + [data]) else old(relay)
      ensures reqHeaders == old(reqHeaders) && response == old(response)
    {
      activity := activity + 1;
      if relay.connected {
        relay := relay.(pingsToBackend := relay.pingsToBackend + [data]);
      }
    }

    /** `on_close`: closing the client side closes the backend side, if any. */
    method OnClose()
      modifies this
      ensures relay == if old(relay).connected then old(relay).(backendClosed := true) else old(relay)
      ensures reqHeaders == old(reqHeaders) && response == old(response) && activity == old(activity)
    {
      if relay.connected {
        relay := relay.(backendClosed := true);
      }
    }
  }

  /** `select_subprotocol`: the first subprotocol the client offers; with
      none, tornado's default, which selects nothing. */
  function SelectSubprotocol(subprotocols: seq<string>): (r: Option<string>)
    ensures r.Some? <==> |subprotocols| > 0
    ensures r.Some? ==> r.value == subprotocols[0]
  {
    if |subprotocols| > 0 then Some(subprotocols[0]) else None
  }

  // ---------------------------------------------------------------------
  // Lemmas

  /** Behind a notebook server mounted at '/', the context is /proxy/<port>. */
  lemma ContextPathAtRoot(port: PortArg)
    requires Segment(PortText(port))
    ensures ContextPath("/", port) == "/proxy/" + PortText(port)
  {
    var p := PortText(port);
    var pieces := ["/", "proxy", p];
    assert StripChar("/", '/') == "" by {
      assert "/"[1..] == "";
    }
    StripSegment("proxy");
    StripSegment(p);
    assert StripAll(pieces) == ["", "proxy", p];
    assert NonEmpty(["", "proxy", p]) == ["proxy", p] by {
      assert ["", "proxy", p][1..] == ["proxy", p];
      assert ["proxy", p][1..] == [p];
      assert NonEmpty([p]) == [p];
    }
    assert Join(["proxy", p], "/") == "proxy/" + p by {
      assert ["proxy", p][1..] == [p];
    }
    NotEndsWithSlash(p);
  }

  /** Behind a one-segment base URL `/a`, the context is /a/proxy/<port>. */
  lemma ContextPathUnderBase(a: string, port: PortArg)
    requires Segment(a) && Segment(PortText(port))
    ensures ContextPath("/" + a, port) == "/" + a + "/proxy/" + PortText(port)
  {
    UrlPathJoinThree(a, "proxy", PortText(port));
  }

  /** An integer port always makes a '/'-free, non-empty path segment. */
  lemma IntPortIsSegment(n: int)
    ensures Segment(PortText(PortInt(n)))
  {
    var s := IntToString(n);
    if n >= 0 {
      assert forall i :: 0 <= i < |s| ==> s[i] != '/';
    } else {
      var t := NatToString(-n);
      assert s == "-" + t;
      forall i | 0 <= i < |s| ensures s[i] != '/' {
        if i > 0 {
          assert s[i] == t[i - 1];
        }
      }
    }
  }

  /** The query travels after the first '?': the URL without it is the plain
      backend location. */
  lemma HttpBackendUriQuery(port: string, path: string, query: string)
    requires '?' !in port && '?' !in path
    ensures Before(HttpBackendUri(port, path, query), '?') == "http://localhost:" + port + path
  {
    var base := "http://localhost:" + port + path;
    var uri := HttpBackendUri(port, path, query);
    assert '?' !in "http://localhost:";
    BeforeAbsent(base, QuerySuffix(query), '?');
  }

  /** For well-formed backend headers the client gets exactly the backend
      fields without the hop-by-hop ones, and `get_all` on the client side
      yields exactly the backend pairs without them, in order, repeats kept. */
  lemma ReplyHeaders(prev: Response, reply: FetchReply)
    requires !reply.error.OtherError? && WellFormed(reply.headers)
    ensures WellFormed(Reply(prev, reply).headers)
    ensures Reply(prev, reply).headers == FilterFields(reply.headers, HopByHop)
    ensures forall m :: NormalizeHeader(m) in HopByHop ==> !Has(Reply(prev, reply).headers, m)
    ensures GetAll(Reply(prev, reply).headers) == ClientHeaders(reply.headers)
    ensures forall p :: p in GetAll(Reply(prev, reply).headers) <==> p in GetAll(reply.headers) && p.0 !in HopByHop
  {
    AddAllWellFormed([], ClientHeaders(reply.headers));
    RebuildFiltered(reply.headers, HopByHop);
    GetAllFiltered(reply.headers, HopByHop);
    forall m | NormalizeHeader(m) in HopByHop
      ensures !Has(Reply(prev, reply).headers, m)
    {
      FilterFieldsDrops(reply.headers, HopByHop, m);
    }
  }
}
