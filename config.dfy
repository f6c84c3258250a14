/** The configuration side of `jupyter_server_proxy/config.py`: which proxy
    handler a configured server process gets, the attributes set on it, the
    routes emitted for all servers, the validation of launcher entries and of
    the `servers` dictionary, and the deprecated `host_whitelist` alias. */
module Config {
  import opened Common

  /** The `command` trait: a list of strings or a callable. */
  datatype Command = CommandList(args: seq<string>) | CommandCallable(id: string)

  /** Python truthiness of `command`: a non-empty list or any callable. */
  predicate CommandTruthy(c: Command) {
    c.CommandCallable? || |c.args| > 0
  }

  /** The `unix_socket` trait: None, a bool, or a path string. */
  datatype UnixSocket = NoSocket | SocketFlag(flag: bool) | SocketPath(path: string)

  /** A configuration value passed through untouched (a dict or a callable
      such as `environment`, `mappath`, `rewrite_response`). */
  datatype Opaque = Opaque(tag: string)

  /** Every trait of a `ServerProcess` except `name` and `launcher_entry`. */
  datatype Settings = Settings(
    command: Command,
    environment: Opaque,
    timeout: real,
    absoluteUrl: bool,
    port: int,
    unixSocket: UnixSocket,
    mappath: Opaque,
    newBrowserTab: bool,
    requestHeadersOverride: Opaque,
    rewriteResponse: Opaque,
    updateLastActivity: bool,
    rawSocketProxy: bool)

  /** The handler classes a server process can be routed to. */
  datatype HandlerClass =
    | SuperviseAndRawSocketHandler
    | SuperviseAndProxyHandler
    | RawSocketHandler
    | NamedLocalProxyHandler

  /** `get_proxy_base_class`: the class (None when the server cannot be
      proxied), whether the kwargs are `{state: {}}` rather than `{}`, and
      whether the missing command / port / socket warning was issued. */
  datatype BaseClass = BaseClass(cls: Option<HandlerClass>, stateKwarg: bool, warned: bool)

  function ProxyBaseClass(s: Settings): (r: BaseClass)
    ensures CommandTruthy(s.command) ==>
      r == BaseClass(Some(if s.rawSocketProxy then SuperviseAndRawSocketHandler
                          else SuperviseAndProxyHandler), true, false)
    ensures !CommandTruthy(s.command) && s.port == 0 && !s.unixSocket.SocketPath? ==>
      r == BaseClass(None, false, true)
    ensures !CommandTruthy(s.command) && (s.port != 0 || s.unixSocket.SocketPath?) ==>
      r == BaseClass(Some(if s.rawSocketProxy then RawSocketHandler
                          else NamedLocalProxyHandler), false, false)
    ensures r.cls.None? <==> r.warned
    ensures r.stateKwarg <==> r.cls == Some(SuperviseAndRawSocketHandler) || r.cls == Some(SuperviseAndProxyHandler)
  {
    if CommandTruthy(s.command) then
      BaseClass(Some(if s.rawSocketProxy then SuperviseAndRawSocketHandler else SuperviseAndProxyHandler),
                true, false)
    else if !(s.port != 0 || s.unixSocket.SocketPath?) then
      BaseClass(None, false, true)
    else
      BaseClass(Some(if s.rawSocketProxy then RawSocketHandler else NamedLocalProxyHandler), false, false)
  }

  /** A value set as an attribute on the proxy handler class. */
  datatype Attr =
    | AStr(s: string)
    | ABool(b: bool)
    | AInt(i: int)
    | AReal(x: real)
    | ACommand(c: Command)
    | ASocket(u: UnixSocket)
    | AOpaque(o: Opaque)

  /** The name of an attribute set on a proxy handler. */
  datatype AttrName =
    | KeyName | KeyCommand | KeyProxyBase | KeyAbsoluteUrl | KeyMappath | KeyRewriteResponse
    | KeyUpdateLastActivity | KeyRequestHeadersOverride | KeyRequestedPort | KeyRequestedUnixSocket
    | KeyEnvironment | KeyTimeout | KeyPort | KeyUnixSocket | KeyNoAuthentication
  {
    /** The Python attribute name. */
    function PyName(): string {
      match this
      case KeyName => "name"
      case KeyCommand => "command"
      case KeyProxyBase => "proxy_base"
      case KeyAbsoluteUrl => "absolute_url"
      case KeyMappath => "mappath"
      case KeyRewriteResponse => "rewrite_response"
      case KeyUpdateLastActivity => "update_last_activity"
      case KeyRequestHeadersOverride => "request_headers_override"
      case KeyRequestedPort => "requested_port"
      case KeyRequestedUnixSocket => "requested_unix_socket"
      case KeyEnvironment => "environment"
      case KeyTimeout => "timeout"
      case KeyPort => "port"
      case KeyUnixSocket => "unix_socket"
      case KeyNoAuthentication => "no_authentication"
    }
  }

  /** The keys every handler gets. */
  const CommonKeys: set<AttrName> :=
    {KeyName, KeyCommand, KeyProxyBase, KeyAbsoluteUrl, KeyMappath,
     KeyRewriteResponse, KeyUpdateLastActivity, KeyRequestHeadersOverride}

  /** The keys a supervised (command) server gets on top. */
  const SupervisedKeys: set<AttrName> :=
    {KeyRequestedPort, KeyRequestedUnixSocket, KeyEnvironment, KeyTimeout}

  /** The keys a server without command gets on top. */
  const UnsupervisedKeys: set<AttrName> := {KeyPort, KeyUnixSocket}

  /** `get_proxy_attributes`: the dictionary is built key by key. */
  method ProxyAttributes(name: string, s: Settings) returns (attrs: map<AttrName, Attr>)
    ensures attrs.Keys == CommonKeys + (if CommandTruthy(s.command) then SupervisedKeys else UnsupervisedKeys)
    ensures attrs == AttributesOf(name, s)
  {
    attrs := map[
      KeyName := AStr(name),
      KeyCommand := ACommand(s.command),
      KeyProxyBase := AStr(name),
      KeyAbsoluteUrl := ABool(s.absoluteUrl),
      KeyMappath := AOpaque(s.mappath),
      KeyRewriteResponse := AOpaque(s.rewriteResponse),
      KeyUpdateLastActivity := ABool(s.updateLastActivity),
      KeyRequestHeadersOverride := AOpaque(s.requestHeadersOverride)];
    if CommandTruthy(s.command) {
      attrs := attrs[KeyRequestedPort := AInt(s.port)];
      attrs := attrs[KeyRequestedUnixSocket := ASocket(s.unixSocket)];
      attrs := attrs[KeyEnvironment := AOpaque(s.environment)];
      attrs := attrs[KeyTimeout := AReal(s.timeout)];
    } else {
      attrs := attrs[KeyPort := AInt(s.port)];
      attrs := attrs[KeyUnixSocket := ASocket(s.unixSocket)];
    }
  }

  /** `get_proxy_attributes` as a value. */
  function AttributesOf(name: string, s: Settings): map<AttrName, Attr> {
    var common := map[
      KeyName := AStr(name),
      KeyCommand := ACommand(s.command),
      KeyProxyBase := AStr(name),
      KeyAbsoluteUrl := ABool(s.absoluteUrl),
      KeyMappath := AOpaque(s.mappath),
      KeyRewriteResponse := AOpaque(s.rewriteResponse),
      KeyUpdateLastActivity := ABool(s.updateLastActivity),
      KeyRequestHeadersOverride := AOpaque(s.requestHeadersOverride)];
    if CommandTruthy(s.command) then
      common[KeyRequestedPort := AInt(s.port)][KeyRequestedUnixSocket := ASocket(s.unixSocket)]
            [KeyEnvironment := AOpaque(s.environment)][KeyTimeout := AReal(s.timeout)]
    else
      common[KeyPort := AInt(s.port)][KeyUnixSocket := ASocket(s.unixSocket)]
  }

  /** The common keys, plus the requested port and socket, environment and
      timeout for a supervised (command) server, or else port and socket. */
  lemma AttributesOfKeys(name: string, s: Settings)
    ensures AttributesOf(name, s).Keys
      == CommonKeys + (if CommandTruthy(s.command) then SupervisedKeys else UnsupervisedKeys)
  {
  }

  /** What each key holds: the name (also as `proxy_base`) and the
      pass-through traits, then the port and socket under their *requested*
      names when the server is supervised. */
  lemma AttributesOfValues(name: string, s: Settings)
    ensures AttributesOf(name, s)[KeyName] == AStr(name)
    ensures AttributesOf(name, s)[KeyProxyBase] == AStr(name)
    ensures AttributesOf(name, s)[KeyCommand] == ACommand(s.command)
    ensures AttributesOf(name, s)[KeyAbsoluteUrl] == ABool(s.absoluteUrl)
    ensures AttributesOf(name, s)[KeyMappath] == AOpaque(s.mappath)
    ensures AttributesOf(name, s)[KeyRewriteResponse] == AOpaque(s.rewriteResponse)
    ensures AttributesOf(name, s)[KeyUpdateLastActivity] == ABool(s.updateLastActivity)
    ensures AttributesOf(name, s)[KeyRequestHeadersOverride] == AOpaque(s.requestHeadersOverride)
    ensures CommandTruthy(s.command) ==> AttributesOf(name, s)[KeyRequestedPort] == AInt(s.port)
    ensures CommandTruthy(s.command) ==> AttributesOf(name, s)[KeyRequestedUnixSocket] == ASocket(s.unixSocket)
    ensures CommandTruthy(s.command) ==> AttributesOf(name, s)[KeyEnvironment] == AOpaque(s.environment)
    ensures CommandTruthy(s.command) ==> AttributesOf(name, s)[KeyTimeout] == AReal(s.timeout)
    ensures !CommandTruthy(s.command) ==> AttributesOf(name, s)[KeyPort] == AInt(s.port)
    ensures !CommandTruthy(s.command) ==> AttributesOf(name, s)[KeyUnixSocket] == ASocket(s.unixSocket)
  {
  }

  /** `make_proxy_handler`: the class to route to and its kwargs; the
      class closes over the server's name and traits, from which its
      instances receive the attributes `Attrs()`. */
  datatype ProxySetup = ProxySetup(cls: HandlerClass, stateKwarg: bool, name: string, settings: Settings) {
    function Attrs(): map<AttrName, Attr> {
      AttributesOf(name, settings)
    }
  }

  function MakeProxyHandler(name: string, s: Settings): (r: Option<ProxySetup>)
    ensures r.None? <==> ProxyBaseClass(s).cls.None?
    ensures r.Some? ==> (r.value.cls == ProxyBaseClass(s).cls.value
      && r.value.stateKwarg == ProxyBaseClass(s).stateKwarg
      && r.value.Attrs() == AttributesOf(name, s))
  {
    var base := ProxyBaseClass(s);
    if base.cls.None? then None else Some(ProxySetup(base.cls.value, base.stateKwarg, name, s))
  }

  /** A tornado route: the proxy route of a server, or the redirect that
      appends the missing slash. */
  datatype Route =
    | ProxyRoute(pattern: UrlPattern, setup: ProxySetup)
    | SlashRoute(pattern: UrlPattern)

  /** A `ServerProcess`: its name and its other traits. */
  datatype ServerProcess = ServerProcess(name: string, settings: Settings)

  /** The routes of one server. */
  function ServerRoutes(baseUrl: string, p: ServerProcess): (r: seq<Route>)
    ensures |r| == (if MakeProxyHandler(p.name, p.settings).Some? then 2 else 0)
  {
    match MakeProxyHandler(p.name, p.settings)
    case None => []
    case Some(setup) =>
      [ProxyRoute(Joined([baseUrl, p.name, "(.*)"]), setup), SlashRoute(Joined([baseUrl, p.name]))]
  }

  /** The routes of a list of servers, server by server. */
  function Routes(baseUrl: string, servers: seq<ServerProcess>): seq<Route> {
    if |servers| == 0 then []
    else Routes(baseUrl, servers[..|servers| - 1]) + ServerRoutes(baseUrl, servers[|servers| - 1])
  }

  /** `make_handlers(base_url, server_processes)`. */
  method MakeHandlers(baseUrl: string, servers: seq<ServerProcess>) returns (handlers: seq<Route>)
    ensures handlers == Routes(baseUrl, servers)
  {
    handlers := [];
    var i := 0;
    while i < |servers|
      invariant 0 <= i <= |servers|
      invariant handlers == Routes(baseUrl, servers[..i])
    {
      var server := servers[i];
      ghost var before := handlers;
      var setup := MakeProxyHandler(server.name, server.settings);
      if setup.Some? {
        handlers := handlers + [ProxyRoute(Joined([baseUrl, server.name, "(.*)"]), setup.value)];
        handlers := handlers + [SlashRoute(Joined([baseUrl, server.name]))];
      }
      HandlersStep(baseUrl, server, setup, before, handlers);
      RoutesPrefix(baseUrl, servers, i);
      i := i + 1;
    }
    assert servers[..i] == servers;
  }

  /** The routes of one more server of the list. */
  lemma RoutesPrefix(baseUrl: string, servers: seq<ServerProcess>, i: nat)
    requires i < |servers|
    ensures Routes(baseUrl, servers[..i + 1]) == Routes(baseUrl, servers[..i]) + ServerRoutes(baseUrl, servers[i])
  {
    assert servers[..i + 1][..i] == servers[..i];
  }

  /** One iteration of `make_handlers` appends the server's routes. */
  lemma HandlersStep(baseUrl: string, p: ServerProcess, setup: Option<ProxySetup>,
                     before: seq<Route>, after: seq<Route>)
    requires setup == MakeProxyHandler(p.name, p.settings)
    requires setup.None? ==> after == before
    requires setup.Some? ==> (after == before
      + [ProxyRoute(Joined([baseUrl, p.name, "(.*)"]), setup.value)]
      + [SlashRoute(Joined([baseUrl, p.name]))])
    ensures after == before + ServerRoutes(baseUrl, p)
  {
    ServerRoutesBy(baseUrl, p, setup);
  }

  /** The routes of a server by the setup made for it. */
  lemma ServerRoutesBy(baseUrl: string, p: ServerProcess, setup: Option<ProxySetup>)
    requires setup == MakeProxyHandler(p.name, p.settings)
    ensures setup.None? ==> ServerRoutes(baseUrl, p) == []
    ensures setup.Some? ==> (ServerRoutes(baseUrl, p)
      == [ProxyRoute(Joined([baseUrl, p.name, "(.*)"]), setup.value), SlashRoute(Joined([baseUrl, p.name]))])
  {
  }

  /** One more server adds its own routes at the end. */
  lemma RoutesSnoc(baseUrl: string, servers: seq<ServerProcess>, p: ServerProcess)
    ensures Routes(baseUrl, servers + [p]) == Routes(baseUrl, servers) + ServerRoutes(baseUrl, p)
  {
    assert (servers + [p])[..|servers|] == servers;
  }

  /** Routes keep server order: those of a concatenation are the routes of
      each part, one after the other. */
  lemma {:induction false} RoutesConcat(baseUrl: string, a: seq<ServerProcess>, b: seq<ServerProcess>)
    ensures Routes(baseUrl, a + b) == Routes(baseUrl, a) + Routes(baseUrl, b)
  {
    if |b| == 0 {
      assert a + b == a;
    } else {
      var init := b[..|b| - 1];
      var last := b[|b| - 1];
      assert a + b == (a + init) + [last];
      assert b == init + [last];
      var x, y, z := Routes(baseUrl, a), Routes(baseUrl, init), ServerRoutes(baseUrl, last);
      calc {
        Routes(baseUrl, a + b);
      == { RoutesSnoc(baseUrl, a + init, last); }
        Routes(baseUrl, a + init) + z;
      == { RoutesConcat(baseUrl, a, init); }
        (x + y) + z;
      == { assert (x + y) + z == x + (y + z); }
        x + (y + z);
      == { RoutesSnoc(baseUrl, init, last); }
        x + Routes(baseUrl, b);
      }
    }
  }

  /** A server with a handler contributes exactly its proxy route followed
      by the slash redirect; one without contributes nothing. */
  lemma RoutesOne(baseUrl: string, name: string, s: Settings)
    ensures MakeProxyHandler(name, s).None? ==> Routes(baseUrl, [ServerProcess(name, s)]) == []
    ensures MakeProxyHandler(name, s).Some? ==> (Routes(baseUrl, [ServerProcess(name, s)]) ==
      [ProxyRoute(Joined([baseUrl, name, "(.*)"]), MakeProxyHandler(name, s).value),
       SlashRoute(Joined([baseUrl, name]))])
  {
    assert [ServerProcess(name, s)][..0] == [];
  }

  /** The number of servers that get a handler. */
  function Handled(servers: seq<ServerProcess>): nat {
    if |servers| == 0 then 0
    else
      var last := servers[|servers| - 1];
      Handled(servers[..|servers| - 1]) + (if MakeProxyHandler(last.name, last.settings).Some? then 1 else 0)
  }

  /** Two routes per server with a handler. */
  lemma {:induction false} RoutesCount(baseUrl: string, servers: seq<ServerProcess>)
    ensures |Routes(baseUrl, servers)| == 2 * Handled(servers)
  {
    if |servers| > 0 {
      RoutesCount(baseUrl, servers[..|servers| - 1]);
    }
  }

  /** Under an absolute one-segment base, a server named by a segment gets
      the routes `/base/name/(.*)` and `/base/name`. */
  lemma RoutePatterns(base: string, name: string, s: Settings)
    requires Segment(base) && Segment(name) && MakeProxyHandler(name, s).Some?
    ensures var rs := ServerRoutes("/" + base, ServerProcess(name, s));
      && rs[0].pattern.Text() == "/" + base + "/" + name + "/(.*)"
      && rs[1].pattern.Text() == "/" + base + "/" + name
  {
    assert Segment("(.*)") by {
      assert forall k :: 0 <= k < |"(.*)"| ==> "(.*)"[k] != '/';
    }
    UrlPathJoinThree(base, name, "(.*)");
    UrlPathJoinTwo(base, name);
    assert "/" + base + "/" + name + "/" + "(.*)" == "/" + base + "/" + name + "/(.*)";
  }

  // ---------------------------------------------------------------------
  // launcher entries

  /** A `LauncherEntry`: its title and path may be overwritten in place. */
  class LauncherEntry {
    var enabled: bool
    var iconPath: string
    var title: string
    var pathInfo: string
    var category: string

    constructor(enabled: bool, iconPath: string, title: string, pathInfo: string, category: string)
      ensures this.enabled == enabled && this.iconPath == iconPath && this.title == title
      ensures this.pathInfo == pathInfo && this.category == category
    {
      this.enabled := enabled;
      this.iconPath := iconPath;
      this.title := title;
      this.pathInfo := pathInfo;
      this.category := category;
    }
  }

  /** A `launcher_entry` given as a dict: each key may be absent. */
  datatype EntryDict = EntryDict(
    enabled: Option<bool>, iconPath: Option<string>, title: Option<string>,
    pathInfo: Option<string>, category: Option<string>)

  datatype LauncherArg = EntryInstance(entry: LauncherEntry) | EntryKwargs(d: EntryDict)

  /** The title and path a dict entry ends with: the supplied keys win over
      the defaults `name` and `name + "/"`. */
  function DictTitle(name: string, d: EntryDict): string {
    d.title.GetOr(name)
  }

  function DictPathInfo(name: string, d: EntryDict): string {
    d.pathInfo.GetOr(name + "/")
  }

  /** `_validate_launcher_entry`: an instance has its title and path
      overwritten unconditionally; a dict becomes a new entry whose own keys
      override the defaults, the others taking the trait defaults (enabled,
      no icon, category "Notebook"). */
  method ValidateLauncherEntry(name: string, arg: LauncherArg) returns (r: LauncherEntry)
    modifies if arg.EntryInstance? then {arg.entry} else {}
    ensures arg.EntryInstance? ==> (r == arg.entry
      && r.title == name && r.pathInfo == name + "/"
      && r.enabled == old(r.enabled) && r.iconPath == old(r.iconPath) && r.category == old(r.category))
    ensures arg.EntryKwargs? ==> (fresh(r)
      && r.title == DictTitle(name, arg.d) && r.pathInfo == DictPathInfo(name, arg.d)
      && r.enabled == arg.d.enabled.GetOr(true) && r.iconPath == arg.d.iconPath.GetOr("")
      && r.category == arg.d.category.GetOr("Notebook"))
  {
    match arg
    case EntryInstance(e) =>
      e.title := name;
      e.pathInfo := name + "/";
      r := e;
    case EntryKwargs(d) =>
      r := new LauncherEntry(d.enabled.GetOr(true), d.iconPath.GetOr(""),
                             DictTitle(name, d), DictPathInfo(name, d), d.category.GetOr("Notebook"));
  }

  /** A dict entry keeps the defaults exactly for the keys it leaves out. */
  lemma DictEntryDefaults(name: string, d: EntryDict)
    ensures d.title.None? ==> DictTitle(name, d) == name
    ensures d.title.Some? ==> DictTitle(name, d) == d.title.value
    ensures d.pathInfo.None? ==> DictPathInfo(name, d) == name + "/"
    ensures d.pathInfo.Some? ==> DictPathInfo(name, d) == d.pathInfo.value
  {
  }

  // ---------------------------------------------------------------------
  // the `servers` dictionary

  /** A `servers` value: a ServerProcess instance or keyword arguments. */
  datatype ServerArg = ServerInstance(process: ServerProcess) | ServerKwargs(name: Option<string>, settings: Settings)

  /** `_validate_servers`: the result has the input keys in input order; an
      instance keeps its own non-empty name or takes the key, and keyword
      arguments make a process named by their own `name` if given, else by
      the key. */
  method ValidateServers(entries: seq<(string, ServerArg)>) returns (servers: seq<(string, ServerProcess)>)
    ensures |servers| == |entries|
    ensures forall i :: 0 <= i < |entries| ==> servers[i].0 == entries[i].0
    ensures forall i :: 0 <= i < |entries| && entries[i].1.ServerInstance? ==>
      servers[i].1.settings == entries[i].1.process.settings
      && servers[i].1.name == (if entries[i].1.process.name != "" then entries[i].1.process.name else entries[i].0)
    ensures forall i :: 0 <= i < |entries| && entries[i].1.ServerKwargs? ==>
      servers[i].1 == ServerProcess(entries[i].1.name.GetOr(entries[i].0), entries[i].1.settings)
  {
    servers := [];
    var i := 0;
    while i < |entries|
      invariant 0 <= i <= |entries|
      invariant |servers| == i
      invariant forall j :: 0 <= j < i ==> servers[j].0 == entries[j].0
      invariant forall j :: 0 <= j < i && entries[j].1.ServerInstance? ==>
        servers[j].1.settings == entries[j].1.process.settings
        && servers[j].1.name == (if entries[j].1.process.name != "" then entries[j].1.process.name else entries[j].0)
      invariant forall j :: 0 <= j < i && entries[j].1.ServerKwargs? ==>
        servers[j].1 == ServerProcess(entries[j].1.name.GetOr(entries[j].0), entries[j].1.settings)
    {
      var (key, arg) := entries[i];
      match arg {
        case ServerInstance(p) =>
          var name := if p.name != "" then p.name else key;
          servers := servers + [(key, p.(name := name))];
        case ServerKwargs(n, s) =>
          servers := servers + [(key, ServerProcess(n.GetOr(key), s))];
      }
      i := i + 1;
    }
  }

  // ---------------------------------------------------------------------
  // host allowlist

  /** `host_allowlist`: a list of hosts or a callable deciding per host. */
  datatype HostAllowlist = Hosts(hosts: seq<string>) | HostCheck(id: string)

  const DefaultHostAllowlist: HostAllowlist := Hosts(["localhost", "127.0.0.1"])

  /** The warning `host_whitelist` gives when it differs. */
  const WhitelistDeprecation: string :=
    "ServerProxy.host_whitelist is deprecated in jupyter-server-proxy 3.0.0, use ServerProxy.host_allowlist instead"

  /** The `ServerProxy` configurable's host settings and the warnings it
      issued. */
  class ServerProxy {
    var hostAllowlist: HostAllowlist
    var warnings: seq<string>

    constructor()
      ensures hostAllowlist == DefaultHostAllowlist && warnings == []
    {
      hostAllowlist := DefaultHostAllowlist;
      warnings := [];
    }

    /** Setting `host_whitelist`: a different value is copied into
        `host_allowlist` with a deprecation warning, the same value is not
        warned about. */
    method SetHostWhitelist(value: HostAllowlist)
      modifies this
      ensures hostAllowlist == value
      ensures warnings == old(warnings) + (if old(hostAllowlist) != value then [WhitelistDeprecation] else [])
    {
      if hostAllowlist != value {
        warnings := warnings + [WhitelistDeprecation];
        hostAllowlist := value;
      }
    }
  }

  /** Configuring only `host_whitelist = ['jupyter.example.org']` warns once
      and moves the value to `host_allowlist`. */
  method DeprecatedWhitelistExample() returns (warnings: seq<string>, allowlist: HostAllowlist)
    ensures warnings == [WhitelistDeprecation]
    ensures allowlist == Hosts(["jupyter.example.org"])
  {
    var proxy := new ServerProxy();
    proxy.SetHostWhitelist(Hosts(["jupyter.example.org"]));
    warnings := proxy.warnings;
    allowlist := proxy.hostAllowlist;
  }

  /** Setting the whitelist to the current allowlist changes nothing. */
  method SameWhitelistExample() returns (warnings: seq<string>, allowlist: HostAllowlist)
    ensures warnings == []
    ensures allowlist == DefaultHostAllowlist
  {
    var proxy := new ServerProxy();
    proxy.SetHostWhitelist(Hosts(["localhost", "127.0.0.1"]));
    warnings := proxy.warnings;
    allowlist := proxy.hostAllowlist;
  }
}
