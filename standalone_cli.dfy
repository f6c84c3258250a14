/** The command line of `jupyter_server_proxy/standalone/__init__.py`: the
    default listen address and port taken from the JupyterHub service URL,
    the `--env`/`--mappath` value parser, and how `run` resolves its
    arguments against the defaults before it makes the proxy application. */
module StandaloneCli {
  import opened Common
  import opened Dicts
  import opened HubEnv
  import Config
  import NativeProxy
  import StandaloneApp

  // ---------------------------------------------------------------------
  // default address and port

  /** `_default_address_and_port`: `("127.0.0.1", 8888)`, the address
      replaced by the service URL's host name when it has one and, on its
      own, the port by the URL's port, else 80 or 443 by its scheme. */
  function DefaultAddressAndPort(env: map<string, string>, urlparse: string -> ParsedUrl): (r: (string, int))
    ensures ServiceUrl(env).None? ==> r == ("127.0.0.1", 8888)
    ensures ServiceUrl(env).Some? ==>
      var url := urlparse(ServiceUrl(env).value);
      && (url.hostname.Some? && url.hostname.value != "" ==> r.0 == url.hostname.value)
      && (url.hostname.None? || url.hostname.value == "" ==> r.0 == "127.0.0.1")
      && (url.port.Some? && url.port.value != 0 ==> r.1 == url.port.value)
      && (url.port.None? || url.port.value == 0 ==>
            r.1 == (if url.scheme == "http" then 80 else if url.scheme == "https" then 443 else 8888))
  {
    var address := "127.0.0.1";
    var port := 8888;
    if EnvOr(env, ServiceUrlVar) == "" then (address, port)
    else
      var url := urlparse(env[ServiceUrlVar]);
      var address := if url.hostname.Some? && url.hostname.value != "" then url.hostname.value else address;
      var port :=
        if url.port.Some? && url.port.value != 0 then url.port.value
        else if url.scheme == "http" then 80
        else if url.scheme == "https" then 443
        else port;
      (address, port)
  }

  /** The command line, the standalone application and the native proxy
      agree on the defaults. */
  lemma DefaultsAgree(env: map<string, string>, urlparse: string -> ParsedUrl)
    ensures DefaultAddressAndPort(env, urlparse).0 == StandaloneApp.DefaultAddress(env, urlparse)
    ensures DefaultAddressAndPort(env, urlparse).1 == StandaloneApp.DefaultPort(env, urlparse)
    ensures DefaultAddressAndPort(env, urlparse).1 == NativeProxy.GetPortFromEnv(env, urlparse)
  {
  }

  // ---------------------------------------------------------------------
  // --env and --mappath

  /** The argument type of `--env` and `--mappath`: the value split on `:`,
      of which at most the first two parts are kept. */
  function ParseColonPair(v: string): (r: seq<string>)
    ensures 1 <= |r| <= 2
    ensures forall i :: 0 <= i < |r| ==> ':' !in r[i]
    ensures r[0] == Before(v, ':')
    ensures |r| == 1 <==> ':' !in v
  {
    var parts := Split(v, ':');
    FirstPartIsBefore(v, ':');
    CountCharIn(v, ':');
    if |parts| <= 2 then parts else parts[..2]
  }

  /** `:` occurs in `s` iff it is counted. */
  lemma {:induction false} CountCharIn(s: string, c: char)
    ensures c in s <==> CountChar(s, c) > 0
  {
    if |s| > 0 {
      CountCharIn(s[1..], c);
      assert s == [s[0]] + s[1..];
    }
  }

  /** `NAME:VALUE` gives the pair, a value without `:` gives a 1-tuple,
      and everything after a second `:` is dropped: `a:b:c` gives
      `(a, b)`. */
  lemma ParseColonPairParts(a: string, b: string, c: string)
    requires ':' !in a && ':' !in b
    ensures ParseColonPair(a) == [a]
    ensures ParseColonPair(a + ":" + b) == [a, b]
    ensures ParseColonPair(a + ":" + b + ":" + c) == [a, b]
  {
    SplitNoSep(a, ':');
    SplitTwo(a, b, ':');
    assert a + ":" + b + ":" + c == a + [':'] + (b + [':'] + c);
    SplitConcatSep(a, b + [':'] + c, ':');
    SplitConcatSep(b, c, ':');
  }

  /** `dict(values)` of the parsed tuples: TypeError for None, ValueError
      when a tuple is not a pair, else the pairs with a later one replacing
      an earlier one of the same name. */
  function DictOf(values: Option<seq<seq<string>>>): (r: Result<seq<(string, string)>>)
    ensures values.None? ==> r.Err? && r.error.TypeError?
    ensures values.Some? ==>
      (r.Ok? <==> forall i :: 0 <= i < |values.value| ==> |values.value[i]| == 2)
    ensures values.Some? && r.Err? ==> r.error == ValueError
    ensures r.Ok? ==> DistinctKeys(r.value)
  {
    match values
    case None => Err(TypeError("'NoneType' object is not iterable"))
    case Some(ts) =>
      if exists i :: 0 <= i < |ts| && |ts[i]| != 2 then Err(ValueError)
      else Ok(FromPairs(Pairs(ts)))
  }

  /** The tuples, each a pair, as pairs. */
  function Pairs(ts: seq<seq<string>>): (ps: seq<(string, string)>)
    requires forall i :: 0 <= i < |ts| ==> |ts[i]| == 2
    ensures |ps| == |ts|
    ensures forall i :: 0 <= i < |ts| ==> ps[i] == (ts[i][0], ts[i][1])
  {
    seq(|ts|, i requires 0 <= i < |ts| => (ts[i][0], ts[i][1]))
  }

  /** The names of `dict(values)` are the first parts of the tuples. */
  lemma DictOfKeys(ts: seq<seq<string>>, k: string)
    requires DictOf(Some(ts)).Ok?
    ensures HasKey(DictOf(Some(ts)).value, k) <==> exists i :: 0 <= i < |ts| && ts[i][0] == k
  {
    var ps := Pairs(ts);
    FromPairsKeys(ps, k);
    if HasKey(ps, k) {
      var i :| 0 <= i < |ps| && ps[i].0 == k;
      assert ts[i][0] == k;
    }
    if exists i :: 0 <= i < |ts| && ts[i][0] == k {
      var i :| 0 <= i < |ts| && ts[i][0] == k;
      assert ps[i].0 == k;
    }
  }

  /** Under each name `dict(values)` holds the second part of the last
      tuple with that name. */
  lemma DictOfLastWins(ts: seq<seq<string>>, j: nat)
    requires DictOf(Some(ts)).Ok?
    requires j < |DictOf(Some(ts)).value|
    ensures var p := DictOf(Some(ts)).value[j];
      exists i :: 0 <= i < |ts| && ts[i] == [p.0, p.1]
        && forall i' :: i < i' < |ts| ==> ts[i'][0] != p.0
  {
    var ps := Pairs(ts);
    var p := FromPairs(ps)[j];
    FromPairsLastWins(ps, j);
    var i :| 0 <= i < |ps| && ps[i] == p && NoLaterKey(ps, i, p.0);
    assert ts[i] == [ts[i][0], ts[i][1]] == [p.0, p.1];
    LaterNames(ts, i, p.0);
  }

  /** No tuple after `i` has the name when no pair after `i` has it. */
  lemma LaterNames(ts: seq<seq<string>>, i: nat, k: string)
    requires forall i :: 0 <= i < |ts| ==> |ts[i]| == 2
    requires NoLaterKey(Pairs(ts), i, k)
    ensures forall i' :: i < i' < |ts| ==> ts[i'][0] != k
  {
    var ps := Pairs(ts);
    forall i' | i < i' < |ts|
      ensures ts[i'][0] != k
    {
      assert ps[i'].0 == ts[i'][0];
    }
  }

  // ---------------------------------------------------------------------
  // run

  /** Python's `s.removesuffix("/")`. */
  function RemoveSlashSuffix(s: string): (r: string)
    ensures EndsWith(s, "/") ==> r + "/" == s
    ensures !EndsWith(s, "/") ==> r == s
  {
    if EndsWith(s, "/") then s[..|s| - 1] else s
  }

  /** The prefix `run` hands to the application: the service prefix (`/`
      when unset) without one trailing `/`. */
  function CliPrefix(env: map<string, string>): (prefix: string)
    ensures ServicePrefixVar !in env ==> prefix == ""
  {
    RemoveSlashSuffix(if ServicePrefixVar in env then env[ServicePrefixVar] else "/")
  }

  /** `removesuffix` and the native proxy's explicit last-character test
      strip the same prefix. */
  lemma CliPrefixIsNativePrefix(env: map<string, string>)
    ensures CliPrefix(env) == NativeProxy.RunPrefix(env)
  {
    var p := if ServicePrefixVar in env then env[ServicePrefixVar] else "/";
    if |p| > 0 && p[|p| - 1] == '/' {
      assert EndsWith(p, "/") by {
        assert p[|p| - 1..] == [p[|p| - 1]];
      }
    }
  }

  /** `socket_path or socket_auto`: a non-empty path, else the flag. */
  function SocketArg(socketPath: Option<string>, socketAuto: bool): (u: Config.UnixSocket)
    ensures socketPath.Some? && socketPath.value != "" ==> u == Config.SocketPath(socketPath.value)
    ensures socketPath.None? || socketPath.value == "" ==> u == Config.SocketFlag(socketAuto)
  {
    if socketPath.Some? && socketPath.value != "" then Config.SocketPath(socketPath.value)
    else Config.SocketFlag(socketAuto)
  }

  /** What `run` listens on and hands to `make_proxy_app`. */
  datatype RunSettings = RunSettings(
    address: string,
    port: int,
    prefix: string,
    serverPort: int,
    unixSocket: Config.UnixSocket,
    environment: seq<(string, string)>,
    mappath: seq<(string, string)>)

  /** `run` up to making the application: `address or default`, `port or
      default` (so an empty address and port 0 fall back too), the prefix,
      the socket and the two dictionaries, `environment` built first. */
  function Run(env: map<string, string>, urlparse: string -> ParsedUrl,
               port: Option<int>, address: Option<string>, serverPort: int,
               socketPath: Option<string>, socketAuto: bool,
               environment: Option<seq<seq<string>>>, mappath: Option<seq<seq<string>>>)
    : (r: Result<RunSettings>)
    ensures DictOf(environment).Err? ==> r == Err(DictOf(environment).error)
    ensures DictOf(environment).Ok? && DictOf(mappath).Err? ==> r == Err(DictOf(mappath).error)
    ensures r.Ok? <==> DictOf(environment).Ok? && DictOf(mappath).Ok?
    ensures r.Ok? ==>
      && (address.Some? && address.value != "" ==> r.value.address == address.value)
      && (address.None? || address.value == "" ==>
            r.value.address == StandaloneApp.DefaultAddress(env, urlparse))
      && (port.Some? && port.value != 0 ==> r.value.port == port.value)
      && (port.None? || port.value == 0 ==> r.value.port == StandaloneApp.DefaultPort(env, urlparse))
      && r.value.prefix == NativeProxy.RunPrefix(env)
      && r.value.serverPort == serverPort
      && r.value.unixSocket == SocketArg(socketPath, socketAuto)
      && r.value.environment == DictOf(environment).value
      && r.value.mappath == DictOf(mappath).value
  {
    DefaultsAgree(env, urlparse);
    CliPrefixIsNativePrefix(env);
    var defaults := DefaultAddressAndPort(env, urlparse);
    var address := if address.Some? && address.value != "" then address.value else defaults.0;
    var port := if port.Some? && port.value != 0 then port.value else defaults.1;
    var e := DictOf(environment);
    if e.Err? then Err(e.error)
    else
      var m := DictOf(mappath);
      if m.Err? then Err(m.error)
      else Ok(RunSettings(address, port, CliPrefix(env), serverPort, SocketArg(socketPath, socketAuto),
                          e.value, m.value))
  }

  /** `--env=MY_VAR` without a value makes a 1-tuple, and `run` fails with
      ValueError before making the application. */
  lemma EnvWithoutValueFails(env: map<string, string>, urlparse: string -> ParsedUrl, name: string)
    requires ':' !in name
    ensures Run(env, urlparse, None, None, 0, None, false, Some([ParseColonPair(name)]), Some([]))
      == Err(ValueError)
  {
    ParseColonPairParts(name, "", "");
  }
}
