/** `StandaloneProxyServer` of `jupyter_server_proxy/standalone/app.py`: the
    defaults and validation of its base URL, address and port, the
    command-line flags and aliases it builds, its override of the proxy
    attributes, its SSL options and the routes of the application it
    creates. */
module StandaloneApp {
  import opened Common
  import opened Dicts
  import opened HubEnv
  import Config
  import NativeProxy

  // ---------------------------------------------------------------------
  // base URL, address, port

  /** `_validate_prefix`: one trailing `/` is dropped; the empty prefix has
      no last character and raises IndexError. */
  function ValidatePrefix(value: string): (r: Result<string>)
    ensures value == "" <==> r == Err(IndexError)
    ensures value != "" && value[|value| - 1] == '/' ==> r == Ok(value[..|value| - 1])
    ensures value != "" && value[|value| - 1] != '/' ==> r == Ok(value)
  {
    if value == "" then Err(IndexError)
    else if value[|value| - 1] == '/' then Ok(value[..|value| - 1])
    else Ok(value)
  }

  /** `_default_prefix`: the service prefix, `/` when unset, treated as
      `_validate_prefix` treats a value. */
  function DefaultPrefix(env: map<string, string>): (r: Result<string>)
    ensures ServicePrefixVar !in env ==> r == Ok("")
    ensures ServicePrefixVar in env ==> r == ValidatePrefix(env[ServicePrefixVar])
  {
    ValidatePrefix(if ServicePrefixVar in env then env[ServicePrefixVar] else "/")
  }

  /** A prefix loses at most one slash, and validating again changes a
      prefix only if it still ends with one. */
  lemma ValidatePrefixOnce(value: string)
    requires ValidatePrefix(value).Ok?
    ensures var p := ValidatePrefix(value).value;
      (p == value || p + "/" == value)
      && (p != "" && p[|p| - 1] != '/' ==> ValidatePrefix(p) == Ok(p))
  {
    if value[|value| - 1] == '/' {
      assert value[..|value| - 1] + "/" == value;
    }
  }

  /** `_default_address`: the service URL's host name, else `127.0.0.1`. */
  function DefaultAddress(env: map<string, string>, urlparse: string -> ParsedUrl): (a: string)
    ensures ServiceUrl(env).Some? && UrlHost(urlparse(ServiceUrl(env).value)).Some? ==>
      a == urlparse(ServiceUrl(env).value).hostname.value
    ensures ServiceUrl(env).None? || UrlHost(urlparse(ServiceUrl(env).value)).None? ==> a == "127.0.0.1"
  {
    match ServiceUrl(env)
    case None => "127.0.0.1"
    case Some(u) => UrlHost(urlparse(u)).GetOr("127.0.0.1")
  }

  /** `_default_port`: the service URL's port, else 80 or 443 by its
      scheme, else 8888. */
  function DefaultPort(env: map<string, string>, urlparse: string -> ParsedUrl): (p: int)
    ensures ServiceUrl(env).None? ==> p == 8888
    ensures ServiceUrl(env).Some? ==> p == UrlPort(urlparse(ServiceUrl(env).value)).GetOr(8888)
  {
    match ServiceUrl(env)
    case None => 8888
    case Some(u) =>
      var url := urlparse(u);
      if url.port.Some? && url.port.value != 0 then url.port.value
      else if url.scheme == "http" then 80
      else if url.scheme == "https" then 443
      else 8888
  }

  /** The standalone proxy and the native proxy choose the same default
      port. */
  lemma DefaultPortIsNativePort(env: map<string, string>, urlparse: string -> ParsedUrl)
    ensures DefaultPort(env, urlparse) == NativeProxy.GetPortFromEnv(env, urlparse)
  {
  }

  /** The defaults for `http://localhost/`, `https://localhost/` and
      `http://localhost:7777/`. */
  lemma DefaultAddressAndPortExamples(env: map<string, string>, urlparse: string -> ParsedUrl, url: ParsedUrl)
    requires ServiceUrl(env).Some? && urlparse(ServiceUrl(env).value) == url
    requires url.hostname == Some("localhost")
    ensures DefaultAddress(env, urlparse) == "localhost"
    ensures url == ParsedUrl("http", Some("localhost"), None) ==> DefaultPort(env, urlparse) == 80
    ensures url == ParsedUrl("https", Some("localhost"), None) ==> DefaultPort(env, urlparse) == 443
    ensures url == ParsedUrl("http", Some("localhost"), Some(7777)) ==> DefaultPort(env, urlparse) == 7777
  {
    assert UrlHost(url) == Some("localhost");
  }

  // ---------------------------------------------------------------------
  // flags and aliases

  /** The flags the server adds to those of the application. */
  const OwnFlags: set<string> := {"absolute-url", "raw-socket-proxy", "no-authentication"}

  /** The flags after `__init__`: the application's and the server's own,
      with `y` popped (KeyError when the application has none). */
  function Flags(parentFlags: set<string>): (r: Result<set<string>>)
    ensures "y" !in parentFlags <==> r == Err(KeyError)
    ensures r.Ok? ==> r.value == (parentFlags + OwnFlags) - {"y"}
  {
    if "y" in parentFlags + OwnFlags then Ok((parentFlags + OwnFlags) - {"y"}) else Err(KeyError)
  }

  /** The `ServerProcess` traits that get no alias. */
  const IgnoreTraits: seq<string> :=
    ["name", "launcher_entry", "new_browser_tab", "rewrite_response", "update_last_activity", "command"]

  /** The aliases the server always adds, after all others. */
  const OwnAliases: seq<(string, string)> := [
    ("base-url", "StandaloneProxyServer.base_url"),
    ("address", "StandaloneProxyServer.address"),
    ("port", "StandaloneProxyServer.port"),
    ("server-port", "StandaloneProxyServer.server_port"),
    ("activity-interval", "StandaloneProxyServer.activity_interval"),
    ("websocket-max-message-size", "StandaloneProxyServer.websocket_max_message_size")]

  /** The option name of a trait: `_` replaced by `-`. */
  function OptionName(t: string): string {
    ReplaceChar(t, '_', '-')
  }

  /** The alias of one trait. */
  function TraitAlias(t: string): (string, string) {
    (OptionName(t), "StandaloneProxyServer." + t)
  }

  /** `server_process_aliases` as written: a trait is skipped when it is
      ignored or when the trait name itself is a flag. */
  function TraitAliasesAsWritten(traits: seq<string>, flags: set<string>): (r: seq<(string, string)>)
    ensures |r| <= |traits|
    ensures forall p :: p in r ==> exists t :: t in traits && t !in IgnoreTraits && t !in flags && p == TraitAlias(t)
  {
    if |traits| == 0 then []
    else
      var t := traits[|traits| - 1];
      TraitAliasesAsWritten(traits[..|traits| - 1], flags)
        + (if t !in IgnoreTraits && t !in flags then [TraitAlias(t)] else [])
  }

  /** `server_process_aliases` as intended: a trait is skipped when it is
      ignored or when its option name is already a flag. */
  function TraitAliases(traits: seq<string>, flags: set<string>): (r: seq<(string, string)>)
    ensures |r| <= |traits|
    ensures forall p :: p in r ==>
      exists t :: t in traits && t !in IgnoreTraits && OptionName(t) !in flags && p == TraitAlias(t)
  {
    if |traits| == 0 then []
    else
      var t := traits[|traits| - 1];
      TraitAliases(traits[..|traits| - 1], flags)
        + (if t !in IgnoreTraits && OptionName(t) !in flags then [TraitAlias(t)] else [])
  }

  /** As written the flag filter compares the trait name, not its option
      name, with the flags: a trait whose option name is a flag keeps its
      alias, so that option name is both a flag and an alias; the intended
      filter drops it. */
  lemma FlaggedTraitKeepsAlias(t: string, flags: set<string>)
    requires t !in IgnoreTraits && t !in flags && OptionName(t) in flags
    ensures TraitAliasesAsWritten([t], flags) == [TraitAlias(t)]
    ensures TraitAlias(t).0 in flags
    ensures TraitAliases([t], flags) == []
  {
    assert [t][..0] == [];
  }

  /** The trait `absolute_url` is such a trait: its option name is the
      server's own flag `absolute-url`. */
  lemma AbsoluteUrlIsFlagged()
    ensures "absolute_url" !in IgnoreTraits && "absolute_url" !in OwnFlags
    ensures OptionName("absolute_url") == "absolute-url" && "absolute-url" in OwnFlags
  {
    AbsoluteUrlNotIgnored();
    AbsoluteUrlNotFlag();
    AbsoluteUrlOptionName();
  }

  lemma AbsoluteUrlNotIgnored()
    ensures "absolute_url" !in IgnoreTraits
  {
    forall i | 0 <= i < |IgnoreTraits|
      ensures |IgnoreTraits[i]| != 12
    {
    }
  }

  lemma AbsoluteUrlNotFlag()
    ensures "absolute_url" !in OwnFlags
  {
    assert "absolute_url"[8] != "absolute-url"[8];
  }

  /** The option name of `absolute_url`. */
  lemma AbsoluteUrlOptionName()
    ensures OptionName("absolute_url") == "absolute-url"
  {
    var x, y := "absolute", "url";
    assert '_' !in x;
    assert '_' !in y;
    ReplaceCharOne(x, y, '_', '-');
    assert x + "_" + y == "absolute_url";
    assert x + "-" + y == "absolute-url";
  }

  /** With the intended filter no trait alias takes the name of a flag or
      of an ignored trait, and every other trait gets its alias. */
  lemma {:induction false} TraitAliasesAvoidFlags(traits: seq<string>, flags: set<string>)
    ensures forall p :: p in TraitAliases(traits, flags) ==> p.0 !in flags
    ensures forall t :: t in traits && t !in IgnoreTraits && OptionName(t) !in flags ==>
      TraitAlias(t) in TraitAliases(traits, flags)
  {
    if |traits| > 0 {
      var init := traits[..|traits| - 1];
      TraitAliasesAvoidFlags(init, flags);
      assert traits == init + [traits[|traits| - 1]];
    }
  }

  /** Merging the application's aliases, then the trait aliases, then the
      server's own, a later alias replacing an earlier one of the same name. */
  function MergeAliases(parentAliases: seq<(string, string)>, traitAliases: seq<(string, string)>)
    : (r: seq<(string, string)>)
    ensures DistinctKeys(r)
  {
    FromPairs(parentAliases + FromPairs(traitAliases) + OwnAliases)
  }

  /** The aliases after `__init__`, with the trait aliases filtered as
      written. */
  function Aliases(parentAliases: seq<(string, string)>, traits: seq<string>, flags: set<string>)
    : (r: seq<(string, string)>)
    ensures DistinctKeys(r)
    ensures forall i :: 0 <= i < |OwnAliases| ==> OwnAliases[i] in r
  {
    AliasesKeepOwn(parentAliases, TraitAliasesAsWritten(traits, flags));
    MergeAliases(parentAliases, TraitAliasesAsWritten(traits, flags))
  }

  /** The aliases after `__init__` with the intended trait filter. */
  function AliasesIntended(parentAliases: seq<(string, string)>, traits: seq<string>, flags: set<string>)
    : (r: seq<(string, string)>)
    ensures DistinctKeys(r)
    ensures forall i :: 0 <= i < |OwnAliases| ==> OwnAliases[i] in r
  {
    AliasesKeepOwn(parentAliases, TraitAliases(traits, flags));
    MergeAliases(parentAliases, TraitAliases(traits, flags))
  }

  /** The server's own aliases win over any alias of the same name from
      the application or the traits. */
  lemma AliasesKeepOwn(parentAliases: seq<(string, string)>, traitAliases: seq<(string, string)>)
    ensures forall i :: 0 <= i < |OwnAliases| ==> OwnAliases[i] in MergeAliases(parentAliases, traitAliases)
  {
    forall i | 0 <= i < |OwnAliases|
      ensures OwnAliases[i] in MergeAliases(parentAliases, traitAliases)
    {
      OwnAliasKept(parentAliases, traitAliases, i);
    }
  }

  lemma OwnAliasKept(parentAliases: seq<(string, string)>, traitAliases: seq<(string, string)>, i: nat)
    requires i < |OwnAliases|
    ensures OwnAliases[i] in MergeAliases(parentAliases, traitAliases)
  {
    var all := parentAliases + FromPairs(traitAliases) + OwnAliases;
    var r := FromPairs(all);
    assert all[|all| - |OwnAliases|..] == OwnAliases;
    OwnAliasLast(all, i);
    FromPairsKeys(all, OwnAliases[i].0);
    var j :| 0 <= j < |r| && r[j].0 == OwnAliases[i].0;
    FromPairsLastWins(all, j);
    var k :| 0 <= k < |all| && all[k] == r[j] && NoLaterKey(all, k, r[j].0);
    assert k == |all| - |OwnAliases| + i;
  }

  /** The i-th own alias is the last pair of `all` under its name. */
  lemma OwnAliasLast(all: seq<(string, string)>, i: nat)
    requires |all| >= |OwnAliases| && all[|all| - |OwnAliases|..] == OwnAliases && i < |OwnAliases|
    ensures HasKey(all, OwnAliases[i].0)
    ensures forall k :: |all| - |OwnAliases| + i < k < |all| ==> all[k].0 != OwnAliases[i].0
  {
    var n := |all| - |OwnAliases|;
    assert all[n + i] == OwnAliases[i];
    forall k | n + i < k < |all|
      ensures all[k].0 != OwnAliases[i].0
    {
      assert all[k] == OwnAliases[k - n];
    }
  }

  // ---------------------------------------------------------------------
  // proxy attributes

  /** `get_proxy_attributes`: the attributes of the parent with the proxy
      based at `/`, the requested port taken from `server_port`, and
      `no_authentication` added. */
  method ProxyAttributes(name: string, s: Config.Settings, serverPort: int, noAuthentication: bool)
    returns (attrs: map<Config.AttrName, Config.Attr>)
    ensures attrs.Keys == Config.AttributesOf(name, s).Keys + {Config.KeyRequestedPort, Config.KeyNoAuthentication}
    ensures attrs[Config.KeyProxyBase] == Config.AStr("/")
    ensures attrs[Config.KeyRequestedPort] == Config.AInt(serverPort)
    ensures attrs[Config.KeyNoAuthentication] == Config.ABool(noAuthentication)
    ensures forall k :: k in Config.AttributesOf(name, s) && k !in {Config.KeyProxyBase, Config.KeyRequestedPort, Config.KeyNoAuthentication} ==>
               attrs[k] == Config.AttributesOf(name, s)[k]
  {
    attrs := Config.ProxyAttributes(name, s);
    ghost var parent := attrs;
    attrs := attrs[Config.KeyProxyBase := Config.AStr("/")];
    attrs := attrs[Config.KeyRequestedPort := Config.AInt(serverPort)];
    attrs := attrs[Config.KeyNoAuthentication := Config.ABool(noAuthentication)];
    assert attrs.Keys == parent.Keys + {Config.KeyProxyBase, Config.KeyRequestedPort, Config.KeyNoAuthentication};
  }

  // ---------------------------------------------------------------------
  // SSL

  /** `_configure_ssl`: the dictionary is filled by successive assignments
      from the three SSL variables. */
  method ConfigureSsl(env: map<string, string>) returns (r: Option<map<string, SslValue>>)
    ensures SslOptionsFor(EnvOr(env, KeyfileVar), EnvOr(env, CertfileVar), EnvOr(env, ClientCaVar), r)
  {
    var keyfile := EnvOr(env, KeyfileVar);
    var certfile := EnvOr(env, CertfileVar);
    var clientCa := EnvOr(env, ClientCaVar);
    if !(keyfile != "" || certfile != "" || clientCa != "") {
      return None;
    }
    var options: map<string, SslValue> := map[];
    if keyfile != "" {
      options := options["keyfile" := SslPath(keyfile)];
    }
    if certfile != "" {
      options := options["certfile" := SslPath(certfile)];
    }
    if clientCa != "" {
      options := options["ca_certs" := SslPath(clientCa)];
    }
    options := options["ssl_version" := ProtocolTls];
    if "ca_certs" in options && options["ca_certs"] != SslPath("") {
      options := options["cert_reqs" := CertRequired];
    }
    r := Some(options);
  }

  // ---------------------------------------------------------------------
  // routes

  /** The special characters `re.escape` prefixes with a backslash. */
  const RegexSpecial: set<char> :=
    {'(', ')', '[', ']', '{', '}', '?', '*', '+', '-', '|', '^', '$', '\\', '.', '&', '~', '#',
     ' ', '\t', '\n', '\r', '\U{000B}', '\U{000C}'}

  /** `re.escape(s)`. */
  function ReEscape(s: string): string {
    if |s| == 0 then ""
    else (if s[0] in RegexSpecial then ['\\', s[0]] else [s[0]]) + ReEscape(s[1..])
  }

  /** Escaping leaves a string without special characters as it is. */
  lemma {:induction false} ReEscapePlain(s: string)
    requires forall i :: 0 <= i < |s| ==> s[i] !in RegexSpecial
    ensures ReEscape(s) == s
  {
    if |s| > 0 {
      ReEscapePlain(s[1..]);
    }
  }

  /** A route of the standalone application. */
  datatype AppRoute =
    | RedirectRoute(pattern: string, url: string)
    | OAuthCallbackRoute(pattern: string)
    | ProxyAppRoute(pattern: string)

  /** `create_app` as written: the redirect target is built from the
      escaped base URL too. */
  function AppRoutesAsWritten(baseUrl: string): (rs: seq<AppRoute>)
    ensures |rs| == 3
    ensures rs[0].RedirectRoute? && rs[0].url == ReEscape(baseUrl) + "/"
    ensures rs[1].OAuthCallbackRoute? && rs[2].ProxyAppRoute?
    ensures forall i :: 0 <= i < 3 ==> rs[i].pattern == AppRoutes(baseUrl)[i].pattern
  {
    var b := ReEscape(baseUrl);
    [RedirectRoute("^" + b + "$", b + "/"), OAuthCallbackRoute("^" + b + "/oauth_callback"),
     ProxyAppRoute("^" + b + "/(.*)")]
  }

  /** `create_app` with the redirect going to the base URL itself plus
      `/`; the patterns match the escaped base URL. */
  function AppRoutes(baseUrl: string): (rs: seq<AppRoute>)
    ensures |rs| == 3
    ensures rs[0].RedirectRoute? && rs[0].url == baseUrl + "/"
    ensures rs[1].OAuthCallbackRoute? && rs[2].ProxyAppRoute?
    ensures rs[0].pattern == "^" + ReEscape(baseUrl) + "$"
    ensures rs[1].pattern == "^" + ReEscape(baseUrl) + "/oauth_callback"
    ensures rs[2].pattern == "^" + ReEscape(baseUrl) + "/(.*)"
  {
    var b := ReEscape(baseUrl);
    [RedirectRoute("^" + b + "$", baseUrl + "/"), OAuthCallbackRoute("^" + b + "/oauth_callback"),
     ProxyAppRoute("^" + b + "/(.*)")]
  }

  /** The two agree on a base URL without special characters, such as
      `/some/prefix`, which redirects to `/some/prefix/`. */
  lemma AppRoutesPlain(baseUrl: string)
    requires forall i :: 0 <= i < |baseUrl| ==> baseUrl[i] !in RegexSpecial
    ensures AppRoutesAsWritten(baseUrl) == AppRoutes(baseUrl)
    ensures AppRoutes(baseUrl)[0].pattern == "^" + baseUrl + "$"
  {
    ReEscapePlain(baseUrl);
  }

  /** As written, a base URL with a special character redirects to a path
      other than the base URL plus `/`, the escaped text being longer. */
  lemma EscapedRedirect(baseUrl: string, i: nat)
    requires i < |baseUrl| && baseUrl[i] in RegexSpecial
    ensures AppRoutesAsWritten(baseUrl)[0].url != AppRoutes(baseUrl)[0].url
    ensures |AppRoutesAsWritten(baseUrl)[0].url| > |AppRoutes(baseUrl)[0].url|
  {
    ReEscapeLonger(baseUrl, i);
  }

  /** A JupyterHub user `a.b` (two plain parts around a dot) under
      `/user/`: as written the redirect goes to `/user/a\.b/`. */
  lemma EscapedUserRedirect(a: string, b: string)
    requires forall i :: 0 <= i < |a| ==> a[i] !in RegexSpecial
    requires forall i :: 0 <= i < |b| ==> b[i] !in RegexSpecial
    ensures AppRoutesAsWritten("/user/" + a + "." + b)[0].url == "/user/" + a + "\\." + b + "/"
    ensures AppRoutes("/user/" + a + "." + b)[0].url == "/user/" + a + "." + b + "/"
  {
    var p := "/user/";
    UserPrefixPlain();
    ReEscapePlain(a);
    ReEscapePlain(b);
    EscapeDot();
    calc {
      ReEscape(p + a + "." + b);
    == { ReEscapeConcat(p + a + ".", b); }
      ReEscape(p + a + ".") + ReEscape(b);
    == { ReEscapeConcat(p + a, "."); }
      ReEscape(p + a) + "\\." + b;
    == { ReEscapeConcat(p, a); }
      p + a + "\\." + b;
    }
  }

  /** `/user/` has no special character. */
  lemma UserPrefixPlain()
    ensures ReEscape("/user/") == "/user/"
  {
    var p := "/user/";
    assert p[0] == '/' && p[1] == 'u' && p[2] == 's' && p[3] == 'e' && p[4] == 'r' && p[5] == '/';
    ReEscapePlain(p);
  }

  /** A dot is escaped. */
  lemma EscapeDot()
    ensures ReEscape(".") == "\\."
  {
    assert "."[0] in RegexSpecial;
    assert "."[1..] == "";
  }

  /** An escaped string is never shorter, and a special character makes it
      longer. */
  lemma {:induction false} ReEscapeLonger(s: string, i: nat)
    ensures |ReEscape(s)| >= |s|
    ensures i < |s| && s[i] in RegexSpecial ==> |ReEscape(s)| > |s|
  {
    if |s| > 0 {
      ReEscapeLonger(s[1..], if i > 0 then i - 1 else 0);
      if i > 0 && i < |s| {
        assert s[1..][i - 1] == s[i];
      }
    }
  }

  /** Escaping works character by character. */
  lemma {:induction false} ReEscapeConcat(a: string, b: string)
    ensures ReEscape(a + b) == ReEscape(a) + ReEscape(b)
  {
    if |a| > 0 {
      assert (a + b)[0] == a[0];
      assert (a + b)[1..] == a[1..] + b;
      ReEscapeConcat(a[1..], b);
    } else {
      assert a + b == b;
    }
  }
}
