/** The JupyterHub single-user wrapper `jupyter_server_proxy/native_proxy.py`:
    its handler's template rendering, environment, timeout and hub access
    settings, the listen port taken from the service URL, the SSL options
    taken from the environment, and the service prefix `run` uses. */
module NativeProxy {
  import opened Common
  import opened Templates
  import opened HubEnv

  /** `_Proxy._render_template`: a value that is not a str, list or dict
      raises ValueError. `fmt` is `str.format(**self.process_args)`. */
  function RenderTemplate(t: Template, fmt: string -> Result<string>): (r: Result<Rendered>)
    ensures t.TOther? ==> r == Err(ValueError)
  {
    Render(t, fmt, RaiseValueError)
  }

  /** The `environment` the handler was made with: a callable or a value. */
  datatype Environment = EnvCallable(id: string) | EnvValue(value: Template)

  const CallableEnvMessage: string :=
    "return self._render_template(call_with_asked_args(environment, self.process_args))"

  /** `get_env`: a callable environment is refused; a value is rendered. */
  function GetEnv(environment: Environment, fmt: string -> Result<string>): (r: Result<Rendered>)
    ensures environment.EnvCallable? ==> r == Err(Raised(CallableEnvMessage))
    ensures environment.EnvValue? ==> r == RenderTemplate(environment.value, fmt)
  {
    match environment
    case EnvCallable(_) => Err(Raised(CallableEnvMessage))
    case EnvValue(v) => RenderTemplate(v, fmt)
  }

  /** `get_timeout`: the process gets 60 seconds to start. */
  const StartTimeout: int := 60

  /** `hub_users`: the one user of the `user` setting. */
  function HubUsers(settings: map<string, string>): (r: Result<set<string>>)
    ensures "user" !in settings ==> r == Err(KeyError)
    ensures "user" in settings ==> r == Ok({settings["user"]})
  {
    if "user" in settings then Ok({settings["user"]}) else Err(KeyError)
  }

  /** `hub_groups`: the group of the `group` setting, none when it is
      empty. */
  function HubGroups(settings: map<string, string>): (r: Result<set<string>>)
    ensures "group" !in settings ==> r == Err(KeyError)
    ensures "group" in settings ==> r.Ok? && |r.value| <= 1
    ensures "group" in settings ==> (r.value == {} <==> settings["group"] == "")
    ensures "group" in settings && settings["group"] != "" ==> r.value == {settings["group"]}
  {
    if "group" !in settings then Err(KeyError)
    else if settings["group"] != "" then Ok({settings["group"]})
    else Ok({})
  }

  /** `allow_all`: decided by the `anyone` setting when present, else by
      the inherited default. */
  function AllowAll(settings: map<string, string>, inherited: bool): (r: bool)
    ensures "anyone" in settings ==> (r <==> settings["anyone"] == "1")
    ensures "anyone" !in settings ==> r == inherited
  {
    if "anyone" in settings then settings["anyone"] == "1" else inherited
  }

  /** `get_port_from_env`: the port of the service URL, else 80 or 443 by
      its scheme, else 8888 (also when the URL is unset or empty). */
  function GetPortFromEnv(env: map<string, string>, urlparse: string -> ParsedUrl): (p: int)
    ensures ServiceUrl(env).None? ==> p == 8888
    ensures ServiceUrl(env).Some? ==>
      var url := urlparse(ServiceUrl(env).value);
      (url.port.Some? && url.port.value != 0 ==> p == url.port.value)
      && ((url.port.None? || url.port.value == 0) ==>
            p == (if url.scheme == "http" then 80 else if url.scheme == "https" then 443 else 8888))
  {
    match ServiceUrl(env)
    case None => 8888
    case Some(u) => UrlPort(urlparse(u)).GetOr(8888)
  }

  /** `get_ssl_options`: the dictionary is filled key by key from the three
      SSL variables. */
  method GetSslOptions(env: map<string, string>) returns (r: Option<map<string, SslValue>>)
    ensures SslOptionsFor(EnvOr(env, KeyfileVar), EnvOr(env, CertfileVar), EnvOr(env, ClientCaVar), r)
  {
    var keyfile := EnvOr(env, KeyfileVar);
    var certfile := EnvOr(env, CertfileVar);
    var clientCa := EnvOr(env, ClientCaVar);
    var options: map<string, SslValue> := map[];
    if keyfile != "" {
      options := options["keyfile" := SslPath(keyfile)];
    }
    if certfile != "" {
      options := options["certfile" := SslPath(certfile)];
    }
    if clientCa != "" {
      options := options["ca_certs" := SslPath(clientCa)];
    }
    assert options.Keys == (if keyfile != "" then {"keyfile"} else {})
                           + (if certfile != "" then {"certfile"} else {})
                           + (if clientCa != "" then {"ca_certs"} else {});
    assert options == map[] <==> options.Keys == {};
    if options == map[] {
      r := None;
    } else {
      if "ssl_version" !in options {
        options := options["ssl_version" := ProtocolTls];
      }
      if "ca_certs" in options && options["ca_certs"] != SslPath("") {
        if "cert_reqs" !in options {
          options := options["cert_reqs" := CertRequired];
        }
      }
      r := Some(options);
    }
  }

  /** The prefix of `run`: the service prefix (default `/`) with one
      trailing `/` removed. */
  function RunPrefix(env: map<string, string>): (prefix: string)
    ensures var p := if ServicePrefixVar in env then env[ServicePrefixVar] else "/";
      (EndsWith(p, "/") ==> prefix + "/" == p)
      && (!EndsWith(p, "/") ==> prefix == p)
  {
    var p := if ServicePrefixVar in env then env[ServicePrefixVar] else "/";
    if |p| > 0 && p[|p| - 1] == '/' then p[..|p| - 1] else p
  }

  /** Only one slash goes: `/user/x//` becomes `/user/x/`, and the default
      `/` becomes the empty prefix. */
  lemma RunPrefixOneSlash()
    ensures RunPrefix(map[ServicePrefixVar := "/user/x//"]) == "/user/x/"
    ensures RunPrefix(map[]) == ""
  {
  }

  /** The port `run` listens on: `port or get_port_from_env()`, so an
      unset or zero port falls back to the environment. */
  function ListenPort(port: Option<int>, env: map<string, string>, urlparse: string -> ParsedUrl): (p: int)
    ensures port.Some? && port.value != 0 ==> p == port.value
    ensures port.None? || port.value == 0 ==> p == GetPortFromEnv(env, urlparse)
  {
    if port.Some? && port.value != 0 then port.value else GetPortFromEnv(env, urlparse)
  }
}
