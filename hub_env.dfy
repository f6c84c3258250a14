/** What the native and standalone proxies read from the JupyterHub
    environment: the service URL (as `urlparse` splits it) that gives the
    proxy's own address and port, the service prefix, and the SSL files
    that make up the server's SSL options. */
module HubEnv {
  import opened Common

  const ServiceUrlVar: string := "JUPYTERHUB_SERVICE_URL"
  const ServicePrefixVar: string := "JUPYTERHUB_SERVICE_PREFIX"
  const KeyfileVar: string := "JUPYTERHUB_SSL_KEYFILE"
  const CertfileVar: string := "JUPYTERHUB_SSL_CERTFILE"
  const ClientCaVar: string := "JUPYTERHUB_SSL_CLIENT_CA"

  /** The parts of `urlparse(url)` the proxies use; `port` is None when the
      URL names none. */
  datatype ParsedUrl = ParsedUrl(scheme: string, hostname: Option<string>, port: Option<int>)

  /** `os.environ.get(key) or ""` (equally `os.environ.get(key, "")`). */
  function EnvOr(env: map<string, string>, key: string): string {
    if key in env then env[key] else ""
  }

  /** The service URL, when it is set to a non-empty value. */
  function ServiceUrl(env: map<string, string>): (u: Option<string>)
    ensures u.Some? <==> EnvOr(env, ServiceUrlVar) != ""
    ensures u.Some? ==> u.value == env[ServiceUrlVar]
  {
    if EnvOr(env, ServiceUrlVar) != "" then Some(env[ServiceUrlVar]) else None
  }

  /** The port a parsed service URL gives: its own port when truthy (not
      None, not 0), else 80 for `http` and 443 for `https`, else none. */
  function UrlPort(url: ParsedUrl): (p: Option<int>)
    ensures url.port.Some? && url.port.value != 0 ==> p == url.port
    ensures (url.port.None? || url.port.value == 0) ==>
      p == (if url.scheme == "http" then Some(80) else if url.scheme == "https" then Some(443) else None)
  {
    if url.port.Some? && url.port.value != 0 then url.port
    else if url.scheme == "http" then Some(80)
    else if url.scheme == "https" then Some(443)
    else None
  }

  /** The host name of a parsed URL when truthy. */
  function UrlHost(url: ParsedUrl): (h: Option<string>)
    ensures h.Some? <==> url.hostname.Some? && url.hostname.value != ""
    ensures h.Some? ==> h == url.hostname
  {
    if url.hostname.Some? && url.hostname.value != "" then url.hostname else None
  }

  // ---------------------------------------------------------------------
  // SSL options

  /** A value of the SSL options dictionary: a file path,
      `ssl.PROTOCOL_TLS` or `ssl.CERT_REQUIRED`. */
  datatype SslValue = SslPath(path: string) | ProtocolTls | CertRequired

  /** The SSL options for the three files (empty meaning unset): None when
      no file is set; otherwise a path entry for each file that is set, the
      protocol, and required client certificates iff a client CA is set. */
  ghost predicate SslOptionsFor(keyfile: string, certfile: string, clientCa: string,
                                r: Option<map<string, SslValue>>) {
    && (r.None? <==> keyfile == "" && certfile == "" && clientCa == "")
    && (r.Some? ==>
          && r.value.Keys == (if keyfile != "" then {"keyfile"} else {})
                             + (if certfile != "" then {"certfile"} else {})
                             + (if clientCa != "" then {"ca_certs", "cert_reqs"} else {})
                             + {"ssl_version"}
          && (keyfile != "" ==> r.value["keyfile"] == SslPath(keyfile))
          && (certfile != "" ==> r.value["certfile"] == SslPath(certfile))
          && (clientCa != "" ==> r.value["ca_certs"] == SslPath(clientCa)
                                 && r.value["cert_reqs"] == CertRequired)
          && r.value["ssl_version"] == ProtocolTls)
  }

  /** The SSL options are determined by the three files: two dictionaries
      meeting the description are equal. */
  lemma SslOptionsUnique(keyfile: string, certfile: string, clientCa: string,
                         a: Option<map<string, SslValue>>, b: Option<map<string, SslValue>>)
    requires SslOptionsFor(keyfile, certfile, clientCa, a)
    requires SslOptionsFor(keyfile, certfile, clientCa, b)
    ensures a == b
  {
    if a.Some? {
      assert a.value.Keys == b.value.Keys;
      forall k | k in a.value.Keys
        ensures a.value[k] == b.value[k]
      {
      }
      assert a.value == b.value;
    }
  }
}
