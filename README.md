# jupyter-server-proxy, modelled in Dafny

jupyter-server-proxy is a Tornado extension for Jupyter servers that
starts backend processes on demand and proxies HTTP, websocket and raw
TCP traffic to them. This project models the sequential decision logic
under that plumbing. Every network reply, probe outcome, liveness check,
environment variable and parsed URL is a parameter.

The modules follow the source files:

| module | source |
|---|---|
| `Manager` | the process registry of `jupyter_server_proxy/manager.py` |
| `Utils` | `call_with_asked_args` and `mime_types_match` of `jupyter_server_proxy/utils.py` |
| `Config` | handler selection, proxy attributes, route building, launcher-entry and server validation, and the host allowlist of `jupyter_server_proxy/config.py` |
| `Forwarding` | the request shaping and response filtering of `LocalProxyHandler`, whose code is the same in `jupyter_server_proxy/handlers.py` and `nbserverproxy/handlers.py` (except for `str(port)`) |
| `Supervise` | `SuperviseAndProxyHandler` of `jupyter_server_proxy/handlers.py`: port caching and `ensure_process` |
| `NbHandlers` | the start state machine of `nbserverproxy/handlers.py`, with `'starting'`/`'proc'` keys, the exit callback, `conditional_start`, `is_running` and `AddSlashHandler` |
| `NbConfig` | `nbserverproxy/config.py` |
| `NativeProxy` | `jupyter_server_proxy/native_proxy.py` |
| `StandaloneApp` | `jupyter_server_proxy/standalone/app.py` |
| `StandaloneCli` | `jupyter_server_proxy/standalone/__init__.py` |
| `Api` | `jupyter_server_proxy/api.py` |
| `WebSocket` | `jupyter_server_proxy/websocket.py` |
| `RawSocket` | `jupyter_server_proxy/rawsocket.py` |
| `LabExtension` | `labextension/src/index.ts` |

Shared modules:

| module | contents |
|---|---|
| `Common` | Option/Result, Python string operations (`split`, `strip`, `replace`, `lower`) and `str()` of integers, plus `url_path_join` |
| `Dicts` | Python dicts as insertion-ordered pairs |
| `HttpHeaders` | tornado's `HTTPHeaders`, as ordered fields of one name and several values. Names are normalized (`_normalize_header`) before they are stored or looked up |
| `Templates` | the str/list/dict values that `_render_template` walks |
| `HubEnv` | the JupyterHub environment variables: the service URL, its host and port, and the SSL option dictionaries |

Files whose fields the source updates in place have classes with
`modifies` clauses:
- the registry;
- the handlers and their shared `state` dictionary;
- the ping-forwarding client connection;
- the raw-socket handler with its transport and keepalive task;
- the lab extension's tracker, shell and browser.

Loops in the source are methods with loop invariants, and each method is
proved against a specification function or predicate. Pure decisions are
functions, and their properties are lemmas.

The source files come from different snapshots of the project. Each file
is modelled as written and the files are not wired into one another. For
example:
- `config.py` names a `NamedLocalProxyHandler` that the `handlers.py` modelled here does not define;
- the handler classes appear as tags.

## Model

| member | source | states |
|---|---|---|
| Manager.ServerProxyAppManager.constructor | jupyter_server_proxy/manager.py:34-43 | Both lists start empty and the counter is 0. |
| Manager.ServerProxyAppManager.AddServerProxyApp | jupyter_server_proxy/manager.py:45-67 | Adds exactly one entry at the end of each list and raises the counter by exactly 1. The entry has url `url_path_join(base_url, name)` and cmd the command joined by single spaces, and it is managed iff a process is given. The lists stay parallel. |
| Manager.ServerProxyAppManager.DelServerProxyApp | jupyter_server_proxy/manager.py:69-77 | Both lists lose every entry with the name and keep the others in order. The counter goes down by 1 whether or not an entry had the name. |
| Manager.ServerProxyAppManager.GetServerProxyApp | jupyter_server_proxy/manager.py:79-81 | The first entry with that name: it has the name and no earlier entry does. None (the source's `{}`) iff no entry has it. |
| Manager.ServerProxyAppManager.ListServerProxyApps | jupyter_server_proxy/manager.py:87-89 | The registered entries, in the order `add_server_proxy_app` appended them. A name is found by `get_server_proxy_app` iff some listed entry has it, and every listed name is found. |
| Manager.FirstApp | jupyter_server_proxy/manager.py:79-81 | The result has the name and no earlier entry does; None iff no entry has the name. |
| Manager.FindProc | jupyter_server_proxy/manager.py:83-85 | The result is the entry at some position whose name equals the argument, and no earlier entry's name does. It is None iff no entry matches, and always None for a ServerProxy entry. |
| Manager.ServerProxyAppManager.TerminateServerProxyApp | jupyter_server_proxy/manager.py:95-114 | For an unknown name, or an entry without a process, the AttributeError is caught: None is returned and the lists and counter are unchanged. Otherwise the first matching process gets SIGTERM, the name is deleted as `del_server_proxy_app` deletes it, and True is returned. |
| Manager.ServerProxyAppManager.TerminateAll | jupyter_server_proxy/manager.py:116-119 | Each call to `terminate_server_proxy_app` passes an entry rather than a name. No process is found (`_get_server_proxy_proc` matches names only), so the lists and the counter stay unchanged. |
| Manager.ServerProxyAppManager.MonitorServerProxyProcs | jupyter_server_proxy/manager.py:14-25 | The new state is the old one with the names `MonitorDeletes` lists deleted in turn: one per dead pid, up to the first entry without a process. The counter drops once per deletion. The scan aborts iff some entry has no process. |
| Manager.ServerProxyAppManager.MonitorEntry | jupyter_server_proxy/manager.py:23-25 | For one entry with a process, a dead pid has its name deleted and the counter drops by 1. For a live pid nothing changes. |
| Manager.AlignedWithout | jupyter_server_proxy/manager.py:69-76 | Filtering both lists by the same name keeps them parallel. |
| Manager.AppsWithoutMembers | jupyter_server_proxy/manager.py:69-76 | After deleting a name, an entry is kept iff it has another name. |
| Manager.AppsWithoutOrder | jupyter_server_proxy/manager.py:69-76 | Deleting never lengthens the list and works piece by piece (`without(a + b) == without(a) + without(b)`), so the kept entries keep their relative order. |
| Manager.ProcsWithoutMembers | jupyter_server_proxy/manager.py:69-76 | The same as AppsWithoutMembers for the private list. |
| Manager.DelMissingNameLeavesLists | jupyter_server_proxy/manager.py:69-77 | Deleting a name no entry carries leaves both lists as they were; with `DelServerProxyApp`, only the counter drops. |
| Manager.AppsWithoutAllMembers | jupyter_server_proxy/manager.py:14-25 | Deleting several names keeps exactly the entries named by none of them. |
| Manager.ProcsWithoutAllMembers | jupyter_server_proxy/manager.py:14-25 | The same as AppsWithoutAllMembers for the private list. |
| Manager.MonitorDeletesDead | jupyter_server_proxy/manager.py:14-25 | When every entry has a process, a name is deleted iff some entry of that name has a dead pid. |
| Manager.MonitorKeepsLive | jupyter_server_proxy/manager.py:14-25 | After a monitor pass over entries that all have processes, an entry remains iff no entry of its name had a dead pid. |
| Utils.AskedValues | jupyter_server_proxy/utils.py:16-22 | The values `args` holds for the asked names, in asked order. Every asked name is either present or missing. |
| Utils.MissingNames | jupyter_server_proxy/utils.py:19-23 | The asked names absent from `args`, in asked order. It is empty iff every asked name is present. |
| Utils.CallWithAskedArgs | jupyter_server_proxy/utils.py:16-30 | The loop builds the asked values and the missing names. The result is a TypeError naming every missing parameter, else the callback applied to the asked values. |
| Utils.AskedCallPassesDeclared | jupyter_server_proxy/utils.py:16-30 | With no name missing, the callback receives exactly the declared parameters' values in declared order. |
| Utils.AskedCallMissing | jupyter_server_proxy/utils.py:23-29 | A missing parameter raises TypeError before the callback runs, and the message lists every missing name in declared order. |
| Utils.AskedCallIgnoresExtra | tests/test_utils.py:4-13 | `a=5, b=4, c=8` given to a callback of `a, b` yields 20; the extra `c` is ignored. |
| Utils.MimeTypesMatch | jupyter_server_proxy/utils.py:33-47 | The value is cut at its first `;`. Equal strings match. A `*` type matches any value, `T/*` matches any value of type `T`, and everything else does not match. A value without exactly one `/` raises ValueError, and an equal-typed pattern without `/` raises IndexError. |
| Utils.MimeTypesMatchWellFormed | jupyter_server_proxy/utils.py:41-47 | For a well-formed value and pattern, the match never fails and is true iff one of the three rules applies. |
| Utils.MimeAnyType | jupyter_server_proxy/utils.py:44-45 | `*/x` matches every well-formed value. |
| Utils.MimeAnySubtype | jupyter_server_proxy/utils.py:44-45 | `T/*` matches exactly the well-formed values of type `T`. |
| Utils.MimeIgnoresParameters | jupyter_server_proxy/utils.py:37 | A `;`-suffix of the value does not change the outcome. |
| Config.ProxyBaseClass | jupyter_server_proxy/config.py:271-291 | A truthy command gives the supervised raw-socket handler if `raw_socket_proxy`, else the supervised proxy handler, with kwargs `{state: {}}`. Without a command, a port of 0 and a non-string unix socket give `(None, {})`. Otherwise the result is the raw-socket or named local handler with empty kwargs. A warning is logged iff there is no class. |
| Config.ProxyAttributes | jupyter_server_proxy/config.py:293-317 | The dictionary built key by key equals `AttributesOf` of the server. |
| Config.AttributesOfKeys | jupyter_server_proxy/config.py:293-317 | The 8 common keys always appear. A supervised server adds `requested_port`, `requested_unix_socket`, `environment` and `timeout`; any other server adds `port` and `unix_socket`. |
| Config.AttributesOfValues | jupyter_server_proxy/config.py:293-317 | `name` and `proxy_base` both hold the server's name. The pass-through traits hold their values. A supervised server's port and socket go under the requested names. |
| Config.MakeProxyHandler | jupyter_server_proxy/config.py:319-347 | The handler setup is the base class and kwargs of `ProxyBaseClass` together with the server's attributes, or None when there is no class. |
| Config.ServerRoutes | jupyter_server_proxy/config.py:363-374 | A server with a handler has two routes, `base/name/(.*)` then `base/name`. A server without one has none. |
| Config.MakeHandlers | jupyter_server_proxy/config.py:363-374 | The loop's result is `Routes` of the servers, server by server. |
| Config.ServerRoutesBy | jupyter_server_proxy/config.py:363-374 | A server's routes are determined by the setup `MakeProxyHandler` makes for it. |
| Config.RoutesSnoc | jupyter_server_proxy/config.py:363-374 | One more server appends its own routes at the end. |
| Config.RoutesConcat | jupyter_server_proxy/config.py:363-374 | The routes of a concatenation are the routes of each part in order, so server order is preserved. |
| Config.RoutesOne | jupyter_server_proxy/config.py:363-374 | A server with a handler contributes exactly its proxy route followed by the slash redirect; one without contributes nothing. |
| Config.RoutesCount | jupyter_server_proxy/config.py:363-374 | There are exactly two routes per server that has a handler. |
| Config.RoutePatterns | jupyter_server_proxy/config.py:363-374 | Under base `/b`, a server named by a single path segment gets the patterns `/b/name/(.*)` and `/b/name`. |
| Config.LauncherEntry.constructor | jupyter_server_proxy/config.py:186-193 | A new entry holds exactly the given enabled flag, icon path, title, path and category. |
| Config.ValidateLauncherEntry | jupyter_server_proxy/config.py:180-189 | An instance has its title and path overwritten with `name` and `name + "/"`, unconditionally. A dict becomes a fresh entry whose supplied keys win over those defaults. |
| Config.DictEntryDefaults | jupyter_server_proxy/config.py:186-193 | A dict entry keeps the defaults exactly for the keys it leaves out. |
| Config.ValidateServers | jupyter_server_proxy/config.py:408-421 | The input keys are kept in order. An instance keeps its own non-empty name, else takes the key. A dict gets the key as name unless it supplies its own. |
| Config.ServerProxy.constructor | jupyter_server_proxy/config.py:459-461 | `host_allowlist` defaults to `["localhost", "127.0.0.1"]` and nothing is warned. |
| Config.ServerProxy.SetHostWhitelist | jupyter_server_proxy/config.py:469-486 | A value different from the allowlist is copied into `host_allowlist` with one deprecation warning. The same value changes nothing and warns nothing. |
| Config.DeprecatedWhitelistExample | tests/test_config.py:7-19 | Setting `host_whitelist = ['jupyter.example.org']` logs exactly the deprecation warning and leaves that value in `host_allowlist`. |
| Config.SameWhitelistExample | jupyter_server_proxy/config.py:469-486 | Re-setting the current allowlist as the whitelist warns nothing. |
| Forwarding.PortText | jupyter_server_proxy/handlers.py:157-173 | `str(port)`: a non-empty decimal text that reads back as `port`. |
| Forwarding.NormalizeBody | jupyter_server_proxy/handlers.py:150-155 | A non-empty body is forwarded unchanged. An empty one becomes `b''` for POST and no body for any other method. |
| Forwarding.QuerySuffix | jupyter_server_proxy/handlers.py:157-163 | `?query` iff the query is non-empty, else nothing. |
| Forwarding.HttpBackendUri | jupyter_server_proxy/handlers.py:157-163 | `http://localhost:` + port + path, followed by the query suffix. |
| Forwarding.HttpBackendUriQuery | jupyter_server_proxy/handlers.py:157-163 | Without a `?` in the path, the text up to the first `?` is the plain location and the rest is the query. |
| Forwarding.WsPath | jupyter_server_proxy/handlers.py:39-40 | The path gains a leading `/` iff it lacks one; otherwise it is unchanged. The supervised handler's `proxy` (lines 338-339) uses the same rule. |
| Forwarding.WsBackendUri | jupyter_server_proxy/handlers.py:39-48 | `ws://127.0.0.1:` + port + the `/`-prefixed path, followed by the query suffix. |
| Forwarding.ContextPath | jupyter_server_proxy/handlers.py:172-173 | An absolute base URL gives an absolute context path; its exact shape is in ContextPathAtRoot and ContextPathUnderBase. |
| Forwarding.ContextPathAtRoot | jupyter_server_proxy/handlers.py:172-173 | Under base `/`, the context is `/proxy/<port>`. |
| Forwarding.ContextPathUnderBase | jupyter_server_proxy/handlers.py:172-173 | Under a one-segment base `/a`, the context is `/a/proxy/<port>`. |
| Forwarding.IntPortIsSegment | jupyter_server_proxy/handlers.py:173 | The text of any integer port is a non-empty path segment free of `/`. |
| Forwarding.ForwardHeadersSpec | jupyter_server_proxy/handlers.py:139-173 | The backend sees no `Proxy-Connection` in any spelling. `X-Forwarded-Context` and `X-ProxyContextPath`, in any spelling, have the context path as their value. The latter is stored under its normalized name as one field with that single value, and every header normalizing to none of the three names is as the client sent it. The headers stay well formed. |
| Forwarding.StripProxyConnectionSpec | jupyter_server_proxy/handlers.py:139-140 | After the delete, `Proxy-Connection` is absent in every spelling. Every header normalizing differently keeps its value, and well-formed headers stay well formed. |
| Forwarding.ContextPathHeaderName | tests/test_standalone.py:92 | The context header reaches the backend spelled `X-Proxycontextpath`. |
| Forwarding.ForwardRequest | jupyter_server_proxy/handlers.py:139-178 | The backend request carries the backend URI, the method, the normalised body, the forwarded headers (see ForwardHeadersSpec) and `follow_redirects=False`. |
| Forwarding.FilterResponseHeaders | jupyter_server_proxy/handlers.py:191-198 | The loop over `get_all` rebuilds exactly the backend fields without Content-Length, Transfer-Encoding, Content-Encoding and Connection. Order and repeated values are kept, the result is well formed, and for well-formed backend headers none of the four names is present in any spelling. |
| Forwarding.ReplyHeaders | jupyter_server_proxy/handlers.py:191-198 | For well-formed backend headers, the client's fields are the backend fields minus the four hop-by-hop names, well formed, with none of those names in any spelling. The client's `get_all` is the backend pairs minus those names, in order and with repeats. |
| Forwarding.Reply | jupyter_server_proxy/handlers.py:184-201 | A non-HTTP fetch error gives 500 with the error text as body and leaves the default headers alone. Any other outcome copies status and reason, replaces the headers by the filtered backend headers and copies the body if any. |
| Forwarding.ProxyHandler.Proxy | jupyter_server_proxy/handlers.py:130-201 | The request sent is `ForwardRequest`, the client response is `Reply` of the backend's answer, and `Proxy-Connection` is gone from the request headers in every spelling (StripProxyConnectionSpec). |
| Forwarding.ProxyHandler.ShapeRequest | jupyter_server_proxy/handlers.py:139-178 | This is the part before the fetch. `Proxy-Connection`, in any spelling, is deleted from the handler's request headers (StripProxyConnectionSpec) and the request is `ForwardRequest`; the response headers and body are untouched. |
| Forwarding.ProxyHandler.Respond | jupyter_server_proxy/handlers.py:180-201 | This is the part after the fetch. The handler's status, reason, headers and written body become those of `Reply`. |
| Forwarding.ProxyHandler.Open | jupyter_server_proxy/handlers.py:32-49 | The websocket request goes to `WsBackendUri` with the client's headers as they are. |
| Forwarding.ProxyHandler.Connected | jupyter_server_proxy/handlers.py:74-83 | The handler holds the backend connection; nothing else changes. |
| Forwarding.ProxyHandler.BackendMessage | jupyter_server_proxy/handlers.py:51-63 | A backend message goes to the client with its kind (binary or text) kept. None closes the client side. |
| Forwarding.ProxyHandler.BackendPing | jupyter_server_proxy/handlers.py:65-72 | A backend ping is passed to the client unchanged. |
| Forwarding.ProxyHandler.OnMessage | jupyter_server_proxy/handlers.py:85-93 | A client message reaches the backend iff a connection exists; otherwise nothing changes. |
| Forwarding.ProxyHandler.OnPing | jupyter_server_proxy/handlers.py:95-104 | A client ping reaches the backend iff a connection exists. |
| Forwarding.ProxyHandler.OnClose | jupyter_server_proxy/handlers.py:112-119 | Closing the client closes the backend connection if there is one. |
| Forwarding.SelectSubprotocol | jupyter_server_proxy/handlers.py:246-251 | The first offered subprotocol, or none when none is offered. |
| HttpHeaders.Get | jupyter_server_proxy/websocket.py:100 | `headers.get(n)` has a value iff `n` is present in some spelling. |
| HttpHeaders.NormalizeHeaderWords | jupyter_server_proxy/handlers.py:172-173 | The character-wise normalization equals tornado's `"-".join(w.capitalize() for w in name.split("-"))`. |
| HttpHeaders.NormalizeHeaderExample | tests/test_standalone.py:92 | `X-ProxyContextPath` normalizes to `X-Proxycontextpath`: each `-`-separated word is capitalized and the rest of it lowered. |
| HttpHeaders.NormalizeKeepsDashes | jupyter_server_proxy/handlers.py:172-173 | Normalizing moves no `-`. |
| HttpHeaders.NormalizeHeaderIdempotent | jupyter_server_proxy/handlers.py:139-140 | Normalizing a normalized name changes nothing. |
| HttpHeaders.NormalizeHeaderSame | jupyter_server_proxy/handlers.py:139-140 | Two names normalize alike iff they are equal up to ASCII case, so the client's `proxy-connection` is the same header as `Proxy-Connection`. |
| HttpHeaders.SameHeader | jupyter_server_proxy/handlers.py:139-140 | `in`, `get`, `del`, `[]=` and `add` give the same result for any two names that normalize alike. |
| HttpHeaders.SameAsNormalized | jupyter_server_proxy/handlers.py:139-140 | A name and its normalized spelling are the same header for `in`, `get`, `del` and `[]=`. |
| HttpHeaders.HasIndex | jupyter_server_proxy/handlers.py:139 | `n in headers` iff some field carries the normalized name. |
| HttpHeaders.Delete | jupyter_server_proxy/handlers.py:139-140 | A field remains iff it was there and its name is not the normalized `n`; the result is never longer. |
| HttpHeaders.DeleteWellFormed | jupyter_server_proxy/handlers.py:139-140 | Deleting keeps the headers well formed. |
| HttpHeaders.DeleteKeepsWellFormed | jupyter_server_proxy/handlers.py:139-140 | Each remaining name appears once and keeps its values. |
| HttpHeaders.DeleteRemoves | jupyter_server_proxy/handlers.py:139-140 | After `del headers[n]`, no spelling of `n` is present. |
| HttpHeaders.DeleteGetOther | jupyter_server_proxy/handlers.py:139-140 | Deleting `n` leaves the value of every name that normalizes differently alone. |
| HttpHeaders.SetGetSame | jupyter_server_proxy/handlers.py:172-173 | `headers[n] = v` makes `v` the value of every spelling of `n`. |
| HttpHeaders.SetGetOther | jupyter_server_proxy/handlers.py:172-173 | `headers[n] = v` leaves the value of every name that normalizes differently alone. |
| HttpHeaders.SetShape | jupyter_server_proxy/handlers.py:172-173 | The field with the normalized name is replaced in place by that name with the single value `v`, or appended when there was none; every other field stays where it was. |
| HttpHeaders.SetWellFormed | jupyter_server_proxy/handlers.py:172-173 | Setting keeps the headers well formed. |
| HttpHeaders.AddWellFormed | jupyter_server_proxy/handlers.py:196-198 | `add_header` keeps the headers well formed: a new name is stored normalized, and a known one only gains a value. |
| HttpHeaders.AddAllWellFormed | jupyter_server_proxy/handlers.py:194-198 | Adding any list of pairs in turn keeps the headers well formed. |
| HttpHeaders.FilterFieldsDrops | jupyter_server_proxy/handlers.py:194-198 | After dropping a set of normalized names, no spelling of a dropped name is present. |
| HttpHeaders.Pairs | jupyter_server_proxy/handlers.py:192-193 | The pairs of one field are its name with each value, in order. |
| HttpHeaders.FilterPairs | jupyter_server_proxy/handlers.py:192-198 | A pair remains iff it was there and its name is not dropped. |
| HttpHeaders.FilterFields | jupyter_server_proxy/handlers.py:192-198 | A field remains iff it was there and its name is not dropped. |
| HttpHeaders.RebuildFiltered | jupyter_server_proxy/handlers.py:192-198 | Adding the surviving `get_all` pairs of well-formed headers to empty headers rebuilds exactly the surviving fields. |
| HttpHeaders.GetAllFiltered | jupyter_server_proxy/handlers.py:192-198 | `get_all` of the surviving fields is the surviving pairs. |
| Supervise.State.constructor | jupyter_server_proxy/handlers.py:258-261 | A fresh state has no port, process or lock. |
| Supervise.SuperviseAndProxyHandler.constructor | jupyter_server_proxy/handlers.py:258-261 | The handler keeps the shared state, which has a lock afterwards; its port and process are unchanged. |
| Supervise.HttpReady | jupyter_server_proxy/handlers.py:290-299 | Ready iff the probe of `http://localhost:<port>` answers 200; a refused connection is not ready. |
| Supervise.SuperviseAndProxyHandler.Port | jupyter_server_proxy/handlers.py:265-275 | The state's port is returned when it has one, and nothing changes. Otherwise the fresh port is stored and returned. |
| Supervise.SuperviseAndProxyHandler.PortIsAllocatedOnce | jupyter_server_proxy/handlers.py:265-275 | Two reads give the same port whatever the OS would hand out the second time. |
| Supervise.SuperviseAndProxyHandler.EnsureProcess | jupyter_server_proxy/handlers.py:301-333 | With `'proc'` already in the state, nothing happens. Otherwise the port is allocated first (`get_cmd` and `get_env` render with it), so afterwards the state holds the old port or the fresh one. The command and environment are rendered for that port. A normal return leaves `'proc'` present and ready. Not ready kills the process and raises 500. Any failure leaves `'proc'` absent. |
| Supervise.SuperviseAndProxyHandler.ProxyTarget | jupyter_server_proxy/handlers.py:336-343 | On success the request goes to the state's port (the old one, else the fresh one) with a `/`-prefixed path, and `'proc'` is present; on failure `'proc'` is absent. |
| Supervise.SuperviseAndProxyHandler.OpenTarget | jupyter_server_proxy/handlers.py:349-351 | On success the connection goes to the state's port (the old one, else the fresh one) with the path as given, and `'proc'` is present; on failure `'proc'` is absent. |
| NbHandlers.AddSlash | nbserverproxy/handlers.py:18-24 | The redirect target adds `/` to the path only. Scheme, host, query and fragment are kept. |
| NbHandlers.IsRunning | nbserverproxy/handlers.py:343-368 | False once the process has exited. True for a successful fetch or an HTTPError that carries a response. False for an HTTPError without one, or for any other error. |
| NbHandlers.FirstUp | nbserverproxy/handlers.py:413-426 | The index of the first probe that finds the process up, or the probe count if none does. |
| NbHandlers.FirstUpAt | nbserverproxy/handlers.py:413-426 | An up probe with no earlier up probe is where `FirstUp` stops. |
| NbHandlers.FirstUpNone | nbserverproxy/handlers.py:413-426 | `FirstUp` is the probe count iff no probe finds the process up. |
| NbHandlers.ProbeUntilUp | nbserverproxy/handlers.py:413-426 | The `range(8)` loop reports success iff one of the first 8 probes finds the process up. |
| NbHandlers.NbState.constructor | nbserverproxy/handlers.py:326-327 | A fresh state has no `'starting'`, `'proc'` or `'port'`. |
| NbHandlers.NbSuperviseHandler.constructor | nbserverproxy/handlers.py:326-327 | The handler keeps the shared state. |
| NbHandlers.NbSuperviseHandler.Port | nbserverproxy/handlers.py:330-340 | The state's port is returned when it has one. Otherwise the fresh port is stored and returned. Nothing else changes. |
| NbHandlers.NbSuperviseHandler.StartProcess | nbserverproxy/handlers.py:383-431 | A pending start or an existing process raises at once and changes nothing. Otherwise the port is allocated (`get_cmd` renders with it) and the process is created for it. `'proc'` is stored only after a probe finds the process up, and `'starting'` is deleted. After 8 failed probes `'starting'` is cleared, the process terminated and 500 raised, and `'proc'` is never set. |
| NbHandlers.NbSuperviseHandler.ExitCallback | nbserverproxy/handlers.py:399-406 | `'proc'` is always dropped. A restart is scheduled iff the exit code is nonzero and no start is pending. |
| NbHandlers.WaitForProc | nbserverproxy/handlers.py:445-454 | The `range(5)` loop reports success iff `'proc'` shows up at one of the 5 checks. |
| NbHandlers.NbSuperviseHandler.ConditionalStart | nbserverproxy/handlers.py:442-458 | While starting, it checks for `'proc'` at most 5 times, succeeding iff one check sees it, else raising 500, and the state is unchanged. With no start pending and no `'proc'`, it starts the process as StartProcess does: the port is allocated, and `'proc'` is stored iff one of the 8 probes finds it up, else 500. With `'proc'` present, nothing happens. |
| NbHandlers.NbContextPath | nbserverproxy/handlers.py:241-242 | As written, `url_path_join` on an integer port raises AttributeError, and a text port joins normally. |
| NbHandlers.NbSupervisedContextPathFails | nbserverproxy/handlers.py:241-242 | A supervised request on port 8888 under `/` fails, where `str(port)` gives `/proxy/8888`. |
| NbConfig.RenderTemplate | nbserverproxy/config.py:41-53 | A value that is not a str, list or dict falls through to None and never raises. The str/list/dict cases are Templates.RenderScalars, RenderList and RenderDict. |
| NbConfig.GetCmd | nbserverproxy/config.py:55-56 | The rendered `command`, or KeyError when there is none. |
| NbConfig.GetEnv | nbserverproxy/config.py:58-59 | The rendered `environment`, or `{}` when there is none. |
| NbConfig.CommandListRendered | nbserverproxy/config.py:45-56 | A command list keeps its length, and each argument is formatted with the port. |
| NbConfig.GetHandlers | nbserverproxy/config.py:64-77 | Two routes per server in dict order. Each proxy route gets a newly created `state` of its own, distinct from every other. |
| NbConfig.PatternsUnderBase | nbserverproxy/config.py:64-77 | Under base `/base`, server `name` gets `/base/name/(.*)` and `/base/name`. |
| Templates.RenderKey | jupyter_server_proxy/native_proxy.py:109-110 | A `str` key renders iff formatting it succeeds, to the formatted text; any other key takes the fall-back (None in nbserverproxy, ValueError in the native proxy). |
| Templates.RenderItems | nbserverproxy/config.py:49-50 | The first `n` list elements are rendered in order, and the first failure is the error. |
| Templates.RenderPairs | nbserverproxy/config.py:51-52 | The first `n` dict items are rendered in order, key before value, and the first failure is the error. |
| Templates.RenderScalars | nbserverproxy/config.py:45-48 | A string is formatted; any other scalar takes the fall-back (None in nbserverproxy, ValueError in the native proxy). |
| Templates.RenderList | jupyter_server_proxy/native_proxy.py:101-113 | A list renders to a list of the same length whose i-th element is the i-th element rendered. It fails iff an element fails, with the first failing element's error. |
| Templates.RenderDict | jupyter_server_proxy/native_proxy.py:101-113 | The keys are exactly the rendered keys, and each item is the last rendered item under its key. |
| Templates.RenderDictLastWins | nbserverproxy/config.py:51-52 | When several items render to one key, the rendered dict holds the last one's value. |
| Templates.RenderDictDistinct | nbserverproxy/config.py:51-52 | With pairwise distinct rendered keys, the size and order are kept item by item. |
| NativeProxy.RenderTemplate | jupyter_server_proxy/native_proxy.py:101-113 | A value that is not a str, list or dict raises ValueError. The str/list/dict cases are Templates.RenderScalars, RenderList and RenderDict. |
| NativeProxy.GetEnv | jupyter_server_proxy/native_proxy.py:115-121 | A callable environment raises; an environment value is rendered. |
| NativeProxy.HubUsers | jupyter_server_proxy/native_proxy.py:85-87 | The singleton set of the `user` setting; KeyError without one. |
| NativeProxy.HubGroups | jupyter_server_proxy/native_proxy.py:89-93 | Empty when the group setting is empty, else the singleton of that group; KeyError without one. |
| NativeProxy.AllowAll | jupyter_server_proxy/native_proxy.py:95-99 | When the `anyone` key is present, true iff it equals `"1"`; otherwise the inherited default. |
| NativeProxy.GetPortFromEnv | jupyter_server_proxy/native_proxy.py:244-253 | The URL's own port if truthy, else 80 for http and 443 for https, else 8888 (also when the URL is unset or empty). |
| NativeProxy.GetSslOptions | jupyter_server_proxy/native_proxy.py:209-240 | The dictionary filled step by step meets `SslOptionsFor`. It is None iff all three variables are empty. Each file's key appears iff it is set, and `cert_reqs` appears iff a CA is set. |
| NativeProxy.RunPrefix | jupyter_server_proxy/native_proxy.py:347-350 | The service prefix (default `/`) with one trailing `/` removed. |
| NativeProxy.RunPrefixOneSlash | jupyter_server_proxy/native_proxy.py:347-350 | Only one slash goes: `/user/x//` becomes `/user/x/`, and `/` becomes empty. |
| NativeProxy.ListenPort | jupyter_server_proxy/native_proxy.py:339-372 | `port or get_port_from_env()`: a port of 0 falls back to the environment's port. |
| HubEnv.ServiceUrl | jupyter_server_proxy/native_proxy.py:245-246 | The service URL iff it is set to a non-empty value. |
| HubEnv.UrlPort | jupyter_server_proxy/native_proxy.py:247-252 | The URL's truthy port, else 80 for http and 443 for https, else none. |
| HubEnv.UrlHost | jupyter_server_proxy/standalone/app.py:79-82 | The URL's host name iff truthy. |
| HubEnv.SslOptionsUnique | jupyter_server_proxy/native_proxy.py:209-240 | The SSL options are determined by the three files: any two dictionaries meeting `SslOptionsFor` are equal. |
| StandaloneApp.ValidatePrefix | jupyter_server_proxy/standalone/app.py:54-59 | One trailing `/` is dropped; the empty prefix raises IndexError. |
| StandaloneApp.DefaultPrefix | jupyter_server_proxy/standalone/app.py:46-52 | The service prefix, or `/` when unset, validated as `ValidatePrefix` validates. |
| StandaloneApp.ValidatePrefixOnce | jupyter_server_proxy/standalone/app.py:54-59 | A prefix loses at most one slash. Validating again changes it only if it still ends with one. |
| StandaloneApp.DefaultAddress | jupyter_server_proxy/standalone/app.py:77-84 | The service URL's host name, else `127.0.0.1`. |
| StandaloneApp.DefaultPort | jupyter_server_proxy/standalone/app.py:91-103 | The URL's port, else 80 or 443 by scheme, else 8888. |
| StandaloneApp.DefaultPortIsNativePort | jupyter_server_proxy/standalone/app.py:91-103 | The standalone default port equals the native proxy's `get_port_from_env`. |
| StandaloneApp.DefaultAddressAndPortExamples | tests/test_standalone.py:15-36 | `http://localhost/` gives `localhost:80`, `https://localhost/` gives `localhost:443`, and `http://localhost:7777/` gives `localhost:7777`. |
| StandaloneApp.Flags | jupyter_server_proxy/standalone/app.py:135-150 | The application's flags, then the server's own, with `y` popped. KeyError when the application has no `y`. |
| StandaloneApp.TraitAliasesAsWritten | jupyter_server_proxy/standalone/app.py:159-171 | As written, a trait is skipped iff it is ignored or its trait name is a flag. The others map `name.replace('_','-')` to `StandaloneProxyServer.<name>`. |
| StandaloneApp.TraitAliases | jupyter_server_proxy/standalone/app.py:159-171 | As intended, a trait is skipped iff it is ignored or its option name is a flag. |
| StandaloneApp.FlaggedTraitKeepsAlias | jupyter_server_proxy/standalone/app.py:159-171 | As written, a non-ignored trait whose option name is a flag still gets an alias of that name; the intended filter drops it. |
| StandaloneApp.AbsoluteUrlIsFlagged | jupyter_server_proxy/standalone/app.py:140-171 | `absolute_url` is such a trait: its alias `absolute-url` is also a flag. |
| StandaloneApp.TraitAliasesAvoidFlags | jupyter_server_proxy/standalone/app.py:159-171 | With the intended filter no alias is a flag or an ignored trait, and every other trait gets its alias. |
| StandaloneApp.MergeAliases | jupyter_server_proxy/standalone/app.py:173-182 | The application's aliases, then the trait aliases, then the server's own, merged into a dict: every alias name appears once. |
| StandaloneApp.Aliases | jupyter_server_proxy/standalone/app.py:159-182 | The aliases as written, with the trait filter of TraitAliasesAsWritten: every alias name appears once and every own alias is present. |
| StandaloneApp.AliasesIntended | jupyter_server_proxy/standalone/app.py:159-182 | The aliases with the intended trait filter of TraitAliases: every alias name appears once and every own alias is present. |
| StandaloneApp.AliasesKeepOwn | jupyter_server_proxy/standalone/app.py:173-182 | For any trait aliases, the server's own aliases win over any application or trait alias of the same name. |
| StandaloneApp.ProxyAttributes | jupyter_server_proxy/standalone/app.py:202-212 | The parent's attributes, except that `proxy_base` is `/`, `requested_port` is `server_port`, and `no_authentication` is added. |
| StandaloneApp.ConfigureSsl | jupyter_server_proxy/standalone/app.py:249-271 | The dictionary filled by assignments meets `SslOptionsFor`: None when no variable is set, each file's key iff it is set, and `cert_reqs` iff a CA is set. |
| StandaloneApp.ReEscapePlain | jupyter_server_proxy/standalone/app.py:238 | `re.escape` leaves a string without special characters unchanged. |
| StandaloneApp.ReEscapeLonger | jupyter_server_proxy/standalone/app.py:238 | Escaping never shortens a string, and any special character lengthens it. |
| StandaloneApp.AppRoutesAsWritten | jupyter_server_proxy/standalone/app.py:238-246 | Three routes in order: the exact base redirect, then the OAuth callback, then `base/(.*)` to the proxy, with the same patterns as AppRoutes. The redirect target is the escaped base plus `/`. |
| StandaloneApp.AppRoutes | jupyter_server_proxy/standalone/app.py:238-246 | The same three routes, matching `^` + the escaped base URL (exactly, then with `/oauth_callback`, then with `/(.*)`), with the redirect going to the base URL itself plus `/`. |
| StandaloneApp.AppRoutesPlain | tests/test_standalone.py:74-83 | For a base without special characters, such as `/some/prefix`, both agree and the redirect goes to `/some/prefix/`. |
| StandaloneApp.EscapedRedirect | jupyter_server_proxy/standalone/app.py:238-242 | As written, a base with a special character redirects somewhere other than base + `/`. |
| StandaloneApp.EscapedUserRedirect | jupyter_server_proxy/standalone/app.py:238-242 | The redirect for user `a.b` under `/user/` goes to `/user/a\.b/`. |
| StandaloneCli.DefaultAddressAndPort | jupyter_server_proxy/standalone/__init__.py:15-36 | `("127.0.0.1", 8888)` without a service URL. With one, a non-empty host name replaces the address; independently a non-zero port replaces the port, else 80 or 443 by scheme. |
| StandaloneCli.DefaultsAgree | jupyter_server_proxy/standalone/__init__.py:15-36 | The command line's defaults equal the application's `DefaultAddress`/`DefaultPort` and the native proxy's port. |
| StandaloneCli.ParseColonPair | jupyter_server_proxy/standalone/__init__.py:146-154 | The value split on `:` with at most the first two parts kept. |
| StandaloneCli.ParseColonPairParts | jupyter_server_proxy/standalone/__init__.py:146-154 | `a:b` gives `(a, b)`, a value without `:` gives a 1-tuple, and `a:b:c` gives `(a, b)`. |
| StandaloneCli.DictOf | jupyter_server_proxy/standalone/__init__.py:76-77 | `dict(values)`: TypeError for None, ValueError for a tuple that is not a pair, else the pairs with later names winning. |
| StandaloneCli.DictOfKeys | jupyter_server_proxy/standalone/__init__.py:76-77 | The names are exactly the first parts of the tuples. |
| StandaloneCli.DictOfLastWins | jupyter_server_proxy/standalone/__init__.py:76-77 | Each name holds the second part of the last tuple with that name. |
| StandaloneCli.RemoveSlashSuffix | jupyter_server_proxy/standalone/__init__.py:69 | `removesuffix("/")`: one trailing `/` is removed, if present. |
| StandaloneCli.CliPrefix | jupyter_server_proxy/standalone/__init__.py:69-73 | The service prefix (`/` when unset) without one trailing `/`. |
| StandaloneCli.CliPrefixIsNativePrefix | jupyter_server_proxy/standalone/__init__.py:69-73 | This is the same prefix the native proxy's last-character test strips. |
| StandaloneCli.SocketArg | jupyter_server_proxy/standalone/__init__.py:75 | A non-empty socket path takes precedence over `socket_auto`. |
| StandaloneCli.Run | jupyter_server_proxy/standalone/__init__.py:62-77 | An empty address or a port of 0 falls back to the defaults. Then come the prefix, the socket, and the two dictionaries, environment first; the first dictionary error is the result. |
| StandaloneCli.EnvWithoutValueFails | jupyter_server_proxy/standalone/__init__.py:76-77 | `--env=MY_VAR` makes a 1-tuple (the parsing at line 146), and `run` fails with ValueError before making the application. |
| Api.EntryInfoOf | jupyter_server_proxy/api.py:22-35 | Exactly `enabled`, `title`, `new_browser_tab` and `path` are copied. `icon_url` is `ujoin(base_url, 'server-proxy', 'icon', server, entry)` iff the icon path is non-empty. |
| Api.ServersInfo | jupyter_server_proxy/api.py:12-39 | One item per server process in order, each with one item per launcher entry in order, as `EntryInfoOf` gives it. |
| Api.EntriesInfo | jupyter_server_proxy/api.py:22-35 | The inner loop yields `EntryInfoOf` of each launcher entry, in order. |
| Api.SplitOnce | jupyter_server_proxy/api.py:54 | `split('/', 1)`: a 1-tuple iff there is no `/`, else the part before the first `/` and the rest. The parts join back to the name. |
| Api.SplitOnceJoin | jupyter_server_proxy/api.py:54 | `server/entry` with `/`-free `server` splits into `[server, entry]`, and `server` alone into `[server]`. |
| Api.ContentType | jupyter_server_proxy/api.py:61-73 | gzip encoding gives `application/gzip`, and any other encoding gives octet-stream. Otherwise the guessed type, else octet-stream. |
| Api.ContentTypeChoices | jupyter_server_proxy/api.py:61-73 | The type is always gzip, octet-stream or the guess, and an encoded file never takes its guessed type. |
| Api.IconGet | jupyter_server_proxy/api.py:53-77 | A name whose split is not a key gives 404, and a read error is passed on. Otherwise the reply holds the file's bytes and `ContentType` of the guess. |
| Api.IconFoundByName | jupyter_server_proxy/api.py:54-57 | An icon registered under `(server, entry)` is found as `server/entry`, and one under `(server,)` as `server`. An unregistered name gives 404. |
| WebSocket.Dispatch | jupyter_server_proxy/websocket.py:99-103 | The websocket handler iff the lowered `Upgrade` header, looked up under its normalized name (missing counting as `""`), is `websocket`. |
| WebSocket.DispatchByUpgrade | jupyter_server_proxy/websocket.py:99-103 | Without an `Upgrade` header in any spelling the request is plain HTTP. After `m = v` for any spelling `m` of `Upgrade`, the request is a websocket iff `v` lowered is `websocket`. |
| WebSocket.ConnectKwargs | jupyter_server_proxy/websocket.py:46-57 | Exactly the request, compression options, both callbacks, `max_message_size` (the library's default, else 10·1024·1024) and subprotocols, plus `resolver` iff it is truthy. |
| WebSocket.ResolverOnlyAdds | jupyter_server_proxy/websocket.py:46-56 | A truthy resolver adds exactly the `resolver` entry; a falsy one adds nothing. |
| WebSocket.PingableConnection.constructor | jupyter_server_proxy/websocket.py:16-20 | `on_ping_callback` is taken out of the kwargs before the parent sees them, and kept. |
| WebSocket.PingableConnection.OnPing | jupyter_server_proxy/websocket.py:22-24 | The data goes to the callback iff the callback is truthy. A never-set callback raises AttributeError. |
| WebSocket.PingableConnect | jupyter_server_proxy/websocket.py:27-59 | The connection holds the ping callback, and its parent gets `ConnectKwargs` without it. |
| RawSocket.EncodeChar | jupyter_server_proxy/rawsocket.py:88-89 | A character's UTF-8 sequence has 1 to 4 bytes; it has one byte iff the character is ASCII, and that byte is the code point. |
| RawSocket.Utf8Encode | jupyter_server_proxy/rawsocket.py:88-89 | `str.encode("utf-8")` takes between 1 and 4 bytes per character. |
| RawSocket.DecodeChar | jupyter_server_proxy/rawsocket.py:88-89 | A decoded head character takes between 1 and all of the bytes. |
| RawSocket.DecodeEncodeChar | jupyter_server_proxy/rawsocket.py:88-89 | The head character is decoded from its encoding whatever follows. |
| RawSocket.Utf8RoundTrip | jupyter_server_proxy/rawsocket.py:88-89 | Decoding the UTF-8 encoding of any text gives the text back. |
| RawSocket.Utf8Ascii | jupyter_server_proxy/rawsocket.py:88-89 | ASCII text is encoded byte for byte. |
| RawSocket.MessageBytes | jupyter_server_proxy/rawsocket.py:88-89 | A binary message is written unchanged, and a text message as bytes that decode back to its text. |
| RawSocket.Transport.constructor | jupyter_server_proxy/rawsocket.py:90-92 | A new transport is open and has written nothing. |
| RawSocket.Transport.Write | jupyter_server_proxy/rawsocket.py:90-92 | The data is appended to what was written. |
| RawSocket.Transport.Close | jupyter_server_proxy/rawsocket.py:131-132 | The transport is closed, and what was written is kept. |
| RawSocket.KeepaliveTask.constructor | jupyter_server_proxy/rawsocket.py:126-130 | A new task is not cancelled. |
| RawSocket.KeepaliveTask.Cancel | jupyter_server_proxy/rawsocket.py:126-130 | The task is cancelled. |
| RawSocket.RoundsBeforeStop | jupyter_server_proxy/rawsocket.py:98-120 | The index of the first round that is not a successful ping, or all rounds. |
| RawSocket.Pings | jupyter_server_proxy/rawsocket.py:98-120 | `n` pings of `b"keepalive"`. |
| RawSocket.RawSocketHandler.Keepalive | jupyter_server_proxy/rawsocket.py:98-120 | One activity record and one `keepalive` ping per completed round. The loop exits at the first failed ping or cancelled sleep, and reports whether it ended. |
| RawSocket.RawSocketHandler.constructor | jupyter_server_proxy/rawsocket.py:41-55 | No transport, no keepalive task, nothing sent. |
| RawSocket.RawSocketHandler.ConnectTarget | jupyter_server_proxy/rawsocket.py:47-55 | The unix socket iff one is configured, else `localhost` at the port. |
| RawSocket.RawSocketHandler.Proxy | jupyter_server_proxy/rawsocket.py:57-60 | Every plain HTTP request gets 405, whatever the port and path. |
| RawSocket.RawSocketHandler.ProxyOpen | jupyter_server_proxy/rawsocket.py:62-83 | A failed connection raises and changes nothing. Otherwise the transport is kept, activity is recorded and the keepalive task started. |
| RawSocket.RawSocketHandler.OnMessage | jupyter_server_proxy/rawsocket.py:85-92 | Activity is recorded, and `MessageBytes` of the message goes to the transport. Without a transport the attribute lookup raises. |
| RawSocket.RawSocketHandler.OnPing | jupyter_server_proxy/rawsocket.py:94-96 | Only activity is recorded. |
| RawSocket.RawSocketHandler.DataReceived | jupyter_server_proxy/rawsocket.py:26-31 | Each backend block goes to the websocket unchanged, as one binary message, and activity is recorded. |
| RawSocket.RawSocketHandler.ConnectionLost | jupyter_server_proxy/rawsocket.py:33-38 | A lost backend connection closes the websocket. |
| RawSocket.RawSocketHandler.OnClose | jupyter_server_proxy/rawsocket.py:122-132 | The keepalive task is cancelled if present, and the transport closed if present. |
| RawSocket.HttpReady | jupyter_server_proxy/rawsocket.py:135-144 | Ready iff the connection succeeds, and then it is closed at once. OSError means not ready, and any other error propagates. |
| LabExtension.ArgsForServer | labextension/src/index.ts:267-279 | `url` is `baseUrl + path_info` by plain concatenation, `id` is `server-proxy:` + name, and `newBrowserTab` is copied. The title gets ` [↗]` iff the server opens in a new tab outside Notebook 7. |
| LabExtension.ArgsIdsDistinct | labextension/src/index.ts:267-279 | Different names give different ids, and the name can be read back from the id. |
| LabExtension.CardFor | labextension/src/index.ts:202-207 | The card runs the open command with `ArgsForServer`, in the launcher category, with an icon iff the icon URL is non-empty. |
| LabExtension.EnabledCards | labextension/src/index.ts:194-209 | At most one card per server, built in server order; which servers get one is EnabledCardsExactly. |
| LabExtension.LauncherCards | labextension/src/index.ts:194-209 | The launcher loop's cards are `EnabledCards`. |
| LabExtension.EnabledCardsExactly | labextension/src/index.ts:194-209 | There is a card for a server iff its launcher entry is enabled. |
| LabExtension.ServerMenuItems | labextension/src/index.ts:222-230 | A separator, then one item per server process, enabled or not. |
| LabExtension.MenuItemsOpenTabs | labextension/src/index.ts:222-230 | Every tree-menu item forces `newBrowserTab: true` and carries its server's id and URL. |
| LabExtension.FirstEmptyMenus | labextension/src/index.ts:216-221 | The position of the first widget whose menu list is empty, or the number of widgets when none is. |
| LabExtension.AddToFirstMenus | labextension/src/index.ts:216-231 | The loop over the toolbar widgets: it succeeds iff no widget has an empty menu list, and a failure is a TypeError. Each widget before the first empty one has received the given items if it has menus, and nothing otherwise. |
| LabExtension.TreeMenus | labextension/src/index.ts:213-234 | Each widget with menus gets the server items in its first menu. A widget whose menu list is empty raises TypeError. The items added to the widgets before it stay added. |
| LabExtension.IFrameWidget.constructor | labextension/src/index.ts:240-257 | The widget has the given id, URL and title. |
| LabExtension.FirstWithId | labextension/src/index.ts:176 | The index of the first tracked widget with the id, or None iff there is none. |
| LabExtension.FirstIs | labextension/src/index.ts:176 | A match with no earlier match is the first. |
| LabExtension.Tracker.Find | labextension/src/index.ts:176 | The widget at `FirstWithId`; the tracker is not changed. |
| LabExtension.Execute | labextension/src/index.ts:168-189 | With `newBrowserTab`, the URL opens in a tab, no widget is returned and nothing else changes. Otherwise the tracked widget with the id is reused, or a new one is created and tracked. It is added to the main area, or activated if already there. |
| LabExtension.Activate | labextension/src/index.ts:107-235 | Activation bails iff the page is a Notebook 7 page other than the tree. A failed fetch stops there. Otherwise the launcher gets `EnabledCards` (when present) and the tree toolbar gets `TreeMenus`, including the items added before a TypeError. |
| LabExtension.ProceedsExactly | labextension/src/index.ts:117-119 | Activation proceeds iff the page is not a Notebook 7 page, or is the Notebook 7 tree. |
| Dicts.DictSet | jupyter_server_proxy/standalone/app.py:173-182 | `d[k] = v`: an existing key keeps its position and takes the new value, and a new key is appended. |
| Dicts.DictSetKeys | jupyter_server_proxy/standalone/app.py:173-182 | The keys after `d[k] = v` are `d`'s keys and `k`. |
| Dicts.DictSetItem | jupyter_server_proxy/standalone/app.py:173-182 | An item under `k` is the new pair, and every other item is the old one at the same position. |
| Dicts.FromPairs | jupyter_server_proxy/standalone/__init__.py:76-77 | `dict(pairs)` keeps distinct keys. |
| Dicts.FromPairsKeys | jupyter_server_proxy/standalone/__init__.py:76-77 | The keys are exactly the keys of the pairs. |
| Dicts.FromPairsLastWins | jupyter_server_proxy/standalone/__init__.py:76-77 | Every item is the last pair with its key. |
| Dicts.FromDistinctPairs | jupyter_server_proxy/standalone/__init__.py:76-77 | Pairs with distinct keys make the dict of those pairs in their order. |
| Common.Split | jupyter_server_proxy/utils.py:37-41 | `s.split(c)`: one more part than there are `c`s, and no part contains `c`. |
| Common.JoinSplit | jupyter_server_proxy/utils.py:41 | Joining the parts of a split with `c` gives the string back. |
| Common.SplitJoin | jupyter_server_proxy/standalone/__init__.py:146 | Splitting a join of `c`-free parts gives the parts back. |
| Common.SplitNoSep | jupyter_server_proxy/standalone/__init__.py:146 | A string without `c` splits into itself. |
| Common.SplitConcatSep | jupyter_server_proxy/standalone/__init__.py:146 | Splitting `a + c + b` with `c`-free `a` splits off `a` first. |
| Common.Before | jupyter_server_proxy/utils.py:37 | The characters before the first `c`, which are free of `c`; all of `s` iff `c` does not occur. |
| Common.FirstPartIsBefore | jupyter_server_proxy/utils.py:37 | `s.split(c)[0]` is the part before the first `c`. |
| Common.ReplaceChar | jupyter_server_proxy/standalone/app.py:168 | `s.replace(a, b)` for single characters: same length, and each `a` becomes `b`. |
| Common.ReplaceCharOne | jupyter_server_proxy/standalone/app.py:168 | The single `a` between two `a`-free pieces becomes `b`. |
| Common.LowerAscii | jupyter_server_proxy/websocket.py:100 | ASCII letters are lowered and other characters kept, at the same length. |
| Common.NatToString | jupyter_server_proxy/handlers.py:173 | Decimal digits with no leading zero. |
| Common.NatToStringRoundTrip | jupyter_server_proxy/handlers.py:173 | The digits read back as the number. |
| Common.IntToString | jupyter_server_proxy/handlers.py:173 | `str(i)`: never empty, and it starts with `-` iff `i` is negative. |
| Common.IntToStringInjective | jupyter_server_proxy/handlers.py:173 | `str` is injective on integers. |
| Common.UrlPathJoin | jupyter_server_proxy/manager.py:53 | A leading `/` of the first piece and a trailing `/` of the last piece are kept in the result. |
| Common.UrlPathJoinTwo | jupyter_server_proxy/manager.py:53 | An absolute one-segment base joined with a segment gives `/base/seg`. |
| Common.UrlPathJoinThree | jupyter_server_proxy/handlers.py:172-173 | The same for a base segment and two more segments. |
| Common.UrlPathJoinAbsolute | jupyter_server_proxy/api.py:32 | An absolute join whose last piece does not end in `/` is `/` followed by the `/`-joined parts. |

## Left out

- Actual HTTP, websocket and raw TCP/unix I/O is left out: `AsyncHTTPClient`, the aiohttp probe and asyncio transports. Backend replies, probe outcomes and connection results are inputs, and sent data is recorded in buffers.
- Concurrency is left out: the `asyncio.Lock` of `ensure_process` and the IOLoop callbacks. The start logic is sequential, so the single-flight guarantee is not modelled.
- Floating-point back-off and timing are left out: `1.4 ** i`, the 30-second keepalive sleep and `PeriodicCallback` intervals. Only probe and round counts remain.
- Process spawning, `check_pid` and socket binding for port allocation are inputs: a liveness predicate and a fresh port.
- `os.environ`, `urlparse`, `mimetypes.guess_type` and file reads are parameters.
  - An environment is a map.
  - A parsed URL is its scheme, host and port.
  - The guess and the read are functions.
- `configure_http_client`, `make_ssl_context` and SSL context creation are not part of this model; the SSL option dictionaries are.
- The native proxy's `make_app`, JupyterHub OAuth, `standalone/proxy.py` and `standalone/activity.py` are not part of this model. Activity is counted rather than time-stamped.
- Python reflection is replaced by explicit inputs: `__code__.co_varnames` by the list of asked names, and the MRO juggling of `WebSocketHandlerMixin.__init__` by the GET dispatch alone.
- HttpHeaders.NormalizeHeader: capitalization is modelled on ASCII letters only, while Python's `str.capitalize` also maps other Unicode letters. tornado's `httputil` is not part of this model; `HTTPHeaders` follows that class's definition.
- `str.format` is an abstract substitution function, and its mini-language is not modelled.
- The traitlets machinery is modelled as explicit calls, not the framework's own sequencing: `@default`, `@validate` and `@observe`, configuration loading and the `JupyterApp` CLI.
- Handler classes are tags. The route patterns keep the `url_path_join` pieces as well as their text.
- `url_path_join` comes from the notebook server, which is not part of this model. It follows that function's definition.
- Proxy attribute keys are an enumeration of the attribute names. The common text attributes are carried as their values.
- Config.ProxyAttributes: the attributes are a map keyed by attribute name, so the assignment order of the source's dictionary is not modelled. These attributes only become handler keyword arguments.
- Manager.ServerProxyAppManager.ListServerProxyApps: returns the list's value. The source returns the live list itself, and aliasing with a caller is not modelled. `del_server_proxy_app` rebinds the list rather than mutating it.
- Config.ValidateServers: works on values and returns the new mapping. It does not mutate the `ServerProcess` instances it is given.
- LabExtension.Activate: layout details are not modelled, namely the layout restorer, IFrame sandbox options and the menu item ranks and commands beyond their arguments. It states which cards and menu items are added.
- LabExtension.Execute: the `isEnabled`/`label` callbacks of the command registration are not modelled.
- The `__init__.py` extension registration, `unixsock.py`, the static JavaScript, the REST client and polling TypeScript, and the older `jupyterlab-*` and rsession packages are not part of this model.
- `tests/test_proxies.py` targets a newer handler version than the `handlers.py` modelled here. It is not used as a description of these handlers: for example, that file's header filter strips Content-Encoding.

## Findings

| source | as written | input that shows it | evidently intended | confidence | as-written member | corrected member |
|---|---|---|---|---|---|---|
| nbserverproxy/handlers.py:241-242 | `url_path_join(self.base_url, 'proxy', port)` with the integer port that `SuperviseAndProxyHandler` passes | a supervised request on port 8888 under base URL `/`: `url_path_join`'s string methods raise AttributeError | `str(port)`, as `jupyter_server_proxy/handlers.py:172-173` has it, giving `/proxy/8888` | not executed; high | NbHandlers.NbSupervisedContextPathFails | Forwarding.ContextPathAtRoot |
| jupyter_server_proxy/standalone/app.py:238-242 | the exact-prefix redirect goes to `re.escape(base_url) + "/"` | base URL `/user/a.b` redirects to `/user/a\.b/` | redirect to `base_url + "/"`; only the patterns need escaping | not executed; high | StandaloneApp.EscapedUserRedirect | StandaloneApp.AppRoutes |
| jupyter_server_proxy/standalone/app.py:167-171 | the alias filter tests the trait name (`absolute_url`) against the flags, whose names use `-` (`absolute-url`) | trait `absolute_url`: it gets the alias `absolute-url`, which is also a flag | skip a trait whose option name is a flag | not executed; medium (traitlets accepts an option that is both) | StandaloneApp.FlaggedTraitKeepsAlias | StandaloneApp.TraitAliasesAvoidFlags |
