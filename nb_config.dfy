/** The configuration side of the older `nbserverproxy/config.py`: the
    per-server handler's `_render_template`, `get_cmd` and `get_env`, and
    `get_handlers`, which emits two routes for every configured server. */
module NbConfig {
  import opened Common
  import opened Templates
  import NbHandlers

  /** `_Proxy._render_template`: a value that is not a str, list or dict
      falls through every branch and renders to None. `fmt` is
      `str.format(port=self.port)`. */
  function RenderTemplate(t: Template, fmt: string -> Result<string>): (r: Result<Rendered>)
    ensures t.TOther? ==> r == Ok(RNone)
    ensures r.Err? ==> !t.TOther?
  {
    Render(t, fmt, ReturnNone)
  }

  /** The entry `servers[name]`: its `command` and `environment` keys, each
      possibly absent. */
  datatype ServerConfig = ServerConfig(command: Option<Template>, environment: Option<Template>)

  /** `get_cmd`: the rendered `command`; KeyError when there is none. */
  function GetCmd(server: ServerConfig, fmt: string -> Result<string>): (r: Result<Rendered>)
    ensures server.command.None? ==> r == Err(KeyError)
    ensures server.command.Some? ==> r == RenderTemplate(server.command.value, fmt)
  {
    match server.command
    case None => Err(KeyError)
    case Some(c) => RenderTemplate(c, fmt)
  }

  /** `get_env`: the rendered `environment`, an empty dict when there is
      none. */
  function GetEnv(server: ServerConfig, fmt: string -> Result<string>): (r: Result<Rendered>)
    ensures server.environment.None? ==> r == Ok(RDict([]))
    ensures server.environment.Some? ==> r == RenderTemplate(server.environment.value, fmt)
  {
    RenderTemplate(server.environment.GetOr(TDict([])), fmt)
  }

  /** A command list renders element by element: the same length, each
      argument formatted with the port. */
  lemma CommandListRendered(args: seq<string>, fmt: string -> Result<string>)
    requires forall i :: 0 <= i < |args| ==> fmt(args[i]).Ok?
    ensures var r := GetCmd(ServerConfig(Some(TList(seq(|args|, i requires 0 <= i < |args| => TStr(args[i])))), None), fmt);
      r.Ok? && r.value.RList? && |r.value.items| == |args|
      && forall i :: 0 <= i < |args| ==> r.value.items[i] == RStr(fmt(args[i]).value)
  {
    var items := seq(|args|, i requires 0 <= i < |args| => TStr(args[i]));
    forall i | 0 <= i < |items|
      ensures Render(items[i], fmt, ReturnNone) == Ok(RStr(fmt(args[i]).value))
    {
      RenderScalars(args[i], "", fmt, ReturnNone);
    }
    RenderList(items, fmt, ReturnNone);
  }

  // ---------------------------------------------------------------------
  // get_handlers

  /** A route of `get_handlers`: the server's proxy handler with its own
      `state`, or the `AddSlashHandler`. */
  datatype NbRoute =
    | NbProxyRoute(pattern: UrlPattern, server: string, state: NbHandlers.NbState)
    | NbSlashRoute(pattern: UrlPattern)

  /** The two routes of server `name`: `base/name/(.*)` to its handler
      holding `state`, then `base/name` to the slash redirect. */
  predicate RoutesOf(baseUrl: string, name: string, state: NbHandlers.NbState, proxy: NbRoute, slash: NbRoute) {
    proxy == NbProxyRoute(Joined([baseUrl, name + "/(.*)"]), name, state)
    && slash == NbSlashRoute(Joined([baseUrl, name]))
  }

  /** `get_handlers(base_url)` over the server names in dict order: two
      routes per server, in server order, and every proxy route gets a
      `state` of its own, newly created (`states[i]` is the i-th). */
  method GetHandlers(baseUrl: string, names: seq<string>)
    returns (handlers: seq<NbRoute>, ghost states: seq<NbHandlers.NbState>)
    ensures |handlers| == 2 * |names| && |states| == |names|
    ensures forall i :: 0 <= i < |names| ==>
      RoutesOf(baseUrl, names[i], states[i], handlers[2 * i], handlers[2 * i + 1])
    ensures forall i :: 0 <= i < |names| ==> fresh(states[i])
    ensures forall i, j :: 0 <= i < j < |names| ==> states[i] != states[j]
  {
    handlers := [];
    states := [];
    var k := 0;
    while k < |names|
      invariant 0 <= k <= |names| && |states| == k && |handlers| == 2 * k
      invariant forall i :: 0 <= i < k ==>
        RoutesOf(baseUrl, names[i], states[i], handlers[2 * i], handlers[2 * i + 1])
      invariant forall i :: 0 <= i < k ==> fresh(states[i])
      invariant forall i, j :: 0 <= i < j < k ==> states[i] != states[j]
    {
      var name := names[k];
      var state := new NbHandlers.NbState();
      var proxy := NbProxyRoute(Joined([baseUrl, name + "/(.*)"]), name, state);
      var slash := NbSlashRoute(Joined([baseUrl, name]));
      assert RoutesOf(baseUrl, name, state, proxy, slash);
      handlers := handlers + [proxy, slash];
      states := states + [state];
      k := k + 1;
    }
  }

  /** A base `/base` and a server `name` give the routes `/base/name/(.*)`
      and `/base/name`. */
  lemma PatternsUnderBase(base: string, name: string)
    requires Segment(base) && Segment(name)
    ensures Joined(["/" + base, name + "/(.*)"]).Text() == "/" + base + "/" + name + "/(.*)"
    ensures Joined(["/" + base, name]).Text() == "/" + base + "/" + name
  {
    var b := name + "/(.*)";
    assert b[0] == name[0] && name[0] in name;
    assert b[|b| - 1] == ')';
    JoinBaseTail(base, b);
    UrlPathJoinTwo(base, name);
    assert "/" + base + "/" + b == "/" + base + "/" + name + "/(.*)";
  }

  /** Joining `/base` with a piece that neither starts nor ends with `/`
      separates the two by one `/`. */
  lemma JoinBaseTail(base: string, b: string)
    requires Segment(base) && b != "" && b[0] != '/' && b[|b| - 1] != '/'
    ensures UrlPathJoin(["/" + base, b]) == "/" + base + "/" + b
  {
    assert StripChar(b, '/') == b;
    StripLeadingSlash(base);
    var pieces := ["/" + base, b];
    assert StripAll(pieces) == [base, b];
    assert NonEmpty([base, b]) == [base, b] by {
      assert [base, b][1..] == [b];
      assert NonEmpty([b]) == [b];
    }
    assert Join([base, b], "/") == base + "/" + b by {
      assert [base, b][1..] == [b];
    }
    assert !EndsWith(b, "/") by {
      assert b[|b| - 1..][0] == b[|b| - 1];
    }
  }
}
