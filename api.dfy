/** The REST handlers of `jupyter_server_proxy/api.py`: the servers-info
    listing, which sends only the metadata of each server process and its
    launcher entries, and the icon handler, which looks an icon up by name
    and chooses its content type. */
module Api {
  import opened Common

  // ---------------------------------------------------------------------
  // servers info

  /** A launcher entry as the servers-info handler reads it. */
  datatype ApiLauncherEntry = ApiLauncherEntry(
    name: string, enabled: bool, title: string, newBrowserTab: bool, path: string, iconPath: string)

  /** A server process as the servers-info handler reads it. */
  datatype ApiServer = ApiServer(name: string, launcherEntries: seq<ApiLauncherEntry>)

  /** The JSON object sent for a launcher entry: exactly `enabled`, `title`,
      `new_browser_tab` and `path`, and `icon_url` when present. */
  datatype EntryInfo = EntryInfo(
    enabled: bool, title: string, newBrowserTab: bool, path: string, iconUrl: Option<string>)

  /** The JSON object sent for a server process. */
  datatype ServerInfo = ServerInfo(name: string, launcherEntries: seq<EntryInfo>)

  /** The icon URL of an entry of server `server`. */
  function IconUrl(baseUrl: string, server: string, entry: string): string {
    UrlPathJoin([baseUrl, "server-proxy", "icon", server, entry])
  }

  /** The metadata of one launcher entry: its four fields copied, and an
      icon URL iff it has an icon path. */
  function EntryInfoOf(baseUrl: string, server: string, le: ApiLauncherEntry): (e: EntryInfo)
    ensures e.enabled == le.enabled && e.title == le.title
    ensures e.newBrowserTab == le.newBrowserTab && e.path == le.path
    ensures e.iconUrl.Some? <==> le.iconPath != ""
    ensures e.iconUrl.Some? ==> e.iconUrl.value == IconUrl(baseUrl, server, le.name)
  {
    EntryInfo(le.enabled, le.title, le.newBrowserTab, le.path,
              if le.iconPath != "" then Some(IconUrl(baseUrl, server, le.name)) else None)
  }

  /** `ServersInfoHandler.get`: one item per server process, in order, each
      with one item per launcher entry, in order. */
  method ServersInfo(baseUrl: string, servers: seq<ApiServer>) returns (data: seq<ServerInfo>)
    ensures |data| == |servers|
    ensures forall i :: 0 <= i < |servers| ==>
      data[i].name == servers[i].name
      && |data[i].launcherEntries| == |servers[i].launcherEntries|
      && forall j :: 0 <= j < |servers[i].launcherEntries| ==>
           data[i].launcherEntries[j] == EntryInfoOf(baseUrl, servers[i].name, servers[i].launcherEntries[j])
  {
    data := [];
    var i := 0;
    while i < |servers|
      invariant 0 <= i <= |servers| && |data| == i
      invariant forall k :: 0 <= k < i ==>
        data[k].name == servers[k].name
        && |data[k].launcherEntries| == |servers[k].launcherEntries|
        && forall j :: 0 <= j < |servers[k].launcherEntries| ==>
             data[k].launcherEntries[j] == EntryInfoOf(baseUrl, servers[k].name, servers[k].launcherEntries[j])
    {
      var sp := servers[i];
      var entries := EntriesInfo(baseUrl, sp);
      data := data + [ServerInfo(sp.name, entries)];
      i := i + 1;
    }
  }

  /** The inner loop: the items of the launcher entries of `sp`. */
  method EntriesInfo(baseUrl: string, sp: ApiServer) returns (items: seq<EntryInfo>)
    ensures |items| == |sp.launcherEntries|
    ensures forall j :: 0 <= j < |items| ==> items[j] == EntryInfoOf(baseUrl, sp.name, sp.launcherEntries[j])
  {
    items := [];
    var j := 0;
    while j < |sp.launcherEntries|
      invariant 0 <= j <= |sp.launcherEntries| && |items| == j
      invariant forall k :: 0 <= k < j ==> items[k] == EntryInfoOf(baseUrl, sp.name, sp.launcherEntries[k])
    {
      var le := sp.launcherEntries[j];
      var litem := EntryInfo(le.enabled, le.title, le.newBrowserTab, le.path, None);
      if le.iconPath != "" {
        litem := litem.(iconUrl := Some(IconUrl(baseUrl, sp.name, le.name)));
      }
      items := items + [litem];
      j := j + 1;
    }
  }

  // ---------------------------------------------------------------------
  // icons

  /** `s.split(c, 1)`: the part before the first `c` and, when there is
      one, the rest after it. */
  function SplitOnce(s: string, c: char): (r: seq<string>)
    ensures 1 <= |r| <= 2
    ensures c !in r[0]
    ensures |r| == 1 <==> c !in s
    ensures |r| == 1 ==> r[0] == s
    ensures |r| == 2 ==> s == r[0] + [c] + r[1]
  {
    var b := Before(s, c);
    if |b| < |s| then
      assert s == b + [c] + s[|b| + 1..] by {
        assert s[..|b|] == b;
      }
      [b, s[|b| + 1..]]
    else
      assert s[..|b|] == b;
      [s]
  }

  /** The parts of a split name are determined by the name: the first is
      free of `c`, so `a + c + b` splits back into `a` and `b`. */
  lemma SplitOnceJoin(a: string, b: string, c: char)
    requires c !in a
    ensures SplitOnce(a + [c] + b, c) == [a, b]
    ensures SplitOnce(a, c) == [a]
  {
    var s := a + [c] + b;
    assert s == a + ([c] + b);
    BeforeAbsent(a, [c] + b, c);
    assert s[|a| + 1..] == b;
  }

  /** `IconHandler.get`'s choice of content type from the guessed MIME
      type and encoding. */
  function ContentType(mimeType: Option<string>, encoding: Option<string>): (ct: string)
    ensures encoding == Some("gzip") ==> ct == "application/gzip"
    ensures encoding.Some? && encoding.value != "gzip" ==> ct == "application/octet-stream"
    ensures encoding.None? && mimeType.Some? ==> ct == mimeType.value
    ensures encoding.None? && mimeType.None? ==> ct == "application/octet-stream"
  {
    if encoding == Some("gzip") then "application/gzip"
    else if encoding.Some? then "application/octet-stream"
    else if mimeType.Some? then mimeType.value
    else "application/octet-stream"
  }

  /** Whatever the file, its content type is a guessed type, gzip or
      octet-stream; an encoded file never takes its guessed type. */
  lemma ContentTypeChoices(mimeType: Option<string>, encoding: Option<string>)
    ensures var ct := ContentType(mimeType, encoding);
      ct == "application/gzip" || ct == "application/octet-stream"
      || (mimeType.Some? && ct == mimeType.value)
    ensures encoding.Some? ==>
      ContentType(mimeType, encoding) in {"application/gzip", "application/octet-stream"}
  {
  }

  /** The reply of the icon handler: the file's bytes and their type. */
  datatype IconReply = IconReply(body: bytes, contentType: string)

  /** `IconHandler.get(name)`: the name split at the first `/` is looked
      up among the icons (404 when absent), the content type guessed from
      the path, and the file read. `guess` is `mimetypes.guess_type` and
      `read` reads a file (OSError when it cannot). */
  function IconGet(icons: map<seq<string>, string>, name: string,
                   guess: string -> (Option<string>, Option<string>),
                   read: string -> Result<bytes>): (r: Result<IconReply>)
    ensures SplitOnce(name, '/') !in icons ==> r == Err(HttpError(404, ""))
    ensures SplitOnce(name, '/') in icons ==>
      var path := icons[SplitOnce(name, '/')];
      (read(path).Err? ==> r == Err(read(path).error))
      && (read(path).Ok? ==>
            r == Ok(IconReply(read(path).value, ContentType(guess(path).0, guess(path).1))))
  {
    var key := SplitOnce(name, '/');
    if key !in icons then Err(HttpError(404, ""))
    else
      var path := icons[key];
      var g := guess(path);
      var contentType := ContentType(g.0, g.1);
      var f := read(path);
      if f.Err? then Err(f.error) else Ok(IconReply(f.value, contentType))
  }

  /** An icon registered as `(server, entry)` is found under the name
      `server/entry`, and one registered as `(name,)` under `name`. */
  lemma IconFoundByName(icons: map<seq<string>, string>, server: string, entry: string,
                        guess: string -> (Option<string>, Option<string>), read: string -> Result<bytes>)
    requires '/' !in server
    ensures [server, entry] in icons && read(icons[[server, entry]]).Ok? ==>
      IconGet(icons, server + "/" + entry, guess, read).Ok?
    ensures [server] in icons && read(icons[[server]]).Ok? ==>
      IconGet(icons, server, guess, read).Ok?
    ensures [server] !in icons ==> IconGet(icons, server, guess, read) == Err(HttpError(404, ""))
  {
    SplitOnceJoin(server, entry, '/');
  }
}
