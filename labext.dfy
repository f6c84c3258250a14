/** The JupyterLab / Notebook 7 front-end plugin of
    `labextension/src/index.ts`: the arguments of the open command for a
    server, the launcher cards, the items of the Notebook 7 tree menus, the
    open command's choice between a browser tab and a main-area widget
    (found in the tracker or created), and when activation gives up early.
    The page, the base URL and the fetched server list are inputs. */
module LabExtension {
  import opened Common

  /** `NS` */
  const Ns: string := "server-proxy"

  /** `CommandIDs.open` */
  const OpenCommandId: string := "server-proxy:open"

  /** The suffix marking a server opened in a new browser tab. */
  const NewTabSuffix: string := " [↗]"

  /** `PageConfig.getOption("notebookPage")`, empty outside Notebook 7. */
  predicate IsNotebook7(notebookPage: string) {
    notebookPage != ""
  }

  predicate IsTree(notebookPage: string) {
    notebookPage == "tree"
  }

  /** `ILauncherEntry` */
  datatype LauncherEntry = LauncherEntry(enabled: bool, title: string, pathInfo: string, iconUrl: Option<string>)

  /** `IServerProcess` */
  datatype ServerProcess = ServerProcess(newBrowserTab: bool, launcherEntry: LauncherEntry, name: string)

  /** `IOpenArgs` */
  datatype OpenArgs = OpenArgs(url: string, title: string, newBrowserTab: bool, id: string)

  // ---------------------------------------------------------------------
  // argsForServer

  /** `argsForServer`: the URL is the base URL and the entry's path put
      together as text, the id names the server, the tab choice is the
      server's, and the title gets the new-tab mark iff the server opens in
      a new tab outside Notebook 7. */
  function ArgsForServer(baseUrl: string, notebookPage: string, sp: ServerProcess): (a: OpenArgs)
    ensures a.url == baseUrl + sp.launcherEntry.pathInfo
    ensures a.id == Ns + ":" + sp.name
    ensures a.newBrowserTab == sp.newBrowserTab
    ensures sp.newBrowserTab && !IsNotebook7(notebookPage) ==> a.title == sp.launcherEntry.title + NewTabSuffix
    ensures !(sp.newBrowserTab && !IsNotebook7(notebookPage)) ==> a.title == sp.launcherEntry.title
  {
    var suffix := if sp.newBrowserTab && !IsNotebook7(notebookPage) then NewTabSuffix else "";
    OpenArgs(baseUrl + sp.launcherEntry.pathInfo, sp.launcherEntry.title + suffix, sp.newBrowserTab,
             Ns + ":" + sp.name)
  }

  /** Servers of different names get different ids, and the id gives the
      name back. */
  lemma ArgsIdsDistinct(baseUrl: string, notebookPage: string, a: ServerProcess, b: ServerProcess)
    ensures ArgsForServer(baseUrl, notebookPage, a).id[|Ns| + 1..] == a.name
    ensures a.name != b.name ==>
      ArgsForServer(baseUrl, notebookPage, a).id != ArgsForServer(baseUrl, notebookPage, b).id
  {
    var ia := ArgsForServer(baseUrl, notebookPage, a).id;
    var ib := ArgsForServer(baseUrl, notebookPage, b).id;
    assert ia[|Ns| + 1..] == a.name;
    assert ib[|Ns| + 1..] == b.name;
  }

  // ---------------------------------------------------------------------
  // launcher cards

  /** A card added to the launcher. */
  datatype LauncherCard = LauncherCard(command: string, args: OpenArgs, category: string, kernelIconUrl: Option<string>)

  /** The card of a server: `icon_url || void 0` drops a missing or empty
      icon URL. */
  function CardFor(baseUrl: string, notebookPage: string, sp: ServerProcess): (c: LauncherCard)
    ensures c.command == OpenCommandId && c.category == "Notebook"
    ensures c.args == ArgsForServer(baseUrl, notebookPage, sp)
    ensures c.kernelIconUrl.Some? <==> sp.launcherEntry.iconUrl.Some? && sp.launcherEntry.iconUrl.value != ""
    ensures c.kernelIconUrl.Some? ==> c.kernelIconUrl == sp.launcherEntry.iconUrl
  {
    var icon := sp.launcherEntry.iconUrl;
    LauncherCard(OpenCommandId, ArgsForServer(baseUrl, notebookPage, sp), "Notebook",
                 if icon.Some? && icon.value != "" then icon else None)
  }

  /** The cards of the enabled servers, in order. */
  function EnabledCards(baseUrl: string, notebookPage: string, servers: seq<ServerProcess>): (cs: seq<LauncherCard>)
    ensures |cs| <= |servers|
  {
    if |servers| == 0 then []
    else
      var n := |servers| - 1;
      EnabledCards(baseUrl, notebookPage, servers[..n])
        + (if servers[n].launcherEntry.enabled then [CardFor(baseUrl, notebookPage, servers[n])] else [])
  }

  /** The launcher loop: disabled entries are skipped. */
  method LauncherCards(baseUrl: string, notebookPage: string, servers: seq<ServerProcess>)
    returns (cards: seq<LauncherCard>)
    ensures cards == EnabledCards(baseUrl, notebookPage, servers)
  {
    cards := [];
    var i := 0;
    while i < |servers|
      invariant 0 <= i <= |servers|
      invariant cards == EnabledCards(baseUrl, notebookPage, servers[..i])
    {
      assert servers[..i + 1][..i] == servers[..i];
      var sp := servers[i];
      if !sp.launcherEntry.enabled {
        i := i + 1;
        continue;
      }
      cards := cards + [CardFor(baseUrl, notebookPage, sp)];
      i := i + 1;
    }
    assert servers[..i] == servers;
  }

  /** There is a card for a server iff its entry is enabled. */
  lemma {:induction false} EnabledCardsExactly(baseUrl: string, notebookPage: string, servers: seq<ServerProcess>)
    ensures forall c :: c in EnabledCards(baseUrl, notebookPage, servers) ==>
      exists sp :: sp in servers && sp.launcherEntry.enabled && c == CardFor(baseUrl, notebookPage, sp)
    ensures forall sp :: sp in servers && sp.launcherEntry.enabled ==>
      CardFor(baseUrl, notebookPage, sp) in EnabledCards(baseUrl, notebookPage, servers)
  {
    if |servers| > 0 {
      var n := |servers| - 1;
      EnabledCardsExactly(baseUrl, notebookPage, servers[..n]);
      assert servers == servers[..n] + [servers[n]];
    }
  }

  // ---------------------------------------------------------------------
  // tree menus

  /** An item added to a menu. */
  datatype MenuItem = Separator | CommandItem(command: string, args: OpenArgs)

  /** The items added to one tree menu: a separator, then every server
      (enabled or not) opening in a new browser tab. */
  function ServerMenuItems(baseUrl: string, notebookPage: string, servers: seq<ServerProcess>)
    : (items: seq<MenuItem>)
    ensures |items| == |servers| + 1 && items[0] == Separator
    ensures forall i :: 0 <= i < |servers| ==>
      items[i + 1] == CommandItem(OpenCommandId, ArgsForServer(baseUrl, notebookPage, servers[i]).(newBrowserTab := true))
  {
    [Separator] + seq(|servers|, i requires 0 <= i < |servers| =>
                        CommandItem(OpenCommandId, ArgsForServer(baseUrl, notebookPage, servers[i]).(newBrowserTab := true)))
  }

  /** Every tree-menu item opens its server in a new browser tab and has the
      server's id and URL. */
  lemma MenuItemsOpenTabs(baseUrl: string, notebookPage: string, servers: seq<ServerProcess>, i: nat)
    requires i < |servers|
    ensures var item := ServerMenuItems(baseUrl, notebookPage, servers)[i + 1];
      item.CommandItem? && item.args.newBrowserTab
      && item.args.id == Ns + ":" + servers[i].name
      && item.args.url == baseUrl + servers[i].launcherEntry.pathInfo
  {
  }

  /** A widget of the file browser's toolbar: without menus, or with a
      `menus` array of the given length. */
  datatype ToolbarWidget = NoMenus | Menus(count: nat)

  /** The position of the first widget whose `menus` array is empty, or the
      number of widgets when there is none. */
  function FirstEmptyMenus(widgets: seq<ToolbarWidget>): (k: nat)
    ensures k <= |widgets|
    ensures forall j :: 0 <= j < k ==> widgets[j] != Menus(0)
    ensures k < |widgets| ==> widgets[k] == Menus(0)
  {
    if |widgets| == 0 || widgets[0] == Menus(0) then 0
    else 1 + FirstEmptyMenus(widgets[1..])
  }

  /** The menu loop over the toolbar widgets, adding `items` to the first
      menu of each widget with menus: a widget whose `menus` array is empty
      makes `menus[0]` undefined and `addItem` raise TypeError. The items
      already added to earlier widgets' menus stay there: `added` lists,
      widget by widget up to the failure, what its first menu received. */
  method AddToFirstMenus(widgets: seq<ToolbarWidget>, items: seq<MenuItem>)
    returns (added: seq<seq<MenuItem>>, r: Result<seq<seq<MenuItem>>>)
    ensures r.Ok? <==> forall i :: 0 <= i < |widgets| ==> widgets[i] != Menus(0)
    ensures r.Err? ==> r.error.TypeError?
    ensures r.Ok? ==> r.value == added
    ensures |added| == FirstEmptyMenus(widgets)
    ensures forall i :: 0 <= i < |added| ==> added[i] == (if widgets[i].Menus? then items else [])
  {
    added := [];
    var i := 0;
    while i < |widgets|
      invariant 0 <= i <= |widgets| && |added| == i
      invariant forall k :: 0 <= k < i ==> widgets[k] != Menus(0)
      invariant i <= FirstEmptyMenus(widgets)
      invariant forall k :: 0 <= k < i ==> added[k] == (if widgets[k].Menus? then items else [])
    {
      var w := widgets[i];
      if w.Menus? {
        if w.count == 0 {
          r := Err(TypeError("Cannot read properties of undefined (reading 'addItem')"));
          return;
        }
        added := added + [items];
      } else {
        added := added + [[]];
      }
      i := i + 1;
    }
    r := Ok(added);
  }

  /** The tree toolbar's menus: each widget with menus gets the server
      items in its first menu, up to the first widget with an empty `menus`
      array, where TypeError is raised. */
  method TreeMenus(baseUrl: string, notebookPage: string, servers: seq<ServerProcess>, widgets: seq<ToolbarWidget>)
    returns (added: seq<seq<MenuItem>>, r: Result<seq<seq<MenuItem>>>)
    ensures r.Ok? <==> forall i :: 0 <= i < |widgets| ==> widgets[i] != Menus(0)
    ensures r.Err? ==> r.error.TypeError?
    ensures r.Ok? ==> |r.value| == |widgets| && r.value == added
    ensures r.Ok? ==> forall i :: 0 <= i < |widgets| ==>
      r.value[i] == (if widgets[i].Menus? then ServerMenuItems(baseUrl, notebookPage, servers) else [])
    ensures |added| == FirstEmptyMenus(widgets)
    ensures forall i :: 0 <= i < |added| ==>
      added[i] == (if widgets[i].Menus? then ServerMenuItems(baseUrl, notebookPage, servers) else [])
  {
    added, r := AddToFirstMenus(widgets, ServerMenuItems(baseUrl, notebookPage, servers));
  }

  // ---------------------------------------------------------------------
  // the open command

  /** The main-area widget wrapping an iframe; `id` is its content's id. */
  class IFrameWidget {
    const id: string
    const url: string
    const title: string

    /** `newServerProxyWidget` */
    constructor(id: string, url: string, title: string)
      ensures this.id == id && this.url == url && this.title == title
    {
      this.id := id;
      this.url := url;
      this.title := title;
    }
  }

  /** The index of the first widget with content id `id`. */
  function FirstWithId(ws: seq<IFrameWidget>, id: string): (r: Option<nat>)
    reads set i | 0 <= i < |ws| :: ws[i]
    ensures r.Some? ==> r.value < |ws| && ws[r.value].id == id
    ensures r.Some? ==> forall k :: 0 <= k < r.value ==> ws[k].id != id
    ensures r.None? ==> forall k :: 0 <= k < |ws| ==> ws[k].id != id
  {
    if |ws| == 0 then None
    else if ws[0].id == id then Some(0)
    else match FirstWithId(ws[1..], id)
      case None => None
      case Some(k) => Some(k + 1)
  }

  /** The widget tracker: the widgets it tracks, in the order added. */
  class Tracker {
    var widgets: seq<IFrameWidget>

    constructor()
      ensures widgets == []
    {
      widgets := [];
    }

    /** `tracker.find`: the first tracked widget with content id `id`. */
    method Find(id: string) returns (w: Option<IFrameWidget>)
      ensures FirstWithId(widgets, id).None? ==> w.None?
      ensures FirstWithId(widgets, id).Some? ==> w == Some(widgets[FirstWithId(widgets, id).value])
    {
      var i := 0;
      while i < |widgets|
        invariant 0 <= i <= |widgets|
        invariant forall k :: 0 <= k < i ==> widgets[k].id != id
      {
        if widgets[i].id == id {
          FirstIs(widgets, id, i);
          return Some(widgets[i]);
        }
        i := i + 1;
      }
      w := None;
    }
  }

  /** The first match is at `i` when no widget before it matches. */
  lemma FirstIs(ws: seq<IFrameWidget>, id: string, i: nat)
    requires i < |ws| && ws[i].id == id && forall k :: 0 <= k < i ==> ws[k].id != id
    ensures FirstWithId(ws, id) == Some(i)
  {
    var r := FirstWithId(ws, id);
    assert r.Some? && r.value <= i;
  }

  /** The shell: the widgets in its main area and those it activated. */
  class Shell {
    var mainArea: seq<IFrameWidget>
    var activated: seq<IFrameWidget>

    constructor()
      ensures mainArea == [] && activated == []
    {
      mainArea := [];
      activated := [];
    }
  }

  /** The browser: the URLs opened in new tabs. */
  class Browser {
    var tabs: seq<string>

    constructor()
      ensures tabs == []
    {
      tabs := [];
    }
  }

  /** The open command's `execute`: a new browser tab and no widget, or
      the tracked widget with the id (else a new one), tracked if it was
      not, then added to the main area or, already there, activated. */
  method Execute(args: OpenArgs, tracker: Tracker, shell: Shell, browser: Browser)
    returns (w: Option<IFrameWidget>)
    modifies tracker, shell, browser
    ensures args.newBrowserTab ==>
      (w.None? && browser.tabs == old(browser.tabs) + [args.url]
       && tracker.widgets == old(tracker.widgets)
       && shell.mainArea == old(shell.mainArea) && shell.activated == old(shell.activated))
    ensures !args.newBrowserTab ==> (w.Some? && browser.tabs == old(browser.tabs))
    ensures !args.newBrowserTab && FirstWithId(old(tracker.widgets), args.id).Some? ==>
      (w == Some(old(tracker.widgets)[FirstWithId(old(tracker.widgets), args.id).value])
       && tracker.widgets == old(tracker.widgets))
    ensures !args.newBrowserTab && FirstWithId(old(tracker.widgets), args.id).None? ==>
      (w.Some? && fresh(w.value) && w.value.id == args.id && w.value.url == args.url
       && w.value.title == args.title && tracker.widgets == old(tracker.widgets) + [w.value])
    ensures !args.newBrowserTab && w.Some? && w.value in old(shell.mainArea) ==>
      (shell.mainArea == old(shell.mainArea) && shell.activated == old(shell.activated) + [w.value])
    ensures !args.newBrowserTab && w.Some? && w.value !in old(shell.mainArea) ==>
      (shell.mainArea == old(shell.mainArea) + [w.value] && shell.activated == old(shell.activated))
  {
    if args.newBrowserTab {
      browser.tabs := browser.tabs + [args.url];
      return None;
    }
    var found := tracker.Find(args.id);
    var widget: IFrameWidget;
    if found.None? {
      widget := new IFrameWidget(args.id, args.url, args.title);
    } else {
      widget := found.value;
    }
    if widget !in tracker.widgets {
      tracker.widgets := tracker.widgets + [widget];
    }
    if widget !in shell.mainArea {
      shell.mainArea := shell.mainArea + [widget];
    } else {
      shell.activated := shell.activated + [widget];
    }
    w := Some(widget);
  }

  // ---------------------------------------------------------------------
  // activation

  /** What activation does: nothing on a Notebook 7 page other than the
      tree, nothing more when the servers cannot be fetched, else the
      launcher cards and the tree menus. */
  datatype Activation =
    | Bailed
    | FetchFailed
    | Activated(cards: seq<LauncherCard>, menus: Result<seq<seq<MenuItem>>>, menusAdded: seq<seq<MenuItem>>)

  /** Activation gives up on Notebook 7 pages other than the tree. */
  predicate Proceeds(notebookPage: string) {
    !(IsNotebook7(notebookPage) && !IsTree(notebookPage))
  }

  /** `activate`, with the fetched servers (None when the response is not
      ok), whether a launcher is present, whether the toolbar registry and
      file browser are present, and the toolbar's widgets. */
  method Activate(baseUrl: string, notebookPage: string, fetched: Option<seq<ServerProcess>>,
                  hasLauncher: bool, hasToolbar: bool, widgets: seq<ToolbarWidget>)
    returns (a: Activation)
    ensures !Proceeds(notebookPage) <==> a == Bailed
    ensures Proceeds(notebookPage) && fetched.None? ==> a == FetchFailed
    ensures Proceeds(notebookPage) && fetched.Some? ==>
      (a.Activated?
       && a.cards == (if hasLauncher then EnabledCards(baseUrl, notebookPage, fetched.value) else [])
       && (!(IsTree(notebookPage) && hasToolbar) ==> a.menus == Ok([]) && a.menusAdded == []))
    ensures Proceeds(notebookPage) && fetched.Some? && IsTree(notebookPage) && hasToolbar ==>
      && a.Activated?
      && (a.menus.Ok? <==> forall i :: 0 <= i < |widgets| ==> widgets[i] != Menus(0))
      && (a.menus.Ok? ==> |a.menus.value| == |widgets|)
      && (a.menus.Ok? ==> forall i :: 0 <= i < |widgets| ==>
            a.menus.value[i] == (if widgets[i].Menus? then ServerMenuItems(baseUrl, notebookPage, fetched.value) else []))
      && |a.menusAdded| == FirstEmptyMenus(widgets)
      && (forall i :: 0 <= i < |a.menusAdded| ==>
            a.menusAdded[i] == (if widgets[i].Menus? then ServerMenuItems(baseUrl, notebookPage, fetched.value) else []))
  {
    if IsNotebook7(notebookPage) && !IsTree(notebookPage) {
      return Bailed;
    }
    if fetched.None? {
      return FetchFailed;
    }
    var servers := fetched.value;
    var cards: seq<LauncherCard> := [];
    if hasLauncher {
      cards := LauncherCards(baseUrl, notebookPage, servers);
    }
    var menusAdded: seq<seq<MenuItem>> := [];
    var menus: Result<seq<seq<MenuItem>>> := Ok([]);
    if IsTree(notebookPage) && hasToolbar {
      menusAdded, menus := TreeMenus(baseUrl, notebookPage, servers, widgets);
    }
    a := Activated(cards, menus, menusAdded);
  }

  /** Only the classic JupyterLab page (no Notebook 7 page) and the
      Notebook 7 tree activate. */
  lemma ProceedsExactly(notebookPage: string)
    ensures Proceeds(notebookPage) <==> notebookPage == "" || notebookPage == "tree"
  {
  }
}
