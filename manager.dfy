/** The registry of proxied server processes started by the extension
    (jupyter_server_proxy/manager.py): two parallel lists, the public
    metadata entries and the private (name, process) entries, and a counter
    of active apps. Process liveness (`check_pid`) and a process's pid are
    inputs; sending SIGTERM is recorded in a log. */
module Manager {
  import opened Common

  /** A supervised process, reduced to its pid. */
  datatype Proc = Proc(pid: int)

  /** `ServerProxy(name, url, cmd, port, managed)` */
  datatype ServerProxy = ServerProxy(name: string, url: string, cmd: string, port: int, managed: bool)

  /** `ServerProxyProc(name, proc)`; `proc` may be None. */
  datatype ServerProxyProc = ServerProxyProc(name: string, proc: Option<Proc>)

  /** The argument of `terminate_server_proxy_app`: a name, or (as
      `terminate_all` passes it) a whole ServerProxy entry, which equals no
      name. */
  datatype NameArg = ByName(name: string) | ByEntry(entry: ServerProxy)

  predicate Matches(n: string, arg: NameArg) {
    arg.ByName? && arg.name == n
  }

  /** `[app for app in apps if app.name != n]` */
  function AppsWithout(apps: seq<ServerProxy>, n: string): seq<ServerProxy> {
    if |apps| == 0 then []
    else (if apps[0].name == n then [] else [apps[0]]) + AppsWithout(apps[1..], n)
  }

  /** `[app for app in procs if app.name != n]` */
  function ProcsWithout(procs: seq<ServerProxyProc>, n: string): seq<ServerProxyProc> {
    if |procs| == 0 then []
    else (if procs[0].name == n then [] else [procs[0]]) + ProcsWithout(procs[1..], n)
  }

  /** The first entry with name `n`: `next((... if app.name == n), {})`, with
      None standing for `{}`. */
  function FirstApp(apps: seq<ServerProxy>, n: string): (r: Option<ServerProxy>)
    ensures r.None? <==> forall i :: 0 <= i < |apps| ==> apps[i].name != n
    ensures r.Some? ==> exists i :: 0 <= i < |apps| && apps[i] == r.value && r.value.name == n &&
                                    (forall j :: 0 <= j < i ==> apps[j].name != n)
  {
    if |apps| == 0 then None
    else if apps[0].name == n then Some(apps[0])
    else
      var r := FirstApp(apps[1..], n);
      assert r.Some? ==> exists i :: 0 <= i < |apps| && apps[i] == r.value && r.value.name == n &&
                                     (forall j :: 0 <= j < i ==> apps[j].name != n) by {
        if r.Some? {
          var k :| 0 <= k < |apps[1..]| && apps[1..][k] == r.value && r.value.name == n &&
                   (forall j :: 0 <= j < k ==> apps[1..][j].name != n);
          assert apps[k + 1] == r.value;
          assert forall j :: 0 < j < k + 1 ==> apps[j].name == apps[1..][j - 1].name;
        }
      }
      r
  }

  /** `_get_server_proxy_proc(arg)`: the first private entry the argument
      equals the name of. */
  function FindProc(procs: seq<ServerProxyProc>, arg: NameArg): (r: Option<ServerProxyProc>)
    ensures r.None? <==> forall i :: 0 <= i < |procs| ==> !Matches(procs[i].name, arg)
    ensures r.Some? ==> exists i :: 0 <= i < |procs| && procs[i] == r.value && Matches(r.value.name, arg) &&
                                    (forall j :: 0 <= j < i ==> !Matches(procs[j].name, arg))
    ensures arg.ByEntry? ==> r.None?
  {
    if |procs| == 0 then None
    else if Matches(procs[0].name, arg) then Some(procs[0])
    else
      var r := FindProc(procs[1..], arg);
      assert r.Some? ==> exists i :: 0 <= i < |procs| && procs[i] == r.value && Matches(r.value.name, arg) &&
                                     (forall j :: 0 <= j < i ==> !Matches(procs[j].name, arg)) by {
        if r.Some? {
          var k :| 0 <= k < |procs[1..]| && procs[1..][k] == r.value && Matches(r.value.name, arg) &&
                   (forall j :: 0 <= j < k ==> !Matches(procs[1..][j].name, arg));
          assert procs[k + 1] == r.value;
          assert forall j :: 0 < j < k + 1 ==> procs[j].name == procs[1..][j - 1].name;
        }
      }
      r
  }

  /** The two lists stay parallel: same length, same names position by
      position, and `managed` tells whether a process is attached. */
  predicate Aligned(apps: seq<ServerProxy>, procs: seq<ServerProxyProc>) {
    && |apps| == |procs|
    && forall i :: 0 <= i < |apps| ==> apps[i].name == procs[i].name && apps[i].managed == procs[i].proc.Some?
  }

  /** Deleting each name of `names` in turn. */
  function AppsWithoutAll(apps: seq<ServerProxy>, names: seq<string>): seq<ServerProxy> {
    if |names| == 0 then apps
    else AppsWithout(AppsWithoutAll(apps, names[..|names| - 1]), names[|names| - 1])
  }

  function ProcsWithoutAll(procs: seq<ServerProxyProc>, names: seq<string>): seq<ServerProxyProc> {
    if |names| == 0 then procs
    else ProcsWithout(ProcsWithoutAll(procs, names[..|names| - 1]), names[|names| - 1])
  }

  /** Every entry has a process, so the monitor scans all of them. */
  predicate AllRunning(procs: seq<ServerProxyProc>) {
    forall i :: 0 <= i < |procs| ==> procs[i].proc.Some?
  }

  /** The names `monitor_server_proxy_procs` deletes, in order: one per entry
      whose pid is not alive, up to the first entry without a process, where
      `proc.proc.pid` raises and the monitor stops. */
  function MonitorDeletes(snapshot: seq<ServerProxyProc>, alive: int -> bool): seq<string> {
    if |snapshot| == 0 || snapshot[0].proc.None? then []
    else (if alive(snapshot[0].proc.value.pid) then [] else [snapshot[0].name]) + MonitorDeletes(snapshot[1..], alive)
  }

  class ServerProxyAppManager {
    /** `server_proxy_apps` */
    var apps: seq<ServerProxy>
    /** `_server_proxy_procs` */
    var procs: seq<ServerProxyProc>
    /** `num_active_server_proxy_apps` */
    var numActive: int
    /** pids that were sent SIGTERM by `terminate_server_proxy_app` */
    var terminated: seq<int>

    predicate Valid()
      reads this
    {
      Aligned(apps, procs)
    }

    constructor ()
      ensures Valid() && apps == [] && procs == [] && numActive == 0 && terminated == []
    {
      apps := [];
      procs := [];
      numActive := 0;
      terminated := [];
    }

    /** `add_server_proxy_app`: one more entry in each list, counter + 1. */
    method AddServerProxyApp(name: string, baseUrl: string, cmd: seq<string>, port: int, proc: Option<Proc>)
      requires Valid()
      modifies this
      ensures Valid()
      ensures apps == old(apps) + [ServerProxy(name, UrlPathJoin([baseUrl, name]), Join(cmd, " "), port, proc.Some?)]
      ensures procs == old(procs) + [ServerProxyProc(name, proc)]
      ensures numActive == old(numActive) + 1 && terminated == old(terminated)
    {
      numActive := numActive + 1;
      apps := apps + [ServerProxy(name, UrlPathJoin([baseUrl, name]), Join(cmd, " "), port, proc.Some?)];
      procs := procs + [ServerProxyProc(name, proc)];
    }

    /** `del_server_proxy_app`: drop every entry named `name` from both
        lists; the counter goes down by one whether or not any was there. */
    method DelServerProxyApp(name: string)
      requires Valid()
      modifies this
      ensures Valid()
      ensures apps == AppsWithout(old(apps), name) && procs == ProcsWithout(old(procs), name)
      ensures numActive == old(numActive) - 1 && terminated == old(terminated)
    {
      AlignedWithout(apps, procs, name);
      apps := AppsWithout(apps, name);
      procs := ProcsWithout(procs, name);
      numActive := numActive - 1;
    }

    /** `get_server_proxy_app` */
    function GetServerProxyApp(name: string): (r: Option<ServerProxy>)
      reads this
      ensures r.None? <==> forall i :: 0 <= i < |apps| ==> apps[i].name != name
      ensures r.Some? ==> exists i :: 0 <= i < |apps| && apps[i] == r.value && r.value.name == name &&
                                      (forall j :: 0 <= j < i ==> apps[j].name != name)
    {
      FirstApp(apps, name)
    }

    /** `list_server_proxy_apps`: the registered entries in insertion order,
        which are exactly what `get_server_proxy_app` finds. */
    function ListServerProxyApps(): (r: seq<ServerProxy>)
      reads this
      ensures forall n :: GetServerProxyApp(n).None? <==> (forall i :: 0 <= i < |r| ==> r[i].name != n)
      ensures forall i :: 0 <= i < |r| ==> GetServerProxyApp(r[i].name).Some? && GetServerProxyApp(r[i].name).value in r
    {
      apps
    }

    /** `terminate_server_proxy_app(arg)`: an unknown argument, or an entry
        without a process, ends in AttributeError, caught: None and nothing
        changes. Otherwise the first matching process gets SIGTERM, the name
        is deleted, and the result is True. */
    method TerminateServerProxyApp(arg: NameArg) returns (r: Option<bool>)
      requires Valid()
      modifies this
      ensures Valid()
      ensures var p := FindProc(old(procs), arg);
        if p.None? || p.value.proc.None? then
          r == None && apps == old(apps) && procs == old(procs)
          && numActive == old(numActive) && terminated == old(terminated)
        else
          && r == Some(true) && arg.ByName?
          && terminated == old(terminated) + [p.value.proc.value.pid]
          && apps == AppsWithout(old(apps), arg.name) && procs == ProcsWithout(old(procs), arg.name)
          && numActive == old(numActive) - 1
    {
      var app := FindProc(procs, arg);
      if app.None? || app.value.proc.None? {
        return None;
      }
      terminated := terminated + [app.value.proc.value.pid];
      DelServerProxyApp(arg.name);
      return Some(true);
    }

    /** `terminate_all`: each call gets a ServerProxy entry instead of a
        name, so none finds a process; nothing changes. */
    method TerminateAll()
      requires Valid()
      modifies this
      ensures Valid()
      ensures apps == old(apps) && procs == old(procs) && numActive == old(numActive) && terminated == old(terminated)
    {
      var snapshot := apps;
      var i := 0;
      while i < |snapshot|
        invariant 0 <= i <= |snapshot|
        invariant Valid()
        invariant apps == old(apps) && procs == old(procs) && numActive == old(numActive) && terminated == old(terminated)
      {
        var _ := TerminateServerProxyApp(ByEntry(snapshot[i]));
        i := i + 1;
      }
    }

    /** One deletion of the monitor: the name goes after those already
        deleted. */
    method DelDeadApp(ghost apps0: seq<ServerProxy>, ghost procs0: seq<ServerProxyProc>,
                      ghost dead: seq<string>, name: string)
      requires Valid()
      requires apps == AppsWithoutAll(apps0, dead) && procs == ProcsWithoutAll(procs0, dead)
      modifies this
      ensures Valid()
      ensures apps == AppsWithoutAll(apps0, dead + [name]) && procs == ProcsWithoutAll(procs0, dead + [name])
      ensures numActive == old(numActive) - 1 && terminated == old(terminated)
    {
      DelServerProxyApp(name);
      WithoutAllSnoc(apps0, procs0, dead, name);
    }

    /** The monitor's check of one entry with a process: a dead pid has its
        name deleted. */
    method MonitorEntry(ghost apps0: seq<ServerProxy>, ghost procs0: seq<ServerProxyProc>,
                        dead: seq<string>, entry: ServerProxyProc, alive: int -> bool)
      returns (dead': seq<string>)
      requires Valid() && entry.proc.Some?
      requires apps == AppsWithoutAll(apps0, dead) && procs == ProcsWithoutAll(procs0, dead)
      modifies this
      ensures Valid()
      ensures dead' == dead + (if alive(entry.proc.value.pid) then [] else [entry.name])
      ensures apps == AppsWithoutAll(apps0, dead') && procs == ProcsWithoutAll(procs0, dead')
      ensures numActive == old(numActive) - (|dead'| - |dead|) && terminated == old(terminated)
    {
      dead' := dead;
      if !alive(entry.proc.value.pid) {
        DelDeadApp(apps0, procs0, dead, entry.name);
        dead' := dead + [entry.name];
      }
    }

    /** `monitor_server_proxy_procs` over a snapshot of the private list:
        each entry whose pid is dead has its name deleted (counter - 1 per
        deletion); an entry without a process aborts the scan. */
    method MonitorServerProxyProcs(alive: int -> bool) returns (aborted: bool)
      requires Valid()
      modifies this
      ensures Valid()
      ensures apps == AppsWithoutAll(old(apps), MonitorDeletes(old(procs), alive))
      ensures procs == ProcsWithoutAll(old(procs), MonitorDeletes(old(procs), alive))
      ensures numActive == old(numActive) - |MonitorDeletes(old(procs), alive)|
      ensures terminated == old(terminated)
      ensures aborted <==> !AllRunning(old(procs))
    {
      var snapshot := procs;
      var dead: seq<string> := [];
      var i := 0;
      aborted := false;
      while i < |snapshot|
        invariant 0 <= i <= |snapshot|
        invariant Valid()
        invariant forall j :: 0 <= j < i ==> snapshot[j].proc.Some?
        invariant dead == MonitorDeletes(snapshot[..i], alive)
        invariant apps == AppsWithoutAll(old(apps), dead) && procs == ProcsWithoutAll(old(procs), dead)
        invariant numActive == old(numActive) - |dead| && terminated == old(terminated)
      {
        MonitorDeletesPrefix(snapshot, i, alive);
        if snapshot[i].proc.None? {
          assert !AllRunning(snapshot);
          return true;
        }
        dead := MonitorEntry(old(apps), old(procs), dead, snapshot[i], alive);
        i := i + 1;
      }
      assert snapshot[..|snapshot|] == snapshot;
      assert AllRunning(snapshot);
    }
  }

  // ---------------------------------------------------------------------
  // Lemmas

  /** Deleting one more name after a list of names. */
  lemma WithoutAllSnoc(apps: seq<ServerProxy>, procs: seq<ServerProxyProc>, names: seq<string>, n: string)
    ensures AppsWithoutAll(apps, names + [n]) == AppsWithout(AppsWithoutAll(apps, names), n)
    ensures ProcsWithoutAll(procs, names + [n]) == ProcsWithout(ProcsWithoutAll(procs, names), n)
  {
    assert (names + [n])[..|names|] == names;
  }

  /** Filtering both lists by the same name keeps them parallel. */
  lemma {:induction false} AlignedWithout(apps: seq<ServerProxy>, procs: seq<ServerProxyProc>, n: string)
    requires Aligned(apps, procs)
    ensures Aligned(AppsWithout(apps, n), ProcsWithout(procs, n))
  {
    if |apps| > 0 {
      assert Aligned(apps[1..], procs[1..]);
      AlignedWithout(apps[1..], procs[1..], n);
    }
  }

  /** What `del_server_proxy_app` keeps: exactly the entries with another
      name, in their original order. */
  lemma {:induction false} AppsWithoutMembers(apps: seq<ServerProxy>, n: string, e: ServerProxy)
    ensures e in AppsWithout(apps, n) <==> e in apps && e.name != n
  {
    if |apps| > 0 {
      AppsWithoutMembers(apps[1..], n, e);
      assert e in apps <==> e == apps[0] || e in apps[1..];
    }
  }

  /** Deleting keeps the order of what remains: it works piece by piece. */
  lemma {:induction false} AppsWithoutOrder(a: seq<ServerProxy>, b: seq<ServerProxy>, n: string)
    ensures |AppsWithout(a, n)| <= |a|
    ensures AppsWithout(a + b, n) == AppsWithout(a, n) + AppsWithout(b, n)
  {
    if |a| > 0 {
      var head := if a[0].name == n then [] else [a[0]];
      AppsWithoutOrder(a[1..], b, n);
      assert (a + b)[0] == a[0] && (a + b)[1..] == a[1..] + b;
      calc {
        AppsWithout(a + b, n);
        head + AppsWithout(a[1..] + b, n);
        head + (AppsWithout(a[1..], n) + AppsWithout(b, n));
        (head + AppsWithout(a[1..], n)) + AppsWithout(b, n);
      }
    } else {
      assert a + b == b;
    }
  }

  lemma {:induction false} ProcsWithoutMembers(procs: seq<ServerProxyProc>, n: string, e: ServerProxyProc)
    ensures e in ProcsWithout(procs, n) <==> e in procs && e.name != n
  {
    if |procs| > 0 {
      ProcsWithoutMembers(procs[1..], n, e);
      assert e in procs <==> e == procs[0] || e in procs[1..];
    }
  }

  /** Deleting several names keeps exactly the entries named by none of them. */
  lemma {:induction false} AppsWithoutAllMembers(apps: seq<ServerProxy>, names: seq<string>, e: ServerProxy)
    ensures e in AppsWithoutAll(apps, names) <==> e in apps && e.name !in names
  {
    if |names| > 0 {
      var init := names[..|names| - 1];
      AppsWithoutAllMembers(apps, init, e);
      AppsWithoutMembers(AppsWithoutAll(apps, init), names[|names| - 1], e);
      assert names == init + [names[|names| - 1]];
    }
  }

  lemma {:induction false} ProcsWithoutAllMembers(procs: seq<ServerProxyProc>, names: seq<string>, e: ServerProxyProc)
    ensures e in ProcsWithoutAll(procs, names) <==> e in procs && e.name !in names
  {
    if |names| > 0 {
      var init := names[..|names| - 1];
      ProcsWithoutAllMembers(procs, init, e);
      ProcsWithoutMembers(ProcsWithoutAll(procs, init), names[|names| - 1], e);
      assert names == init + [names[|names| - 1]];
    }
  }

  lemma {:induction false} MonitorDeletesConcat(a: seq<ServerProxyProc>, b: seq<ServerProxyProc>, alive: int -> bool)
    requires forall j :: 0 <= j < |a| ==> a[j].proc.Some?
    ensures MonitorDeletes(a + b, alive) == MonitorDeletes(a, alive) + MonitorDeletes(b, alive)
  {
    if |a| == 0 {
      assert a + b == b;
    } else {
      assert (a + b)[0] == a[0] && (a + b)[1..] == a[1..] + b;
      MonitorDeletesConcat(a[1..], b, alive);
    }
  }

  /** One more entry of the snapshot: either it has a process and adds its
      verdict, or it has none and the scan ends with what was collected. */
  lemma MonitorDeletesPrefix(s: seq<ServerProxyProc>, i: nat, alive: int -> bool)
    requires i < |s| && forall j :: 0 <= j < i ==> s[j].proc.Some?
    ensures s[i].proc.Some? ==>
              MonitorDeletes(s[..i + 1], alive) ==
              MonitorDeletes(s[..i], alive) + (if alive(s[i].proc.value.pid) then [] else [s[i].name])
    ensures s[i].proc.None? ==> MonitorDeletes(s, alive) == MonitorDeletes(s[..i], alive)
  {
    assert s[..i + 1] == s[..i] + [s[i]];
    MonitorDeletesConcat(s[..i], [s[i]], alive);
    assert s == s[..i] + s[i..];
    MonitorDeletesConcat(s[..i], s[i..], alive);
    assert [s[i]][1..] == [];
  }

  /** Which names the monitor deletes, when every entry has a process: a name
      goes iff some entry with that name has a dead pid. */
  lemma {:induction false} MonitorDeletesDead(s: seq<ServerProxyProc>, alive: int -> bool, n: string)
    requires forall j :: 0 <= j < |s| ==> s[j].proc.Some?
    ensures n in MonitorDeletes(s, alive) <==>
      exists j :: 0 <= j < |s| && s[j].name == n && !alive(s[j].proc.value.pid)
  {
    if |s| > 0 {
      MonitorDeletesDead(s[1..], alive, n);
      if exists j :: 0 <= j < |s[1..]| && s[1..][j].name == n && !alive(s[1..][j].proc.value.pid) {
        var j :| 0 <= j < |s[1..]| && s[1..][j].name == n && !alive(s[1..][j].proc.value.pid);
        assert s[j + 1] == s[1..][j];
      }
      forall j | 0 < j < |s| && s[j].name == n && !alive(s[j].proc.value.pid)
        ensures n in MonitorDeletes(s[1..], alive)
      {
        assert s[1..][j - 1] == s[j];
      }
    }
  }

  /** After a monitor pass over processes that all exist, a private entry
      remains iff no entry of its name had a dead pid. */
  lemma MonitorKeepsLive(procs: seq<ServerProxyProc>, alive: int -> bool, e: ServerProxyProc)
    requires forall j :: 0 <= j < |procs| ==> procs[j].proc.Some?
    ensures e in ProcsWithoutAll(procs, MonitorDeletes(procs, alive)) <==>
      e in procs && !(exists j :: 0 <= j < |procs| && procs[j].name == e.name && !alive(procs[j].proc.value.pid))
  {
    ProcsWithoutAllMembers(procs, MonitorDeletes(procs, alive), e);
    MonitorDeletesDead(procs, alive, e.name);
  }

  /** Deleting a name no entry has leaves both lists as they were (only
      the counter goes down). */
  lemma {:induction false} DelMissingNameLeavesLists(apps: seq<ServerProxy>, procs: seq<ServerProxyProc>, n: string)
    requires forall i :: 0 <= i < |apps| ==> apps[i].name != n
    requires forall i :: 0 <= i < |procs| ==> procs[i].name != n
    ensures AppsWithout(apps, n) == apps && ProcsWithout(procs, n) == procs
    decreases |apps| + |procs|
  {
    if |apps| > 0 {
      DelMissingNameLeavesLists(apps[1..], [], n);
    }
    if |procs| > 0 {
      DelMissingNameLeavesLists([], procs[1..], n);
    }
  }
}
