/** The process supervision of the older `nbserverproxy/handlers.py`: the
    trailing-slash redirect, the `is_running` probe, and the start logic kept
    in the shared state under the keys `'starting'`, `'proc'` and `'port'`
    (`start_process`, its exit callback and `conditional_start`). The request
    forwarding these handlers share with `jupyter_server_proxy` is the
    `Forwarding` module. */
module NbHandlers {
  import opened Common
  import Forwarding

  // ---------------------------------------------------------------------
  // AddSlashHandler

  /** The six parts `urlparse` splits a URI into. */
  datatype UrlParts = UrlParts(scheme: string, netloc: string, path: string,
                               params: string, query: string, fragment: string)

  /** `AddSlashHandler.get`: the redirect target is the request URI with `/`
      appended to its path and every other part, the query included, kept. */
  function AddSlash(src: UrlParts): (dest: UrlParts)
    ensures |dest.path| == |src.path| + 1 && dest.path[..|src.path|] == src.path && EndsWith(dest.path, "/")
    ensures dest.scheme == src.scheme && dest.netloc == src.netloc && dest.params == src.params
    ensures dest.query == src.query && dest.fragment == src.fragment
  {
    src.(path := src.path + "/")
  }

  // ---------------------------------------------------------------------
  // is_running

  /** What checking the process shows: it exited (`poll()` is not None), or
      the fetch of `http://localhost:<port>` succeeded, raised an HTTPError
      with or without a response, or raised anything else. */
  datatype Probe = Exited | Answered | HttpErrorWithResponse | HttpErrorWithoutResponse | Unreachable

  /** `is_running`: up iff the fetch succeeded or the server answered with an
      error response. */
  function IsRunning(p: Probe): (up: bool)
    ensures up <==> p == Answered || p == HttpErrorWithResponse
  {
    match p
    case Exited => false
    case Answered => true
    case HttpErrorWithResponse => true
    case HttpErrorWithoutResponse => false
    case Unreachable => false
  }

  /** The index of the first probe that finds the process up (|probes| if
      none does). */
  function FirstUp(probes: seq<Probe>): (k: nat)
    ensures k <= |probes|
    ensures forall i :: 0 <= i < k ==> !IsRunning(probes[i])
    ensures k < |probes| ==> IsRunning(probes[k])
  {
    if |probes| == 0 then 0
    else if IsRunning(probes[0]) then 0
    else 1 + FirstUp(probes[1..])
  }

  // ---------------------------------------------------------------------
  // the start state machine

  /** A `process.Subprocess` as created. */
  datatype Subprocess = Subprocess(cmd: seq<string>, env: map<string, string>, cwd: string)

  /** The number of readiness checks `start_process` makes. */
  const StartProbes: nat := 8

  /** The number of times `conditional_start` looks for `'proc'`. */
  const WaitChecks: nat := 5

  /** The shared `state` dictionary: `'proc'`, `'starting'` and `'port'`,
      with the processes terminated and the restarts scheduled so far. */
  class NbState {
    var proc: Option<Subprocess>
    var starting: bool
    var port: Option<int>
    var terminated: seq<Subprocess>
    var restarts: nat

    constructor()
      ensures proc.None? && !starting && port.None? && terminated == [] && restarts == 0
    {
      proc := None;
      starting := false;
      port := None;
      terminated := [];
      restarts := 0;
    }
  }

  function AlreadyPending(name: string): string {
    "Process " + name + " start already pending, can not start again"
  }

  function AlreadyRunning(name: string): string {
    "Process " + name + " already running, can not start"
  }

  function CouldNotStart(name: string): string {
    "could not start " + name + " in time"
  }

  function DidNotStart(name: string): string {
    name + " did not start in time"
  }

  class NbSuperviseHandler {
    const name: string
    const state: NbState

    constructor(name: string, state: NbState)
      ensures this.name == name && this.state == state
    {
      this.name := name;
      this.state := state;
    }

    /** The `port` property: `freshPort` stands for the port the operating
        system hands out; it is taken only when the state has none. */
    method Port(freshPort: int) returns (p: int)
      modifies state
      ensures p == old(state.port).GetOr(freshPort) && state.port == Some(p)
      ensures state.proc == old(state.proc) && state.starting == old(state.starting)
      ensures state.terminated == old(state.terminated) && state.restarts == old(state.restarts)
    {
      if state.port.None? {
        state.port := Some(freshPort);
      }
      p := state.port.value;
    }

    /** `start_process`. `probes[i]` is what the i-th readiness check sees;
        `freshPort` is the port the operating system would hand out, `cmd`
        and `env` what `get_cmd` and `get_env` render for the server's port
        (reading it allocates it), and `environ` is the server's environment.
        A process is stored in `'proc'` only once a probe finds it up, and
        `'starting'` is cleared on both outcomes. */
    method StartProcess(freshPort: int, cmd: int -> seq<string>, environ: map<string, string>,
                        env: int -> map<string, string>, cwd: string, probes: seq<Probe>)
      returns (r: Result<()>)
      requires |probes| >= StartProbes
      modifies state
      ensures old(state.starting) ==> r == Err(Raised(AlreadyPending(name))) && unchanged(state)
      ensures !old(state.starting) && old(state.proc).Some? ==>
        r == Err(Raised(AlreadyRunning(name))) && unchanged(state)
      ensures !old(state.starting) && old(state.proc).None? ==>
        state.port == Some(old(state.port).GetOr(freshPort))
      ensures var port := old(state.port).GetOr(freshPort);
        !old(state.starting) && old(state.proc).None? && FirstUp(probes[..StartProbes]) < StartProbes ==>
        r == Ok(()) && state.proc == Some(Subprocess(cmd(port), environ + env(port), cwd))
        && !state.starting && state.terminated == old(state.terminated)
      ensures var port := old(state.port).GetOr(freshPort);
        !old(state.starting) && old(state.proc).None? && FirstUp(probes[..StartProbes]) == StartProbes ==>
        r == Err(HttpError(500, CouldNotStart(name))) && state.proc.None? && !state.starting
        && state.terminated == old(state.terminated) + [Subprocess(cmd(port), environ + env(port), cwd)]
      ensures state.restarts == old(state.restarts)
    {
      if state.starting {
        return Err(Raised(AlreadyPending(name)));
      }
      if state.proc.Some? {
        return Err(Raised(AlreadyRunning(name)));
      }
      state.starting := true;
      var port := Port(freshPort);
      var serverEnv := environ + env(port);
      var proc := Subprocess(cmd(port), serverEnv, cwd);
      var up := ProbeUntilUp(probes);
      if !up {
        state.starting := false;
        state.terminated := state.terminated + [proc];
        return Err(HttpError(500, CouldNotStart(name)));
      }
      state.proc := Some(proc);
      state.starting := false;
      r := Ok(());
    }

    /** The exit callback: `'proc'` is always dropped, and a restart is
        scheduled only for a nonzero exit code while no start is pending. */
    method ExitCallback(code: int)
      modifies state
      ensures state.proc.None?
      ensures state.restarts == old(state.restarts) + (if code != 0 && !old(state.starting) then 1 else 0)
      ensures state.starting == old(state.starting) && state.port == old(state.port)
      ensures state.terminated == old(state.terminated)
    {
      state.proc := None;
      if code != 0 && !state.starting {
        state.restarts := state.restarts + 1;
      }
    }

    /** `conditional_start`. While a start is pending, `procSeen[i]` says
        whether `'proc'` is in the state at the i-th of the 5 checks (another
        request is starting it); without a pending start the process is
        started unless `'proc'` is present; the other inputs are those of
        StartProcess. */
    method ConditionalStart(procSeen: seq<bool>, freshPort: int, cmd: int -> seq<string>,
                            environ: map<string, string>, env: int -> map<string, string>, cwd: string,
                            probes: seq<Probe>)
      returns (r: Result<()>)
      requires |procSeen| >= WaitChecks && |probes| >= StartProbes
      modifies state
      ensures old(state.starting) ==> unchanged(state)
      ensures old(state.starting) ==>
        (r.Ok? <==> exists i :: 0 <= i < WaitChecks && procSeen[i])
      ensures old(state.starting) && r.Err? ==> r.error == HttpError(500, DidNotStart(name))
      ensures !old(state.starting) && old(state.proc).Some? ==> r == Ok(()) && unchanged(state)
      ensures !old(state.starting) && old(state.proc).None? ==>
        && !state.starting
        && (r.Ok? <==> FirstUp(probes[..StartProbes]) < StartProbes)
        && state.port == Some(old(state.port).GetOr(freshPort))
        && (var port := state.port.value;
            r.Ok? ==> state.proc == Some(Subprocess(cmd(port), environ + env(port), cwd)))
        && (r.Err? ==> state.proc.None? && r.error == HttpError(500, CouldNotStart(name)))
      ensures !state.starting || old(state.starting)
    {
      if state.starting {
        var found := WaitForProc(procSeen);
        if !found {
          return Err(HttpError(500, DidNotStart(name)));
        }
        r := Ok(());
      } else if state.proc.None? {
        r := StartProcess(freshPort, cmd, environ, env, cwd, probes);
      } else {
        r := Ok(());
      }
    }
  }

  /** The `for i in range(8)` loop of `start_process`: whether one of the
      first 8 probes finds the process up. */
  method ProbeUntilUp(probes: seq<Probe>) returns (up: bool)
    requires |probes| >= StartProbes
    ensures up <==> FirstUp(probes[..StartProbes]) < StartProbes
  {
    up := false;
    var i := 0;
    while i < StartProbes && !up
      invariant 0 <= i <= StartProbes
      invariant up ==> 0 < i && FirstUp(probes[..StartProbes]) == i - 1
      invariant !up ==> forall j :: 0 <= j < i ==> !IsRunning(probes[j])
    {
      if IsRunning(probes[i]) {
        up := true;
        FirstUpAt(probes[..StartProbes], i);
      }
      i := i + 1;
    }
    if !up {
      FirstUpNone(probes[..StartProbes]);
    }
  }

  /** The `for i in range(5)` loop of `conditional_start`: whether `'proc'`
      shows up at one of the 5 checks. */
  method WaitForProc(procSeen: seq<bool>) returns (found: bool)
    requires |procSeen| >= WaitChecks
    ensures found <==> exists i :: 0 <= i < WaitChecks && procSeen[i]
  {
    found := false;
    var i := 0;
    while i < WaitChecks && !found
      invariant 0 <= i <= WaitChecks
      invariant found <==> exists j :: 0 <= j < i && procSeen[j]
    {
      if procSeen[i] {
        found := true;
      }
      i := i + 1;
    }
  }

  lemma FirstUpAt(probes: seq<Probe>, i: nat)
    requires i < |probes| && IsRunning(probes[i])
    requires forall j :: 0 <= j < i ==> !IsRunning(probes[j])
    ensures FirstUp(probes) == i
  {
  }

  lemma FirstUpNone(probes: seq<Probe>)
    requires forall j :: 0 <= j < |probes| ==> !IsRunning(probes[j])
    ensures FirstUp(probes) == |probes|
  {
  }

  // ---------------------------------------------------------------------
  // the context path as written

  /** The context path as `nbserverproxy` computes it: `url_path_join` on
      `port` without `str()`. The supervised handler passes its integer
      port, on which `url_path_join`'s string methods raise AttributeError. */
  function NbContextPath(baseUrl: string, port: Forwarding.PortArg): (r: Result<string>)
    ensures port.PortStr? ==> r == Ok(Forwarding.ContextPath(baseUrl, port))
    ensures port.PortInt? ==> r == Err(AttributeError)
  {
    match port
    case PortStr(s) => Ok(UrlPathJoin([baseUrl, "proxy", s]))
    case PortInt(_) => Err(AttributeError)
  }

  /** A supervised nbserverproxy request on port 8888 under base URL `/`
      fails while building the context headers, where `str(port)` makes it
      `/proxy/8888`. */
  lemma NbSupervisedContextPathFails()
    ensures NbContextPath("/", Forwarding.PortInt(8888)) == Err(AttributeError)
    ensures Forwarding.ContextPath("/", Forwarding.PortInt(8888)) == "/proxy/8888"
  {
    Forwarding.IntPortIsSegment(8888);
    Forwarding.ContextPathAtRoot(Forwarding.PortInt(8888));
    assert IntToString(8888) == "8888" by {
      assert NatToString(8888) == "8888";
    }
  }
}
