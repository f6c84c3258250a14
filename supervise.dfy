/** The process supervision of `SuperviseAndProxyHandler` in
    `jupyter_server_proxy/handlers.py`: the `state` dictionary shared by all
    requests for one server (keys `port`, `proc`, `proc_lock`), the port it
    allocates once, and `ensure_process`, which starts the process and keeps
    `'proc'` out of the state whenever starting fails. */
module Supervise {
  import opened Common
  import Forwarding

  /** A `SupervisedProcess` as created: its name, command and environment. */
  datatype Process = Process(name: string, cmd: seq<string>, env: map<string, string>)

  /** The shared `state` dictionary; a key is present iff its field is Some
      (for `proc_lock`: true). The processes killed so far are recorded. */
  class State {
    var port: Option<int>
    var proc: Option<Process>
    var procLock: bool
    var killed: seq<Process>

    /** A fresh, empty `state={}`. */
    constructor()
      ensures port == None && proc == None && !procLock && killed == []
    {
      port := None;
      proc := None;
      procLock := false;
      killed := [];
    }
  }

  /** `_http_ready_func`: the process is ready iff `GET
      http://localhost:<port>` answers 200; a refused connection (None) is
      not ready. */
  function HttpReady(status: Option<int>): (ready: bool)
    ensures ready <==> status == Some(200)
  {
    match status
    case None => false
    case Some(code) => code == 200
  }

  /** The message of the HTTP 500 raised when the process is not ready. */
  function NotReadyMessage(name: string): string {
    "could not start " + name + " in time"
  }

  class SuperviseAndProxyHandler {
    const name: string
    const state: State

    /** `initialize(state)`: the handler keeps the shared state, and the
        lock is created only if the state has none yet. */
    constructor(name: string, state: State)
      modifies state
      ensures this.name == name && this.state == state
      ensures state.procLock
      ensures state.port == old(state.port) && state.proc == old(state.proc)
      ensures state.killed == old(state.killed)
    {
      this.name := name;
      this.state := state;
      if !state.procLock {
        state.procLock := true;
      }
    }

    /** The `port` property: `freshPort` stands for the port the operating
        system hands out; it is taken only when the state has none. */
    method Port(freshPort: int) returns (p: int)
      modifies state
      ensures old(state.port).Some? ==> p == old(state.port).value
      ensures old(state.port).None? ==> p == freshPort
      ensures state.port == Some(p)
      ensures state.proc == old(state.proc) && state.procLock == old(state.procLock)
      ensures state.killed == old(state.killed)
    {
      if state.port.None? {
        state.port := Some(freshPort);
      }
      p := state.port.value;
    }

    /** Reading the port twice gives the same value, whatever the operating
        system would hand out the second time. */
    method PortIsAllocatedOnce(first: int, second: int) returns (a: int, b: int)
      modifies state
      ensures a == b
      ensures state.port == Some(a)
    {
      a := Port(first);
      b := Port(second);
    }

    /** `ensure_process`. The operating system is an input: `freshPort` is
        the port it would hand out, `cmd` and `env` are what `get_cmd` and
        `get_env` render for the server's port (reading it allocates it),
        `environ` is the server's environment, `startError` an exception of
        `proc.start()`, `ready` the result of `proc.ready()` (or its
        exception). Nothing happens if `'proc'` is in the state. */
    method EnsureProcess(freshPort: int, cmd: int -> seq<string>, environ: map<string, string>,
                         env: int -> map<string, string>, startError: Option<Error>, ready: Result<bool>)
      returns (r: Result<()>)
      modifies state
      ensures old(state.proc).Some? ==>
        r == Ok(()) && state.proc == old(state.proc) && state.killed == old(state.killed)
        && state.port == old(state.port)
      ensures old(state.proc).None? ==> state.port == Some(old(state.port).GetOr(freshPort))
      ensures var port := old(state.port).GetOr(freshPort);
        old(state.proc).None? && r.Ok? ==>
        state.proc == Some(Process(name, cmd(port), environ + env(port))) && state.killed == old(state.killed)
      ensures old(state.proc).None? && r.Err? ==> state.proc.None?
      ensures r.Ok? <==> old(state.proc).Some? || (startError.None? && ready == Ok(true))
      ensures old(state.proc).None? && startError.Some? ==>
        r == Err(startError.value) && state.killed == old(state.killed)
      ensures old(state.proc).None? && startError.None? && ready.Err? ==>
        r == Err(ready.error) && state.killed == old(state.killed)
      ensures var port := old(state.port).GetOr(freshPort);
        old(state.proc).None? && startError.None? && ready == Ok(false) ==>
        r == Err(HttpError(500, NotReadyMessage(name)))
        && state.killed == old(state.killed) + [Process(name, cmd(port), environ + env(port))]
      ensures state.procLock == old(state.procLock)
    {
      if state.proc.None? {
        var port := Port(freshPort);
        var serverEnv := environ + env(port);
        var proc := Process(name, cmd(port), serverEnv);
        state.proc := Some(proc);
        var failure: Option<Error> := None;
        if startError.Some? {
          failure := startError;
        } else if ready.Err? {
          failure := Some(ready.error);
        } else if !ready.value {
          state.killed := state.killed + [proc];
          failure := Some(HttpError(500, NotReadyMessage(name)));
        }
        if failure.Some? {
          state.proc := None;
          r := Err(failure.value);
        } else {
          r := Ok(());
        }
      } else {
        r := Ok(());
      }
    }

    /** HTTP requests: the path gets its leading `/`, the process is ensured,
        and the request goes to the allocated port; a failure to start is the
        request's error. */
    method ProxyTarget(path: string, freshPort: int, cmd: int -> seq<string>, environ: map<string, string>,
                       env: int -> map<string, string>, startError: Option<Error>, ready: Result<bool>)
      returns (r: Result<(int, string)>)
      modifies state
      ensures r.Ok? ==> r.value == (old(state.port).GetOr(freshPort), Forwarding.WsPath(path))
      ensures r.Ok? ==> state.port == Some(r.value.0) && state.proc.Some?
      ensures r.Err? ==> state.proc.None?
    {
      var p := Forwarding.WsPath(path);
      var started := EnsureProcess(freshPort, cmd, environ, env, startError, ready);
      if started.Err? {
        r := Err(started.error);
      } else {
        var port := Port(freshPort);
        r := Ok((port, p));
      }
    }

    /** Websocket connections: the process is ensured and the connection
        goes to the allocated port with the path as given. */
    method OpenTarget(path: string, freshPort: int, cmd: int -> seq<string>, environ: map<string, string>,
                      env: int -> map<string, string>, startError: Option<Error>, ready: Result<bool>)
      returns (r: Result<(int, string)>)
      modifies state
      ensures r.Ok? ==> r.value == (old(state.port).GetOr(freshPort), path)
      ensures r.Ok? ==> state.port == Some(r.value.0) && state.proc.Some?
      ensures r.Err? ==> state.proc.None?
    {
      var started := EnsureProcess(freshPort, cmd, environ, env, startError, ready);
      if started.Err? {
        r := Err(started.error);
      } else {
        var port := Port(freshPort);
        r := Ok((port, path));
      }
    }
  }
}
