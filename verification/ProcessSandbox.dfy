/** The process sandbox as the object it is: its methods update its fields, call each other
    and are called again by the hook they run. Each does what the function of its name does. */
module ProcessSandbox {
  import opened Options
  import opened Lifecycle

  class ProcessSandbox {
    const config: Config
    var process: Option<Proc>
    var conn: bool
    var started: bool
    var generation: nat
    var inStartHook: bool
    ghost var log: seq<Mark>

    ghost function Now(): Box
      reads this
    {
      Box(process, conn, started, generation, inStartHook, log)
    }

    constructor (config: Config)
      ensures this.config == config && Now() == INIT
    {
      this.config := config;
      process, conn, started, generation, inStartHook := None, false, false, 0, false;
      log := [];
    }

    /** `_kill` and `_cleanup`: either way the process and the connection are gone. */
    method Clean()
      modifies this
      ensures Now() == Cleanup(old(Now()))
    {
      conn := false;
      process := None;
    }

    method EnsureWorker(env: Env) returns (ok: bool)
      modifies this
      ensures Out(Now(), ok) == Ensure(config, old(Now()), env)
      decreases if inStartHook then 0 else 1, 0, 2
    {
      if process.Some? && process.value.alive { return true; }
      if inStartHook { return false; }
      if process.Some? { Clean(); }
      if env.start.NoPipe? || env.start.NoStart? { return false; }
      process := Some(Proc(true, env.start.Ready?, false, false, Reported(env.start)));
      if env.start.WaitRaised? {
        conn := env.start.connected;
        return false;
      }
      conn := true;
      if !env.start.Ready? {
        Clean();
        return false;
      }
      ok := VerifyIsolation(env.start.degraded, env.acts);
    }

    method VerifyIsolation(degraded: Option<bool>, acts: seq<Act>) returns (ok: bool)
      requires !inStartHook && process.Some?
      modifies this
      ensures Out(Now(), ok) == Verify(config, old(Now()), degraded, acts)
      decreases 1, 0, 1
    {
      if config.auto && degraded != Some(false) {
        if !config.allowDegraded {
          Clean();
          return false;
        }
        if config.strict { return false; }
      }
      generation := generation + 1;
      log := log + [Counted(degraded)];
      process := Some(process.value.(accepted := true, prepared := !config.hooked));
      if config.hooked { ok := RunHook(acts); } else { ok := true; }
    }

    method RunHook(acts: seq<Act>) returns (ok: bool)
      requires !inStartHook
      modifies this
      ensures Out(Now(), ok) == RunStartHook(config, old(Now()), acts)
      decreases 1, 0, 0
    {
      inStartHook := true;
      log := log + [HookBegan];
      ok := HookBody(acts);
      if ok && process.Some? && process.value.alive {
        process := Some(process.value.(prepared := true));
      } else {
        Clean();
        ok := false;
      }
      log := log + [HookEnded(ok)];
      inStartHook := false;
    }

    /** The hook's code, which uses the sandbox it was given. */
    method HookBody(acts: seq<Act>) returns (ok: bool)
      requires inStartHook
      modifies this
      ensures Out(Now(), ok) == Acts(config, old(Now()), acts)
      decreases 0, |acts|, 0
    {
      if acts == [] { return true; }
      var caught := false;
      match acts[0] {
      case HExec(end, k) => ok := Execute(Env(NoPipe, []), end); caught := k;
      case HEnter(k) => ok := Open(Env(NoPipe, [])); caught := k;
      case HShutdown => Close(); ok := true;
      case HCrash => Die(); ok := true;
      case HRaise => ok := false;
      }
      if ok || caught { ok := HookBody(acts[1..]); }
    }

    method Execute(env: Env, end: End) returns (ok: bool)
      modifies this
      ensures Out(Now(), ok) == Exec(config, old(Now()), env, end)
      decreases if inStartHook then 0 else 1, 0, 3
    {
      if !started { return false; }
      ok := EnsureWorker(env);
      if !ok { return false; }
      if !conn || process.None? { return false; }
      if end.SendFailed? {
        if end.dies { Die(); }
        return false;
      }
      log := log + [Reached(process.value, inStartHook)];
      if end.Interrupted? { return false; }
      if !end.Replied? { Clean(); }
      ok := true;
    }

    method Open(env: Env) returns (ok: bool)
      modifies this
      ensures Out(Now(), ok) == Enter(config, old(Now()), env)
      decreases if inStartHook then 0 else 1, 0, 3
    {
      started := true;
      ok := EnsureWorker(env);
      if !ok { started := false; }
    }

    method Close()
      modifies this
      ensures Now() == Shutdown(old(Now()))
    {
      started := false;
      Clean();
    }

    /** The worker dies, as it may at any time. */
    method Die()
      modifies this
      ensures Now() == Crash(old(Now()))
    {
      if process.Some? { process := Some(process.value.(alive := false)); }
    }

    /** A whole run: what the theorems say of every run is so of this object. */
    method Drive(es: seq<Event>, ghost starts: Start -> bool)
      requires Now() == INIT
      modifies this
      ensures Now() == Play(config, INIT, es)
      ensures From(starts, es) && (forall s :: starts(s) ==> !Strands(config, s)) ==> Promised(config, Now())
    {
      var i := 0;
      assert es[0..] == es;
      while i < |es|
        invariant 0 <= i <= |es|
        invariant Play(config, Now(), es[i..]) == Play(config, INIT, es)
      {
        assert es[i..][0] == es[i] && es[i..][1..] == es[i + 1..];
        var ok;
        match es[i] {
        case DoEnter(env) => ok := Open(env);
        case DoExec(env, end) => ok := Execute(env, end);
        case DoCrash => Die();
        case DoShutdown => Close();
        }
        i := i + 1;
      }
      if From(starts, es) && (forall s :: starts(s) ==> !Strands(config, s)) { PromisedRun(config, starts, es); }
    }
  }
}
