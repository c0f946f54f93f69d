/** The checkpoint gate's boxes, updated in place: the tick counter, and the depth of the calls
    that came back into sandboxed code. Each method does what the evaluator's step does. */
module Gates {
  import opened Options
  import opened Python

  class Gates {
    const limit: Option<nat>
    var ticks: nat
    var callbackDepth: nat
    var inExec: bool

    constructor (limit: Option<nat>)
      ensures this.limit == limit && ticks == 0 && callbackDepth == 0 && inExec
    {
      this.limit := limit;
      ticks, callbackDepth, inExec := 0, 0, true;
    }

    /** What the evaluator's meter and configuration see of the boxes. */
    ghost predicate Shows(cfg: Config, m: Meter)
      reads this
    {
      cfg.metered && limit == cfg.limit && inExec == cfg.inExec && ticks == m.ticks && callbackDepth == m.depth
    }

    /** `__st_checkpoint__`: none when the code may go on. */
    method Checkpoint(signal: Signal, ghost cfg: Config, ghost st: State) returns (e: Option<Error>)
      requires Shows(cfg, st.meter) && signal == cfg.signal(st.meter.calls)
      modifies this`ticks
      ensures Shows(cfg, DoCheckpoint(cfg, st).st.meter)
      ensures e.None? <==> DoCheckpoint(cfg, st).EOk?
      ensures e.Some? ==> DoCheckpoint(cfg, st).EExc? && DoCheckpoint(cfg, st).e == e.value
    {
      hide Metered;
      if signal == Cancelled { return Some(StCancelled); }
      ticks := ticks + 1;
      if limit.Some? && ticks > limit.value { return Some(StTickLimit); }
      if signal == TimedOut { return Some(StTimeout); }
      if signal == NoMemory { return Some(MemoryError); }
      return None;
    }

    /** A captured function is entered, and left again. */
    method EnterCallback(ghost cfg: Config, ghost m: Meter)
      requires Shows(cfg, m) && cfg.wraps
      modifies this
      ensures Shows(cfg, Entered(cfg, m))
    {
      if !inExec && callbackDepth == 0 { ticks := 0; }
      callbackDepth := callbackDepth + 1;
    }

    method LeaveCallback(ghost cfg: Config, ghost caller: State, ghost inner: SR)
      requires Shows(cfg, inner.st.meter) && inner.st.meter.depth == caller.meter.depth + 1
      modifies this`callbackDepth
      ensures Shows(cfg, Returned(caller, inner).st.meter)
    {
      callbackDepth := callbackDepth - 1;
    }
  }
}
