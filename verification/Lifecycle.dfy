/** A process sandbox's workers: started, checked, prepared by the hook, replaced.

    What the system outside decides is a parameter: how a start goes, what the hook does, how
    an execution ends. Beside the sandbox's own fields, a worker carries what it has been
    through, and a log says which workers executions reached. */
module Lifecycle {
  import opened Options

  /** A worker, whether it has reported ready, been accepted and been prepared, and what it
      reported of its isolation: degraded, not degraded, or nothing. */
  datatype Proc = Proc(alive: bool, ready: bool, accepted: bool, prepared: bool, report: Option<bool>)

  /** `done`: the hook came to its end and left a live worker. */
  datatype Mark =
    | Reached(worker: Proc, inHook: bool) | Counted(report: Option<bool>) | HookBegan | HookEnded(done: bool)

  datatype Box = Box(
    process: Option<Proc>, conn: bool, started: bool, generation: nat, inHook: bool, log: seq<Mark>)

  const INIT := Box(None, false, false, 0, false, [])

  /** `strict`: a warning is raised as an error. */
  datatype Config = Config(auto: bool, allowDegraded: bool, strict: bool, hooked: bool)

  /** How a start goes. `WaitRaised` is an error, once the process has been started, that nothing
      there catches: before the connection is kept, or in the wait for the first message and in
      reading it. A ready worker reports its isolation as degraded or not, or not at all. */
  datatype Start =
    | NoPipe | NoStart | WaitRaised(connected: bool) | NotReady | DiedEarly | InitError | OddMessage
    | Ready(degraded: Option<bool>)

  /** How an execution ends. A request that cannot be sent may find the worker dead or leave it
      alone; an error out of the wait leaves it, too. */
  datatype End = Replied | WorkerDied | Unresponsive | SendFailed(dies: bool) | Interrupted

  /** What a hook does with the sandbox it is given; `caught` when it catches what is raised. */
  datatype Act = HExec(end: End, caught: bool) | HEnter(caught: bool) | HShutdown | HCrash | HRaise

  /** What a worker start meets, should there be one. */
  datatype Env = Env(start: Start, acts: seq<Act>)

  /** `ok` when the call returned, and not when it raised. */
  datatype Out = Out(box: Box, ok: bool)

  // ----- the operations -----

  function Cleanup(b: Box): Box { b.(conn := false, process := None) }

  function Crash(b: Box): Box {
    if b.process.Some? then b.(process := Some(b.process.value.(alive := false))) else b
  }

  predicate Live(b: Box) { b.process.Some? && b.process.value.alive }

  predicate Doubtful(c: Config, degraded: Option<bool>) { c.auto && degraded != Some(false) }

  function Ensure(c: Config, b: Box, env: Env): (r: Out)
    ensures r.box.inHook == b.inHook
    decreases if b.inHook then 0 else 1, 0, 2
  {
    if Live(b) then Out(b, true)
    else if b.inHook then Out(b, false)
    else
      var b1 := if b.process.Some? then Cleanup(b) else b;
      match env.start
      case NoPipe => Out(b1, false)
      case NoStart => Out(b1, false)
      case WaitRaised(connected) =>
        Out(b1.(process := Some(Proc(true, false, false, false, None)), conn := connected), false)
      case Ready(degraded) =>
        Verify(c, b1.(process := Some(Proc(true, true, false, false, degraded)), conn := true), degraded, env.acts)
      case _ => Out(Cleanup(b1), false)
  }

  /** The isolation is accepted, warned about or refused; then the worker counts. */
  function Verify(c: Config, b: Box, degraded: Option<bool>, acts: seq<Act>): (r: Out)
    requires !b.inHook && b.process.Some?
    ensures r.box.inHook == b.inHook
    decreases 1, 0, 1
  {
    if Doubtful(c, degraded) && !c.allowDegraded then Out(Cleanup(b), false)
    else if Doubtful(c, degraded) && c.strict then Out(b, false)
    else
      var b1 := b.(generation := b.generation + 1, log := b.log + [Counted(degraded)],
                   process := Some(b.process.value.(accepted := true, prepared := !c.hooked)));
      if c.hooked then RunStartHook(c, b1, acts) else Out(b1, true)
  }

  function RunStartHook(c: Config, b: Box, acts: seq<Act>): (r: Out)
    requires !b.inHook
    ensures !r.box.inHook
    decreases 1, 0, 0
  {
    var r := Acts(c, b.(inHook := true, log := b.log + [HookBegan]), acts);
    if r.ok && Live(r.box)
    then Out(r.box.(inHook := false, log := r.box.log + [HookEnded(true)],
                    process := Some(r.box.process.value.(prepared := true))), true)
    else Out(Cleanup(r.box).(inHook := false, log := r.box.log + [HookEnded(false)]), false)
  }

  function Acts(c: Config, b: Box, acts: seq<Act>): (r: Out)
    requires b.inHook
    ensures r.box.inHook
    decreases 0, |acts|, 0
  {
    if acts == [] then Out(b, true)
    else
      var r := match acts[0]
        case HExec(end, _) => Exec(c, b, Env(NoPipe, []), end)
        case HEnter(_) => Enter(c, b, Env(NoPipe, []))
        case HShutdown => Out(Shutdown(b), true)
        case HCrash => Out(Crash(b), true)
        case HRaise => Out(b, false);
      var caught := match acts[0] { case HExec(_, k) => k case HEnter(k) => k case _ => false };
      if r.ok || caught then Acts(c, r.box, acts[1..]) else r
  }

  function Exec(c: Config, b: Box, env: Env, end: End): (r: Out)
    ensures r.box.inHook == b.inHook
    decreases if b.inHook then 0 else 1, 0, 3
  {
    if !b.started then Out(b, false)
    else
      var r := Ensure(c, b, env);
      if !r.ok || !r.box.conn || !r.box.process.Some? then Out(r.box, false)
      else
        var b1 := r.box.(log := r.box.log + [Reached(r.box.process.value, r.box.inHook)]);
        match end
        case Replied => Out(b1, true)
        case WorkerDied => Out(Cleanup(b1), true)
        case Unresponsive => Out(Cleanup(b1), true)
        case SendFailed(dies) => Out(if dies then Crash(r.box) else r.box, false)
        case Interrupted => Out(b1, false)
  }

  function Enter(c: Config, b: Box, env: Env): (r: Out)
    ensures r.box.inHook == b.inHook
    decreases if b.inHook then 0 else 1, 0, 3
  {
    var r := Ensure(c, b.(started := true), env);
    if r.ok then r else Out(r.box.(started := false), false)
  }

  function Shutdown(b: Box): Box { Cleanup(b.(started := false)) }

  // ----- runs -----

  datatype Event = DoEnter(env: Env) | DoExec(env: Env, end: End) | DoCrash | DoShutdown

  function Next(c: Config, b: Box, e: Event): Box {
    match e
    case DoEnter(env) => Enter(c, b, env).box
    case DoExec(env, end) => Exec(c, b, env, end).box
    case DoCrash => Crash(b)
    case DoShutdown => Shutdown(b)
  }

  function Play(c: Config, b: Box, es: seq<Event>): Box
    decreases es
  {
    if es == [] then b else Play(c, Next(c, b, es[0]), es[1..])
  }

  // ----- the log -----

  function Count(log: seq<Mark>): nat {
    if log == [] then 0 else Count(log[..|log| - 1]) + (if log[|log| - 1].Counted? then 1 else 0)
  }

  /** How deep in hooks the log ends. */
  function Depth(log: seq<Mark>): int {
    if log == [] then 0
    else
      Depth(log[..|log| - 1]) +
      (match log[|log| - 1] case HookBegan => 1 case HookEnded(_) => -1 case _ => 0)
  }

  /** The last mark that is no execution. */
  function Latest(log: seq<Mark>): Option<Mark> {
    if log == [] then None
    else if log[|log| - 1].Reached? then Latest(log[..|log| - 1]) else Some(log[|log| - 1])
  }

  /** Where degraded isolation is not allowed, the worker said its own is not. */
  predicate Isolated(c: Config, report: Option<bool>) { c.auto && !c.allowDegraded ==> report == Some(false) }

  /** The worker has been counted, and prepared where there is a hook to do it. */
  predicate Prepared(c: Config, m: Option<Mark>) {
    m.Some? && (if c.hooked then m.value == HookEnded(true) else m.value.Counted?)
  }

  predicate Fine(w: Proc) { w.ready && w.accepted && w.prepared }

  /** An execution reached a worker that was ready, accepted and, but for the hook's own, prepared. */
  predicate ReachedFine(c: Config, log: seq<Mark>) {
    && (forall i :: 0 <= i < |log| && log[i].Reached? ==>
          && log[i].worker.ready && log[i].worker.accepted && (log[i].worker.prepared == !log[i].inHook)
          && Isolated(c, log[i].worker.report))
    && (forall i :: 0 <= i < |log| && log[i].Counted? ==> Isolated(c, log[i].report))
  }

  /** An execution comes after the hook has prepared the worker, or while it does; and a hook is
      for the worker just counted. */
  predicate InTurn(c: Config, log: seq<Mark>) {
    && (forall i :: 0 <= i < |log| && log[i].Reached? ==>
          if log[i].inHook then Latest(log[..i]) == Some(HookBegan) else Prepared(c, Latest(log[..i])))
    && (forall i :: 0 <= i < |log| && log[i].HookBegan? ==> i > 0 && log[i - 1].Counted?)
  }

  /** A hook begins only with none running, and an execution is the hook's when one is. */
  predicate NoNesting(log: seq<Mark>) {
    && (forall i :: 0 <= i < |log| && log[i].HookBegan? ==> Depth(log[..i]) == 0)
    && (forall i :: 0 <= i < |log| && log[i].Reached? ==> Depth(log[..i]) == if log[i].inHook then 1 else 0)
  }

  predicate Kept(c: Config, b: Box) {
    && b.conn == b.process.Some?
    && (b.process.Some? ==>
          && b.process.value.ready && b.process.value.accepted && b.process.value.prepared == !b.inHook
          && Isolated(c, b.process.value.report)
          && (!b.inHook ==> Prepared(c, Latest(b.log))))
    && b.generation == Count(b.log)
    && Depth(b.log) == (if b.inHook then 1 else 0)
    && (b.inHook ==> Latest(b.log) == Some(HookBegan))
    && ReachedFine(c, b.log) && NoNesting(b.log) && InTurn(c, b.log)
  }

  lemma LogAdd(log: seq<Mark>, m: Mark)
    ensures Count(log + [m]) == Count(log) + (if m.Counted? then 1 else 0)
    ensures Depth(log + [m]) == Depth(log) + (match m case HookBegan => 1 case HookEnded(_) => -1 case _ => 0)
    ensures Latest(log + [m]) == if m.Reached? then Latest(log) else Some(m)
  {
    assert (log + [m])[..|log + [m]| - 1] == log;
  }

  lemma NestAdd(log: seq<Mark>, m: Mark)
    requires NoNesting(log) && (m.HookBegan? ==> Depth(log) == 0)
    requires m.Reached? ==> Depth(log) == if m.inHook then 1 else 0
    ensures NoNesting(log + [m])
  {
    hide Depth;
    assert log[..|log|] == log;
    assert forall i :: 0 <= i <= |log| ==> (log + [m])[..i] == log[..i];
  }

  lemma TurnAdd(c: Config, log: seq<Mark>, m: Mark)
    requires InTurn(c, log)
    requires m.Reached? ==> if m.inHook then Latest(log) == Some(HookBegan) else Prepared(c, Latest(log))
    requires m.HookBegan? ==> log != [] && log[|log| - 1].Counted?
    ensures InTurn(c, log + [m])
  {
    hide Latest, Prepared;
    assert log[..|log|] == log;
    assert forall i :: 0 <= i <= |log| ==> (log + [m])[..i] == log[..i];
  }

  /** One more mark, with the fields it speaks of. */
  lemma KeptMark(c: Config, b: Box, m: Mark, t: Box)
    requires Kept(c, b) && t.log == b.log + [m] && t.conn == t.process.Some?
    requires t.process.Some? ==>
      && t.process.value.ready && t.process.value.accepted && t.process.value.prepared == !t.inHook
      && Isolated(c, t.process.value.report)
      && (!t.inHook ==> if m.Reached? then b.process.Some? else Prepared(c, Some(m)))
    requires m.Counted? ==> !b.inHook && Isolated(c, m.report)
    requires m.HookBegan? ==> b.log != [] && b.log[|b.log| - 1].Counted?
    requires t.generation == b.generation + (if m.Counted? then 1 else 0)
    requires m.HookBegan? ==> !b.inHook && t.inHook
    requires m.HookEnded? ==> b.inHook && !t.inHook
    requires !m.HookBegan? && !m.HookEnded? ==> t.inHook == b.inHook
    requires m.Reached? ==>
      && m.inHook == b.inHook && m.worker.ready && m.worker.accepted && m.worker.prepared == !m.inHook
      && Isolated(c, m.worker.report) && b.process.Some?
    ensures Kept(c, t)
  {
    LogAdd(b.log, m);
    NestAdd(b.log, m);
    TurnAdd(c, b.log, m);
    hide Count, Depth, NoNesting, InTurn, Latest, Isolated, Prepared;
  }

  /** A start that leaves its worker alive, and neither counted nor prepared: an error nothing
      catches, or a warning about a degraded worker that is raised. */
  predicate Strands(c: Config, s: Start) {
    s.WaitRaised? || (s.Ready? && Doubtful(c, s.degraded) && c.allowDegraded && c.strict)
  }

  // ----- every operation keeps it -----

  lemma KeptEnsure(c: Config, b: Box, env: Env)
    requires !Strands(c, env.start) && Kept(c, b)
    ensures Kept(c, Ensure(c, b, env).box)
    ensures Ensure(c, b, env).ok ==> Live(Ensure(c, b, env).box)
    decreases if b.inHook then 0 else 1, 0, 2
  {
    hide Count, Depth, ReachedFine, NoNesting, InTurn, Latest, Isolated, Prepared;
    if !Live(b) && !b.inHook && env.start.Ready? {
      var b1 := if b.process.Some? then Cleanup(b) else b;
      assert Kept(c, b1);
      hide Kept;
      KeptVerify(c, b1, env.start.degraded, env.acts);
    }
  }

  lemma KeptVerify(c: Config, b: Box, degraded: Option<bool>, acts: seq<Act>)
    requires !Strands(c, Ready(degraded)) && Kept(c, b) && !b.inHook && b.process.None?
    ensures var b1 := b.(process := Some(Proc(true, true, false, false, degraded)), conn := true);
      var r := Verify(c, b1, degraded, acts);
      Kept(c, r.box) && (r.ok ==> Live(r.box))
    decreases 1, 0, 1
  {
    hide Count, Depth, ReachedFine, NoNesting, InTurn, Latest;
    if !Doubtful(c, degraded) || (c.allowDegraded && !c.strict) {
      var b0 := b.(generation := b.generation + 1, log := b.log + [Counted(degraded)]);
      KeptMark(c, b, Counted(degraded), b0);
      LogAdd(b.log, Counted(degraded));
      var b1 := b0.(process := Some(Proc(true, true, true, !c.hooked, degraded)), conn := true);
      if c.hooked {
        KeptMark(c, b0, HookBegan, b1.(inHook := true, log := b0.log + [HookBegan]));
        hide Kept;
        KeptHook(c, b1, acts);
      }
    } else {
      assert !c.allowDegraded;
    }
  }

  lemma KeptHook(c: Config, b: Box, acts: seq<Act>)
    requires c.hooked && !b.inHook && Kept(c, b.(inHook := true, log := b.log + [HookBegan]))
    ensures Kept(c, RunStartHook(c, b, acts).box)
    ensures RunStartHook(c, b, acts).ok ==> Live(RunStartHook(c, b, acts).box)
    decreases 1, 0, 0
  {
    var b1 := b.(inHook := true, log := b.log + [HookBegan]);
    KeptActs(c, b1, acts);
    var r := Acts(c, b1, acts);
    KeptMark(c, r.box, HookEnded(r.ok && Live(r.box)), RunStartHook(c, b, acts).box);
  }

  lemma {:induction false} KeptActs(c: Config, b: Box, acts: seq<Act>)
    requires Kept(c, b) && b.inHook
    ensures Kept(c, Acts(c, b, acts).box)
    decreases 0, |acts|, 0
  {
    if acts != [] {
      hide Count, Depth, ReachedFine, NoNesting, InTurn, Latest, Isolated, Prepared;
      match acts[0]
      case HExec(end, caught) =>
        KeptExec(c, b, Env(NoPipe, []), end);
        var r := Exec(c, b, Env(NoPipe, []), end);
        if r.ok || caught { KeptActs(c, r.box, acts[1..]); }
      case HEnter(caught) =>
        KeptEnter(c, b, Env(NoPipe, []));
        if Enter(c, b, Env(NoPipe, [])).ok || caught { KeptActs(c, Enter(c, b, Env(NoPipe, [])).box, acts[1..]); }
      case HShutdown => KeptActs(c, Shutdown(b), acts[1..]);
      case HCrash => KeptActs(c, Crash(b), acts[1..]);
      case HRaise =>
    }
  }

  lemma KeptExec(c: Config, b: Box, env: Env, end: End)
    requires !Strands(c, env.start) && Kept(c, b)
    ensures Kept(c, Exec(c, b, env, end).box)
    decreases if b.inHook then 0 else 1, 0, 3
  {
    hide Count, Depth, ReachedFine, NoNesting, InTurn, Latest, Isolated, Prepared, Ensure, Strands;
    if b.started {
      KeptEnsure(c, b, env);
      var r := Ensure(c, b, env);
      if r.ok && r.box.conn && r.box.process.Some? {
        var m := Reached(r.box.process.value, r.box.inHook);
        KeptMark(c, r.box, m, r.box.(log := r.box.log + [m]));
      }
    }
  }

  lemma KeptEnter(c: Config, b: Box, env: Env)
    requires !Strands(c, env.start) && Kept(c, b)
    ensures Kept(c, Enter(c, b, env).box)
    decreases if b.inHook then 0 else 1, 0, 3
  {
    hide Count, Depth, ReachedFine, NoNesting, InTurn, Latest, Isolated, Prepared;
    KeptEnsure(c, b.(started := true), env);
  }

  /** Every start in the events is one of `starts`. */
  ghost predicate From(starts: Start -> bool, es: seq<Event>) {
    forall i :: 0 <= i < |es| && (es[i].DoEnter? || es[i].DoExec?) ==> starts(es[i].env.start)
  }

  lemma {:induction false} KeptRun(c: Config, starts: Start -> bool, b: Box, es: seq<Event>)
    requires (forall s :: starts(s) ==> !Strands(c, s)) && From(starts, es) && Kept(c, b) && !b.inHook
    ensures Kept(c, Play(c, b, es)) && !Play(c, b, es).inHook
    decreases es
  {
    if es != [] {
      hide Count, Depth, ReachedFine, NoNesting, InTurn, Latest, Isolated, Prepared, Exec, Enter, Strands;
      match es[0] {
        case DoEnter(env) => KeptEnter(c, b, env);
        case DoExec(env, end) => KeptExec(c, b, env, end);
        case DoCrash =>
        case DoShutdown =>
      }
      assert Kept(c, Next(c, b, es[0])) && !Next(c, b, es[0]).inHook;
      hide Kept, Next;
      KeptRun(c, starts, Next(c, b, es[0]), es[1..]);
    }
  }

  // ----- what each operation comes to -----

  /** A worker that reports ready, by what it reports: it is refused and gone, or left behind by a
      warning that is raised, or counted, and then ready for executions or given to the hook. */
  lemma ReadyExactly(c: Config, b: Box, env: Env)
    requires !Live(b) && !b.inHook && env.start.Ready?
    ensures var r, report, gone := Ensure(c, b, env), env.start.degraded, b.(process := None, conn := false);
      if c.auto && report != Some(false) && !c.allowDegraded then r == Out(gone, false)
      else if c.auto && report != Some(false) && c.strict
      then r == Out(gone.(process := Some(Proc(true, true, false, false, report)), conn := true), false)
      else if c.hooked
      then r.box.generation == b.generation + 1 && b.log + [Counted(report), HookBegan] <= r.box.log
      else r == Out(gone.(process := Some(Proc(true, true, true, true, report)), conn := true,
                          generation := b.generation + 1, log := b.log + [Counted(report)]), true)
  {
    if c.hooked {
      var b1 := b.(process := Some(Proc(true, true, true, false, env.start.degraded)), conn := true,
                   generation := b.generation + 1, log := b.log + [Counted(env.start.degraded)]);
      HookGrows(c, b1, env.acts);
    }
  }

  /** Any other start fails and counts nothing, and leaves a worker only when the wait for it was
      broken off. */
  lemma StartFails(c: Config, b: Box, env: Env)
    requires !Live(b) && !b.inHook && !env.start.Ready?
    ensures var r := Ensure(c, b, env);
      && !r.ok && r.box.generation == b.generation && r.box.log == b.log && r.box.started == b.started
      && (Live(r.box) <==> env.start.WaitRaised?)
      && (!env.start.WaitRaised? ==> r.box.process.None?)
  {
  }

  /** Inside a hook no worker is started. */
  lemma InsideHook(c: Config, b: Box, env: Env, end: End)
    requires b.inHook
    ensures Ensure(c, b, env) == Out(b, Live(b))
    ensures Enter(c, b, env) == if Live(b) then Out(b.(started := true), true) else Out(b.(started := false), false)
    ensures var x := Exec(c, b, env, end).box; x.generation == b.generation && b.log <= x.log && x.inHook
  {
    assert Ensure(c, b, env) == Out(b, Live(b));
    assert Ensure(c, b.(started := true), env) == Out(b.(started := true), Live(b));
  }

  /** While a hook runs, nothing counts, and the log only grows. */
  lemma {:induction false} ActsGrow(c: Config, b: Box, acts: seq<Act>)
    requires b.inHook
    ensures var r := Acts(c, b, acts).box; r.generation == b.generation && b.log <= r.log
    decreases |acts|
  {
    if acts != [] {
      var none := Env(NoPipe, []);
      var r := match acts[0]
        case HExec(end, _) => Exec(c, b, none, end)
        case HEnter(_) => Enter(c, b, none)
        case HShutdown => Out(Shutdown(b), true)
        case HCrash => Out(Crash(b), true)
        case HRaise => Out(b, false);
      InsideHook(c, b, none, if acts[0].HExec? then acts[0].end else Replied);
      assert r.box.generation == b.generation && b.log <= r.box.log && r.box.inHook;
      ActsGrow(c, r.box, acts[1..]);
    }
  }

  lemma HookGrows(c: Config, b: Box, acts: seq<Act>)
    requires !b.inHook
    ensures var r := RunStartHook(c, b, acts).box;
      r.generation == b.generation && b.log + [HookBegan] <= r.log
  {
    ActsGrow(c, b.(inHook := true, log := b.log + [HookBegan]), acts);
  }

  /** Something in the hook raises whatever the worker does, and the hook does not catch it. */
  predicate Raises(a: Act) {
    a.HRaise? || (a.HExec? && !a.caught && (a.end.SendFailed? || a.end.Interrupted?))
  }

  lemma {:induction false} ActsRaise(c: Config, b: Box, acts: seq<Act>, i: nat)
    requires b.inHook && i < |acts| && Raises(acts[i])
    ensures !Acts(c, b, acts).ok
    decreases |acts|
  {
    if i > 0 {
      var none := Env(NoPipe, []);
      var r := match acts[0]
        case HExec(end, _) => Exec(c, b, none, end)
        case HEnter(_) => Enter(c, b, none)
        case HShutdown => Out(Shutdown(b), true)
        case HCrash => Out(Crash(b), true)
        case HRaise => Out(b, false);
      ActsRaise(c, r.box, acts[1..], i - 1);
    }
  }

  /** A hook that raises, at any point, fails the start, and there is no worker; and so does one
      that leaves none alive. One that catches everything and leaves the worker alive does not. */
  lemma HookExactly(c: Config, b: Box, acts: seq<Act>)
    requires !b.inHook
    ensures var r := RunStartHook(c, b, acts);
      var inner := Acts(c, b.(inHook := true, log := b.log + [HookBegan]), acts);
      && ((exists i :: 0 <= i < |acts| && Raises(acts[i])) ==> !r.ok)
      && (r.ok <==> inner.ok && Live(inner.box))
      && (!r.ok ==> r.box.process.None? && !r.box.conn)
      && (r.ok ==> Live(r.box) && r.box.process.value.prepared)
      && !r.box.inHook && r.box.log == inner.box.log + [HookEnded(r.ok)]
  {
    if i :| 0 <= i < |acts| && Raises(acts[i]) {
      ActsRaise(c, b.(inHook := true, log := b.log + [HookBegan]), acts, i);
    }
  }

  /** The hook enters the sandbox again, or executes code that is answered. */
  predicate Harmless(a: Act) { a.HEnter? || (a.HExec? && a.end.Replied?) }

  lemma {:induction false} ActsPass(c: Config, b: Box, acts: seq<Act>)
    requires b.inHook && b.started && b.conn && Live(b)
    requires forall i :: 0 <= i < |acts| ==> Harmless(acts[i])
    ensures var r := Acts(c, b, acts);
      r.ok && r.box.started && r.box.conn && r.box.process == b.process && r.box.generation == b.generation
    decreases |acts|
  {
    if acts != [] {
      assert Harmless(acts[0]);
      var r := if acts[0].HEnter? then Enter(c, b, Env(NoPipe, [])) else Exec(c, b, Env(NoPipe, []), Replied);
      InsideHook(c, b, Env(NoPipe, []), Replied);
      assert r.ok && r.box.process == b.process && r.box.started && r.box.conn;
      ActsPass(c, r.box, acts[1..]);
    }
  }

  /** A worker that reports isolation that is not degraded, and a hook that does no harm, however
      often it uses the sandbox: entering succeeds, with that worker counted and prepared. */
  lemma HookPasses(c: Config, b: Box, acts: seq<Act>)
    requires !Live(b) && !b.inHook && forall i :: 0 <= i < |acts| ==> Harmless(acts[i])
    ensures var r := Enter(c, b, Env(Ready(Some(false)), acts));
      && r.ok && r.box.started && r.box.generation == b.generation + 1
      && r.box.process == Some(Proc(true, true, true, true, Some(false))) && r.box.conn
  {
    var b0 := b.(started := true, process := Some(Proc(true, true, false, false, Some(false))), conn := true);
    var b1 := b0.(generation := b.generation + 1, log := b.log + [Counted(Some(false))],
                  process := Some(Proc(true, true, true, false, Some(false))));
    ActsPass(c, b1.(inHook := true, log := b1.log + [HookBegan]), acts);
    hide Acts;
    if c.hooked { assert Verify(c, b0, Some(false), acts) == RunStartHook(c, b1, acts); }
    assert Ensure(c, b.(started := true), Env(Ready(Some(false)), acts)) == Verify(c, b0, Some(false), acts);
  }

  /** The hook's own uses of the sandbox, one by one. */
  lemma ActExactly(c: Config, b: Box, a: Act, rest: seq<Act>)
    requires b.inHook
    ensures var r := Acts(c, b, [a] + rest);
      && (a.HRaise? ==> r == Out(b, false))
      && (a.HShutdown? ==> r == Acts(c, b.(started := false, process := None, conn := false), rest))
      && (a.HCrash? && Live(b) ==>
            r == Acts(c, b.(process := Some(b.process.value.(alive := false))), rest))
      && (a.HEnter? && Live(b) ==> r == Acts(c, b.(started := true), rest))
      && (a.HEnter? && !Live(b) && a.caught ==> r == Acts(c, b.(started := false), rest))
      && (a.HEnter? && !Live(b) && !a.caught ==> r == Out(b.(started := false), false))
      && (a.HExec? ==>
            var x := Exec(c, b, Env(NoPipe, []), a.end);
            r == if x.ok || a.caught then Acts(c, x.box, rest) else x)
  {
    assert ([a] + rest)[1..] == rest;
    InsideHook(c, b, Env(NoPipe, []), Replied);
  }

  /** An execution, by how it ends: refused, failed with its start, or reaching the live worker,
      which it may lose. */
  lemma ExecExactly(c: Config, b: Box, env: Env, end: End)
    ensures var r := Exec(c, b, env, end); var start := Ensure(c, b, env);
      && (!b.started ==> r == Out(b, false))
      && (b.started && !start.ok ==> r == Out(start.box, false))
      && (b.started && start.ok && start.box.conn && Live(start.box) ==>
            var w := start.box;
            var seen := w.(log := w.log + [Reached(w.process.value, w.inHook)]);
            && (end.Replied? ==> r == Out(seen, true))
            && (end.WorkerDied? || end.Unresponsive? ==> r == Out(seen.(process := None, conn := false), true))
            && (end.Interrupted? ==> r == Out(seen, false))
            && (end.SendFailed? ==>
                  !r.ok && r.box.log == w.log && r.box == w.(process := r.box.process) && (Live(r.box) <==> !end.dies)))
  {
  }

  /** Entering succeeds exactly when there is a live worker, or a start that succeeds, and only then
      is the sandbox started; one that was shut down has no worker and refuses executions. */
  lemma EnterExactly(c: Config, b: Box, env: Env, end: End)
    ensures var r := Enter(c, b, env); var s := Ensure(c, b.(started := true), env);
      && (Live(b) ==> r == Out(b.(started := true), true))
      && (!Live(b) && b.inHook ==> r == Out(b.(started := false), false))
      && (r.ok <==> s.ok) && (r.ok ==> r.box == s.box) && (!r.ok ==> r.box == s.box.(started := false))
    ensures var s := Shutdown(b);
      && s == b.(started := false, process := None, conn := false)
      && Exec(c, s, env, end) == Out(s, false)
  {
  }

  // ----- the theorems -----

  /** What is promised of every run: a live worker has reported ready, been accepted and been
      prepared; every execution but the hook's own reached such a worker, after its hook had come to
      its end; where degraded isolation is not allowed, no worker was counted or reached that did
      not report its own as not degraded; no hook began inside another; and the generation counts
      the accepted workers. */
  ghost predicate Promised(c: Config, b: Box) {
    && (Live(b) ==> Fine(b.process.value) && Isolated(c, b.process.value.report) && Prepared(c, Latest(b.log)))
    && (forall i :: 0 <= i < |b.log| && b.log[i].Reached? ==> Isolated(c, b.log[i].worker.report))
    && (forall i :: 0 <= i < |b.log| && b.log[i].Reached? && Depth(b.log[..i]) == 0 ==>
          Fine(b.log[i].worker) && Prepared(c, Latest(b.log[..i])))
    && (forall i :: 0 <= i < |b.log| && b.log[i].Counted? ==> Isolated(c, b.log[i].report))
    && (forall i :: 0 <= i < |b.log| && b.log[i].HookBegan? ==>
          Depth(b.log[..i]) == 0 && i > 0 && b.log[i - 1].Counted?)
    && b.generation == Count(b.log)
  }

  /** One such start, and the worker is there, not accepted and not prepared. */
  lemma Stranded(c: Config, s: Start)
    requires Strands(c, s)
    ensures Enter(c, INIT, Env(s, [])) == Out(Left(s), false) && !Promised(c, Left(s))
  {
    assert Live(Left(s)) && !Fine(Left(s).process.value);
  }

  function Reported(s: Start): Option<bool> { if s.Ready? then s.degraded else None }

  /** What it leaves. */
  function Left(s: Start): Box {
    INIT.(process := Some(Proc(true, s.Ready?, false, false, Reported(s))), conn := s.WaitRaised? ==> s.connected)
  }

  /** Entering again then succeeds with that worker, under any config and whatever a start would
      have met, and an execution reaches it. */
  lemma ReachesStranded(c: Config, s: Start, env: Env)
    requires Strands(c, s) && Left(s).conn
    ensures var b := Play(c, INIT, [DoEnter(Env(s, [])), DoEnter(env), DoExec(env, Replied)]);
      b.log == [Reached(Proc(true, s.Ready?, false, false, Reported(s)), false)] && b.generation == 0 && b.started
  {
    Stranded(c, s);
    var left := Left(s);
    assert Enter(c, left, env) == Out(left.(started := true), true);
    var es := [DoEnter(Env(s, [])), DoEnter(env), DoExec(env, Replied)];
    var b := Next(c, left.(started := true), es[2]);
    assert es[1..] == [es[1], es[2]] && [es[1], es[2]][1..] == [es[2]] && [es[2]][1..] == [];
    assert Play(c, b, []) == b;
    assert Play(c, left.(started := true), [es[2]]) == b;
    hide Enter, Exec, Promised;
  }

  /** The promise holds over every run whose starts are among `starts` exactly when none of
      those strands a worker. */
  lemma PromisedExactly(c: Config, starts: Start -> bool)
    ensures (forall es :: From(starts, es) ==> Promised(c, Play(c, INIT, es)))
      <==> (forall s :: starts(s) ==> !Strands(c, s))
  {
    if forall s :: starts(s) ==> !Strands(c, s) {
      forall es | From(starts, es) ensures Promised(c, Play(c, INIT, es)) { PromisedRun(c, starts, es); }
    } else {
      var s :| starts(s) && Strands(c, s);
      Stranded(c, s);
      var es := [DoEnter(Env(s, []))];
      assert es[1..] == [] && Play(c, Left(s), []) == Left(s);
      hide Promised, Enter, Strands;
      assert From(starts, es) && Play(c, INIT, es) == Left(s);
    }
  }

  lemma PromisedRun(c: Config, starts: Start -> bool, es: seq<Event>)
    requires (forall s :: starts(s) ==> !Strands(c, s)) && From(starts, es)
    ensures Promised(c, Play(c, INIT, es))
  {
    assert Kept(c, INIT);
    KeptRun(c, starts, INIT, es);
    var b := Play(c, INIT, es);
    hide Play, Count, Depth, Strands, From, Latest, Isolated, Prepared;
    assert forall i :: 0 <= i < |b.log| && b.log[i].Reached? && Depth(b.log[..i]) == 0 ==> !b.log[i].inHook;
  }
}
