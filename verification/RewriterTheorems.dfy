/** What the rewriter is for, stated about whole programs. */
module RewriterTheorems {
  import opened Options
  import opened Python
  import opened Evaluation
  import opened Rewriter
  import opened Checkpoints
  import opened GateNames
  import opened Reaching
  import opened Termination
  import opened MoreFuel
  import opened Preservation

  // ----- termination -----

  /** A rewritten program that leaves the name of the checkpoint alone finishes under a tick
      limit, whatever it catches and whatever else it names: with one unit of fuel more than it
      has ticks left it never runs out, and more changes nothing. The counter has not gone
      back, and no more checkpoints passed than there were ticks left. */
  lemma Terminates(p: Program, cfg: Config, n: nat, st: State)
    requires Accepts(p) && LeavesGate(p) && Stands(CheckpointGate, st)
    requires cfg.metered && cfg.limit.Some? && cfg.inExec && n > Left(cfg, st.meter)
    ensures var r := Run(Rewrite(p), cfg, n, st);
      && !r.SDeep?
      && (forall m :: m >= n ==> Run(Rewrite(p), cfg, m, st) == r)
      && st.meter.ticks <= r.st.meter.ticks
      && r.st.meter.passed <= st.meter.passed + Left(cfg, st.meter)
  {
    RewriteChecks(p);
    RewriteGuards(p);
    var q := Rewrite(p);
    EnoughAll(q, cfg, n, q.main, st);
    forall m | m >= n ensures Run(q, cfg, m, st) == Run(q, cfg, n, st) {
      SameWithMoreFuel(q, cfg, n, m, st);
    }
  }

  /** A function called back after its execution has ended starts on a fresh budget, once:
      the calls it makes count against the same one, and it finishes too. */
  lemma CallbackTerminates(p: Program, cfg: Config, n: nat, f: Val, args: seq<Val>, st: State)
    requires Accepts(p) && LeavesGate(p) && Stands(CheckpointGate, st)
    requires cfg.metered && cfg.limit.Some? && !cfg.inExec && cfg.wraps && st.meter.depth == 0
    requires n > cfg.limit.value
    ensures var r := CallFn(Rewrite(p), cfg, n, f, args, st);
      && !r.EDeep?
      && r.st.meter.depth == 0
      && r.st.meter.passed <= st.meter.passed + cfg.limit.value
  {
    RewriteChecks(p);
    RewriteGuards(p);
    CheckedCallback(Rewrite(p), cfg, n, f, args, st);
  }

  lemma CheckedCallback(q: Program, cfg: Config, n: nat, f: Val, args: seq<Val>, st: State)
    requires CheckedDefs(q) && Guards(q) && Stands(CheckpointGate, st)
    requires cfg.metered && cfg.limit.Some? && !cfg.inExec && cfg.wraps && st.meter.depth == 0
    requires n > cfg.limit.value
    ensures var r := CallFn(q, cfg, n, f, args, st);
      !r.EDeep? && r.st.meter.depth == 0 && r.st.meter.passed <= st.meter.passed + cfg.limit.value
  {
    hide ExecAll, CallFn, Guards, GateName, Stands;
    CallIs(q, cfg, n, f, args, st);
    if Enters(q, f, args) {
      var d := q.defs[f.id];
      var inner := CallState(cfg, d, args, st);
      GuardsMeans(q, f.id);
      StandsCalled(cfg, d, args, st);
      UnboundBody(d);
      EnoughBody(q, cfg, n - 1, d.body, inner);
      hide Exec, ExecAll, Lenient, KeepsReserved, SameFrame, Guards, CheckedDefs, Stands;
      var r := ExecAll(q, cfg, n - 1, d.body, inner);
      assert Ticked(cfg, inner.meter, r.st.meter);
    }
  }

  /** One checkpoint. A cancelled execution is stopped, uncounted. Else, with a tick left, that tick
      is taken off, and the checkpoint returns unless time or memory is up; with none left it is
      the limit that is raised, whatever else is up. */
  lemma CheckpointExactly(cfg: Config, st: State)
    requires cfg.metered
    ensures var r, m, sig := DoCheckpoint(cfg, st), st.meter, cfg.signal(st.meter.calls);
      && r.st == st.(meter := r.st.meter) && r.st.meter.calls == m.calls + 1 && r.st.meter.depth == m.depth
      && (sig == Cancelled ==> r == EExc(StCancelled, r.st) && r.st.meter.ticks == m.ticks)
      && (sig != Cancelled && cfg.limit.Some? && Left(cfg, m) == 0 ==>
            r == EExc(StTickLimit, r.st) && Left(cfg, r.st.meter) == 0)
      && (sig != Cancelled && cfg.limit.Some? && Left(cfg, m) > 0 ==> Left(cfg, r.st.meter) == Left(cfg, m) - 1)
      && (sig != Cancelled && (cfg.limit.Some? ==> Left(cfg, m) > 0) ==>
            (match sig
             case TimedOut => r == EExc(StTimeout, r.st)
             case NoMemory => r == EExc(MemoryError, r.st)
             case _ => r == EOk(NoneV, r.st)))
      && r.st.meter.passed == m.passed + (if r.EOk? then 1 else 0)
      && (r.EExc? <==> !r.EOk?) && r.st.meter.stopped == (m.stopped || r.EExc?)
      && r.st.meter.refused == (m.refused || r.EExc?)
  {
  }

  /** Whole runs, with nothing but the limit to stop them: a tick is taken off for each checkpoint
      that is passed, and a run that a checkpoint stopped has passed exactly as many as there were
      ticks left. */
  lemma TicksExactly(q: Program, cfg: Config, n: nat, st: State)
    requires AlwaysQuiet(cfg) && cfg.metered && cfg.inExec && cfg.limit.Some?
    ensures var m := Run(q, cfg, n, st).st.meter;
      && m.passed - st.meter.passed == Left(cfg, st.meter) - Left(cfg, m)
      && (m.stopped && !st.meter.stopped ==> m.passed == st.meter.passed + Left(cfg, st.meter))
  {
    assert Ran(q, cfg, st, Run(q, cfg, n, st).st);
    hide Run;
  }

  /** The same for a function called back outside an execution, on a budget that is the whole limit,
      whatever the counter stood at: a callback that was stopped has passed exactly that many. */
  lemma CallbackTicks(q: Program, cfg: Config, n: nat, f: Val, args: seq<Val>, st: State)
    requires AlwaysQuiet(cfg) && cfg.metered && !cfg.inExec && cfg.wraps && cfg.limit.Some?
    requires st.meter.depth == 0 && Enters(q, f, args) && n > 0
    ensures var m := CallFn(q, cfg, n, f, args, st).st.meter;
      && m.passed - st.meter.passed == cfg.limit.value - Left(cfg, m)
      && (m.stopped && !st.meter.stopped ==> m.passed == st.meter.passed + cfg.limit.value)
  {
    hide ExecAll, CallFn, CallOther;
    CallIs(q, cfg, n, f, args, st);
    var d := q.defs[f.id];
    var inner := CallState(cfg, d, args, st);
    assert Left(cfg, inner.meter) == cfg.limit.value && Counting(cfg, inner.meter);
    assert Ran(q, cfg, inner, ExecAll(q, cfg, n - 1, d.body, inner).st);
  }

  /** A call made inside an execution, or inside a callback, goes on with the counter as it is. */
  lemma NestedTicks(q: Program, cfg: Config, n: nat, f: Val, args: seq<Val>, st: State)
    requires AlwaysQuiet(cfg) && cfg.limit.Some? && Counting(cfg, st.meter)
    ensures var m := CallFn(q, cfg, n, f, args, st).st.meter;
      && m.passed - st.meter.passed == Left(cfg, st.meter) - Left(cfg, m) && m.depth == st.meter.depth
  {
    assert Grew(q, cfg, st, CallFn(q, cfg, n, f, args, st).st);
    hide CallFn;
  }

  /** Once the ticks are gone, a loop or function body is refused before any of it runs: only
      the meter has changed. */
  lemma RefusedFirst(p: Program, cfg: Config, n: nat, body: seq<Stmt>, st: State)
    requires Headed(body) && Stands(CheckpointGate, st)
    requires cfg.metered && cfg.limit.Some? && Left(cfg, st.meter) == 0
    ensures var r := ExecAll(p, cfg, n, body, st);
      && r.SExc? && (r.e == StTickLimit || r.e == StCancelled)
      && r.st == st.(meter := r.st.meter) && r.st.meter.refused
      && r.st.meter.passed == st.meter.passed
  {
    BodySteps(p, cfg, n, body, st);
  }

  /** Without the rewriter the same is not true: `while True: None` uses up any fuel. */
  lemma {:induction false} SourceMayNotFinish(cfg: Config, n: nat, st: State)
    ensures ExecWhile(Program([], [FOREVER]), cfg, n, FOREVER, st).SDeep?
  {
    var p := Program([], [FOREVER]);
    assert Eval(p, cfg, n, FOREVER.cond, map[], st) == EOk(BoolV(true), st);
    if n > 0 {
      ExecOne(p, cfg, n - 1, ExprS(Lit(NoneC)), st);
      SourceMayNotFinish(cfg, n - 1, st);
    }
  }

  // ----- names -----

  /** Of the reserved names, a rewritten function binds its temporaries and nothing else, so
      the gates keep theirs. */
  lemma ReservedAreTmps(p: Program, i: nat)
    requires i < |p.defs| && Accepts(p) && OwnNames(p)
    ensures var k := StartOf(p.defs, i);
      (set x | x in Bound(Rewrite(p).defs[i].body) && Reserved(x)) == Tmps(k, StartOf(p.defs, i + 1))
  {
    var d := p.defs[i];
    var k := StartOf(p.defs, i);
    assert AcceptsDef(d) && OwnDef(d);
    BoundAll(d.body, k);
    BoundHead(RwAll(d.body, k).ss);
    BoundPlain(d.body);
    TmpsReserved(k, StartOf(p.defs, i + 1));
  }

  /** Temporaries numbered apart are different names. */
  lemma TmpsApart(a: nat, b: nat, c: nat)
    requires a <= b <= c
    ensures Tmps(a, b) !! Tmps(b, c)
  {
    forall x | x in Tmps(a, b) && x in Tmps(b, c) ensures false {
      var i :| a <= i < b && x == Tmp(i);
      var j :| b <= j < c && x == Tmp(j);
      TmpInjective(i, j);
    }
  }

  /** An accepted body binds a reserved name exactly when one of its own `def`s has one:
      the rewriter checks every other place a name is bound. */
  lemma {:induction false} OwnExactly(ss: seq<Stmt>)
    requires AcceptsAll(ss)
    ensures NoReserved(Bound(ss)) <==> OwnAll(ss)
    decreases ss, 0
  {
    if OwnAll(ss) { BoundPlain(ss); }
    if NoReserved(Bound(ss)) { OwnFromBound(ss); }
  }

  lemma {:induction false} OwnFromBound(ss: seq<Stmt>)
    requires NoReserved(Bound(ss))
    ensures OwnAll(ss)
    decreases ss, 0
  {
    if ss != [] {
      assert NoReserved(BoundBy(ss[0])) && NoReserved(Bound(ss[1..]));
      OwnFromBoundS(ss[0]);
      OwnFromBound(ss[1..]);
    }
  }

  lemma {:induction false} OwnFromBoundS(s: Stmt)
    requires NoReserved(BoundBy(s))
    ensures OwnS(s)
    decreases s, 1
  {
    match s
    case If(_, a, b) =>
      assert NoReserved(Bound(a)) && NoReserved(Bound(b)); OwnFromBound(a); OwnFromBound(b);
    case While(_, a, b) =>
      assert NoReserved(Bound(a)) && NoReserved(Bound(b)); OwnFromBound(a); OwnFromBound(b);
    case For(_, _, a, b) =>
      assert NoReserved(Bound(a)) && NoReserved(Bound(b)); OwnFromBound(a); OwnFromBound(b);
    case Try(a, hs, b, c) =>
      assert NoReserved(Bound(a)) && NoReserved(HandlerNames(hs)) && NoReserved(Bound(b)) && NoReserved(Bound(c));
      OwnFromBound(a); OwnFromHandlers(hs); OwnFromBound(b); OwnFromBound(c);
    case _ =>
  }

  lemma {:induction false} OwnFromHandlers(hs: seq<Handler>)
    requires NoReserved(HandlerNames(hs))
    ensures OwnHs(hs)
    decreases hs, 0
  {
    if hs != [] {
      assert NoReserved(Bound(hs[0].body)) && NoReserved(HandlerNames(hs[1..]));
      OwnFromBound(hs[0].body);
      OwnFromHandlers(hs[1..]);
    }
  }

  // ----- preservation of meaning -----

  /** Every accepted program, every state, every limit: a source run that finishes and fits
      is matched by the rewritten program, unless a checkpoint refused. */
  lemma MeaningPreserved(p: Program, cfg: Config, n: nat, t: State)
    requires Accepts(p) && OwnNames(p) && Regular(t)
    ensures MirrorsS(Run(p, SOURCE, n, Strip(t)), Run(Rewrite(p), cfg, n, t))
  {
    SimAll(p, cfg, n, p.main, StartOf(p.defs, |p.defs|), t);
  }

  /** With nothing to refuse it, the rewritten program ends exactly as the source does: the
      same outcome, the same variables and objects, the same attribute reads and writes. */
  lemma MeaningPreservedWithoutLimits(p: Program, cfg: Config, n: nat, t: State)
    requires Accepts(p) && OwnNames(p) && Regular(t) && Lenient(cfg) && !t.meter.refused
    requires var rs := Run(p, SOURCE, n, Strip(t)); !rs.SDeep? && rs.st.fits
    ensures var rs := Run(p, SOURCE, n, Strip(t)); var rt := Run(Rewrite(p), cfg, n, t);
      rt == WithState(rs, rt.st) && Strip(rt.st) == rs.st && rt.st.trace == rs.st.trace
  {
    MeaningPreserved(p, cfg, n, t);
    var rt := Run(Rewrite(p), cfg, n, t);
    assert Metered(cfg, t.meter, rt.st.meter);
  }
}
