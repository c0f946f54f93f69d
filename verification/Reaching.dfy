/** When the checkpoints of an accepted program reach the gate. The rewriter looks at the names
    that are assigned, and not at the names of functions and parameters: the gate is reached all
    through exactly when none of those is the gate's. */
module Reaching {
  import opened Python
  import opened Evaluation
  import opened Rewriter
  import opened Checkpoints
  import opened GateNames
  import opened Termination

  /** The program binds the name of the checkpoint nowhere: an accepted one could only do so by
      a parameter or a `def`. */
  predicate LeavesGate(p: Program) {
    (forall i :: 0 <= i < |p.defs| ==> Unbound(p.defs[i])) && CHECKPOINT !in Bound(p.main)
  }

  lemma RewriteUnbound(d: FunDef, k: nat)
    ensures Unbound(RwDef(d, k)) <==> Unbound(d)
  {
    hide GateName;
    BoundAll(d.body, k);
    BoundHead(RwAll(d.body, k).ss);
    GateNoTmps(CheckpointGate, k, RwAll(d.body, k).k);
  }

  lemma RewriteGuards(p: Program)
    requires Accepts(p) && LeavesGate(p)
    ensures Guards(Rewrite(p)) && CHECKPOINT !in Bound(Rewrite(p).main)
  {
    RewriteChecks(p);
    forall i | 0 <= i < |p.defs| ensures Unbound(Rewrite(p).defs[i]) {
      RewriteUnbound(p.defs[i], StartOf(p.defs, i));
    }
    var k := StartOf(p.defs, |p.defs|);
    BoundAll(p.main, k);
    GateNoTmps(CheckpointGate, k, RwAll(p.main, k).k);
  }

  // ----- the statements of a body -----

  /** `x` is a statement of the body, at any depth. */
  predicate Within(x: Stmt, ss: seq<Stmt>)
    decreases ss, 0
  {
    ss != [] && (WithinS(x, ss[0]) || Within(x, ss[1..]))
  }

  predicate WithinS(x: Stmt, s: Stmt)
    decreases s, 1
  {
    x == s ||
    match s
    case If(_, a, b) => Within(x, a) || Within(x, b)
    case While(_, a, b) => Within(x, a) || Within(x, b)
    case For(_, _, a, b) => Within(x, a) || Within(x, b)
    case Try(a, hs, b, c) => Within(x, a) || WithinHs(x, hs) || Within(x, b) || Within(x, c)
    case _ => false
  }

  predicate WithinHs(x: Stmt, hs: seq<Handler>)
    decreases hs, 0
  {
    hs != [] && (Within(x, hs[0].body) || WithinHs(x, hs[1..]))
  }

  lemma {:induction false} WithinKeeps(x: Stmt, ss: seq<Stmt>)
    requires Within(x, ss) && CheckedAll(ss) && CHECKPOINT !in Bound(ss)
    ensures CheckedS(x) && CHECKPOINT !in BoundBy(x)
    decreases ss, 0
  {
    hide GateName;
    if WithinS(x, ss[0]) { WithinKeepsS(x, ss[0]); } else { WithinKeeps(x, ss[1..]); }
  }

  lemma {:induction false} WithinKeepsS(x: Stmt, s: Stmt)
    requires WithinS(x, s) && CheckedS(s) && CHECKPOINT !in BoundBy(s)
    ensures CheckedS(x) && CHECKPOINT !in BoundBy(x)
    decreases s, 1
  {
    hide GateName;
    if x != s {
      match s
      case If(_, a, b) => WithinKeeps(x, if Within(x, a) then a else b);
      case While(_, a, b) => WithinKeeps(x, if Within(x, a) then a else b);
      case For(_, _, a, b) => WithinKeeps(x, if Within(x, a) then a else b);
      case Try(a, hs, b, c) =>
        if WithinHs(x, hs) { WithinKeepsHs(x, hs); }
        else { WithinKeeps(x, if Within(x, a) then a else if Within(x, b) then b else c); }
    }
  }

  lemma {:induction false} WithinKeepsHs(x: Stmt, hs: seq<Handler>)
    requires WithinHs(x, hs) && CheckedHs(hs) && CHECKPOINT !in HandlerNames(hs)
    ensures CheckedS(x) && CHECKPOINT !in BoundBy(x)
    decreases hs, 0
  {
    hide GateName;
    if Within(x, hs[0].body) { WithinKeeps(x, hs[0].body); } else { WithinKeepsHs(x, hs[1..]); }
  }

  // ----- a rewritten body still has the `def`s of the body -----

  lemma {:induction false} WithinJoin(x: Stmt, a: seq<Stmt>, b: seq<Stmt>)
    ensures Within(x, a + b) <==> Within(x, a) || Within(x, b)
  {
    if a == [] {
      assert a + b == b;
    } else {
      assert (a + b)[1..] == a[1..] + b;
      WithinJoin(x, a[1..], b);
    }
  }

  lemma WithinHead(x: Stmt, body: seq<Stmt>)
    requires Within(x, body)
    ensures Within(x, PrependCheckpoint(body))
  {
    var cp := [ExprS(GCheckpoint)];
    if body != [] && IsDocstring(body[0]) {
      assert body == [body[0]] + body[1..];
      assert PrependCheckpoint(body) == [body[0]] + (cp + body[1..]);
      WithinJoin(x, [body[0]], body[1..]);
      WithinJoin(x, cp, body[1..]);
      WithinJoin(x, [body[0]], cp + body[1..]);
    } else {
      WithinJoin(x, cp, body);
    }
  }

  lemma WithinOne(x: Stmt, s: Stmt)
    requires WithinS(x, s)
    ensures Within(x, [s])
  {
  }

  lemma {:induction false} AcceptedTargets(ts: seq<Target>)
    requires AcceptsTs(ts)
    ensures CHECKPOINT !in TargetNames(ts)
    decreases ts
  {
    if ts != [] {
      GateReserved(CheckpointGate);
      hide GateName;
      AcceptedTargets(ts[1..]);
      if ts[0].TTup? { AcceptedTargets(ts[0].elts); }
    }
  }

  /** Where an accepted body binds the name: at a `def`, which is still there as written. */
  lemma {:induction false} FindDef(ss: seq<Stmt>, k: nat) returns (id: nat)
    requires AcceptsAll(ss) && CHECKPOINT in Bound(ss)
    ensures Within(Def(CHECKPOINT, id), RwAll(ss, k).ss)
    decreases ss, 0
  {
    hide GateName, AcceptsS, BoundBy, RwS, WithinS;
    var r0 := RwS(ss[0], k);
    if CHECKPOINT in BoundBy(ss[0]) {
      id := FindDefS(ss[0], k);
    } else {
      id := FindDef(ss[1..], r0.k);
    }
    WithinJoin(Def(CHECKPOINT, id), r0.ss, RwAll(ss[1..], r0.k).ss);
  }

  lemma {:induction false} FindDefS(s: Stmt, k: nat) returns (id: nat)
    requires AcceptsS(s) && CHECKPOINT in BoundBy(s)
    ensures Within(Def(CHECKPOINT, id), RwS(s, k).ss)
    decreases s, 1
  {
    hide GateName, RwAll, RwHs, Within, AcceptsE, AcceptsAll, AcceptsHs;
    GateReserved(CheckpointGate);
    match s
    case Assign(ts, _) =>
      AcceptedTargets(ts);
      assert false;
    case Def(_, i) =>
      id := i;
      FoundDef(s, k);
    case If(_, a, b) => id := FindDefIn(s, a, b, k);
    case While(_, a, b) => id := FindDefIn(s, a, b, k);
    case For(_, _, a, b) => id := FindDefIn(s, a, b, k);
    case Try(_, _, _, _) => id := FindDefTry(s, k);
  }

  lemma FoundDef(s: Stmt, k: nat)
    requires s.Def?
    ensures Within(s, RwS(s, k).ss)
  {
  }

  lemma {:induction false} FindDefIn(s: Stmt, a: seq<Stmt>, b: seq<Stmt>, k: nat) returns (id: nat)
    requires AcceptsS(s) && CHECKPOINT in Bound(a) + Bound(b)
    requires s.If? || s.While? || s.For?
    requires if s.If? then s.thn == a && s.els == b else s.body == a && s.orelse == b
    ensures Within(Def(CHECKPOINT, id), RwS(s, k).ss)
    decreases s, 0
  {
    hide GateName, RwAll, Within, AcceptsE, AcceptsAll, RwE, PrependCheckpoint;
    var ra := RwAll(a, k);
    if CHECKPOINT in Bound(a) {
      id := FindDef(a, k);
      WithinHead(Def(CHECKPOINT, id), ra.ss);
    } else {
      id := FindDef(b, ra.k);
    }
    WithinOne(Def(CHECKPOINT, id), RwS(s, k).ss[0]);
    assert RwS(s, k).ss == [RwS(s, k).ss[0]];
  }

  lemma {:induction false} FindDefTry(s: Stmt, k: nat) returns (id: nat)
    requires s.Try? && AcceptsS(s) && CHECKPOINT in BoundBy(s)
    ensures Within(Def(CHECKPOINT, id), RwS(s, k).ss)
    decreases s, 0
  {
    hide GateName, RwAll, RwHs, Within, WithinHs, AcceptsAll, AcceptsHs;
    var ra := RwAll(s.body, k);
    var rh := RwHs(s.handlers, ra.k);
    var rb := RwAll(s.orelse, rh.1);
    if CHECKPOINT in Bound(s.body) { id := FindDef(s.body, k); }
    else if CHECKPOINT in HandlerNames(s.handlers) { id := FindDefHs(s.handlers, ra.k); }
    else if CHECKPOINT in Bound(s.orelse) { id := FindDef(s.orelse, rh.1); }
    else { id := FindDef(s.final, rb.k); }
    WithinOne(Def(CHECKPOINT, id), RwS(s, k).ss[0]);
    assert RwS(s, k).ss == [RwS(s, k).ss[0]];
  }

  lemma {:induction false} FindDefHs(hs: seq<Handler>, k: nat) returns (id: nat)
    requires AcceptsHs(hs) && CHECKPOINT in HandlerNames(hs)
    ensures WithinHs(Def(CHECKPOINT, id), RwHs(hs, k).0)
    decreases hs, 0
  {
    hide GateName, RwAll, Within, AcceptsAll;
    var rb := RwAll(hs[0].body, k);
    var ws := RwHs(hs, k).0;
    assert ws[0].body == rb.ss && ws[1..] == RwHs(hs[1..], rb.k).0;
    if CHECKPOINT in Bound(hs[0].body) { id := FindDef(hs[0].body, k); }
    else { id := FindDefHs(hs[1..], rb.k); }
  }

  // ----- exactly -----

  /** Every call of a function and every statement of the program, from every state in which the
      name stands for the gate: no checkpoint misses it, and the name still stands for it. */
  ghost predicate Reaching(q: Program) {
    && (forall cfg: Config, n: nat, f: Val, args: seq<Val>, st: State :: Stands(CheckpointGate, st) ==>
          Guarded(st, CallFn(q, cfg, n, f, args, st).st))
    && (forall cfg: Config, n: nat, s: Stmt, st: State :: Within(s, q.main) && Stands(CheckpointGate, st) ==>
          Guarded(st, Exec(q, cfg, n, s, st).st))
  }

  lemma ReachesAll(p: Program)
    requires Accepts(p) && LeavesGate(p)
    ensures Reaching(Rewrite(p))
  {
    RewriteChecks(p);
    RewriteGuards(p);
    var q := Rewrite(p);
    hide Rewrite, Accepts, LeavesGate, Guards, Stands, GateName;
    forall cfg: Config, n: nat, f: Val, args: seq<Val>, st: State | Stands(CheckpointGate, st)
      ensures Guarded(st, CallFn(q, cfg, n, f, args, st).st)
    {
      KeepsCall(q, cfg, n, f, args, st);
    }
    forall cfg: Config, n: nat, s: Stmt, st: State | Within(s, q.main) && Stands(CheckpointGate, st)
      ensures Guarded(st, Exec(q, cfg, n, s, st).st)
    {
      WithinKeeps(s, q.main);
      KeepsS(q, cfg, n, s, st);
    }
  }

  const PLAIN: Config := Config(Options.None, i => Quiet, true, false, true, (r, a) => true, (r, a) => true)

  const FRESH: State :=
    State(map[CHECKPOINT := GateV(CheckpointGate)], Top, [], [], true, Meter(0, 0, 0, 0, false, false, false))

  function Nones(k: nat): seq<Val> { if k == 0 then [] else Nones(k - 1) + [NoneV] }

  lemma {:induction false} BindNones(ps: seq<string>, x: string)
    ensures |Nones(|ps|)| == |ps|
    ensures x in Bind(ps, Nones(|ps|)) ==> Bind(ps, Nones(|ps|))[x] == NoneV
  {
    if ps != [] {
      var k := |ps| - 1;
      BindNones(ps[..k], x);
      assert Nones(|ps|)[..k] == Nones(k) && Nones(|ps|)[k] == NoneV;
    }
  }

  /** A function that binds the name misses the gate at its first checkpoint, however it is
      called. */
  lemma BoundMisses(q: Program, i: nat)
    requires i < |q.defs| && Headed(q.defs[i].body) && !Unbound(q.defs[i]) && CHECKPOINT !in q.defs[i].declared
    ensures var args := Nones(|q.defs[i].params|);
      |args| == |q.defs[i].params| && CallFn(q, PLAIN, 1, FunV(i), args, FRESH).st.meter.missed
  {
    hide ExecAll, Eval, CallFn, CallState, Headed, AfterHead, GateName, Unbound, Nones;
    var d := q.defs[i];
    var args := Nones(|d.params|);
    CalledBinds(d, FRESH);
    var st := CallState(PLAIN, d, args, FRESH);
    CallIs(q, PLAIN, 1, FunV(i), args, FRESH);
    HeadSteps(q, PLAIN, 0, d.body, st);
    LocalMisses(q, PLAIN, 0, st);
    var r := Eval(q, PLAIN, 0, GCheckpoint, map[], st);
    RestMissed(q, PLAIN, 0, AfterHead(d.body), r.st);
  }

  lemma CalledBinds(d: FunDef, st: State)
    requires !Unbound(d) && CHECKPOINT !in d.declared
    ensures |Nones(|d.params|)| == |d.params|
    ensures var inner := CallState(PLAIN, d, Nones(|d.params|), st);
      && inner.frame.Fn? && CHECKPOINT in inner.frame.names && CHECKPOINT !in inner.frame.declared
      && (CHECKPOINT in inner.frame.vars ==> inner.frame.vars[CHECKPOINT] == NoneV)
  {
    hide GateName, Nones, Bind;
    BindNones(d.params, CHECKPOINT);
  }

  lemma LocalMisses(q: Program, cfg: Config, n: nat, st: State)
    requires st.frame.Fn? && CHECKPOINT in st.frame.names && CHECKPOINT !in st.frame.declared
    requires CHECKPOINT in st.frame.vars ==> st.frame.vars[CHECKPOINT] == NoneV
    ensures Eval(q, cfg, n, GCheckpoint, map[], st).st.meter.missed
  {
    hide GateName, CallFn;
    assert !Reached(map[], st);
    assert Eval(q, cfg, n, GCheckpoint, map[], st) == EvalCheckpoint(q, cfg, n, map[], st);
  }

  lemma RestMissed(q: Program, cfg: Config, n: nat, ss: seq<Stmt>, st: State)
    requires st.meter.missed
    ensures ExecAll(q, cfg, n, ss, st).st.meter.missed
  {
    assert Ran(q, cfg, st, ExecAll(q, cfg, n, ss, st).st);
    hide ExecAll;
  }

  lemma FreshStands()
    ensures Stands(CheckpointGate, FRESH) && !FRESH.meter.missed
  {
  }

  lemma DefLosesGate(q: Program, id: nat)
    ensures !Stands(CheckpointGate, Exec(q, PLAIN, 0, Def(CHECKPOINT, id), FRESH).st)
  {
    hide GateName;
  }

  /** Over every call and every statement of an accepted program, rewritten, and every state: the
      checkpoints reach the gate exactly when no parameter and no `def` of the program has the
      gate's name. */
  lemma ReachesExactly(p: Program)
    requires Accepts(p)
    ensures Reaching(Rewrite(p)) <==> LeavesGate(p)
  {
    if LeavesGate(p) {
      ReachesAll(p);
    } else {
      var q := Rewrite(p);
      FreshStands();
      if i :| 0 <= i < |p.defs| && !Unbound(p.defs[i]) {
        TableMisses(p, i);
        hide CallFn, Stands, Rewrite;
        assert !Guarded(FRESH, CallFn(q, PLAIN, 1, FunV(i), Nones(|q.defs[i].params|), FRESH).st);
      } else {
        var id := FindDef(p.main, StartOf(p.defs, |p.defs|));
        DefLosesGate(q, id);
        assert !Guarded(FRESH, Exec(q, PLAIN, 0, Def(CHECKPOINT, id), FRESH).st);
      }
    }
  }

  lemma TableMisses(p: Program, i: nat)
    requires Accepts(p) && i < |p.defs| && !Unbound(p.defs[i])
    ensures var q := Rewrite(p);
      |q.defs| == |p.defs| && CallFn(q, PLAIN, 1, FunV(i), Nones(|q.defs[i].params|), FRESH).st.meter.missed
  {
    var q := Rewrite(p);
    RewriteChecks(p);
    RewriteUnbound(p.defs[i], StartOf(p.defs, i));
    GateReserved(CheckpointGate);
    assert AcceptsDef(p.defs[i]);
    hide CallFn, GateName, Unbound;
    BoundMisses(q, i);
  }

  /** So in every run of such a program no checkpoint misses. */
  lemma RunReaches(p: Program, cfg: Config, n: nat, st: State)
    requires Accepts(p) && LeavesGate(p) && Stands(CheckpointGate, st)
    ensures Guarded(st, Run(Rewrite(p), cfg, n, st).st)
  {
    RewriteChecks(p);
    RewriteGuards(p);
    KeepsAll(Rewrite(p), cfg, n, Rewrite(p).main, st);
  }

  // ----- a program whose checkpoints do not reach it -----

  const FOREVER: Stmt := While(Lit(BoolC(true)), [ExprS(Lit(NoneC))], [])

  const CHECKED_FOREVER: Stmt := While(Lit(BoolC(true)), [ExprS(GCheckpoint), ExprS(Lit(NoneC))], [])

  /** A function with a parameter of the gate's name, called with `int`. */
  const SHADOW: Program := Program(
    [FunDef([CHECKPOINT], {}, [FOREVER])],
    [Def("f", 0), ExprS(Call(Name("f"), [Name("int")]))])

  lemma ForeverWritten(k: nat)
    ensures RwAll([FOREVER], k) == Out([CHECKED_FOREVER], k)
    ensures AcceptsAll([FOREVER])
  {
    var none := [ExprS(Lit(NoneC))];
    assert none[1..] == [] && [FOREVER][1..] == [];
    assert RwS(none[0], k) == Out(none, k) && RwAll([], k) == Out([], k);
    assert RwAll(none, k) == Out(none, k);
    assert PrependCheckpoint(none) == [ExprS(GCheckpoint), ExprS(Lit(NoneC))];
    assert RwS(FOREVER, k) == Out([CHECKED_FOREVER], k);
    assert AcceptsAll(none) && AcceptsS(FOREVER);
  }

  lemma ShadowWritten()
    ensures Accepts(SHADOW) && !LeavesGate(SHADOW)
    ensures var q := Rewrite(SHADOW); var again := Assign([TName("f")], GCapture(Name("f")));
      && q.defs == [FunDef([CHECKPOINT], {}, [ExprS(GCheckpoint), CHECKED_FOREVER])]
      && q.main == [Def("f", 0)] + [again] + [ExprS(Call(Name("f"), [Name("int")]))]
  {
    ForeverWritten(0);
    ShadowMain(0);
    var d := SHADOW.defs[0];
    assert d.params == [CHECKPOINT] && CHECKPOINT in Params(d.params);
    hide GateName, RwAll, AcceptsAll;
    assert StartOf(SHADOW.defs, 0) == 0;
    assert StartOf(SHADOW.defs, 1) == 0;
    assert RwDef(d, 0) == FunDef([CHECKPOINT], {}, [ExprS(GCheckpoint), CHECKED_FOREVER]);
    assert AcceptsDef(d);
    assert !Unbound(SHADOW.defs[0]);
  }

  lemma ShadowMain(k: nat)
    ensures AcceptsAll(SHADOW.main)
    ensures RwAll(SHADOW.main, k).ss ==
      [Def("f", 0)] + [Assign([TName("f")], GCapture(Name("f")))] + [ExprS(Call(Name("f"), [Name("int")]))]
  {
    var call := Call(Name("f"), [Name("int")]);
    var m := SHADOW.main;
    assert Readable("f") && Readable("int");
    assert call.args[1..] == [] && RwEs(call.args) == [Name("int")] && AcceptsEs(call.args);
    assert RwE(call) == call && AcceptsE(call);
    assert m[1..] == [ExprS(call)] && m[1..][1..] == [];
    assert RwAll([], k) == Out([], k);
    assert RwAll(m[1..], k) == Out([ExprS(call)], k);
    assert RwS(m[0], k) == Out([Def("f", 0), Assign([TName("f")], GCapture(Name("f")))], k);
    assert AcceptsAll(m[1..]) && AcceptsS(m[0]);
  }

  /** The name stands for a builtin in the running function. */
  predicate Hidden(st: State) {
    st.frame.Fn? && CHECKPOINT !in st.frame.declared && CHECKPOINT in st.frame.vars
    && st.frame.vars[CHECKPOINT] == BuiltinV
  }

  lemma HiddenPasses(q: Program, cfg: Config, n: nat, st: State)
    requires Hidden(st)
    ensures Eval(q, cfg, n, GCheckpoint, map[], st) == EOk(IntV(0), Missed(st)) && Hidden(Missed(st))
  {
    hide GateName;
    assert Load(CHECKPOINT, map[], st) == EOk(BuiltinV, st);
    assert Eval(q, cfg, n, GCheckpoint, map[], st) == EvalCheckpoint(q, cfg, n, map[], st);
    CallIs(q, cfg, n, BuiltinV, [], Missed(st));
  }

  lemma {:induction false} HiddenLoops(q: Program, cfg: Config, n: nat, st: State)
    requires Hidden(st)
    ensures ExecWhile(q, cfg, n, CHECKED_FOREVER, st).SDeep?
  {
    hide Hidden, ExecAll, ExecWhile, GateName;
    WhileIs(q, cfg, n, CHECKED_FOREVER, st);
    assert Eval(q, cfg, n, Lit(BoolC(true)), map[], st) == EOk(BoolV(true), st);
    if n > 0 {
      HiddenTurn(q, cfg, n - 1, st);
      HiddenLoops(q, cfg, n - 1, Missed(st));
    }
  }

  lemma HiddenTurn(q: Program, cfg: Config, n: nat, st: State)
    requires Hidden(st)
    ensures ExecAll(q, cfg, n, CHECKED_FOREVER.body, st) == SNext(Missed(st)) && Hidden(Missed(st))
  {
    hide Hidden, ExecAll, GateName;
    HeadSteps(q, cfg, n, CHECKED_FOREVER.body, st);
    HiddenPasses(q, cfg, n, st);
    assert AfterHead(CHECKED_FOREVER.body) == [ExprS(Lit(NoneC))];
    ExecOne(q, cfg, n, ExprS(Lit(NoneC)), Missed(st));
    assert Exec(q, cfg, n, ExprS(Lit(NoneC)), Missed(st)) == SNext(Missed(st));
  }

  lemma HiddenCall(q: Program, cfg: Config, n: nat, st: State)
    requires q.defs == [FunDef([CHECKPOINT], {}, [ExprS(GCheckpoint), CHECKED_FOREVER])]
    ensures CallFn(q, cfg, n, FunV(0), [BuiltinV], st).EDeep?
  {
    hide ExecAll, CallFn, CallState, GateName, Hidden;
    CallIs(q, cfg, n, FunV(0), [BuiltinV], st);
    if n > 0 {
      HiddenCalled(cfg, q.defs[0], st);
      HiddenBody(q, cfg, n - 1, CallState(cfg, q.defs[0], [BuiltinV], st));
    }
  }

  lemma HiddenCalled(cfg: Config, d: FunDef, st: State)
    requires d.params == [CHECKPOINT] && d.declared == {}
    ensures Hidden(CallState(cfg, d, [BuiltinV], st))
  {
    hide GateName, Locals;
    assert Bind([CHECKPOINT], [BuiltinV])[CHECKPOINT] == BuiltinV;
  }

  lemma HiddenBody(q: Program, cfg: Config, n: nat, st: State)
    requires Hidden(st)
    ensures ExecAll(q, cfg, n, [ExprS(GCheckpoint), CHECKED_FOREVER], st).SDeep?
  {
    hide Exec, ExecAll, ExecWhile, Eval, GateName, Hidden;
    var body := [ExprS(GCheckpoint), CHECKED_FOREVER];
    HeadSteps(q, cfg, n, body, st);
    HiddenPasses(q, cfg, n, st);
    assert AfterHead(body) == [CHECKED_FOREVER];
    ExecOne(q, cfg, n, CHECKED_FOREVER, Missed(st));
    HiddenLoops(q, cfg, n, Missed(st));
    WhileRuns(q, cfg, n, CHECKED_FOREVER, Missed(st));
  }

  lemma WhileRuns(q: Program, cfg: Config, n: nat, s: Stmt, st: State)
    requires s.While?
    ensures Exec(q, cfg, n, s, st) == ExecWhile(q, cfg, n, s, st)
  {
    hide ExecWhile, Ran;
  }

  /** The program is accepted, and rewritten it uses up any fuel, whatever the tick limit. */
  lemma ParameterHidesGate(cfg: Config, n: nat, st: State)
    requires Stands(CaptureGate, st) && st.frame.Top?
    requires "int" in st.globals && st.globals["int"] == BuiltinV
    ensures Accepts(SHADOW) && !LeavesGate(SHADOW)
    ensures Run(Rewrite(SHADOW), cfg, n, st).SDeep?
  {
    ShadowWritten();
    var q := Rewrite(SHADOW);
    var again := Assign([TName("f")], GCapture(Name("f")));
    var call := ExprS(Call(Name("f"), [Name("int")]));
    var u := st.(globals := st.globals["f" := FunV(0)]);
    hide Rewrite, Accepts, LeavesGate, Exec, ExecAll, CallFn, Eval, Stands;
    ShadowDef(q, cfg, n, st);
    ExecJoin(q, cfg, n, [Def("f", 0)] + [again], [call], st);
    ExecOne(q, cfg, n, call, u);
    HiddenCall(q, cfg, n, u);
    ShadowCalls(q, cfg, n, u);
    SimpleRuns(q, cfg, n, call, u);
  }

  lemma ShadowCalls(q: Program, cfg: Config, n: nat, u: State)
    requires u.frame.Top? && "f" in u.globals && u.globals["f"] == FunV(0)
    requires "int" in u.globals && u.globals["int"] == BuiltinV
    ensures Eval(q, cfg, n, Call(Name("f"), [Name("int")]), map[], u) == CallFn(q, cfg, n, FunV(0), [BuiltinV], u)
  {
    hide CallFn, EvalAll, Grew;
    assert Eval(q, cfg, n, Name("int"), map[], u) == EOk(BuiltinV, u);
    hide Eval;
    CallsName(q, cfg, n, "f", [Name("int")], map[], u);
    EvalOne(q, cfg, n, Name("int"), map[], u);
  }

  lemma ShadowDef(q: Program, cfg: Config, n: nat, st: State)
    requires Stands(CaptureGate, st) && st.frame.Top?
    ensures ExecAll(q, cfg, n, [Def("f", 0)] + [Assign([TName("f")], GCapture(Name("f")))], st) ==
      SNext(st.(globals := st.globals["f" := FunV(0)]))
  {
    var again := Assign([TName("f")], GCapture(Name("f")));
    var u := st.(globals := st.globals["f" := FunV(0)]);
    hide ExecAll, Grew, Ran;
    ExecJoin(q, cfg, n, [Def("f", 0)], [again], st);
    ExecOne(q, cfg, n, Def("f", 0), st);
    assert Exec(q, cfg, n, Def("f", 0), st) == SNext(u);
    ExecOne(q, cfg, n, again, u);
    CaptureIs(q, cfg, n, Name("f"), map[], u);
    assert Eval(q, cfg, n, Name("f"), map[], u) == EOk(FunV(0), u);
    StoreName(q, cfg, n, "f", GCapture(Name("f")), u);
    assert u.globals["f" := FunV(0)] == u.globals;
  }
}
