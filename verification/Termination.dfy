/** Every rewritten program finishes under a tick limit, as long as the name of the checkpoint
    stands for the gate.

    What makes it so is where the checkpoints stand. Each unit of fuel is spent on the way to
    one of them, so `Left + 1` units are always enough, whatever the handlers of the program
    catch. */
module Termination {
  import opened Options
  import opened Python
  import opened Evaluation
  import opened Rewriter
  import opened Checkpoints
  import opened GateNames

  // ----- enough fuel -----

  /** The code is checked, its checkpoints reach the gate and the gate counts. */
  predicate Limited(p: Program, cfg: Config, st: State) {
    && CheckedDefs(p) && Guards(p) && Stands(CheckpointGate, st)
    && cfg.limit.Some? && Counting(cfg, st.meter)
  }

  /** `fuel` is more than the ticks left at `st`. */
  predicate Enough(p: Program, cfg: Config, fuel: nat, st: State) {
    Limited(p, cfg, st) && fuel > Left(cfg, st.meter)
  }

  /** What was enough before is enough after. */
  lemma EnoughStays(p: Program, cfg: Config, n: nat, a: State, b: State)
    requires Enough(p, cfg, n, a) && Ticked(cfg, a.meter, b.meter) && Stands(CheckpointGate, b)
    ensures Enough(p, cfg, n, b)
  {
    hide CheckedDefs, Guards, Stands;
  }

  lemma EnoughMeans(p: Program, cfg: Config, n: nat, st: State)
    requires Enough(p, cfg, n, st)
    ensures Guards(p) && Stands(CheckpointGate, st)
  {
  }

  lemma AfterE(p: Program, cfg: Config, n: nat, e: Expr, sc: Scope, st: State)
    requires Enough(p, cfg, n, st) && CheckedE(e) && CHECKPOINT !in sc
    ensures Enough(p, cfg, n, Eval(p, cfg, n, e, sc, st).st)
  {
    EnoughMeans(p, cfg, n, st);
    KeepsE(p, cfg, n, e, sc, st);
    assert Grew(p, cfg, st, Eval(p, cfg, n, e, sc, st).st);
    hide Eval, Enough, Stands, Ticked, GateName;
    EnoughStays(p, cfg, n, st, Eval(p, cfg, n, e, sc, st).st);
  }

  lemma AfterEs(p: Program, cfg: Config, n: nat, es: seq<Expr>, sc: Scope, st: State)
    requires Enough(p, cfg, n, st) && CheckedEs(es) && CHECKPOINT !in sc
    ensures Enough(p, cfg, n, EvalAll(p, cfg, n, es, sc, st).st)
  {
    EnoughMeans(p, cfg, n, st);
    KeepsEs(p, cfg, n, es, sc, st);
    assert Grew(p, cfg, st, EvalAll(p, cfg, n, es, sc, st).st);
    hide EvalAll, Enough, Stands, Ticked, GateName;
    EnoughStays(p, cfg, n, st, EvalAll(p, cfg, n, es, sc, st).st);
  }

  lemma AfterTo(p: Program, cfg: Config, n: nat, t: Target, v: Val, st: State)
    requires Enough(p, cfg, n, st) && CheckedT(t) && CHECKPOINT !in TargetNames([t])
    ensures Enough(p, cfg, n, AssignTo(p, cfg, n, t, v, st).st)
  {
    EnoughMeans(p, cfg, n, st);
    KeepsTo(p, cfg, n, t, v, st);
    assert Ran(p, cfg, st, AssignTo(p, cfg, n, t, v, st).st);
    hide AssignTo, Enough, Stands, Ticked, GateName;
    EnoughStays(p, cfg, n, st, AssignTo(p, cfg, n, t, v, st).st);
  }

  lemma AfterS(p: Program, cfg: Config, n: nat, s: Stmt, st: State)
    requires Enough(p, cfg, n, st) && CheckedS(s) && CHECKPOINT !in BoundBy(s)
    ensures Enough(p, cfg, n, Exec(p, cfg, n, s, st).st)
  {
    EnoughMeans(p, cfg, n, st);
    KeepsS(p, cfg, n, s, st);
    assert Ran(p, cfg, st, Exec(p, cfg, n, s, st).st);
    hide Exec, Enough, Stands, Ticked, GateName;
    EnoughStays(p, cfg, n, st, Exec(p, cfg, n, s, st).st);
  }

  lemma AfterAll(p: Program, cfg: Config, n: nat, ss: seq<Stmt>, st: State)
    requires Enough(p, cfg, n, st) && CheckedAll(ss) && CHECKPOINT !in Bound(ss)
    ensures Enough(p, cfg, n, ExecAll(p, cfg, n, ss, st).st)
  {
    EnoughMeans(p, cfg, n, st);
    KeepsAll(p, cfg, n, ss, st);
    assert Ran(p, cfg, st, ExecAll(p, cfg, n, ss, st).st);
    hide ExecAll, Enough, Stands, Ticked, GateName;
    EnoughStays(p, cfg, n, st, ExecAll(p, cfg, n, ss, st).st);
  }

  lemma AfterHandle(p: Program, cfg: Config, n: nat, hs: seq<Handler>, e: Error, st: State)
    requires Enough(p, cfg, n, st) && CheckedHs(hs) && CHECKPOINT !in HandlerNames(hs)
    ensures Enough(p, cfg, n, Handle(p, cfg, n, hs, e, st).st)
  {
    EnoughMeans(p, cfg, n, st);
    KeepsHandle(p, cfg, n, hs, e, st);
    assert Ran(p, cfg, st, Handle(p, cfg, n, hs, e, st).st);
    hide Handle, Enough, Stands, Ticked, GateName;
    EnoughStays(p, cfg, n, st, Handle(p, cfg, n, hs, e, st).st);
  }

  /** Objects, the record and the flag of the fragment change nothing. */
  lemma EnoughAfter(p: Program, cfg: Config, n: nat, a: State, b: State)
    requires Enough(p, cfg, n, a) && b.globals == a.globals && b.frame == a.frame && b.meter == a.meter
    ensures Enough(p, cfg, n, b)
  {
    hide CheckedDefs, Guards, GateName;
  }

  // ----- expressions -----

  lemma {:induction false} EnoughE(p: Program, cfg: Config, n: nat, e: Expr, sc: Scope, st: State)
    requires Enough(p, cfg, n, st) && CheckedE(e) && CHECKPOINT !in sc
    ensures !Eval(p, cfg, n, e, sc, st).EDeep?
    decreases n, 1, e, 2
  {
    hide Grew, Enough, CallFn, EvalAll, EvalComp, EvalCall, EvalGate, EvalCheckpoint, GateName;
    hide Binary, ReadAttr, WriteAttr, ReadItem, AppendItem, Load, Truthy, Stands, DoCheckpoint, Guards;
    match e
    case Attr(o, _) => EnoughE(p, cfg, n, o, sc, st);
    case Bin(_, l, r) => EnoughTwo(p, cfg, n, e, l, r, sc, st);
    case Or(l, r) => EnoughTwo(p, cfg, n, e, l, r, sc, st);
    case Tup(es) => EnoughEs(p, cfg, n, es, sc, st);
    case Item(o, _) => EnoughE(p, cfg, n, o, sc, st);
    case Push(l, x) => EnoughTwo(p, cfg, n, e, l, x, sc, st);
    case Call(_, _) => EnoughCallE(p, cfg, n, e, sc, st);
    case Comp(elt, cs) => EnoughComp(p, cfg, n, elt, cs, sc, st);
    case GCheckpoint => EnoughGates(p, cfg, n, e, sc, st);
    case GGetAttr(_, _) => EnoughGates(p, cfg, n, e, sc, st);
    case GSetAttr(_, _, _) => EnoughGates(p, cfg, n, e, sc, st);
    case GCapture(_) => EnoughGates(p, cfg, n, e, sc, st);
    case _ =>
  }

  lemma {:induction false} EnoughGates(p: Program, cfg: Config, n: nat, e: Expr, sc: Scope, st: State)
    requires Enough(p, cfg, n, st) && CheckedE(e) && CHECKPOINT !in sc
    requires e.GCheckpoint? || e.GGetAttr? || e.GSetAttr? || e.GCapture?
    ensures !Eval(p, cfg, n, e, sc, st).EDeep?
    decreases n, 1, e, 1
  {
    hide Enough, Grew, EvalGate, EvalCheckpoint, CheckedE, GateName, Stands, DoCheckpoint, Guards;
    if e.GCheckpoint? {
      EnoughMeans(p, cfg, n, st);
      CheckpointIs(p, cfg, n, sc, st);
    } else {
      EnoughGate(p, cfg, n, e, sc, st);
    }
  }

  lemma {:induction false} EnoughCallE(p: Program, cfg: Config, n: nat, e: Expr, sc: Scope, st: State)
    requires Enough(p, cfg, n, st) && CheckedE(e) && CHECKPOINT !in sc && e.Call?
    ensures !EvalCall(p, cfg, n, e, sc, st).EDeep?
    decreases n, 1, e, 0
  {
    hide Eval, CallFn, EvalAll, Grew, Enough, GateName;
    EnoughE(p, cfg, n, e.fn, sc, st);
    AfterE(p, cfg, n, e.fn, sc, st);
    var rf := Eval(p, cfg, n, e.fn, sc, st);
    if rf.EOk? {
      EnoughEs(p, cfg, n, e.args, sc, rf.st);
      AfterEs(p, cfg, n, e.args, sc, rf.st);
      var rs := EvalAll(p, cfg, n, e.args, sc, rf.st);
      if rs.EOk? { EnoughCall(p, cfg, n, rf.v, rs.v, rs.st); }
    }
  }

  /** Whatever the name of another gate stands for, the call of it is a call. */
  lemma {:induction false} EnoughGate(p: Program, cfg: Config, n: nat, e: Expr, sc: Scope, st: State)
    requires Enough(p, cfg, n, st) && CheckedE(e) && CHECKPOINT !in sc
    requires e.GGetAttr? || e.GSetAttr? || e.GCapture?
    ensures !EvalGate(p, cfg, n, e, sc, st).EDeep?
    decreases n, 1, e, 0
  {
    hide Grew, CallFn, Load, GateName, Eval, Enough;
    var g := Load(GateName(GateOf(e)), sc, st);
    if g.EOk? {
      var o := if e.GCapture? then e.f else e.obj;
      EnoughE(p, cfg, n, o, sc, st);
      AfterE(p, cfg, n, o, sc, st);
      var r1 := Eval(p, cfg, n, o, sc, st);
      if r1.EOk? {
        if e.GCapture? { EnoughCall(p, cfg, n, g.v, [r1.v], r1.st); }
        else if e.GGetAttr? { EnoughCall(p, cfg, n, g.v, [r1.v, StrV(e.attr)], r1.st); }
        else {
          EnoughE(p, cfg, n, e.value, sc, r1.st);
          AfterE(p, cfg, n, e.value, sc, r1.st);
          var r2 := Eval(p, cfg, n, e.value, sc, r1.st);
          if r2.EOk? { EnoughCall(p, cfg, n, g.v, [r1.v, StrV(e.attr), r2.v], r2.st); }
        }
      }
    }
  }

  lemma {:induction false} EnoughTwo(p: Program, cfg: Config, n: nat, e: Expr, a: Expr, b: Expr, sc: Scope, st: State)
    requires Enough(p, cfg, n, st) && CheckedE(a) && CheckedE(b) && CHECKPOINT !in sc
    requires a < e && b < e
    ensures var ra := Eval(p, cfg, n, a, sc, st);
      !ra.EDeep? && (ra.EOk? ==> !Eval(p, cfg, n, b, sc, ra.st).EDeep?)
    decreases n, 1, e, 0
  {
    hide Eval, Enough, Grew, GateName;
    EnoughE(p, cfg, n, a, sc, st);
    AfterE(p, cfg, n, a, sc, st);
    var ra := Eval(p, cfg, n, a, sc, st);
    if ra.EOk? { EnoughE(p, cfg, n, b, sc, ra.st); }
  }

  lemma {:induction false} EnoughEs(p: Program, cfg: Config, n: nat, es: seq<Expr>, sc: Scope, st: State)
    requires Enough(p, cfg, n, st) && CheckedEs(es) && CHECKPOINT !in sc
    ensures !EvalAll(p, cfg, n, es, sc, st).EDeep?
    decreases n, 1, es, 0
  {
    hide Eval, Enough, Grew, GateName;
    if es != [] {
      EnoughE(p, cfg, n, es[0], sc, st);
      AfterE(p, cfg, n, es[0], sc, st);
      var r0 := Eval(p, cfg, n, es[0], sc, st);
      if r0.EOk? { EnoughEs(p, cfg, n, es[1..], sc, r0.st); }
    }
  }

  lemma {:induction false} EnoughCall(p: Program, cfg: Config, n: nat, f: Val, args: seq<Val>, st: State)
    requires Enough(p, cfg, n, st)
    ensures !CallFn(p, cfg, n, f, args, st).EDeep?
    decreases n, 0
  {
    hide ExecAll, CallFn, CallOther, Returned, Guards;
    CallIs(p, cfg, n, f, args, st);
    if Enters(p, f, args) {
      var d := p.defs[f.id];
      GuardsMeans(p, f.id);
      StandsCalled(cfg, d, args, st);
      UnboundBody(d);
      EnoughBody(p, cfg, n - 1, d.body, CallState(cfg, d, args, st));
    }
  }

  lemma GuardsMeans(p: Program, i: nat)
    requires Guards(p) && i < |p.defs|
    ensures Unbound(p.defs[i])
  {
  }

  /** A body that starts with a checkpoint needs no more fuel than there are ticks left: the
      checkpoint raises, or takes a tick. */
  lemma {:induction false} EnoughBody(p: Program, cfg: Config, n: nat, body: seq<Stmt>, st: State)
    requires Limited(p, cfg, st) && n >= Left(cfg, st.meter)
    requires Headed(body) && CheckedAll(body) && CHECKPOINT !in Bound(body)
    ensures !ExecAll(p, cfg, n, body, st).SDeep?
    decreases n, 2
  {
    hide ExecAll, Headed, CheckedAll, Bound, GateName, CheckedDefs, Guards, AfterHead;
    BodySteps(p, cfg, n, body, st);
    TickPaid(p, cfg, n, st);
    var r := DoCheckpoint(cfg, st);
    hide DoCheckpoint, Limited, Enough;
    if r.EOk? { EnoughAll(p, cfg, n, AfterHead(body), r.st); }
  }

  /** A checkpoint that is passed has taken a tick, and what was as much is now more. */
  lemma TickPaid(p: Program, cfg: Config, n: nat, st: State)
    requires Limited(p, cfg, st) && n >= Left(cfg, st.meter)
    ensures var r := DoCheckpoint(cfg, st); r.EOk? ==> Enough(p, cfg, n, r.st)
  {
    hide CheckedDefs, Guards, GateName;
    CheckpointKeeps(cfg, st);
  }

  /** What follows the checkpoint at the head of a body. */
  function AfterHead(body: seq<Stmt>): seq<Stmt>
    requires Headed(body)
  {
    if body[0] == ExprS(GCheckpoint) then body[1..] else body[1..][1..]
  }

  /** Running such a body is evaluating the checkpoint, then running the rest. */
  lemma HeadSteps(p: Program, cfg: Config, n: nat, body: seq<Stmt>, st: State)
    requires Headed(body)
    ensures var r := Eval(p, cfg, n, GCheckpoint, map[], st);
      ExecAll(p, cfg, n, body, st) ==
        if r.EOk? then ExecAll(p, cfg, n, AfterHead(body), r.st) else Broke(r)
  {
    var cp := ExprS(GCheckpoint);
    hide EvalCheckpoint, Grew, Ran;
    var r := Exec(p, cfg, n, cp, st);
    if body[0] != cp {
      assert Exec(p, cfg, n, body[0], st) == SNext(st);
      assert body[1..][0] == cp;
      assert ExecAll(p, cfg, n, body, st) == ExecAll(p, cfg, n, body[1..], st);
    }
  }

  lemma HeadIs(body: seq<Stmt>)
    requires Headed(body)
    ensures CheckedAll(body) ==> CheckedAll(AfterHead(body))
    ensures Bound(body) == Bound(AfterHead(body))
  {
    hide CheckedS;
    assert BoundBy(body[0]) == {};
    assert CheckedAll(body) ==> CheckedAll(body[1..]);
    if body[0] != ExprS(GCheckpoint) {
      assert body[1..][0] == ExprS(GCheckpoint);
      assert BoundBy(body[1..][0]) == {};
    }
  }

  /** And where the name stands for the gate, it is passing the gate. */
  lemma BodySteps(p: Program, cfg: Config, n: nat, body: seq<Stmt>, st: State)
    requires Headed(body) && Stands(CheckpointGate, st)
    ensures var r := DoCheckpoint(cfg, st);
      ExecAll(p, cfg, n, body, st) ==
        if r.EOk? then ExecAll(p, cfg, n, AfterHead(body), r.st) else SExc(r.e, r.st)
    ensures CheckedAll(body) ==> CheckedAll(AfterHead(body))
    ensures Bound(body) == Bound(AfterHead(body))
  {
    hide Eval, ExecAll, Headed, AfterHead, Bound, CheckedAll, Stands, DoCheckpoint;
    HeadSteps(p, cfg, n, body, st);
    HeadIs(body);
    CheckpointIs(p, cfg, n, map[], st);
  }

  // ----- comprehensions -----

  lemma {:induction false} EnoughComp(p: Program, cfg: Config, n: nat, elt: Expr, cs: seq<Clause>, sc: Scope, st: State)
    requires Enough(p, cfg, n, st) && CheckedE(elt) && CheckedCs(cs) && CHECKPOINT !in sc
    ensures !EvalComp(p, cfg, n, elt, cs, sc, st).EDeep?
    decreases n, 1, cs, 1
  {
    hide Eval, EvalComp, CompLoop, Enough, Grew, GateName, Iterable;
    CompIs(p, cfg, n, elt, cs, sc, st);
    if cs != [] {
      EnoughE(p, cfg, n, cs[0].iter, sc, st);
      AfterE(p, cfg, n, cs[0].iter, sc, st);
      var ri := Eval(p, cfg, n, cs[0].iter, sc, st);
      if ri.EOk? && Iterable(ri.v, ri.st.heap) { EnoughLoop(p, cfg, n, elt, cs, sc, ri.v, 0, ri.st); }
    }
  }

  lemma {:induction false} EnoughLoop(p: Program, cfg: Config, n: nat, elt: Expr, cs: seq<Clause>, sc: Scope,
                                      over: Val, i: nat, st: State)
    requires cs != [] && Enough(p, cfg, n, st) && CheckedE(elt) && CheckedCs(cs) && CHECKPOINT !in sc
    ensures !CompLoop(p, cfg, n, elt, cs, sc, over, i, st).EDeep?
    decreases n, 0
  {
    hide CompItem, CompLoop, NextItem, Enough, Limited, Left, Grew, GateName, CheckedE;
    var item := NextItem(over, i, st.heap);
    if item.None? {
      LoopStops(p, cfg, n, elt, cs, sc, over, i, st);
    } else {
      EnoughLess(p, cfg, n, st);
      LoopUnfold(p, cfg, n, elt, cs, sc, over, i, st);
      var sc' := sc[cs[0].target := item.value];
      EnoughItem(p, cfg, n - 1, elt, cs, sc', st);
      var r0 := CompItem(p, cfg, n - 1, elt, cs, sc', st);
      if r0.EOk? { EnoughLoop(p, cfg, n - 1, elt, cs, sc, over, i + 1, r0.st); }
    }
  }

  lemma {:induction false} EnoughItem(p: Program, cfg: Config, n: nat, elt: Expr, cs: seq<Clause>, sc: Scope, st: State)
    requires Limited(p, cfg, st) && n >= Left(cfg, st.meter)
    requires cs != [] && CheckedE(elt) && CheckedCs(cs) && CHECKPOINT !in sc
    ensures var r := CompItem(p, cfg, n, elt, cs, sc, st);
      !r.EDeep? && (r.EOk? ==> Enough(p, cfg, n, r.st))
    decreases n, 3
  {
    hide Eval, EvalComp, Filters, CompItem, Grew, CheckedE, GateName, Enough, Left, Limited;
    ItemUnfold(p, cfg, n, elt, cs, sc, st);
    EnoughFilters(p, cfg, n, cs[0].ifs, sc, st);
    var rc := Filters(p, cfg, n, cs[0].ifs, sc, st);
    if rc.EOk? && rc.v {
      if |cs| > 1 {
        EnoughComp(p, cfg, n, elt, cs[1..], sc, rc.st);
        AfterComp(p, cfg, n, elt, cs[1..], sc, rc.st);
      } else {
        EnoughE(p, cfg, n, elt, sc, rc.st);
        AfterE(p, cfg, n, elt, sc, rc.st);
      }
    }
  }

  lemma AfterComp(p: Program, cfg: Config, n: nat, elt: Expr, cs: seq<Clause>, sc: Scope, st: State)
    requires Enough(p, cfg, n, st) && CheckedE(elt) && CheckedCs(cs) && CHECKPOINT !in sc
    ensures Enough(p, cfg, n, EvalComp(p, cfg, n, elt, cs, sc, st).st)
  {
    EnoughMeans(p, cfg, n, st);
    KeepsComp(p, cfg, n, elt, cs, sc, st);
    assert Grew(p, cfg, st, EvalComp(p, cfg, n, elt, cs, sc, st).st);
    hide EvalComp, Enough, Stands, Ticked, GateName;
    EnoughStays(p, cfg, n, st, EvalComp(p, cfg, n, elt, cs, sc, st).st);
  }

  lemma {:induction false} EnoughFilters(p: Program, cfg: Config, n: nat, ifs: seq<Expr>, sc: Scope, st: State)
    requires Limited(p, cfg, st) && n >= Left(cfg, st.meter)
    requires ifs != [] && ifs[0] == ALWAYS && CheckedEs(ifs) && CHECKPOINT !in sc
    ensures var rc := Filters(p, cfg, n, ifs, sc, st);
      !rc.EDeep? && (rc.EOk? ==> Enough(p, cfg, n, rc.st))
    decreases n, 2
  {
    hide Filters, Enough, GateName, CheckedDefs, Guards, CheckedE;
    FiltersStep(p, cfg, n, ifs, sc, st);
    TickPaid(p, cfg, n, st);
    var r := DoCheckpoint(cfg, st);
    hide DoCheckpoint, Limited;
    if r.EOk? { EnoughIfs(p, cfg, n, ifs[1..], sc, r.st); }
  }

  lemma FiltersStep(p: Program, cfg: Config, n: nat, ifs: seq<Expr>, sc: Scope, st: State)
    requires ifs != [] && ifs[0] == ALWAYS && Stands(CheckpointGate, st) && CHECKPOINT !in sc
    ensures var r := DoCheckpoint(cfg, st);
      Filters(p, cfg, n, ifs, sc, st) ==
        if r.EOk? then Filters(p, cfg, n, ifs[1..], sc, r.st) else Fail(r)
  {
    hide Stands, GateName;
    AlwaysSteps(p, cfg, n, sc, st);
    hide Eval;
  }

  /** The injected filter is the checkpoint, and true whenever that returns. */
  lemma AlwaysSteps(p: Program, cfg: Config, n: nat, sc: Scope, st: State)
    requires Stands(CheckpointGate, st) && CHECKPOINT !in sc
    ensures var r := DoCheckpoint(cfg, st);
      Eval(p, cfg, n, ALWAYS, sc, st) == if r.EOk? then EOk(BoolV(true), r.st) else r
  {
    hide Stands, GateName, EvalCheckpoint;
    CheckpointIs(p, cfg, n, sc, st);
    var r := DoCheckpoint(cfg, st);
    assert r.EOk? ==> Eval(p, cfg, n, Lit(BoolC(true)), sc, r.st) == EOk(BoolV(true), r.st);
  }

  lemma {:induction false} EnoughIfs(p: Program, cfg: Config, n: nat, ifs: seq<Expr>, sc: Scope, st: State)
    requires Enough(p, cfg, n, st) && CheckedEs(ifs) && CHECKPOINT !in sc
    ensures var rc := Filters(p, cfg, n, ifs, sc, st);
      !rc.EDeep? && Enough(p, cfg, n, rc.st)
    decreases n, 1, ifs, 0
  {
    hide Eval, Enough, Grew, GateName, CheckedE, Truthy;
    if ifs != [] {
      EnoughE(p, cfg, n, ifs[0], sc, st);
      AfterE(p, cfg, n, ifs[0], sc, st);
      var r0 := Eval(p, cfg, n, ifs[0], sc, st);
      if r0.EOk? && Truthy(r0.v, r0.st.heap) { EnoughIfs(p, cfg, n, ifs[1..], sc, r0.st); }
    }
  }

  // ----- assignments -----

  lemma {:induction false} EnoughTarget(p: Program, cfg: Config, n: nat, t: Target, v: Val, st: State)
    requires Enough(p, cfg, n, st) && CheckedT(t) && CHECKPOINT !in TargetNames([t])
    ensures !AssignTo(p, cfg, n, t, v, st).EDeep?
    decreases n, 1, t, 1
  {
    hide Eval, Enough, Grew, Ran, GateName, CheckedE;
    assert [t][1..] == [];
    match t
    case TName(_) =>
    case TAttr(o, _) => EnoughE(p, cfg, n, o, map[], st);
    case TTup(us) =>
      var ru := Unpack(v, |us|, st);
      if ru.EOk? { EnoughEach(p, cfg, n, us, ru.v, ru.st); }
  }

  lemma {:induction false} EnoughEach(p: Program, cfg: Config, n: nat, ts: seq<Target>, vs: seq<Val>, st: State)
    requires |ts| == |vs| && Enough(p, cfg, n, st) && CheckedTs(ts) && CHECKPOINT !in TargetNames(ts)
    ensures !AssignEach(p, cfg, n, ts, vs, st).EDeep?
    decreases n, 1, ts, 0
  {
    hide AssignTo, Enough, Ran, GateName, CheckedT, CheckedTs, TargetNames;
    if ts != [] {
      FirstTarget(ts);
      EnoughTarget(p, cfg, n, ts[0], vs[0], st);
      AfterTo(p, cfg, n, ts[0], vs[0], st);
      var r0 := AssignTo(p, cfg, n, ts[0], vs[0], st);
      if r0.EOk? { EnoughEach(p, cfg, n, ts[1..], vs[1..], r0.st); }
    }
  }

  lemma {:induction false} EnoughSame(p: Program, cfg: Config, n: nat, ts: seq<Target>, v: Val, st: State)
    requires Enough(p, cfg, n, st) && CheckedTs(ts) && CHECKPOINT !in TargetNames(ts)
    ensures !AssignSame(p, cfg, n, ts, v, st).EDeep?
    decreases n, 1, ts, 0
  {
    hide AssignTo, Enough, Ran, GateName, CheckedT, CheckedTs, TargetNames;
    if ts != [] {
      FirstTarget(ts);
      EnoughTarget(p, cfg, n, ts[0], v, st);
      AfterTo(p, cfg, n, ts[0], v, st);
      var r0 := AssignTo(p, cfg, n, ts[0], v, st);
      if r0.EOk? { EnoughSame(p, cfg, n, ts[1..], v, r0.st); }
    }
  }

  lemma {:induction false} EnoughAssign(p: Program, cfg: Config, n: nat, s: Stmt, st: State)
    requires s.Assign? && Enough(p, cfg, n, st) && CheckedS(s) && CHECKPOINT !in BoundBy(s)
    ensures !ExecAssign(p, cfg, n, s, st).SDeep?
    decreases n, 1, s, 2
  {
    hide Eval, AssignSame, Enough, Grew, Ran, GateName, SameEitherWay, WriteAttr, HasAttr, ShapedBy;
    var Assign(ts, e) := s;
    EnoughE(p, cfg, n, e, map[], st);
    AfterE(p, cfg, n, e, map[], st);
    var rv := Eval(p, cfg, n, e, map[], st);
    if |ts| == 1 && ts[0].TAttr? {
      var o := ts[0].obj;
      assert CheckedT(ts[0]);
      EnoughE(p, cfg, n, o, map[], st);
      AfterE(p, cfg, n, o, map[], st);
      var ro := Eval(p, cfg, n, o, map[], st);
      if rv.EOk? { EnoughE(p, cfg, n, o, map[], rv.st); }
      if ro.EOk? { EnoughE(p, cfg, n, e, map[], ro.st); }
    } else if rv.EOk? {
      var u := Clear(rv.st, HasAttr(ts) ==> ShapedBy(ts, rv.v));
      EnoughAfter(p, cfg, n, rv.st, u);
      EnoughSame(p, cfg, n, ts, rv.v, u);
    }
  }

  lemma {:induction false} EnoughAug(p: Program, cfg: Config, n: nat, s: Stmt, st: State)
    requires s.AugAttr? && Enough(p, cfg, n, st) && CheckedS(s)
    ensures !ExecAugAttr(p, cfg, n, s, st).SDeep?
    decreases n, 1, s, 2
  {
    hide Eval, Enough, Grew, Ran, GateName, ReadAttr, WriteAttr, InPlace;
    EnoughE(p, cfg, n, s.obj, map[], st);
    AfterE(p, cfg, n, s.obj, map[], st);
    var ro := Eval(p, cfg, n, s.obj, map[], st);
    if ro.EOk? {
      var rg := ReadAttr(ro.v, s.attr, ro.st);
      EnoughAfter(p, cfg, n, ro.st, rg.st);
      EnoughE(p, cfg, n, s.value, map[], rg.st);
    }
  }

  // ----- statements -----

  lemma {:induction false} EnoughAll(p: Program, cfg: Config, n: nat, ss: seq<Stmt>, st: State)
    requires Enough(p, cfg, n, st) && CheckedAll(ss) && CHECKPOINT !in Bound(ss)
    ensures !ExecAll(p, cfg, n, ss, st).SDeep?
    decreases n, 1, ss, 0
  {
    hide Exec, Enough, Ran, GateName, CheckedS, BoundBy;
    if ss != [] {
      EnoughS(p, cfg, n, ss[0], st);
      AfterS(p, cfg, n, ss[0], st);
      var r0 := Exec(p, cfg, n, ss[0], st);
      if r0.SNext? { EnoughAll(p, cfg, n, ss[1..], r0.st); }
    }
  }

  lemma {:induction false} EnoughS(p: Program, cfg: Config, n: nat, s: Stmt, st: State)
    requires Enough(p, cfg, n, st) && CheckedS(s) && CHECKPOINT !in BoundBy(s)
    ensures !Exec(p, cfg, n, s, st).SDeep?
    decreases n, 1, s, 3
  {
    hide Eval, ExecAll, ExecAssign, ExecAugAttr, ExecWhile, ExecTry, ForLoop, Enough, Grew, Ran, GateName;
    match s
    case ExprS(e) => EnoughE(p, cfg, n, e, map[], st);
    case Assign(_, _) => EnoughAssign(p, cfg, n, s, st);
    case AugName(x, _, e) => EnoughE(p, cfg, n, e, map[], st);
    case AugAttr(_, _, _, _) => EnoughAug(p, cfg, n, s, st);
    case If(c, a, b) =>
      EnoughE(p, cfg, n, c, map[], st);
      AfterE(p, cfg, n, c, map[], st);
      var rc := Eval(p, cfg, n, c, map[], st);
      if rc.EOk? { EnoughAll(p, cfg, n, if Truthy(rc.v, rc.st.heap) then a else b, rc.st); }
    case While(_, _, _) => EnoughWhile(p, cfg, n, s, st);
    case For(x, it, a, b) =>
      EnoughE(p, cfg, n, it, map[], st);
      AfterE(p, cfg, n, it, map[], st);
      var ri := Eval(p, cfg, n, it, map[], st);
      if ri.EOk? && Iterable(ri.v, ri.st.heap) { EnoughFor(p, cfg, n, x, a, b, ri.v, 0, ri.st); }
    case Try(_, _, _, _) => EnoughTry(p, cfg, n, s, st);
    case Return(e) => EnoughE(p, cfg, n, e, map[], st);
    case _ =>
  }

  lemma WhileIs(p: Program, cfg: Config, n: nat, s: Stmt, st: State)
    requires s.While?
    ensures var rc := Eval(p, cfg, n, s.cond, map[], st);
      && Grew(p, cfg, st, rc.st)
      && ExecWhile(p, cfg, n, s, st) ==
         if !rc.EOk? then Broke(rc)
         else if !Truthy(rc.v, rc.st.heap) then ExecAll(p, cfg, n, s.orelse, rc.st)
         else if n == 0 then SDeep(rc.st)
         else
           var rb := ExecAll(p, cfg, n - 1, s.body, rc.st);
           if rb.SNext? || rb.SContinue? then ExecWhile(p, cfg, n - 1, s, rb.st) else AfterLoop(rb)
  {
    hide Eval, ExecAll, Grew, Ran, Truthy;
  }

  /** There is fuel for a turn, and one unit less is enough for its body. */
  lemma EnoughLess(p: Program, cfg: Config, n: nat, st: State)
    requires Enough(p, cfg, n, st)
    ensures n > 0 && Limited(p, cfg, st) && n - 1 >= Left(cfg, st.meter)
  {
    hide Limited;
  }

  /** The turn has cost a tick, so there is enough for the next. */
  lemma EnoughNext(p: Program, cfg: Config, n: nat, body: seq<Stmt>, st: State)
    requires Limited(p, cfg, st) && n >= Left(cfg, st.meter)
    requires Headed(body) && CheckedAll(body) && CHECKPOINT !in Bound(body)
    requires var r := ExecAll(p, cfg, n, body, st); r.SNext? || r.SContinue?
    ensures Enough(p, cfg, n, ExecAll(p, cfg, n, body, st).st)
  {
    hide ExecAll, Headed, CheckedAll, Bound, GateName, CheckedDefs, Guards, AfterHead;
    BodySteps(p, cfg, n, body, st);
    TickPaid(p, cfg, n, st);
    hide Enough, Limited, DoCheckpoint;
    AfterAll(p, cfg, n, AfterHead(body), DoCheckpoint(cfg, st).st);
  }

  lemma {:induction false} EnoughWhile(p: Program, cfg: Config, n: nat, s: Stmt, st: State)
    requires s.While? && Enough(p, cfg, n, st) && CheckedS(s) && CHECKPOINT !in BoundBy(s)
    ensures !ExecWhile(p, cfg, n, s, st).SDeep?
    decreases n, 1, s, 2
  {
    hide Eval, ExecAll, ExecWhile, CheckedE, CheckedAll, Headed, Bound, Enough, Limited, Left, Grew, GateName;
    EnoughE(p, cfg, n, s.cond, map[], st);
    AfterE(p, cfg, n, s.cond, map[], st);
    var rc := Eval(p, cfg, n, s.cond, map[], st);
    WhileIs(p, cfg, n, s, st);
    if rc.EOk? {
      if Truthy(rc.v, rc.st.heap) {
        EnoughLess(p, cfg, n, rc.st);
        EnoughBody(p, cfg, n - 1, s.body, rc.st);
        var rb := ExecAll(p, cfg, n - 1, s.body, rc.st);
        if rb.SNext? || rb.SContinue? {
          EnoughNext(p, cfg, n - 1, s.body, rc.st);
          EnoughWhile(p, cfg, n - 1, s, rb.st);
        }
      } else {
        EnoughAll(p, cfg, n, s.orelse, rc.st);
      }
    }
  }

  lemma EnoughStored(p: Program, cfg: Config, n: nat, x: string, v: Val, st: State)
    requires Enough(p, cfg, n, st) && x != CHECKPOINT
    ensures Enough(p, cfg, n, Store(x, v, st))
  {
    hide GateName, CheckedDefs, Guards;
    StandsStored(x, v, st);
  }

  lemma {:induction false} EnoughFor(p: Program, cfg: Config, n: nat, x: string, body: seq<Stmt>, orelse: seq<Stmt>,
                                     over: Val, i: nat, st: State)
    requires Enough(p, cfg, n, st) && Headed(body) && CheckedAll(body) && CheckedAll(orelse)
    requires x != CHECKPOINT && CHECKPOINT !in Bound(body) && CHECKPOINT !in Bound(orelse)
    ensures !ForLoop(p, cfg, n, x, body, orelse, over, i, st).SDeep?
    decreases n, 1, orelse, 1
  {
    hide ExecAll, ForLoop, CheckedAll, Headed, Bound, Store, Enough, Limited, Left, NextItem, GateName;
    var item := NextItem(over, i, st.heap);
    if item.Some? {
      var st' := Store(x, item.value, st);
      EnoughStored(p, cfg, n, x, item.value, st);
      EnoughLess(p, cfg, n, st');
      ForUnfold(p, cfg, n, x, body, orelse, over, i, st);
      EnoughBody(p, cfg, n - 1, body, st');
      var rb := ExecAll(p, cfg, n - 1, body, st');
      if rb.SNext? || rb.SContinue? {
        EnoughNext(p, cfg, n - 1, body, st');
        EnoughFor(p, cfg, n - 1, x, body, orelse, over, i + 1, rb.st);
      }
    } else {
      ForStops(p, cfg, n, x, body, orelse, over, i, st);
      EnoughAll(p, cfg, n, orelse, st);
    }
  }

  lemma {:induction false} EnoughTry(p: Program, cfg: Config, n: nat, s: Stmt, st: State)
    requires s.Try? && Enough(p, cfg, n, st) && CheckedS(s) && CHECKPOINT !in BoundBy(s)
    ensures !ExecTry(p, cfg, n, s, st).SDeep?
    decreases n, 1, s, 2
  {
    hide ExecAll, Handle, Enough, Ran, GateName, CheckedAll, CheckedHs, Bound, HandlerNames;
    EnoughAll(p, cfg, n, s.body, st);
    AfterAll(p, cfg, n, s.body, st);
    var r0 := ExecAll(p, cfg, n, s.body, st);
    if r0.SExc? { EnoughHandle(p, cfg, n, s.handlers, r0.e, r0.st); AfterHandle(p, cfg, n, s.handlers, r0.e, r0.st); }
    if r0.SNext? { EnoughAll(p, cfg, n, s.orelse, r0.st); AfterAll(p, cfg, n, s.orelse, r0.st); }
    var r1 :=
      if r0.SExc? then Handle(p, cfg, n, s.handlers, r0.e, r0.st)
      else if r0.SNext? then ExecAll(p, cfg, n, s.orelse, r0.st)
      else r0;
    EnoughAll(p, cfg, n, s.final, r1.st);
  }

  lemma {:induction false} EnoughHandle(p: Program, cfg: Config, n: nat, hs: seq<Handler>, e: Error, st: State)
    requires Enough(p, cfg, n, st) && CheckedHs(hs) && CHECKPOINT !in HandlerNames(hs)
    ensures !Handle(p, cfg, n, hs, e, st).SDeep?
    decreases n, 1, hs, 0
  {
    hide ExecAll, Enough, Ran, GateName, CheckedAll, Bound;
    if hs != [] {
      if Matches(hs[0].catch, e) {
        var u := Clear(st, hs[0].catch.Bare? ==> !e.ExitError?);
        EnoughAfter(p, cfg, n, st, u);
        EnoughAll(p, cfg, n, hs[0].body, u);
      } else {
        EnoughHandle(p, cfg, n, hs[1..], e, st);
      }
    }
  }
}
