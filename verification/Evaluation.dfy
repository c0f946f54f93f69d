/** What the evaluator does, case by case: each lemma unfolds one step of it, so that the proofs
    about whole programs need not. */
module Evaluation {
  import opened Options
  import opened Python

  function Joined(r0: ER<seq<Val>>, rs: ER<seq<Val>>): ER<seq<Val>> {
    if !r0.EOk? then r0 else if rs.EOk? then EOk(r0.v + rs.v, rs.st) else rs
  }

  lemma LoopUnfold(p: Program, cfg: Config, n: nat, elt: Expr, cs: seq<Clause>, sc: Scope, over: Val, i: nat, st: State)
    requires cs != [] && n > 0 && NextItem(over, i, st.heap).Some?
    ensures var r0 := CompItem(p, cfg, n - 1, elt, cs, sc[cs[0].target := NextItem(over, i, st.heap).value], st);
      CompLoop(p, cfg, n, elt, cs, sc, over, i, st) ==
        Joined(r0, CompLoop(p, cfg, n - 1, elt, cs, sc, over, i + 1, r0.st))
  {
    hide Grew, Ran, NextItem, CompItem;
  }

  lemma LoopStops(p: Program, cfg: Config, n: nat, elt: Expr, cs: seq<Clause>, sc: Scope, over: Val, i: nat, st: State)
    requires cs != [] && (n == 0 || NextItem(over, i, st.heap).None?)
    ensures CompLoop(p, cfg, n, elt, cs, sc, over, i, st) ==
      if NextItem(over, i, st.heap).None? then EOk([], st) else EDeep(st)
  {
    hide Grew, Ran, NextItem, CompItem;
  }

  /** What an item contributes once its filters have let it through. */
  function ItemRest(p: Program, cfg: Config, n: nat, elt: Expr, cs: seq<Clause>, sc: Scope, st: State): ER<seq<Val>>
    requires cs != []
  {
    if |cs| > 1 then EvalComp(p, cfg, n, elt, cs[1..], sc, st)
    else
      var rv := Eval(p, cfg, n, elt, sc, st);
      if rv.EOk? then EOk([rv.v], rv.st) else Fail(rv)
  }

  function Filtered(rc: ER<bool>, rest: ER<seq<Val>>): ER<seq<Val>> {
    if !rc.EOk? then Fail(rc) else if !rc.v then EOk([], rc.st) else rest
  }

  lemma ItemUnfold(p: Program, cfg: Config, n: nat, elt: Expr, cs: seq<Clause>, sc: Scope, st: State)
    requires cs != []
    ensures var rc := Filters(p, cfg, n, cs[0].ifs, sc, st);
      CompItem(p, cfg, n, elt, cs, sc, st) == Filtered(rc, ItemRest(p, cfg, n, elt, cs, sc, rc.st))
  {
    hide Grew, Ran, Filters, Eval, EvalComp;
  }

  lemma RestGrew(p: Program, cfg: Config, n: nat, elt: Expr, cs: seq<Clause>, sc: Scope, st: State)
    requires cs != []
    ensures var r := ItemRest(p, cfg, n, elt, cs, sc, st);
      (r.st.fits ==> st.fits) && (st.meter.refused ==> r.st.meter.refused)
  {
    hide Eval, EvalComp, KeepsReserved, Ticked, Lenient;
  }

  /** One turn of a loop, and the rest of it. */
  function Looped(rb: SR, rest: SR): SR { if rb.SNext? || rb.SContinue? then rest else AfterLoop(rb) }

  lemma ForUnfold(
    p: Program, cfg: Config, n: nat, x: string, body: seq<Stmt>, orelse: seq<Stmt>, over: Val, i: nat, st: State)
    requires n > 0 && NextItem(over, i, st.heap).Some?
    ensures var rb := ExecAll(p, cfg, n - 1, body, Store(x, NextItem(over, i, st.heap).value, st));
      ForLoop(p, cfg, n, x, body, orelse, over, i, st) ==
        Looped(rb, ForLoop(p, cfg, n - 1, x, body, orelse, over, i + 1, rb.st))
  {
    hide Grew, Ran, NextItem, ExecAll, Store;
  }

  lemma ForStops(
    p: Program, cfg: Config, n: nat, x: string, body: seq<Stmt>, orelse: seq<Stmt>, over: Val, i: nat, st: State)
    requires n == 0 || NextItem(over, i, st.heap).None?
    ensures ForLoop(p, cfg, n, x, body, orelse, over, i, st) ==
      if NextItem(over, i, st.heap).None? then ExecAll(p, cfg, n, orelse, st) else SDeep(st)
  {
    hide Grew, Ran, NextItem, ExecAll;
  }

  lemma CallIs(p: Program, cfg: Config, n: nat, f: Val, args: seq<Val>, st: State)
    ensures CallFn(p, cfg, n, f, args, st) ==
      if !Enters(p, f, args) then CallOther(p, cfg, f, args, st)
      else if n == 0 then EDeep(st)
      else Returned(st, ExecAll(p, cfg, n - 1, p.defs[f.id].body, CallState(cfg, p.defs[f.id], args, st)))
  {
    hide ExecAll, Grew, Ran, CallState, Returned, CallOther;
  }

  lemma {:induction false} BindKeys(ps: seq<string>, vs: seq<Val>)
    requires |ps| == |vs|
    ensures Bind(ps, vs).Keys == Params(ps)
  {
    if ps != [] {
      var k := |ps| - 1;
      BindKeys(ps[..k], vs[..k]);
      assert ps == ps[..k] + [ps[k]];
      forall x ensures x in Params(ps) <==> x in Params(ps[..k]) + {ps[k]} {}
    }
  }

  // ----- the gates -----

  /** The name of the gate stands for the gate, in the frame and outside. */
  predicate Stands(g: Gate, st: State) {
    && GateName(g) in st.globals && st.globals[GateName(g)] == GateV(g)
    && (st.frame.Fn? ==> GateName(g) !in st.frame.names && GateName(g) !in st.frame.vars)
  }

  lemma StandsLoads(g: Gate, sc: Scope, st: State)
    requires Stands(g, st) && GateName(g) !in sc
    ensures Load(GateName(g), sc, st) == EOk(GateV(g), st)
  {
    hide GateName;
  }

  lemma CheckpointIs(p: Program, cfg: Config, n: nat, sc: Scope, st: State)
    requires Stands(CheckpointGate, st) && GateName(CheckpointGate) !in sc
    ensures Reached(sc, st) && Eval(p, cfg, n, GCheckpoint, sc, st) == DoCheckpoint(cfg, st)
  {
    hide Grew, Load, DoCheckpoint;
    StandsLoads(CheckpointGate, sc, st);
  }

  lemma GateCallIs(p: Program, cfg: Config, n: nat, g: Gate, args: seq<Val>, st: State)
    ensures CallFn(p, cfg, n, GateV(g), args, st) == CallGate(cfg, g, args, st)
  {
    hide Grew, CallGate;
  }

  lemma GetAttrIs(p: Program, cfg: Config, n: nat, o: Expr, a: string, sc: Scope, st: State)
    requires Stands(GetAttrGate, st) && GateName(GetAttrGate) !in sc
    ensures var ro := Eval(p, cfg, n, o, sc, st);
      Eval(p, cfg, n, GGetAttr(o, a), sc, st) == if ro.EOk? then GateRead(cfg, ro.v, a, ro.st) else ro
  {
    hide Grew, Load, GateRead, GateName, CallFn;
    StandsLoads(GetAttrGate, sc, st);
    var e := GGetAttr(o, a);
    assert Eval(p, cfg, n, e, sc, st) == EvalGate(p, cfg, n, e, sc, st);
    var ro := Eval(p, cfg, n, o, sc, st);
    hide Eval;
    if ro.EOk? { GateCallIs(p, cfg, n, GetAttrGate, [ro.v, StrV(a)], ro.st); }
  }

  lemma SetAttrIs(p: Program, cfg: Config, n: nat, o: Expr, a: string, x: Expr, sc: Scope, st: State)
    requires Stands(SetAttrGate, st) && GateName(SetAttrGate) !in sc
    ensures var ro := Eval(p, cfg, n, o, sc, st);
      Eval(p, cfg, n, GSetAttr(o, a, x), sc, st) ==
      if !ro.EOk? then ro else
      var rx := Eval(p, cfg, n, x, sc, ro.st);
      if !rx.EOk? then rx else GateWrite(cfg, ro.v, a, rx.v, rx.st)
  {
    hide Grew, Load, GateWrite, GateName, CallFn;
    StandsLoads(SetAttrGate, sc, st);
    var e := GSetAttr(o, a, x);
    assert Eval(p, cfg, n, e, sc, st) == EvalGate(p, cfg, n, e, sc, st);
    var ro := Eval(p, cfg, n, o, sc, st);
    var rx := Eval(p, cfg, n, x, sc, ro.st);
    hide Eval;
    if ro.EOk? && rx.EOk? { GateCallIs(p, cfg, n, SetAttrGate, [ro.v, StrV(a), rx.v], rx.st); }
  }

  lemma CaptureIs(p: Program, cfg: Config, n: nat, f: Expr, sc: Scope, st: State)
    requires Stands(CaptureGate, st) && GateName(CaptureGate) !in sc
    ensures Eval(p, cfg, n, GCapture(f), sc, st) == Eval(p, cfg, n, f, sc, st)
  {
    hide Grew, Load, GateName, CallFn;
    StandsLoads(CaptureGate, sc, st);
    var e := GCapture(f);
    assert Eval(p, cfg, n, e, sc, st) == EvalGate(p, cfg, n, e, sc, st);
    var rf := Eval(p, cfg, n, f, sc, st);
    hide Eval;
    if rf.EOk? { GateCallIs(p, cfg, n, CaptureGate, [rf.v], rf.st); }
  }

  /** The call a gate expression is written as. */
  function Spelled(e: Expr): Expr
    requires e.GCheckpoint? || e.GGetAttr? || e.GSetAttr? || e.GCapture?
  {
    match e
    case GCheckpoint => Call(Name(GateName(CheckpointGate)), [])
    case GGetAttr(o, a) => Call(Name(GateName(GetAttrGate)), [o, Lit(StrC(a))])
    case GSetAttr(o, a, x) => Call(Name(GateName(SetAttrGate)), [o, Lit(StrC(a)), x])
    case GCapture(f) => Call(Name(GateName(CaptureGate)), [f])
  }

  lemma EvalOne(p: Program, cfg: Config, n: nat, e: Expr, sc: Scope, st: State)
    ensures var r := Eval(p, cfg, n, e, sc, st);
      EvalAll(p, cfg, n, [e], sc, st) == if r.EOk? then EOk([r.v], r.st) else Fail(r)
  {
    hide Eval, Grew;
    assert [e][1..] == [];
    var r := Eval(p, cfg, n, e, sc, st);
    if r.EOk? { assert EvalAll(p, cfg, n, [], sc, r.st) == EOk([], r.st) && [r.v] + [] == [r.v]; }
  }

  lemma EvalCons(p: Program, cfg: Config, n: nat, e: Expr, es: seq<Expr>, sc: Scope, st: State)
    ensures var r := Eval(p, cfg, n, e, sc, st);
      EvalAll(p, cfg, n, [e] + es, sc, st) ==
      if !r.EOk? then Fail(r) else
      var rs := EvalAll(p, cfg, n, es, sc, r.st);
      if rs.EOk? then EOk([r.v] + rs.v, rs.st) else rs
  {
    hide Eval, Grew;
    assert ([e] + es)[1..] == es;
  }

  lemma CallsName(p: Program, cfg: Config, n: nat, x: string, args: seq<Expr>, sc: Scope, st: State)
    ensures var g := Load(x, sc, st);
      Eval(p, cfg, n, Call(Name(x), args), sc, st) ==
      if !g.EOk? then g else
      var rs := EvalAll(p, cfg, n, args, sc, st);
      if rs.EOk? then CallFn(p, cfg, n, g.v, rs.v, rs.st) else Fail(rs)
  {
    hide EvalAll, Load, Grew, CallFn;
    var e := Call(Name(x), args);
    assert Eval(p, cfg, n, Name(x), sc, st) == Load(x, sc, st);
    assert Eval(p, cfg, n, e, sc, st) == EvalCall(p, cfg, n, e, sc, st);
  }

  lemma LitIs(p: Program, cfg: Config, n: nat, a: string, sc: Scope, st: State)
    ensures Eval(p, cfg, n, Lit(StrC(a)), sc, st) == EOk(StrV(a), st)
  {
    hide Grew;
  }

  /** The gate expressions are calls by name: what each comes to is what the call it is written
      as comes to. A checkpoint also notes whether it reached the gate. */
  lemma ByName(p: Program, cfg: Config, n: nat, e: Expr, sc: Scope, st: State)
    requires e.GCheckpoint? || e.GGetAttr? || e.GSetAttr? || e.GCapture?
    ensures Eval(p, cfg, n, e, sc, st) ==
      Eval(p, cfg, n, Spelled(e), sc, if e.GCheckpoint? && !Reached(sc, st) then Missed(st) else st)
  {
    match e
    case GCheckpoint => CheckpointByName(p, cfg, n, sc, st);
    case GGetAttr(o, a) => GetAttrByName(p, cfg, n, e, sc, st);
    case GSetAttr(o, a, x) => SetAttrByName(p, cfg, n, e, sc, st);
    case GCapture(f) => CaptureByName(p, cfg, n, e, sc, st);
  }

  lemma CheckpointByName(p: Program, cfg: Config, n: nat, sc: Scope, st: State)
    ensures Eval(p, cfg, n, GCheckpoint, sc, st) ==
      Eval(p, cfg, n, Spelled(GCheckpoint), sc, if Reached(sc, st) then st else Missed(st))
  {
    var u := if Reached(sc, st) then st else Missed(st);
    var x := GateName(CheckpointGate);
    CallsName(p, cfg, n, x, [], sc, u);
    assert EvalAll(p, cfg, n, [], sc, u) == EOk([], u);
    assert Load(x, sc, u) == if Load(x, sc, st).EOk? then EOk(Load(x, sc, st).v, u) else EExc(Load(x, sc, st).e, u);
    CallIs(p, cfg, n, GateV(CheckpointGate), [], u);
    hide Load, Grew, CallFn, DoCheckpoint;
    assert Eval(p, cfg, n, GCheckpoint, sc, st) == EvalCheckpoint(p, cfg, n, sc, st);
  }

  lemma GetAttrByName(p: Program, cfg: Config, n: nat, e: Expr, sc: Scope, st: State)
    requires e.GGetAttr?
    ensures Eval(p, cfg, n, e, sc, st) == Eval(p, cfg, n, Spelled(e), sc, st)
  {
    hide Load, Grew, CallFn, EvalAll, GateName;
    var o, a := e.obj, Lit(StrC(e.attr));
    assert Eval(p, cfg, n, e, sc, st) == EvalGate(p, cfg, n, e, sc, st);
    var ro := Eval(p, cfg, n, o, sc, st);
    hide Eval;
    CallsName(p, cfg, n, GateName(GetAttrGate), [o, a], sc, st);
    assert [o, a] == [o] + [a];
    EvalCons(p, cfg, n, o, [a], sc, st);
    LitIs(p, cfg, n, e.attr, sc, ro.st);
    EvalOne(p, cfg, n, a, sc, ro.st);
    if ro.EOk? { assert [ro.v] + [StrV(e.attr)] == [ro.v, StrV(e.attr)]; }
  }

  lemma SetAttrByName(p: Program, cfg: Config, n: nat, e: Expr, sc: Scope, st: State)
    requires e.GSetAttr?
    ensures Eval(p, cfg, n, e, sc, st) == Eval(p, cfg, n, Spelled(e), sc, st)
  {
    hide Load, Grew, CallFn, EvalAll, GateName;
    var o, a, x := e.obj, Lit(StrC(e.attr)), e.value;
    assert Eval(p, cfg, n, e, sc, st) == EvalGate(p, cfg, n, e, sc, st);
    var ro := Eval(p, cfg, n, o, sc, st);
    var rx := Eval(p, cfg, n, x, sc, ro.st);
    hide Eval;
    CallsName(p, cfg, n, GateName(SetAttrGate), [o, a, x], sc, st);
    assert [o, a, x] == [o] + ([a] + [x]);
    EvalCons(p, cfg, n, o, [a] + [x], sc, st);
    LitIs(p, cfg, n, e.attr, sc, ro.st);
    EvalCons(p, cfg, n, a, [x], sc, ro.st);
    EvalOne(p, cfg, n, x, sc, ro.st);
    if ro.EOk? && rx.EOk? { assert [ro.v] + ([StrV(e.attr)] + [rx.v]) == [ro.v, StrV(e.attr), rx.v]; }
  }

  lemma CaptureByName(p: Program, cfg: Config, n: nat, e: Expr, sc: Scope, st: State)
    requires e.GCapture?
    ensures Eval(p, cfg, n, e, sc, st) == Eval(p, cfg, n, Spelled(e), sc, st)
  {
    hide Load, Grew, CallFn, EvalAll, GateName;
    assert Eval(p, cfg, n, e, sc, st) == EvalGate(p, cfg, n, e, sc, st);
    hide Eval;
    CallsName(p, cfg, n, GateName(CaptureGate), [e.f], sc, st);
    EvalOne(p, cfg, n, e.f, sc, st);
  }

  lemma CompIs(p: Program, cfg: Config, n: nat, elt: Expr, cs: seq<Clause>, sc: Scope, st: State)
    ensures cs == [] ==> EvalComp(p, cfg, n, elt, cs, sc, st) == EOk([], st)
    ensures cs != [] ==>
      var ri := Eval(p, cfg, n, cs[0].iter, sc, st);
      EvalComp(p, cfg, n, elt, cs, sc, st) ==
      if !ri.EOk? then Fail(ri)
      else if !Iterable(ri.v, ri.st.heap) then EExc(TypeError, ri.st)
      else CompLoop(p, cfg, n, elt, cs, sc, ri.v, 0, ri.st)
  {
    hide Eval, CompLoop, Grew, Iterable;
  }

  lemma {:induction false} ExecJoin(p: Program, cfg: Config, n: nat, a: seq<Stmt>, b: seq<Stmt>, st: State)
    ensures var ra := ExecAll(p, cfg, n, a, st);
      ExecAll(p, cfg, n, a + b, st) == if ra.SNext? then ExecAll(p, cfg, n, b, ra.st) else ra
  {
    if a == [] {
      assert a + b == b;
    } else {
      assert (a + b)[1..] == a[1..] + b;
      var r0 := Exec(p, cfg, n, a[0], st);
      if r0.SNext? { ExecJoin(p, cfg, n, a[1..], b, r0.st); }
    }
  }

  lemma ExecOne(p: Program, cfg: Config, n: nat, s: Stmt, st: State)
    ensures ExecAll(p, cfg, n, [s], st) == Exec(p, cfg, n, s, st)
  {
    assert [s][1..] == [];
    var r := Exec(p, cfg, n, s, st);
    if r.SNext? { assert ExecAll(p, cfg, n, [], r.st) == r; }
  }

  /** `x = e` for a name. */
  lemma StoreName(q: Program, cfg: Config, n: nat, x: string, e: Expr, t: State)
    ensures var r := Eval(q, cfg, n, e, map[], t);
      Exec(q, cfg, n, Assign([TName(x)], e), t) == if r.EOk? then SNext(Store(x, r.v, r.st)) else Broke(r)
  {
    hide Eval, Grew, Ran, Store;
    var ts := [TName(x)];
    assert ts[1..] == [];
    assert !HasAttr(ts);
    var r := Eval(q, cfg, n, e, map[], t);
    if r.EOk? {
      assert Clear(r.st, true) == r.st;
      var w := AssignTo(q, cfg, n, ts[0], r.v, r.st);
      assert AssignSame(q, cfg, n, ts, r.v, r.st) == AssignSame(q, cfg, n, [], r.v, w.st);
    }
  }

  function Ended(w: ER<Val>): SR { if w.EOk? then SNext(w.st) else Broke(w) }

  lemma SimpleRuns(p: Program, cfg: Config, n: nat, s: Stmt, st: State)
    requires s.ExprS? || s.Return? || s.Raise? || s.Break? || s.Continue?
    ensures s.ExprS? ==> Exec(p, cfg, n, s, st) == Ended(Eval(p, cfg, n, s.e, map[], st))
    ensures s.Return? ==>
      var r := Eval(p, cfg, n, s.value, map[], st);
      Exec(p, cfg, n, s, st) == if r.EOk? then SReturn(r.v, r.st) else Broke(r)
    ensures s.Raise? ==> Exec(p, cfg, n, s, st) == SExc(s.error, st)
    ensures s.Break? ==> Exec(p, cfg, n, s, st) == SBreak(st)
    ensures s.Continue? ==> Exec(p, cfg, n, s, st) == SContinue(st)
  {
    hide Eval, Ran, Grew;
  }

  function Branch(rc: ER<Val>, a: SR, b: SR): SR {
    if !rc.EOk? then Broke(rc) else if Truthy(rc.v, rc.st.heap) then a else b
  }
}
