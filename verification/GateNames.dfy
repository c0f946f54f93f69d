/** A checkpoint is a call by name. In code that binds the name nowhere, it stands for the gate
    all through a run: every checkpoint reaches it. */
module GateNames {
  import opened Options
  import opened Python
  import opened Evaluation
  import opened Checkpoints

  const CHECKPOINT: string := GateName(CheckpointGate)

  /** The name still stands for the gate, and no checkpoint on the way has missed it. */
  predicate Guarded(a: State, b: State) {
    Stands(CheckpointGate, b) && b.meter.missed == a.meter.missed
  }

  predicate Unbound(d: FunDef) { CHECKPOINT !in Params(d.params) && CHECKPOINT !in Bound(d.body) }

  /** No function of the table binds the name. */
  predicate Guards(p: Program) {
    forall i :: 0 <= i < |p.defs| ==> CheckedAll(p.defs[i].body) && Unbound(p.defs[i])
  }

  // ----- the steps that touch names -----

  lemma StandsStored(x: string, v: Val, st: State)
    requires Stands(CheckpointGate, st) && x != CHECKPOINT
    ensures Guarded(st, Store(x, v, st))
  {
    hide GateName;
  }

  /** Objects, the record and the meter are no names. */
  lemma StandsAfter(a: State, b: State)
    requires Stands(CheckpointGate, a) && b.globals == a.globals && b.frame == a.frame
    ensures Stands(CheckpointGate, b)
  {
  }

  lemma StandsCalled(cfg: Config, d: FunDef, args: seq<Val>, st: State)
    requires Stands(CheckpointGate, st) && |args| == |d.params| && Unbound(d)
    ensures Guarded(st, CallState(cfg, d, args, st))
  {
    hide GateName;
    BindKeys(d.params, args);
  }

  lemma StandsReturned(st: State, inner: SR)
    requires Stands(CheckpointGate, st) && Guarded(st, inner.st)
    ensures Guarded(st, Returned(st, inner).st)
  {
    hide GateName;
  }

  lemma OtherKeeps(p: Program, cfg: Config, f: Val, args: seq<Val>, st: State)
    requires Stands(CheckpointGate, st)
    ensures Guarded(st, CallOther(p, cfg, f, args, st).st)
  {
    hide Grew, Metered, GateName;
    StandsAfter(st, CallOther(p, cfg, f, args, st).st);
    if f.GateV? && f.gate.CheckpointGate? { CheckpointKeeps(cfg, st); }
  }

  lemma CheckpointKeeps(cfg: Config, st: State)
    requires Stands(CheckpointGate, st)
    ensures Guarded(st, DoCheckpoint(cfg, st).st)
  {
    hide GateName, Metered;
    StandsAfter(st, DoCheckpoint(cfg, st).st);
  }

  // ----- expressions -----

  lemma {:induction false} KeepsE(p: Program, cfg: Config, n: nat, e: Expr, sc: Scope, st: State)
    requires Guards(p) && CheckedE(e) && CHECKPOINT !in sc && Stands(CheckpointGate, st)
    ensures Guarded(st, Eval(p, cfg, n, e, sc, st).st)
    decreases n, 1, e, 1
  {
    hide Grew, Ran, Truthy, CallFn, EvalAll, EvalComp, EvalCall, EvalGate, EvalCheckpoint, Stands, GateName, Guards;
    hide Binary, ReadAttr, WriteAttr, ReadItem, AppendItem, Load, Alloc;
    match e
    case Lit(_) =>
    case Name(_) =>
    case New => StandsAfter(st, Eval(p, cfg, n, e, sc, st).st);
    case Attr(o, a) => KeepsE(p, cfg, n, o, sc, st); KeepsOne(p, cfg, n, e, o, sc, st);
    case Item(o, _) => KeepsE(p, cfg, n, o, sc, st); KeepsOne(p, cfg, n, e, o, sc, st);
    case Bin(_, _, _) => KeepsTwo(p, cfg, n, e, sc, st);
    case Or(_, _) => KeepsTwo(p, cfg, n, e, sc, st);
    case Push(_, _) => KeepsTwo(p, cfg, n, e, sc, st);
    case Tup(es) => KeepsEs(p, cfg, n, es, sc, st);
    case Call(_, _) => KeepsCallE(p, cfg, n, e, sc, st);
    case Comp(elt, cs) =>
      KeepsComp(p, cfg, n, elt, cs, sc, st);
      StandsAfter(EvalComp(p, cfg, n, elt, cs, sc, st).st, Eval(p, cfg, n, e, sc, st).st);
    case GCheckpoint => CheckpointIs(p, cfg, n, sc, st); CheckpointKeeps(cfg, st);
    case GGetAttr(_, _) => KeepsGate(p, cfg, n, e, sc, st);
    case GSetAttr(_, _, _) => KeepsGate(p, cfg, n, e, sc, st);
    case GCapture(_) => KeepsGate(p, cfg, n, e, sc, st);
  }

  /** Reading from what one operand came to. */
  lemma KeepsOne(p: Program, cfg: Config, n: nat, e: Expr, o: Expr, sc: Scope, st: State)
    requires (e.Attr? && e.obj == o) || (e.Item? && e.of == o)
    requires Guarded(st, Eval(p, cfg, n, o, sc, st).st)
    ensures Guarded(st, Eval(p, cfg, n, e, sc, st).st)
  {
    hide Grew, Stands, ReadAttr, ReadItem;
    StandsAfter(Eval(p, cfg, n, o, sc, st).st, Eval(p, cfg, n, e, sc, st).st);
  }

  lemma {:induction false} KeepsTwo(p: Program, cfg: Config, n: nat, e: Expr, sc: Scope, st: State)
    requires Guards(p) && CheckedE(e) && CHECKPOINT !in sc && Stands(CheckpointGate, st)
    requires e.Bin? || e.Or? || e.Push?
    ensures Guarded(st, Eval(p, cfg, n, e, sc, st).st)
    decreases n, 1, e, 0
  {
    hide Grew, Ran, Truthy, Binary, AppendItem, Stands, GateName, Guards;
    var a := if e.Push? then e.list else e.left;
    var b := if e.Push? then e.item else e.right;
    KeepsE(p, cfg, n, a, sc, st);
    var ra := Eval(p, cfg, n, a, sc, st);
    if ra.EOk? {
      KeepsE(p, cfg, n, b, sc, ra.st);
      var rb := Eval(p, cfg, n, b, sc, ra.st);
      if rb.EOk? && !e.Or? { StandsAfter(rb.st, Eval(p, cfg, n, e, sc, st).st); }
    }
  }

  lemma {:induction false} KeepsCallE(p: Program, cfg: Config, n: nat, e: Expr, sc: Scope, st: State)
    requires Guards(p) && CheckedE(e) && CHECKPOINT !in sc && Stands(CheckpointGate, st) && e.Call?
    ensures Guarded(st, Eval(p, cfg, n, e, sc, st).st)
    decreases n, 1, e, 0
  {
    hide Grew, Ran, CallFn, EvalAll, Stands, GateName, Guards;
    KeepsE(p, cfg, n, e.fn, sc, st);
    var rf := Eval(p, cfg, n, e.fn, sc, st);
    if rf.EOk? {
      KeepsEs(p, cfg, n, e.args, sc, rf.st);
      var rs := EvalAll(p, cfg, n, e.args, sc, rf.st);
      if rs.EOk? { KeepsCall(p, cfg, n, rf.v, rs.v, rs.st); }
    }
  }

  /** The other gates may stand for anything. */
  lemma {:induction false} KeepsGate(p: Program, cfg: Config, n: nat, e: Expr, sc: Scope, st: State)
    requires Guards(p) && CheckedE(e) && CHECKPOINT !in sc && Stands(CheckpointGate, st)
    requires e.GGetAttr? || e.GSetAttr? || e.GCapture?
    ensures Guarded(st, EvalGate(p, cfg, n, e, sc, st).st)
    decreases n, 1, e, 0
  {
    hide Grew, CallFn, Load, GateName, Eval, Stands, Guards;
    var g := Load(GateName(GateOf(e)), sc, st);
    if g.EOk? {
      var o := if e.GCapture? then e.f else e.obj;
      KeepsE(p, cfg, n, o, sc, st);
      var r1 := Eval(p, cfg, n, o, sc, st);
      if r1.EOk? {
        if e.GCapture? { KeepsCall(p, cfg, n, g.v, [r1.v], r1.st); }
        else if e.GGetAttr? { KeepsCall(p, cfg, n, g.v, [r1.v, StrV(e.attr)], r1.st); }
        else {
          KeepsE(p, cfg, n, e.value, sc, r1.st);
          var r2 := Eval(p, cfg, n, e.value, sc, r1.st);
          if r2.EOk? { KeepsCall(p, cfg, n, g.v, [r1.v, StrV(e.attr), r2.v], r2.st); }
        }
      }
    }
  }

  lemma {:induction false} KeepsEs(p: Program, cfg: Config, n: nat, es: seq<Expr>, sc: Scope, st: State)
    requires Guards(p) && CheckedEs(es) && CHECKPOINT !in sc && Stands(CheckpointGate, st)
    ensures Guarded(st, EvalAll(p, cfg, n, es, sc, st).st)
    decreases n, 1, es, 0
  {
    hide Grew, Ran, Eval, Stands, GateName, Guards;
    if es != [] {
      KeepsE(p, cfg, n, es[0], sc, st);
      var r0 := Eval(p, cfg, n, es[0], sc, st);
      if r0.EOk? { KeepsEs(p, cfg, n, es[1..], sc, r0.st); }
    }
  }

  lemma {:induction false} KeepsCall(p: Program, cfg: Config, n: nat, f: Val, args: seq<Val>, st: State)
    requires Guards(p) && Stands(CheckpointGate, st)
    ensures Guarded(st, CallFn(p, cfg, n, f, args, st).st)
    decreases n, 0
  {
    hide ExecAll, CallFn, CallState, CallOther, Returned, Stands, GateName, Unbound;
    CallIs(p, cfg, n, f, args, st);
    OtherKeeps(p, cfg, f, args, st);
    if n > 0 && Enters(p, f, args) {
      var d := p.defs[f.id];
      StandsCalled(cfg, d, args, st);
      UnboundBody(d);
      KeepsAll(p, cfg, n - 1, d.body, CallState(cfg, d, args, st));
      StandsReturned(st, ExecAll(p, cfg, n - 1, d.body, CallState(cfg, d, args, st)));
    }
  }

  lemma UnboundBody(d: FunDef)
    requires Unbound(d)
    ensures CHECKPOINT !in Bound(d.body)
  {
  }

  lemma {:induction false} KeepsComp(p: Program, cfg: Config, n: nat, elt: Expr, cs: seq<Clause>, sc: Scope, st: State)
    requires Guards(p) && CheckedE(elt) && CheckedCs(cs) && CHECKPOINT !in sc && Stands(CheckpointGate, st)
    ensures Guarded(st, EvalComp(p, cfg, n, elt, cs, sc, st).st)
    decreases n, 1, cs, 1
  {
    hide Grew, Eval, EvalComp, CompLoop, Iterable, Stands, GateName, Guards;
    CompIs(p, cfg, n, elt, cs, sc, st);
    if cs != [] {
      KeepsE(p, cfg, n, cs[0].iter, sc, st);
      var ri := Eval(p, cfg, n, cs[0].iter, sc, st);
      if ri.EOk? && Iterable(ri.v, ri.st.heap) { KeepsLoop(p, cfg, n, elt, cs, sc, ri.v, 0, ri.st); }
    }
  }

  lemma {:induction false} KeepsLoop(
    p: Program, cfg: Config, n: nat, elt: Expr, cs: seq<Clause>, sc: Scope, over: Val, i: nat, st: State)
    requires Guards(p) && CheckedE(elt) && cs != [] && CheckedCs(cs) && CHECKPOINT !in sc
    requires Stands(CheckpointGate, st)
    ensures Guarded(st, CompLoop(p, cfg, n, elt, cs, sc, over, i, st).st)
    decreases n, 0
  {
    hide CompItem, CompLoop, NextItem, Stands, GateName, Guards, CheckedE;
    var item := NextItem(over, i, st.heap);
    if item.None? || n == 0 {
      LoopStops(p, cfg, n, elt, cs, sc, over, i, st);
    } else {
      var sc' := sc[cs[0].target := item.value];
      LoopUnfold(p, cfg, n, elt, cs, sc, over, i, st);
      KeepsItem(p, cfg, n - 1, elt, cs, sc', st);
      var r0 := CompItem(p, cfg, n - 1, elt, cs, sc', st);
      if r0.EOk? { KeepsLoop(p, cfg, n - 1, elt, cs, sc, over, i + 1, r0.st); }
    }
  }

  lemma {:induction false} KeepsItem(p: Program, cfg: Config, n: nat, elt: Expr, cs: seq<Clause>, sc: Scope, st: State)
    requires Guards(p) && CheckedE(elt) && cs != [] && CheckedCs(cs) && CHECKPOINT !in sc
    requires Stands(CheckpointGate, st)
    ensures Guarded(st, CompItem(p, cfg, n, elt, cs, sc, st).st)
    decreases n, 2
  {
    hide Grew, Eval, EvalComp, Filters, CompItem, Stands, GateName, Guards, CheckedE;
    ItemUnfold(p, cfg, n, elt, cs, sc, st);
    KeepsIfs(p, cfg, n, cs[0].ifs, sc, st);
    var rc := Filters(p, cfg, n, cs[0].ifs, sc, st);
    if rc.EOk? && rc.v {
      if |cs| > 1 { KeepsComp(p, cfg, n, elt, cs[1..], sc, rc.st); }
      else { KeepsE(p, cfg, n, elt, sc, rc.st); }
    }
  }

  lemma {:induction false} KeepsIfs(p: Program, cfg: Config, n: nat, ifs: seq<Expr>, sc: Scope, st: State)
    requires Guards(p) && CheckedEs(ifs) && CHECKPOINT !in sc && Stands(CheckpointGate, st)
    ensures Guarded(st, Filters(p, cfg, n, ifs, sc, st).st)
    decreases n, 1, ifs, 0
  {
    hide Grew, Eval, Truthy, Stands, GateName, Guards, CheckedE;
    if ifs != [] {
      KeepsE(p, cfg, n, ifs[0], sc, st);
      var r0 := Eval(p, cfg, n, ifs[0], sc, st);
      if r0.EOk? && Truthy(r0.v, r0.st.heap) { KeepsIfs(p, cfg, n, ifs[1..], sc, r0.st); }
    }
  }

  // ----- assignments -----

  lemma {:induction false} KeepsTo(p: Program, cfg: Config, n: nat, t: Target, v: Val, st: State)
    requires Guards(p) && CheckedT(t) && CHECKPOINT !in TargetNames([t]) && Stands(CheckpointGate, st)
    ensures Guarded(st, AssignTo(p, cfg, n, t, v, st).st)
    decreases n, 1, t, 1
  {
    hide Grew, Ran, Eval, Store, WriteAttr, Unpack, Stands, GateName, Guards;
    assert [t][1..] == [];
    match t
    case TName(x) => StandsStored(x, v, st);
    case TAttr(o, a) =>
      KeepsE(p, cfg, n, o, map[], st);
      var ro := Eval(p, cfg, n, o, map[], st);
      if ro.EOk? { StandsAfter(ro.st, WriteAttr(ro.v, a, v, ro.st).st); }
    case TTup(us) =>
      var ru := Unpack(v, |us|, st);
      if ru.EOk? { KeepsEach(p, cfg, n, us, ru.v, ru.st); }
  }

  lemma FirstTarget(ts: seq<Target>)
    requires ts != [] && CheckedTs(ts) && CHECKPOINT !in TargetNames(ts)
    ensures CheckedT(ts[0]) && CHECKPOINT !in TargetNames([ts[0]])
    ensures CheckedTs(ts[1..]) && CHECKPOINT !in TargetNames(ts[1..])
  {
    hide GateName, CheckedT;
    assert [ts[0]][1..] == [];
  }

  lemma {:induction false} KeepsEach(p: Program, cfg: Config, n: nat, ts: seq<Target>, vs: seq<Val>, st: State)
    requires Guards(p) && |ts| == |vs| && CheckedTs(ts) && CHECKPOINT !in TargetNames(ts)
    requires Stands(CheckpointGate, st)
    ensures Guarded(st, AssignEach(p, cfg, n, ts, vs, st).st)
    decreases n, 1, ts, 0
  {
    hide Grew, Ran, AssignTo, Stands, GateName, Guards, CheckedT, TargetNames, CheckedTs;
    if ts != [] {
      FirstTarget(ts);
      KeepsTo(p, cfg, n, ts[0], vs[0], st);
      var r0 := AssignTo(p, cfg, n, ts[0], vs[0], st);
      if r0.EOk? { KeepsEach(p, cfg, n, ts[1..], vs[1..], r0.st); }
    }
  }

  lemma {:induction false} KeepsSame(p: Program, cfg: Config, n: nat, ts: seq<Target>, v: Val, st: State)
    requires Guards(p) && CheckedTs(ts) && CHECKPOINT !in TargetNames(ts) && Stands(CheckpointGate, st)
    ensures Guarded(st, AssignSame(p, cfg, n, ts, v, st).st)
    decreases n, 1, ts, 0
  {
    hide Grew, Ran, AssignTo, Stands, GateName, Guards, CheckedT, TargetNames, CheckedTs;
    if ts != [] {
      FirstTarget(ts);
      KeepsTo(p, cfg, n, ts[0], v, st);
      var r0 := AssignTo(p, cfg, n, ts[0], v, st);
      if r0.EOk? { KeepsSame(p, cfg, n, ts[1..], v, r0.st); }
    }
  }

  lemma {:induction false} KeepsAssign(p: Program, cfg: Config, n: nat, s: Stmt, st: State)
    requires Guards(p) && s.Assign? && CheckedS(s) && CHECKPOINT !in BoundBy(s) && Stands(CheckpointGate, st)
    ensures Guarded(st, ExecAssign(p, cfg, n, s, st).st)
    decreases n, 1, s, 2
  {
    hide Grew, Ran, Eval, AssignSame, Stands, GateName, Guards, SameEitherWay, WriteAttr, HasAttr, ShapedBy;
    var Assign(ts, e) := s;
    KeepsE(p, cfg, n, e, map[], st);
    var rv := Eval(p, cfg, n, e, map[], st);
    var r := ExecAssign(p, cfg, n, s, st);
    if |ts| == 1 && ts[0].TAttr? {
      var o := ts[0].obj;
      assert CheckedT(ts[0]);
      var vo := if rv.EOk? then Eval(p, cfg, n, o, map[], rv.st) else rv;
      if rv.EOk? { KeepsE(p, cfg, n, o, map[], rv.st); }
      StandsAfter(if r.SDeep? then st else vo.st, r.st);
    } else if rv.EOk? {
      var u := Clear(rv.st, HasAttr(ts) ==> ShapedBy(ts, rv.v));
      StandsAfter(rv.st, u);
      KeepsSame(p, cfg, n, ts, rv.v, u);
    }
  }

  lemma {:induction false} KeepsAugAttr(p: Program, cfg: Config, n: nat, s: Stmt, st: State)
    requires Guards(p) && s.AugAttr? && CheckedS(s) && Stands(CheckpointGate, st)
    ensures Guarded(st, ExecAugAttr(p, cfg, n, s, st).st)
    decreases n, 1, s, 2
  {
    hide Grew, Ran, Eval, ReadAttr, WriteAttr, InPlace, Stands, GateName, Guards;
    KeepsE(p, cfg, n, s.obj, map[], st);
    var ro := Eval(p, cfg, n, s.obj, map[], st);
    if ro.EOk? {
      var rg := ReadAttr(ro.v, s.attr, ro.st);
      StandsAfter(ro.st, rg.st);
      if rg.EOk? {
        KeepsE(p, cfg, n, s.value, map[], rg.st);
        var rv := Eval(p, cfg, n, s.value, map[], rg.st);
        if rv.EOk? { StandsAfter(rv.st, ExecAugAttr(p, cfg, n, s, st).st); }
      }
    }
  }

  lemma {:induction false} KeepsAugName(p: Program, cfg: Config, n: nat, s: Stmt, st: State)
    requires Guards(p) && s.AugName? && CheckedS(s) && CHECKPOINT !in BoundBy(s) && Stands(CheckpointGate, st)
    ensures Guarded(st, ExecAugName(p, cfg, n, s, st).st)
    decreases n, 1, s, 2
  {
    hide Grew, Ran, Eval, Load, Store, InPlace, Stands, GateName, Guards;
    var rx := Load(s.x, map[], st);
    if rx.EOk? {
      KeepsE(p, cfg, n, s.value, map[], st);
      var rv := Eval(p, cfg, n, s.value, map[], st);
      if rv.EOk? {
        var ri := InPlace(s.op, rx.v, rv.v, rv.st);
        StandsAfter(rv.st, ri.st);
        if ri.EOk? { StandsStored(s.x, ri.v, ri.st); }
      }
    }
  }

  // ----- statements -----

  lemma {:induction false} KeepsAll(p: Program, cfg: Config, n: nat, ss: seq<Stmt>, st: State)
    requires Guards(p) && CheckedAll(ss) && CHECKPOINT !in Bound(ss) && Stands(CheckpointGate, st)
    ensures Guarded(st, ExecAll(p, cfg, n, ss, st).st)
    decreases n, 1, ss, 0
  {
    hide Grew, Ran, Exec, Stands, GateName, Guards, CheckedS, BoundBy;
    if ss != [] {
      KeepsS(p, cfg, n, ss[0], st);
      var r0 := Exec(p, cfg, n, ss[0], st);
      if r0.SNext? { KeepsAll(p, cfg, n, ss[1..], r0.st); }
    }
  }

  lemma {:induction false} KeepsS(p: Program, cfg: Config, n: nat, s: Stmt, st: State)
    requires Guards(p) && CheckedS(s) && CHECKPOINT !in BoundBy(s) && Stands(CheckpointGate, st)
    ensures Guarded(st, Exec(p, cfg, n, s, st).st)
    decreases n, 1, s, 3
  {
    hide Grew, Ran, Eval, ExecAll, ExecAssign, ExecAugAttr, ExecAugName, ExecWhile, ExecTry, ForLoop, Store;
    hide Stands, GateName, Guards;
    match s
    case ExprS(e) => KeepsE(p, cfg, n, e, map[], st);
    case Assign(_, _) => KeepsAssign(p, cfg, n, s, st);
    case AugName(_, _, _) => KeepsAugName(p, cfg, n, s, st);
    case AugAttr(_, _, _, _) => KeepsAugAttr(p, cfg, n, s, st);
    case Def(f, id) => StandsStored(f, FunV(id), st);
    case If(c, a, b) =>
      KeepsE(p, cfg, n, c, map[], st);
      var rc := Eval(p, cfg, n, c, map[], st);
      if rc.EOk? { KeepsAll(p, cfg, n, if Truthy(rc.v, rc.st.heap) then a else b, rc.st); }
    case While(_, _, _) => KeepsWhile(p, cfg, n, s, st);
    case For(x, it, a, b) =>
      KeepsE(p, cfg, n, it, map[], st);
      var ri := Eval(p, cfg, n, it, map[], st);
      if ri.EOk? && Iterable(ri.v, ri.st.heap) { KeepsFor(p, cfg, n, x, a, b, ri.v, 0, ri.st); }
    case Try(_, _, _, _) => KeepsTry(p, cfg, n, s, st);
    case Return(e) => KeepsE(p, cfg, n, e, map[], st);
    case _ =>
  }

  lemma {:induction false} KeepsWhile(p: Program, cfg: Config, n: nat, s: Stmt, st: State)
    requires Guards(p) && s.While? && CheckedS(s) && CHECKPOINT !in BoundBy(s) && Stands(CheckpointGate, st)
    ensures Guarded(st, ExecWhile(p, cfg, n, s, st).st)
    decreases n, 1, s, 2
  {
    hide Grew, Ran, Eval, ExecAll, Truthy, Stands, GateName, Guards, CheckedAll, Bound;
    KeepsE(p, cfg, n, s.cond, map[], st);
    var rc := Eval(p, cfg, n, s.cond, map[], st);
    if rc.EOk? {
      if !Truthy(rc.v, rc.st.heap) {
        KeepsAll(p, cfg, n, s.orelse, rc.st);
      } else if n > 0 {
        KeepsAll(p, cfg, n - 1, s.body, rc.st);
        var rb := ExecAll(p, cfg, n - 1, s.body, rc.st);
        if rb.SNext? || rb.SContinue? { KeepsWhile(p, cfg, n - 1, s, rb.st); }
      }
    }
  }

  lemma {:induction false} KeepsFor(
    p: Program, cfg: Config, n: nat, x: string, body: seq<Stmt>, orelse: seq<Stmt>, over: Val, i: nat, st: State)
    requires Guards(p) && x != CHECKPOINT && CheckedAll(body) && CheckedAll(orelse)
    requires CHECKPOINT !in Bound(body) && CHECKPOINT !in Bound(orelse) && Stands(CheckpointGate, st)
    ensures Guarded(st, ForLoop(p, cfg, n, x, body, orelse, over, i, st).st)
    decreases n, 1, orelse, 1
  {
    hide Grew, Ran, ExecAll, Store, Stands, GateName, Guards, CheckedAll, Bound;
    var item := NextItem(over, i, st.heap);
    if item.None? {
      KeepsAll(p, cfg, n, orelse, st);
    } else if n > 0 {
      StandsStored(x, item.value, st);
      KeepsAll(p, cfg, n - 1, body, Store(x, item.value, st));
      var rb := ExecAll(p, cfg, n - 1, body, Store(x, item.value, st));
      if rb.SNext? || rb.SContinue? { KeepsFor(p, cfg, n - 1, x, body, orelse, over, i + 1, rb.st); }
    }
  }

  lemma {:induction false} KeepsTry(p: Program, cfg: Config, n: nat, s: Stmt, st: State)
    requires Guards(p) && s.Try? && CheckedS(s) && CHECKPOINT !in BoundBy(s) && Stands(CheckpointGate, st)
    ensures Guarded(st, ExecTry(p, cfg, n, s, st).st)
    decreases n, 1, s, 2
  {
    hide Grew, Ran, ExecAll, Handle, Stands, GateName, Guards, CheckedAll, CheckedHs, Bound, HandlerNames;
    KeepsAll(p, cfg, n, s.body, st);
    var r0 := ExecAll(p, cfg, n, s.body, st);
    if r0.SExc? { KeepsHandle(p, cfg, n, s.handlers, r0.e, r0.st); }
    if r0.SNext? { KeepsAll(p, cfg, n, s.orelse, r0.st); }
    var r1 :=
      if r0.SExc? then Handle(p, cfg, n, s.handlers, r0.e, r0.st)
      else if r0.SNext? then ExecAll(p, cfg, n, s.orelse, r0.st)
      else r0;
    KeepsAll(p, cfg, n, s.final, r1.st);
  }

  lemma {:induction false} KeepsHandle(p: Program, cfg: Config, n: nat, hs: seq<Handler>, e: Error, st: State)
    requires Guards(p) && CheckedHs(hs) && CHECKPOINT !in HandlerNames(hs) && Stands(CheckpointGate, st)
    ensures Guarded(st, Handle(p, cfg, n, hs, e, st).st)
    decreases n, 1, hs, 0
  {
    hide Grew, Ran, ExecAll, Stands, GateName, Guards, CheckedAll, Bound;
    if hs != [] {
      if Matches(hs[0].catch, e) {
        var u := Clear(st, hs[0].catch.Bare? ==> !e.ExitError?);
        StandsAfter(st, u);
        KeepsAll(p, cfg, n, hs[0].body, u);
      } else {
        KeepsHandle(p, cfg, n, hs[1..], e, st);
      }
    }
  }
}
