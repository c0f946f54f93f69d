/** Programs that keep to what the rewriter supports, told by their text: an attribute is
    assigned in a chain, or through a parameter, or a constant; attributes are not in tuples of
    targets; `+=` is not on attributes; and no `except:` is bare. Whatever such a program does,
    it stays in the fragment, and the rewriting preserves its meaning without a condition on
    the run. */
module Steady {
  import opened Options
  import opened Python
  import opened Evaluation
  import opened Rewriter
  import opened Preservation
  import opened RewriterTheorems

  predicate NoTuple(ts: seq<Target>) { forall i :: 0 <= i < |ts| ==> !ts[i].TTup? }

  /** `ps` are the names that are bound all through the body, and not rebound by a call. */
  predicate SteadyAssign(ps: set<string>, ts: seq<Target>, e: Expr) {
    HasAttr(ts) ==>
      && NoTuple(ts)
      && (|ts| == 1 && ts[0].TAttr? ==> e.Lit? || (ts[0].obj.Name? && ts[0].obj.x in ps))
  }

  predicate SteadyS(ps: set<string>, s: Stmt)
    decreases s, 1
  {
    match s
    case Assign(ts, e) => SteadyAssign(ps, ts, e)
    case AugAttr(_, _, op, _) => !op.Add?
    case If(_, a, b) => SteadyAll(ps, a) && SteadyAll(ps, b)
    case While(_, a, b) => SteadyAll(ps, a) && SteadyAll(ps, b)
    case For(_, _, a, b) => SteadyAll(ps, a) && SteadyAll(ps, b)
    case Try(a, hs, b, c) => SteadyAll(ps, a) && SteadyHs(ps, hs) && SteadyAll(ps, b) && SteadyAll(ps, c)
    case _ => true
  }

  predicate SteadyAll(ps: set<string>, ss: seq<Stmt>)
    decreases ss, 0
  {
    ss == [] || (SteadyS(ps, ss[0]) && SteadyAll(ps, ss[1..]))
  }

  predicate SteadyHs(ps: set<string>, hs: seq<Handler>)
    decreases hs, 0
  {
    hs == [] || (!hs[0].catch.Bare? && SteadyAll(ps, hs[0].body) && SteadyHs(ps, hs[1..]))
  }

  function Own(d: FunDef): set<string> { Params(d.params) - d.declared }

  predicate SteadyDefs(p: Program) {
    forall i :: 0 <= i < |p.defs| ==> SteadyAll(Own(p.defs[i]), p.defs[i].body)
  }

  predicate Steady(p: Program) { SteadyDefs(p) && SteadyAll({}, p.main) }

  // ----- the names that are always there -----

  predicate Has(ps: set<string>, st: State) {
    forall x :: x in ps ==> st.frame.Fn? && x !in st.frame.declared && x in st.frame.vars
  }

  predicate Stays(ps: set<string>, a: State, b: State) { b.fits == a.fits && Has(ps, b) }

  lemma HasAfter(ps: set<string>, a: State, b: State)
    requires Has(ps, a) && b.frame == a.frame
    ensures Has(ps, b)
  {
  }

  lemma HasStored(ps: set<string>, x: string, v: Val, st: State)
    requires Has(ps, st)
    ensures Has(ps, Store(x, v, st)) && Store(x, v, st).fits == st.fits
  {
  }

  lemma HasCalled(cfg: Config, d: FunDef, args: seq<Val>, st: State)
    requires |args| == |d.params|
    ensures Has(Own(d), CallState(cfg, d, args, st)) && CallState(cfg, d, args, st).fits == st.fits
  {
    BindKeys(d.params, args);
  }

  // ----- expressions -----

  lemma {:induction false} FitsE(p: Program, cfg: Config, n: nat, e: Expr, sc: Scope, st: State)
    requires SteadyDefs(p)
    ensures Eval(p, cfg, n, e, sc, st).st.fits == st.fits
    decreases n, 1, e, 1
  {
    hide Grew, Ran, Truthy, CallFn, EvalAll, EvalComp, Binary, ReadAttr, WriteAttr, ReadItem, AppendItem, Load;
    hide EvalCheckpoint, EvalGate;
    match e
    case Attr(o, _) => FitsE(p, cfg, n, o, sc, st);
    case Bin(_, _, _) => FitsTwo(p, cfg, n, e, sc, st);
    case Or(_, _) => FitsTwo(p, cfg, n, e, sc, st);
    case Tup(es) => FitsEs(p, cfg, n, es, sc, st);
    case Item(o, _) => FitsE(p, cfg, n, o, sc, st);
    case Push(_, _) => FitsTwo(p, cfg, n, e, sc, st);
    case Call(_, _) => FitsCallE(p, cfg, n, e, sc, st);
    case Comp(elt, cs) => FitsComp(p, cfg, n, elt, cs, sc, st);
    case GCheckpoint => FitsCheckpoint(p, cfg, n, sc, st);
    case GGetAttr(_, _) => FitsGate(p, cfg, n, e, sc, st);
    case GSetAttr(_, _, _) => FitsGate(p, cfg, n, e, sc, st);
    case GCapture(_) => FitsGate(p, cfg, n, e, sc, st);
    case _ =>
  }

  lemma {:induction false} FitsCallE(p: Program, cfg: Config, n: nat, e: Expr, sc: Scope, st: State)
    requires SteadyDefs(p) && e.Call?
    ensures Eval(p, cfg, n, e, sc, st).st.fits == st.fits
    decreases n, 1, e, 0
  {
    hide Grew, Ran, CallFn, EvalAll;
    FitsE(p, cfg, n, e.fn, sc, st);
    var rf := Eval(p, cfg, n, e.fn, sc, st);
    if rf.EOk? {
      FitsEs(p, cfg, n, e.args, sc, rf.st);
      var rs := EvalAll(p, cfg, n, e.args, sc, rf.st);
      if rs.EOk? { FitsCall(p, cfg, n, rf.v, rs.v, rs.st); }
    }
  }

  lemma {:induction false} FitsCheckpoint(p: Program, cfg: Config, n: nat, sc: Scope, st: State)
    requires SteadyDefs(p)
    ensures EvalCheckpoint(p, cfg, n, sc, st).st.fits == st.fits
    decreases n, 1, Expr.GCheckpoint, 0
  {
    hide Grew, CallFn, Load;
    var g := Load(GateName(CheckpointGate), sc, st);
    if !Reached(sc, st) && g.EOk? { FitsCall(p, cfg, n, g.v, [], Missed(st)); }
  }

  lemma {:induction false} FitsGate(p: Program, cfg: Config, n: nat, e: Expr, sc: Scope, st: State)
    requires SteadyDefs(p) && (e.GGetAttr? || e.GSetAttr? || e.GCapture?)
    ensures EvalGate(p, cfg, n, e, sc, st).st.fits == st.fits
    decreases n, 1, e, 0
  {
    hide Grew, CallFn, Load, GateName, Eval;
    var g := Load(GateName(GateOf(e)), sc, st);
    if g.EOk? {
      var o := if e.GCapture? then e.f else e.obj;
      FitsE(p, cfg, n, o, sc, st);
      var r1 := Eval(p, cfg, n, o, sc, st);
      if r1.EOk? {
        if e.GCapture? { FitsCall(p, cfg, n, g.v, [r1.v], r1.st); }
        else if e.GGetAttr? { FitsCall(p, cfg, n, g.v, [r1.v, StrV(e.attr)], r1.st); }
        else {
          FitsE(p, cfg, n, e.value, sc, r1.st);
          var r2 := Eval(p, cfg, n, e.value, sc, r1.st);
          if r2.EOk? { FitsCall(p, cfg, n, g.v, [r1.v, StrV(e.attr), r2.v], r2.st); }
        }
      }
    }
  }

  lemma {:induction false} FitsTwo(p: Program, cfg: Config, n: nat, e: Expr, sc: Scope, st: State)
    requires SteadyDefs(p) && (e.Bin? || e.Or? || e.Push?)
    ensures Eval(p, cfg, n, e, sc, st).st.fits == st.fits
    decreases n, 1, e, 0
  {
    hide Grew, Ran, Truthy, Binary, AppendItem;
    var a := if e.Push? then e.list else e.left;
    var b := if e.Push? then e.item else e.right;
    FitsE(p, cfg, n, a, sc, st);
    var ra := Eval(p, cfg, n, a, sc, st);
    if ra.EOk? { FitsE(p, cfg, n, b, sc, ra.st); }
  }

  lemma {:induction false} FitsEs(p: Program, cfg: Config, n: nat, es: seq<Expr>, sc: Scope, st: State)
    requires SteadyDefs(p)
    ensures EvalAll(p, cfg, n, es, sc, st).st.fits == st.fits
    decreases n, 1, es, 0
  {
    hide Grew, Ran, Eval;
    if es != [] {
      FitsE(p, cfg, n, es[0], sc, st);
      var r0 := Eval(p, cfg, n, es[0], sc, st);
      if r0.EOk? { FitsEs(p, cfg, n, es[1..], sc, r0.st); }
    }
  }

  lemma {:induction false} FitsCall(p: Program, cfg: Config, n: nat, f: Val, args: seq<Val>, st: State)
    requires SteadyDefs(p)
    ensures CallFn(p, cfg, n, f, args, st).st.fits == st.fits
    decreases n, 0
  {
    hide Grew, Ran, Exec, ExecAll, CallState;
    if n > 0 && Enters(p, f, args) {
      var d := p.defs[f.id];
      HasCalled(cfg, d, args, st);
      FitsAll(p, cfg, n - 1, Own(d), d.body, CallState(cfg, d, args, st));
    }
  }

  lemma {:induction false} FitsComp(
    p: Program, cfg: Config, n: nat, elt: Expr, cs: seq<Clause>, sc: Scope, st: State)
    requires SteadyDefs(p)
    ensures EvalComp(p, cfg, n, elt, cs, sc, st).st.fits == st.fits
    decreases n, 1, cs, 1
  {
    hide Grew, Ran, Eval, CompLoop;
    if cs != [] {
      FitsE(p, cfg, n, cs[0].iter, sc, st);
      var ri := Eval(p, cfg, n, cs[0].iter, sc, st);
      if ri.EOk? && Iterable(ri.v, ri.st.heap) { FitsLoop(p, cfg, n, elt, cs, sc, ri.v, 0, ri.st); }
    }
  }

  lemma {:induction false} FitsLoop(
    p: Program, cfg: Config, n: nat, elt: Expr, cs: seq<Clause>, sc: Scope, over: Val, i: nat, st: State)
    requires cs != [] && SteadyDefs(p)
    ensures CompLoop(p, cfg, n, elt, cs, sc, over, i, st).st.fits == st.fits
    decreases n, 0
  {
    hide Grew, Ran, CompItem, NextItem;
    var item := NextItem(over, i, st.heap);
    if item.Some? && n > 0 {
      var sc' := sc[cs[0].target := item.value];
      LoopUnfold(p, cfg, n, elt, cs, sc, over, i, st);
      hide CompLoop;
      FitsItem(p, cfg, n - 1, elt, cs, sc', st);
      var r0 := CompItem(p, cfg, n - 1, elt, cs, sc', st);
      if r0.EOk? { FitsLoop(p, cfg, n - 1, elt, cs, sc, over, i + 1, r0.st); }
    }
  }

  lemma {:induction false} FitsItem(
    p: Program, cfg: Config, n: nat, elt: Expr, cs: seq<Clause>, sc: Scope, st: State)
    requires cs != [] && SteadyDefs(p)
    ensures CompItem(p, cfg, n, elt, cs, sc, st).st.fits == st.fits
    decreases n, 2
  {
    hide Grew, Ran, CompLoop, Eval, EvalComp, Filters;
    FitsIfs(p, cfg, n, cs[0].ifs, sc, st);
    var rc := Filters(p, cfg, n, cs[0].ifs, sc, st);
    if rc.EOk? && rc.v {
      if |cs| > 1 { FitsComp(p, cfg, n, elt, cs[1..], sc, rc.st); }
      else { FitsE(p, cfg, n, elt, sc, rc.st); }
    }
  }

  lemma {:induction false} FitsIfs(p: Program, cfg: Config, n: nat, ifs: seq<Expr>, sc: Scope, st: State)
    requires SteadyDefs(p)
    ensures Filters(p, cfg, n, ifs, sc, st).st.fits == st.fits
    decreases n, 1, ifs, 0
  {
    hide Grew, Ran, Eval;
    if ifs != [] {
      FitsE(p, cfg, n, ifs[0], sc, st);
      var r0 := Eval(p, cfg, n, ifs[0], sc, st);
      if r0.EOk? && Truthy(r0.v, r0.st.heap) { FitsIfs(p, cfg, n, ifs[1..], sc, r0.st); }
    }
  }

  // ----- assignments -----

  lemma {:induction false} FitsTo(p: Program, cfg: Config, n: nat, ps: set<string>, t: Target, v: Val, st: State)
    requires SteadyDefs(p) && Has(ps, st)
    ensures Stays(ps, st, AssignTo(p, cfg, n, t, v, st).st)
    decreases n, 1, t, 1
  {
    hide Grew, Ran, Eval, Has, Store, WriteAttr, Unpack;
    match t
    case TName(x) => HasStored(ps, x, v, st);
    case TAttr(o, a) =>
      FitsE(p, cfg, n, o, map[], st);
      var ro := Eval(p, cfg, n, o, map[], st);
      EvalKeeps(p, cfg, n, o, ps, st);
      if ro.EOk? { HasAfter(ps, ro.st, WriteAttr(ro.v, a, v, ro.st).st); }
    case TTup(us) =>
      var ru := Unpack(v, |us|, st);
      if ru.EOk? { FitsEach(p, cfg, n, ps, us, ru.v, ru.st); }
  }

  /** An expression leaves the frame as it is. */
  lemma EvalKeeps(p: Program, cfg: Config, n: nat, e: Expr, ps: set<string>, st: State)
    requires Has(ps, st)
    ensures Has(ps, Eval(p, cfg, n, e, map[], st).st)
    ensures Eval(p, cfg, n, e, map[], st).st.frame == st.frame
  {
    assert Grew(p, cfg, st, Eval(p, cfg, n, e, map[], st).st);
    hide Eval;
  }

  lemma {:induction false} FitsEach(
    p: Program, cfg: Config, n: nat, ps: set<string>, ts: seq<Target>, vs: seq<Val>, st: State)
    requires SteadyDefs(p) && |ts| == |vs| && Has(ps, st)
    ensures Stays(ps, st, AssignEach(p, cfg, n, ts, vs, st).st)
    decreases n, 1, ts, 0
  {
    hide Grew, Ran, AssignTo, Has;
    if ts != [] {
      FitsTo(p, cfg, n, ps, ts[0], vs[0], st);
      var r0 := AssignTo(p, cfg, n, ts[0], vs[0], st);
      if r0.EOk? { FitsEach(p, cfg, n, ps, ts[1..], vs[1..], r0.st); }
    }
  }

  lemma {:induction false} FitsSame(
    p: Program, cfg: Config, n: nat, ps: set<string>, ts: seq<Target>, v: Val, st: State)
    requires SteadyDefs(p) && Has(ps, st)
    ensures Stays(ps, st, AssignSame(p, cfg, n, ts, v, st).st)
    decreases n, 1, ts, 0
  {
    hide Grew, Ran, AssignTo, Has;
    if ts != [] {
      FitsTo(p, cfg, n, ps, ts[0], v, st);
      var r0 := AssignTo(p, cfg, n, ts[0], v, st);
      if r0.EOk? { FitsSame(p, cfg, n, ps, ts[1..], v, r0.st); }
    }
  }

  /** A constant, or an object that is a steady name: the order makes no difference. */
  lemma EitherWay(p: Program, cfg: Config, n: nat, ps: set<string>, o: Expr, e: Expr, st: State)
    requires Has(ps, st) && (e.Lit? || (o.Name? && o.x in ps))
    requires var rv := Eval(p, cfg, n, e, map[], st); var ro := Eval(p, cfg, n, o, map[], st);
      && !rv.EDeep? && !ro.EDeep? && (rv.EOk? ==> !Eval(p, cfg, n, o, map[], rv.st).EDeep?)
      && (ro.EOk? ==> !Eval(p, cfg, n, e, map[], ro.st).EDeep?)
    ensures var rv := Eval(p, cfg, n, e, map[], st); var ro := Eval(p, cfg, n, o, map[], st);
      SameEitherWay(if rv.EOk? then Eval(p, cfg, n, o, map[], rv.st) else rv, rv,
                    if ro.EOk? then Eval(p, cfg, n, e, map[], ro.st) else ro, ro)
  {
    var rv, ro := Eval(p, cfg, n, e, map[], st), Eval(p, cfg, n, o, map[], st);
    if e.Lit? {
      assert rv == EOk(ConstVal(e.c), st);
      if ro.EOk? { assert Eval(p, cfg, n, e, map[], ro.st) == EOk(ConstVal(e.c), ro.st); }
      hide Eval;
    } else {
      EvalKeeps(p, cfg, n, e, ps, st);
      assert ro == Load(o.x, map[], st) && ro == EOk(st.frame.vars[o.x], st);
      if rv.EOk? {
        assert Eval(p, cfg, n, o, map[], rv.st) == Load(o.x, map[], rv.st);
        assert Load(o.x, map[], rv.st) == EOk(st.frame.vars[o.x], rv.st);
      }
      hide Eval;
    }
  }

  lemma {:induction false} FitsSingle(p: Program, cfg: Config, n: nat, ps: set<string>, s: Stmt, st: State)
    requires SteadyDefs(p) && Has(ps, st) && s.Assign? && |s.targets| == 1 && s.targets[0].TAttr?
    requires s.value.Lit? || (s.targets[0].obj.Name? && s.targets[0].obj.x in ps)
    ensures Stays(ps, st, ExecAssign(p, cfg, n, s, st).st)
    decreases n, 1, s, 1
  {
    var o, e := s.targets[0].obj, s.value;
    FitsE(p, cfg, n, e, map[], st);
    EvalKeeps(p, cfg, n, e, ps, st);
    var rv, ro := Eval(p, cfg, n, e, map[], st), Eval(p, cfg, n, o, map[], st);
    var vo := if rv.EOk? then Eval(p, cfg, n, o, map[], rv.st) else rv;
    var ov := if ro.EOk? then Eval(p, cfg, n, e, map[], ro.st) else ro;
    if rv.EOk? { FitsE(p, cfg, n, o, map[], rv.st); EvalKeeps(p, cfg, n, o, ps, rv.st); }
    if !rv.EDeep? && !vo.EDeep? && !ro.EDeep? && !ov.EDeep? { EitherWay(p, cfg, n, ps, o, e, st); }
    hide Eval, Grew, Ran, Has, SameEitherWay, WriteAttr;
    if rv.EOk? && vo.EOk? {
      var w := WriteAttr(vo.v, s.targets[0].attr, rv.v, Clear(vo.st, true));
      HasAfter(ps, vo.st, w.st);
      assert Clear(vo.st, true) == vo.st;
    }
    assert Clear(rv.st, true) == rv.st;
  }

  lemma {:induction false} FitsAssign(p: Program, cfg: Config, n: nat, ps: set<string>, s: Stmt, st: State)
    requires SteadyDefs(p) && Has(ps, st) && s.Assign? && SteadyAssign(ps, s.targets, s.value)
    ensures Stays(ps, st, ExecAssign(p, cfg, n, s, st).st)
    decreases n, 1, s, 2
  {
    var Assign(ts, e) := s;
    if |ts| == 1 && ts[0].TAttr? {
      FitsSingle(p, cfg, n, ps, s, st);
    } else {
      FitsE(p, cfg, n, e, map[], st);
      EvalKeeps(p, cfg, n, e, ps, st);
      var rv := Eval(p, cfg, n, e, map[], st);
      assert rv.EOk? && HasAttr(ts) ==> ShapedBy(ts, rv.v);
      hide Eval, Grew, Ran, Has, AssignSame;
      if rv.EOk? {
        assert Clear(rv.st, true) == rv.st;
        FitsSame(p, cfg, n, ps, ts, rv.v, rv.st);
      }
    }
  }

  lemma {:induction false} FitsAug(p: Program, cfg: Config, n: nat, ps: set<string>, s: Stmt, st: State)
    requires SteadyDefs(p) && Has(ps, st) && s.AugAttr? && !s.op.Add?
    ensures Stays(ps, st, ExecAugAttr(p, cfg, n, s, st).st)
    decreases n, 1, s, 2
  {
    hide Eval, Grew, Ran, Has, ReadAttr, WriteAttr, InPlace;
    FitsE(p, cfg, n, s.obj, map[], st);
    EvalKeeps(p, cfg, n, s.obj, ps, st);
    var ro := Eval(p, cfg, n, s.obj, map[], st);
    if ro.EOk? {
      var rg := ReadAttr(ro.v, s.attr, ro.st);
      HasAfter(ps, ro.st, rg.st);
      if rg.EOk? {
        FitsE(p, cfg, n, s.value, map[], rg.st);
        EvalKeeps(p, cfg, n, s.value, ps, rg.st);
        var rv := Eval(p, cfg, n, s.value, map[], rg.st);
        if rv.EOk? {
          assert Clear(rv.st, true) == rv.st;
          var ri := InPlace(s.op, rg.v, rv.v, rv.st);
          HasAfter(ps, rv.st, ri.st);
          if ri.EOk? { HasAfter(ps, ri.st, WriteAttr(ro.v, s.attr, ri.v, ri.st).st); }
        }
      }
    }
  }

  lemma {:induction false} FitsAugName(p: Program, cfg: Config, n: nat, ps: set<string>, s: Stmt, st: State)
    requires SteadyDefs(p) && Has(ps, st) && s.AugName?
    ensures Stays(ps, st, ExecAugName(p, cfg, n, s, st).st)
    decreases n, 1, s, 2
  {
    hide Eval, Grew, Ran, Has, Load, Store, InPlace;
    var rx := Load(s.x, map[], st);
    if rx.EOk? {
      FitsE(p, cfg, n, s.value, map[], st);
      EvalKeeps(p, cfg, n, s.value, ps, st);
      var rv := Eval(p, cfg, n, s.value, map[], st);
      if rv.EOk? {
        var ri := InPlace(s.op, rx.v, rv.v, rv.st);
        HasAfter(ps, rv.st, ri.st);
        if ri.EOk? { HasStored(ps, s.x, ri.v, ri.st); }
      }
    }
  }

  // ----- statements -----

  lemma {:induction false} FitsAll(p: Program, cfg: Config, n: nat, ps: set<string>, ss: seq<Stmt>, st: State)
    requires SteadyDefs(p) && Has(ps, st) && SteadyAll(ps, ss)
    ensures Stays(ps, st, ExecAll(p, cfg, n, ss, st).st)
    decreases n, 1, ss, 0
  {
    hide Grew, Ran, Exec, Has, SteadyS;
    if ss != [] {
      FitsS(p, cfg, n, ps, ss[0], st);
      var r0 := Exec(p, cfg, n, ss[0], st);
      if r0.SNext? { FitsAll(p, cfg, n, ps, ss[1..], r0.st); }
    }
  }

  lemma {:induction false} FitsS(p: Program, cfg: Config, n: nat, ps: set<string>, s: Stmt, st: State)
    requires SteadyDefs(p) && Has(ps, st) && SteadyS(ps, s)
    ensures Stays(ps, st, Exec(p, cfg, n, s, st).st)
    decreases n, 1, s, 3
  {
    hide Grew, Ran, Has, Eval, ExecAll, ExecAssign, ExecAugAttr, ExecAugName, ExecWhile, ExecTry, ForLoop, Store;
    match s
    case ExprS(e) => FitsE(p, cfg, n, e, map[], st); EvalKeeps(p, cfg, n, e, ps, st);
    case Assign(_, _) => FitsAssign(p, cfg, n, ps, s, st);
    case AugName(_, _, _) => FitsAugName(p, cfg, n, ps, s, st);
    case AugAttr(_, _, _, _) => FitsAug(p, cfg, n, ps, s, st);
    case Def(f, id) => HasStored(ps, f, FunV(id), st);
    case If(c, a, b) =>
      FitsE(p, cfg, n, c, map[], st);
      EvalKeeps(p, cfg, n, c, ps, st);
      var rc := Eval(p, cfg, n, c, map[], st);
      if rc.EOk? { FitsAll(p, cfg, n, ps, if Truthy(rc.v, rc.st.heap) then a else b, rc.st); }
    case While(_, _, _) => FitsWhile(p, cfg, n, ps, s, st);
    case For(x, it, a, b) =>
      FitsE(p, cfg, n, it, map[], st);
      EvalKeeps(p, cfg, n, it, ps, st);
      var ri := Eval(p, cfg, n, it, map[], st);
      if ri.EOk? && Iterable(ri.v, ri.st.heap) { FitsFor(p, cfg, n, ps, x, a, b, ri.v, 0, ri.st); }
    case Try(_, _, _, _) => FitsTry(p, cfg, n, ps, s, st);
    case Return(e) => FitsE(p, cfg, n, e, map[], st); EvalKeeps(p, cfg, n, e, ps, st);
    case _ =>
  }

  lemma {:induction false} FitsWhile(p: Program, cfg: Config, n: nat, ps: set<string>, s: Stmt, st: State)
    requires SteadyDefs(p) && Has(ps, st) && s.While? && SteadyS(ps, s)
    ensures Stays(ps, st, ExecWhile(p, cfg, n, s, st).st)
    decreases n, 1, s, 2
  {
    hide Grew, Ran, Has, Eval, ExecAll, SteadyAll;
    FitsE(p, cfg, n, s.cond, map[], st);
    EvalKeeps(p, cfg, n, s.cond, ps, st);
    var rc := Eval(p, cfg, n, s.cond, map[], st);
    if rc.EOk? {
      if !Truthy(rc.v, rc.st.heap) {
        FitsAll(p, cfg, n, ps, s.orelse, rc.st);
      } else if n > 0 {
        FitsAll(p, cfg, n - 1, ps, s.body, rc.st);
        var rb := ExecAll(p, cfg, n - 1, s.body, rc.st);
        if rb.SNext? || rb.SContinue? { FitsWhile(p, cfg, n - 1, ps, s, rb.st); }
      }
    }
  }

  lemma {:induction false} FitsFor(
    p: Program, cfg: Config, n: nat, ps: set<string>, x: string, body: seq<Stmt>, orelse: seq<Stmt>,
    over: Val, i: nat, st: State)
    requires SteadyDefs(p) && Has(ps, st) && SteadyAll(ps, body) && SteadyAll(ps, orelse)
    ensures Stays(ps, st, ForLoop(p, cfg, n, x, body, orelse, over, i, st).st)
    decreases n, 1, orelse, 1
  {
    hide Grew, Ran, Has, ExecAll, SteadyAll, Store;
    var item := NextItem(over, i, st.heap);
    if item.None? {
      FitsAll(p, cfg, n, ps, orelse, st);
    } else if n > 0 {
      HasStored(ps, x, item.value, st);
      FitsAll(p, cfg, n - 1, ps, body, Store(x, item.value, st));
      var rb := ExecAll(p, cfg, n - 1, body, Store(x, item.value, st));
      if rb.SNext? || rb.SContinue? { FitsFor(p, cfg, n - 1, ps, x, body, orelse, over, i + 1, rb.st); }
    }
  }

  lemma {:induction false} FitsTry(p: Program, cfg: Config, n: nat, ps: set<string>, s: Stmt, st: State)
    requires SteadyDefs(p) && Has(ps, st) && s.Try? && SteadyS(ps, s)
    ensures Stays(ps, st, ExecTry(p, cfg, n, s, st).st)
    decreases n, 1, s, 2
  {
    hide Grew, Ran, Has, ExecAll, SteadyAll, SteadyHs, Handle;
    FitsAll(p, cfg, n, ps, s.body, st);
    var r0 := ExecAll(p, cfg, n, s.body, st);
    if r0.SExc? { FitsHandle(p, cfg, n, ps, s.handlers, r0.e, r0.st); }
    if r0.SNext? { FitsAll(p, cfg, n, ps, s.orelse, r0.st); }
    var r1 :=
      if r0.SExc? then Handle(p, cfg, n, s.handlers, r0.e, r0.st)
      else if r0.SNext? then ExecAll(p, cfg, n, s.orelse, r0.st)
      else r0;
    FitsAll(p, cfg, n, ps, s.final, r1.st);
  }

  lemma {:induction false} FitsHandle(
    p: Program, cfg: Config, n: nat, ps: set<string>, hs: seq<Handler>, e: Error, st: State)
    requires SteadyDefs(p) && Has(ps, st) && SteadyHs(ps, hs)
    ensures Stays(ps, st, Handle(p, cfg, n, hs, e, st).st)
    decreases n, 1, hs, 0
  {
    hide Grew, Ran, Has, ExecAll, SteadyAll;
    if hs != [] {
      if Matches(hs[0].catch, e) {
        assert Clear(st, true) == st;
        FitsAll(p, cfg, n, ps, hs[0].body, st);
      } else {
        FitsHandle(p, cfg, n, ps, hs[1..], e, st);
      }
    }
  }

  // ----- whole programs -----

  /** A steady program stays in the fragment, from every state. */
  lemma SteadyFits(p: Program, cfg: Config, n: nat, st: State)
    requires Steady(p)
    ensures Run(p, cfg, n, st).st.fits == st.fits
  {
    FitsAll(p, cfg, n, {}, p.main, st);
  }

  /** So with nothing to refuse it, every steady program ends, rewritten, exactly as it does
      itself. */
  lemma SteadyMeaningPreserved(p: Program, cfg: Config, n: nat, t: State)
    requires Accepts(p) && OwnNames(p) && Steady(p) && Regular(t) && Lenient(cfg) && !t.meter.refused && t.fits
    requires !Run(p, SOURCE, n, Strip(t)).SDeep?
    ensures var rs := Run(p, SOURCE, n, Strip(t)); var rt := Run(Rewrite(p), cfg, n, t);
      rt == WithState(rs, rt.st) && Strip(rt.st) == rs.st && rt.st.trace == rs.st.trace
  {
    SteadyFits(p, SOURCE, n, Strip(t));
    hide Run, Steady, Accepts, OwnNames, Rewrite, Lenient;
    MeaningPreservedWithoutLimits(p, cfg, n, t);
  }
}
