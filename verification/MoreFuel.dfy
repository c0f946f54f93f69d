/** A run that did not run out of fuel is the same run with any more of it. So fuel is only
    a way to write evaluation down: what a program does is what it does with enough. */
module MoreFuel {
  import opened Options
  import opened Python
  import opened Evaluation

  lemma {:induction false} MoreE(p: Program, cfg: Config, n: nat, m: nat, e: Expr, sc: Scope, st: State)
    requires n <= m && !Eval(p, cfg, n, e, sc, st).EDeep?
    ensures Eval(p, cfg, m, e, sc, st) == Eval(p, cfg, n, e, sc, st)
    decreases n, 1, e, 1
  {
    hide Grew, Ran, Truthy, CallFn, EvalAll, EvalComp, Binary, ReadAttr, WriteAttr, ReadItem, AppendItem, Load;
    match e
    case Attr(o, _) => MoreE(p, cfg, n, m, o, sc, st);
    case Bin(_, _, _) => MoreTwo(p, cfg, n, m, e, sc, st);
    case Or(_, _) => MoreTwo(p, cfg, n, m, e, sc, st);
    case Tup(es) => MoreEs(p, cfg, n, m, es, sc, st);
    case Item(o, _) => MoreE(p, cfg, n, m, o, sc, st);
    case Push(_, _) => MoreTwo(p, cfg, n, m, e, sc, st);
    case Call(_, _) => MoreCallE(p, cfg, n, m, e, sc, st);
    case Comp(elt, cs) => MoreComp(p, cfg, n, m, elt, cs, sc, st);
    case GCheckpoint => MoreCheckpoint(p, cfg, n, m, sc, st);
    case GGetAttr(_, _) => MoreGate(p, cfg, n, m, e, sc, st);
    case GSetAttr(_, _, _) => MoreGate(p, cfg, n, m, e, sc, st);
    case GCapture(_) => MoreGate(p, cfg, n, m, e, sc, st);
    case _ =>
  }

  lemma {:induction false} MoreCheckpoint(p: Program, cfg: Config, n: nat, m: nat, sc: Scope, st: State)
    requires n <= m && !EvalCheckpoint(p, cfg, n, sc, st).EDeep?
    ensures EvalCheckpoint(p, cfg, m, sc, st) == EvalCheckpoint(p, cfg, n, sc, st)
    decreases n, 1, Expr.GCheckpoint, 0
  {
    hide Grew, CallFn, Load, DoCheckpoint;
    var g := Load(GateName(CheckpointGate), sc, st);
    if !Reached(sc, st) && g.EOk? { MoreCall(p, cfg, n, m, g.v, [], Missed(st)); }
  }

  lemma {:induction false} MoreGate(p: Program, cfg: Config, n: nat, m: nat, e: Expr, sc: Scope, st: State)
    requires e.GGetAttr? || e.GSetAttr? || e.GCapture?
    requires n <= m && !EvalGate(p, cfg, n, e, sc, st).EDeep?
    ensures EvalGate(p, cfg, m, e, sc, st) == EvalGate(p, cfg, n, e, sc, st)
    decreases n, 1, e, 0
  {
    hide Grew, CallFn, Load, GateName, Eval;
    var g := Load(GateName(GateOf(e)), sc, st);
    if g.EOk? {
      var o := if e.GCapture? then e.f else e.obj;
      MoreE(p, cfg, n, m, o, sc, st);
      var r1 := Eval(p, cfg, n, o, sc, st);
      if r1.EOk? {
        if e.GCapture? { MoreCall(p, cfg, n, m, g.v, [r1.v], r1.st); }
        else if e.GGetAttr? { MoreCall(p, cfg, n, m, g.v, [r1.v, StrV(e.attr)], r1.st); }
        else {
          MoreE(p, cfg, n, m, e.value, sc, r1.st);
          var r2 := Eval(p, cfg, n, e.value, sc, r1.st);
          if r2.EOk? { MoreCall(p, cfg, n, m, g.v, [r1.v, StrV(e.attr), r2.v], r2.st); }
        }
      }
    }
  }

  /** Two operands, the second evaluated after the first, or not at all. */
  lemma {:induction false} MoreTwo(p: Program, cfg: Config, n: nat, m: nat, e: Expr, sc: Scope, st: State)
    requires n <= m && !Eval(p, cfg, n, e, sc, st).EDeep? && (e.Bin? || e.Or? || e.Push?)
    ensures Eval(p, cfg, m, e, sc, st) == Eval(p, cfg, n, e, sc, st)
    decreases n, 1, e, 0
  {
    hide Grew, Ran, Truthy, Binary, AppendItem;
    var a := if e.Push? then e.list else e.left;
    var b := if e.Push? then e.item else e.right;
    MoreE(p, cfg, n, m, a, sc, st);
    var ra := Eval(p, cfg, n, a, sc, st);
    if ra.EOk? && (e.Or? ==> !Truthy(ra.v, ra.st.heap)) { MoreE(p, cfg, n, m, b, sc, ra.st); }
  }

  lemma {:induction false} MoreCallE(p: Program, cfg: Config, n: nat, m: nat, e: Expr, sc: Scope, st: State)
    requires n <= m && !Eval(p, cfg, n, e, sc, st).EDeep? && e.Call?
    ensures Eval(p, cfg, m, e, sc, st) == Eval(p, cfg, n, e, sc, st)
    decreases n, 1, e, 0
  {
    hide Grew, Ran, CallFn, EvalAll;
    MoreE(p, cfg, n, m, e.fn, sc, st);
    var rf := Eval(p, cfg, n, e.fn, sc, st);
    if rf.EOk? {
      MoreEs(p, cfg, n, m, e.args, sc, rf.st);
      var rs := EvalAll(p, cfg, n, e.args, sc, rf.st);
      if rs.EOk? { MoreCall(p, cfg, n, m, rf.v, rs.v, rs.st); }
    }
  }

  lemma {:induction false} MoreEs(p: Program, cfg: Config, n: nat, m: nat, es: seq<Expr>, sc: Scope, st: State)
    requires n <= m && !EvalAll(p, cfg, n, es, sc, st).EDeep?
    ensures EvalAll(p, cfg, m, es, sc, st) == EvalAll(p, cfg, n, es, sc, st)
    decreases n, 1, es, 0
  {
    if es != [] {
      MoreE(p, cfg, n, m, es[0], sc, st);
      var r0 := Eval(p, cfg, n, es[0], sc, st);
      if r0.EOk? { MoreEs(p, cfg, n, m, es[1..], sc, r0.st); }
    }
  }

  lemma {:induction false} MoreCall(p: Program, cfg: Config, n: nat, m: nat, f: Val, args: seq<Val>, st: State)
    requires n <= m && !CallFn(p, cfg, n, f, args, st).EDeep?
    ensures CallFn(p, cfg, m, f, args, st) == CallFn(p, cfg, n, f, args, st)
    decreases n, 0
  {
    if Enters(p, f, args) {
      MoreAll(p, cfg, n - 1, m - 1, p.defs[f.id].body, CallState(cfg, p.defs[f.id], args, st));
    }
  }

  lemma {:induction false} MoreComp(
    p: Program, cfg: Config, n: nat, m: nat, elt: Expr, cs: seq<Clause>, sc: Scope, st: State)
    requires n <= m && !EvalComp(p, cfg, n, elt, cs, sc, st).EDeep?
    ensures EvalComp(p, cfg, m, elt, cs, sc, st) == EvalComp(p, cfg, n, elt, cs, sc, st)
    decreases n, 1, cs, 1
  {
    if cs != [] {
      MoreE(p, cfg, n, m, cs[0].iter, sc, st);
      var ri := Eval(p, cfg, n, cs[0].iter, sc, st);
      if ri.EOk? && Iterable(ri.v, ri.st.heap) { MoreLoop(p, cfg, n, m, elt, cs, sc, ri.v, 0, ri.st); }
    }
  }

  lemma {:induction false} MoreLoop(p: Program, cfg: Config, n: nat, m: nat, elt: Expr, cs: seq<Clause>, sc: Scope,
                                    over: Val, i: nat, st: State)
    requires cs != [] && n <= m && !CompLoop(p, cfg, n, elt, cs, sc, over, i, st).EDeep?
    ensures CompLoop(p, cfg, m, elt, cs, sc, over, i, st) == CompLoop(p, cfg, n, elt, cs, sc, over, i, st)
    decreases n, 0
  {
    hide CompItem, CompLoop, NextItem, Grew;
    var item := NextItem(over, i, st.heap);
    if item.None? {
      LoopStops(p, cfg, n, elt, cs, sc, over, i, st);
      LoopStops(p, cfg, m, elt, cs, sc, over, i, st);
    } else {
      if n == 0 { LoopStops(p, cfg, n, elt, cs, sc, over, i, st); }
      LoopUnfold(p, cfg, n, elt, cs, sc, over, i, st);
      LoopUnfold(p, cfg, m, elt, cs, sc, over, i, st);
      var sc' := sc[cs[0].target := item.value];
      MoreItem(p, cfg, n - 1, m - 1, elt, cs, sc', st);
      var r0 := CompItem(p, cfg, n - 1, elt, cs, sc', st);
      if r0.EOk? { MoreLoop(p, cfg, n - 1, m - 1, elt, cs, sc, over, i + 1, r0.st); }
    }
  }

  lemma {:induction false} MoreItem(
    p: Program, cfg: Config, n: nat, m: nat, elt: Expr, cs: seq<Clause>, sc: Scope, st: State)
    requires cs != [] && n <= m && !CompItem(p, cfg, n, elt, cs, sc, st).EDeep?
    ensures CompItem(p, cfg, m, elt, cs, sc, st) == CompItem(p, cfg, n, elt, cs, sc, st)
    decreases n, 2
  {
    hide Grew, Ran, CompLoop, Eval, EvalComp, Filters;
    MoreIfs(p, cfg, n, m, cs[0].ifs, sc, st);
    var rc := Filters(p, cfg, n, cs[0].ifs, sc, st);
    if rc.EOk? && rc.v {
      if |cs| > 1 { MoreComp(p, cfg, n, m, elt, cs[1..], sc, rc.st); }
      else { MoreE(p, cfg, n, m, elt, sc, rc.st); }
    }
  }

  lemma {:induction false} MoreIfs(p: Program, cfg: Config, n: nat, m: nat, ifs: seq<Expr>, sc: Scope, st: State)
    requires n <= m && !Filters(p, cfg, n, ifs, sc, st).EDeep?
    ensures Filters(p, cfg, m, ifs, sc, st) == Filters(p, cfg, n, ifs, sc, st)
    decreases n, 1, ifs, 0
  {
    if ifs != [] {
      MoreE(p, cfg, n, m, ifs[0], sc, st);
      var r0 := Eval(p, cfg, n, ifs[0], sc, st);
      if r0.EOk? && Truthy(r0.v, r0.st.heap) { MoreIfs(p, cfg, n, m, ifs[1..], sc, r0.st); }
    }
  }

  lemma {:induction false} MoreTarget(p: Program, cfg: Config, n: nat, m: nat, t: Target, v: Val, st: State)
    requires n <= m && !AssignTo(p, cfg, n, t, v, st).EDeep?
    ensures AssignTo(p, cfg, m, t, v, st) == AssignTo(p, cfg, n, t, v, st)
    decreases n, 1, t, 1
  {
    match t
    case TName(_) =>
    case TAttr(o, _) => MoreE(p, cfg, n, m, o, map[], st);
    case TTup(us) =>
      var ru := Unpack(v, |us|, st);
      if ru.EOk? { MoreEach(p, cfg, n, m, us, ru.v, ru.st); }
  }

  lemma {:induction false} MoreEach(p: Program, cfg: Config, n: nat, m: nat, ts: seq<Target>, vs: seq<Val>, st: State)
    requires |ts| == |vs| && n <= m && !AssignEach(p, cfg, n, ts, vs, st).EDeep?
    ensures AssignEach(p, cfg, m, ts, vs, st) == AssignEach(p, cfg, n, ts, vs, st)
    decreases n, 1, ts, 0
  {
    if ts != [] {
      MoreTarget(p, cfg, n, m, ts[0], vs[0], st);
      var r0 := AssignTo(p, cfg, n, ts[0], vs[0], st);
      if r0.EOk? { MoreEach(p, cfg, n, m, ts[1..], vs[1..], r0.st); }
    }
  }

  lemma {:induction false} MoreSame(p: Program, cfg: Config, n: nat, m: nat, ts: seq<Target>, v: Val, st: State)
    requires n <= m && !AssignSame(p, cfg, n, ts, v, st).EDeep?
    ensures AssignSame(p, cfg, m, ts, v, st) == AssignSame(p, cfg, n, ts, v, st)
    decreases n, 1, ts, 0
  {
    if ts != [] {
      MoreTarget(p, cfg, n, m, ts[0], v, st);
      var r0 := AssignTo(p, cfg, n, ts[0], v, st);
      if r0.EOk? { MoreSame(p, cfg, n, m, ts[1..], v, r0.st); }
    }
  }

  lemma {:induction false} MoreAssign(p: Program, cfg: Config, n: nat, m: nat, s: Stmt, st: State)
    requires s.Assign? && n <= m && !ExecAssign(p, cfg, n, s, st).SDeep?
    ensures ExecAssign(p, cfg, m, s, st) == ExecAssign(p, cfg, n, s, st)
    decreases n, 1, s, 2
  {
    var Assign(ts, e) := s;
    MoreE(p, cfg, n, m, e, map[], st);
    var rv := Eval(p, cfg, n, e, map[], st);
    if |ts| == 1 && ts[0].TAttr? {
      var o := ts[0].obj;
      MoreE(p, cfg, n, m, o, map[], st);
      var ro := Eval(p, cfg, n, o, map[], st);
      if rv.EOk? { MoreE(p, cfg, n, m, o, map[], rv.st); }
      if ro.EOk? { MoreE(p, cfg, n, m, e, map[], ro.st); }
    } else if rv.EOk? {
      MoreSame(p, cfg, n, m, ts, rv.v, Clear(rv.st, HasAttr(ts) ==> ShapedBy(ts, rv.v)));
    }
  }

  lemma {:induction false} MoreAll(p: Program, cfg: Config, n: nat, m: nat, ss: seq<Stmt>, st: State)
    requires n <= m && !ExecAll(p, cfg, n, ss, st).SDeep?
    ensures ExecAll(p, cfg, m, ss, st) == ExecAll(p, cfg, n, ss, st)
    decreases n, 1, ss, 0
  {
    if ss != [] {
      MoreS(p, cfg, n, m, ss[0], st);
      var r0 := Exec(p, cfg, n, ss[0], st);
      if r0.SNext? { MoreAll(p, cfg, n, m, ss[1..], r0.st); }
    }
  }

  lemma {:induction false} MoreS(p: Program, cfg: Config, n: nat, m: nat, s: Stmt, st: State)
    requires n <= m && !Exec(p, cfg, n, s, st).SDeep?
    ensures Exec(p, cfg, m, s, st) == Exec(p, cfg, n, s, st)
    decreases n, 1, s, 3
  {
    hide Grew, Ran, Eval, ExecAll, ExecAssign, ExecAugAttr, ExecWhile, ExecTry, ForLoop, Truthy, Load, InPlace;
    match s
    case ExprS(e) => MoreE(p, cfg, n, m, e, map[], st);
    case Assign(_, _) => MoreAssign(p, cfg, n, m, s, st);
    case AugName(x, _, e) =>
      if Load(x, map[], st).EOk? { MoreE(p, cfg, n, m, e, map[], st); }
    case AugAttr(_, _, _, _) => MoreAug(p, cfg, n, m, s, st);
    case If(c, a, b) =>
      MoreE(p, cfg, n, m, c, map[], st);
      var rc := Eval(p, cfg, n, c, map[], st);
      if rc.EOk? { MoreAll(p, cfg, n, m, if Truthy(rc.v, rc.st.heap) then a else b, rc.st); }
    case While(_, _, _) => MoreWhile(p, cfg, n, m, s, st);
    case For(x, it, a, b) =>
      MoreE(p, cfg, n, m, it, map[], st);
      var ri := Eval(p, cfg, n, it, map[], st);
      if ri.EOk? && Iterable(ri.v, ri.st.heap) { MoreFor(p, cfg, n, m, x, a, b, ri.v, 0, ri.st); }
    case Try(_, _, _, _) => MoreTry(p, cfg, n, m, s, st);
    case Return(e) => MoreE(p, cfg, n, m, e, map[], st);
    case _ =>
  }

  lemma {:induction false} MoreAug(p: Program, cfg: Config, n: nat, m: nat, s: Stmt, st: State)
    requires s.AugAttr? && n <= m && !ExecAugAttr(p, cfg, n, s, st).SDeep?
    ensures ExecAugAttr(p, cfg, m, s, st) == ExecAugAttr(p, cfg, n, s, st)
    decreases n, 1, s, 2
  {
    MoreE(p, cfg, n, m, s.obj, map[], st);
    var ro := Eval(p, cfg, n, s.obj, map[], st);
    if ro.EOk? {
      var rg := ReadAttr(ro.v, s.attr, ro.st);
      if rg.EOk? { MoreE(p, cfg, n, m, s.value, map[], rg.st); }
    }
  }

  lemma {:induction false} MoreWhile(p: Program, cfg: Config, n: nat, m: nat, s: Stmt, st: State)
    requires s.While? && n <= m && !ExecWhile(p, cfg, n, s, st).SDeep?
    ensures ExecWhile(p, cfg, m, s, st) == ExecWhile(p, cfg, n, s, st)
    decreases n, 1, s, 2
  {
    hide Grew, Ran, Exec, Eval;
    MoreE(p, cfg, n, m, s.cond, map[], st);
    var rc := Eval(p, cfg, n, s.cond, map[], st);
    if rc.EOk? {
      if Truthy(rc.v, rc.st.heap) {
        MoreAll(p, cfg, n - 1, m - 1, s.body, rc.st);
        var rb := ExecAll(p, cfg, n - 1, s.body, rc.st);
        if rb.SNext? || rb.SContinue? { MoreWhile(p, cfg, n - 1, m - 1, s, rb.st); }
      } else {
        MoreAll(p, cfg, n, m, s.orelse, rc.st);
      }
    }
  }

  lemma {:induction false} MoreFor(
    p: Program, cfg: Config, n: nat, m: nat, x: string, body: seq<Stmt>, orelse: seq<Stmt>,
    over: Val, i: nat, st: State)
    requires n <= m && !ForLoop(p, cfg, n, x, body, orelse, over, i, st).SDeep?
    ensures ForLoop(p, cfg, m, x, body, orelse, over, i, st) == ForLoop(p, cfg, n, x, body, orelse, over, i, st)
    decreases n, 1, orelse, 1
  {
    hide Grew, Ran, Exec, Eval;
    var item := NextItem(over, i, st.heap);
    if item.Some? {
      var st' := Store(x, item.value, st);
      MoreAll(p, cfg, n - 1, m - 1, body, st');
      var rb := ExecAll(p, cfg, n - 1, body, st');
      if rb.SNext? || rb.SContinue? { MoreFor(p, cfg, n - 1, m - 1, x, body, orelse, over, i + 1, rb.st); }
    } else {
      MoreAll(p, cfg, n, m, orelse, st);
    }
  }

  lemma {:induction false} MoreTry(p: Program, cfg: Config, n: nat, m: nat, s: Stmt, st: State)
    requires s.Try? && n <= m && !ExecTry(p, cfg, n, s, st).SDeep?
    ensures ExecTry(p, cfg, m, s, st) == ExecTry(p, cfg, n, s, st)
    decreases n, 1, s, 2
  {
    MoreAll(p, cfg, n, m, s.body, st);
    var r0 := ExecAll(p, cfg, n, s.body, st);
    if r0.SExc? { MoreHandle(p, cfg, n, m, s.handlers, r0.e, r0.st); }
    if r0.SNext? { MoreAll(p, cfg, n, m, s.orelse, r0.st); }
    var r1 :=
      if r0.SExc? then Handle(p, cfg, n, s.handlers, r0.e, r0.st)
      else if r0.SNext? then ExecAll(p, cfg, n, s.orelse, r0.st)
      else r0;
    MoreAll(p, cfg, n, m, s.final, r1.st);
  }

  lemma {:induction false} MoreHandle(p: Program, cfg: Config, n: nat, m: nat, hs: seq<Handler>, e: Error, st: State)
    requires n <= m && !Handle(p, cfg, n, hs, e, st).SDeep?
    ensures Handle(p, cfg, m, hs, e, st) == Handle(p, cfg, n, hs, e, st)
    decreases n, 1, hs, 0
  {
    if hs != [] {
      if Matches(hs[0].catch, e) {
        MoreAll(p, cfg, n, m, hs[0].body, Clear(st, hs[0].catch.Bare? ==> !e.ExitError?));
      } else {
        MoreHandle(p, cfg, n, m, hs[1..], e, st);
      }
    }
  }

  lemma SameWithMoreFuel(p: Program, cfg: Config, n: nat, m: nat, st: State)
    requires n <= m && !Run(p, cfg, n, st).SDeep?
    ensures Run(p, cfg, m, st) == Run(p, cfg, n, st)
  {
    MoreAll(p, cfg, n, m, p.main, st);
  }
}
