/** The rewritten program does what the source does.

    For every accepted program and every state: if the source run finishes, having kept to
    what the rewriter supports (`fits`), then the rewritten program, run with the same fuel
    behind gates that allow everything, either had a checkpoint refuse (a limit was hit) or
    ends the same way, in the same state but for the temporaries and the meter. The state
    holds the record of every attribute read and write, so each is made once and in the
    order of the source. */
module Preservation {
  import opened Options
  import opened Python
  import opened Evaluation
  import opened Rewriter
  import opened Checkpoints
  import opened GateNames
  import opened Termination

  /** How the source is run: no limit, nothing to wrap. */
  const SOURCE: Config := Config(None, i => Quiet, true, false, false, (r, a) => true, (r, a) => true)

  const ZERO: Meter := Meter(0, 0, 0, 0, false, false, false)

  function StripNames(names: set<string>): set<string> { set x | x in names && !Reserved(x) }

  function StripFrame(f: Frame): Frame {
    match f
    case Top => Top
    case Fn(names, declared, vars) => Fn(StripNames(names), declared, Plain(vars))
  }

  /** A state of the rewritten program without the rewriter's own names and the meter. */
  function Strip(t: State): State {
    t.(globals := Plain(t.globals), frame := StripFrame(t.frame), meter := ZERO)
  }

  /** The names of the gates stand for the gates, and no reserved name is declared `global`. */
  ghost predicate Regular(t: State) {
    (t.frame.Fn? ==> NoReserved(t.frame.declared)) && forall g :: Stands(g, t)
  }

  ghost predicate Context(p: Program, t: State) { Accepts(p) && OwnNames(p) && Regular(t) }

  // ----- what "the same" means -----

  ghost predicate Mirrors<T>(rs: ER<T>, rt: ER<T>) {
    || rs.EDeep? || !rs.st.fits || rt.st.meter.refused
    || (&& Strip(rt.st) == rs.st && Regular(rt.st)
        && (rs.EOk? ==> rt.EOk? && rt.v == rs.v)
        && (rs.EExc? ==> rt.EExc? && rt.e == rs.e))
  }

  ghost predicate MirrorsS(rs: SR, rt: SR) {
    || rs.SDeep? || !rs.st.fits || rt.st.meter.refused
    || (Strip(rt.st) == rs.st && Regular(rt.st) && rt == WithState(rs, rt.st))
  }

  /** An assignment of the source, against the statements written for it. */
  ghost predicate MirrorsA(rs: ER<Val>, rt: SR) {
    || rs.EDeep? || !rs.st.fits || rt.st.meter.refused
    || (&& Strip(rt.st) == rs.st && Regular(rt.st)
        && (rs.EOk? ==> rt.SNext?)
        && (rs.EExc? ==> rt.SExc? && rt.e == rs.e))
  }

  // ----- names -----

  /** A name the rewriter may use for itself: reserved, and no gate's. */
  predicate Spare(x: string) { Reserved(x) && forall g :: GateName(g) != x }

  lemma TmpSpare(k: nat)
    ensures Spare(Tmp(k))
  {
    TmpReserved(k);
    forall g ensures GateName(g) != Tmp(k) { GateNoTmp(g, k); }
  }

  lemma RegularSame(t: State, u: State)
    requires Regular(t) && u.frame == t.frame && u.globals == t.globals
    ensures Regular(u)
  {
    hide GateName;
    forall g ensures Stands(g, u) { assert Stands(g, t); }
  }

  lemma RegularAfter(t: State, u: State)
    requires Regular(t) && u.frame == t.frame && Kept(u.globals) == Kept(t.globals)
    ensures Regular(u)
  {
    forall g ensures Stands(g, u) {
      assert Stands(g, t);
      GateReserved(g);
      hide GateName;
      assert GateName(g) in Kept(t.globals);
    }
  }

  lemma RegularStored(x: string, v: Val, t: State)
    requires Regular(t) && (!Reserved(x) || Spare(x))
    ensures Regular(Store(x, v, t))
  {
    forall g ensures Stands(g, Store(x, v, t)) {
      assert Stands(g, t);
      GateReserved(g);
      hide GateName;
    }
  }

  lemma RegularEval(q: Program, cfg: Config, n: nat, e: Expr, sc: Scope, t: State)
    requires Tame(q) && Regular(t)
    ensures Regular(Eval(q, cfg, n, e, sc, t).st)
  {
    assert Grew(q, cfg, t, Eval(q, cfg, n, e, sc, t).st);
    hide Eval, Regular, Metered;
    RegularAfter(t, Eval(q, cfg, n, e, sc, t).st);
  }

  /** A gate can be called in any scope of the code's own names. */
  lemma Opens(g: Gate, sc: Scope, t: State)
    requires Regular(t) && NoReserved(sc.Keys)
    ensures Stands(g, t) && GateName(g) !in sc
  {
    GateReserved(g);
    hide GateName;
  }

  lemma LoadStripped(x: string, sc: Scope, t: State)
    requires !Reserved(x) && Regular(t)
    ensures Mirrors(Load(x, sc, Strip(t)), Load(x, sc, t))
    ensures Load(x, sc, t).st == t && Load(x, sc, Strip(t)).st == Strip(t)
    ensures Load(x, sc, t).EOk? == Load(x, sc, Strip(t)).EOk?
  {
  }

  lemma StoreStripped(x: string, v: Val, t: State)
    requires !Reserved(x)
    ensures Strip(Store(x, v, t)) == Store(x, v, Strip(t))
  {
    var u := Store(x, v, t);
    if t.frame.Fn? && x !in t.frame.declared {
      assert Plain(u.frame.vars) == Plain(t.frame.vars)[x := v];
    } else {
      assert Plain(u.globals) == Plain(t.globals)[x := v];
    }
  }

  /** Where a temporary is kept, and that it holds `v`. */
  ghost predicate Holds(t: State, x: string, v: Val) {
    Spare(x) && Regular(t) && Load(x, map[], t) == EOk(v, t)
  }

  lemma HoldsRegular(t: State, x: string, v: Val)
    requires Holds(t, x, v)
    ensures Regular(t)
  {
  }

  lemma StoreTmp(x: string, v: Val, t: State)
    requires Spare(x) && Regular(t)
    ensures Strip(Store(x, v, t)) == Strip(t)
    ensures Holds(Store(x, v, t), x, v)
  {
    RegularStored(x, v, t);
    hide Stands;
    var u := Store(x, v, t);
    if t.frame.Fn? {
      assert x !in t.frame.declared;
      assert Plain(u.frame.vars) == Plain(t.frame.vars);
    } else {
      assert Plain(u.globals) == Plain(t.globals);
    }
  }

  /** Evaluating an expression leaves the temporaries of the frame alone: it changes no
      variable of the frame, and no function may declare a reserved name global. */
  lemma HoldsAfter(t: State, u: State, x: string, v: Val)
    requires Holds(t, x, v) && u.frame == t.frame && Kept(u.globals) == Kept(t.globals)
    ensures Holds(u, x, v)
  {
    RegularAfter(t, u);
    hide Regular;
    assert x in t.globals ==> x in Kept(t.globals);
    assert x in u.globals ==> x in Kept(u.globals);
  }

  lemma HoldsAfterStore(t: State, y: string, w: Val, x: string, v: Val)
    requires Holds(t, x, v) && !Reserved(y)
    ensures Holds(Store(y, w, t), x, v)
  {
    RegularStored(y, w, t);
    hide Regular;
  }

  lemma LoadStored(x: string, v: Val, t: State)
    ensures Load(x, map[], Store(x, v, t)) == EOk(v, Store(x, v, t))
    ensures Store(x, v, Store(x, v, t)) == Store(x, v, t)
  {
    if t.frame.Fn? && x !in t.frame.declared {
      assert t.frame.vars[x := v][x := v] == t.frame.vars[x := v];
    } else {
      assert t.globals[x := v][x := v] == t.globals[x := v];
    }
  }

  // ----- the table -----

  lemma TameRewrite(p: Program)
    requires Accepts(p)
    ensures Tame(Rewrite(p))
  {
    forall i | 0 <= i < |p.defs| ensures NoReserved(Rewrite(p).defs[i].declared) {
      assert AcceptsDef(p.defs[i]);
    }
  }

  lemma {:induction false} BoundTargets(ts: seq<Target>)
    requires AcceptsTs(ts)
    ensures NoReserved(TargetNames(ts))
    decreases ts
  {
    if ts != [] {
      BoundTargets(ts[1..]);
      if ts[0].TTup? { BoundTargets(ts[0].elts); }
    }
  }

  /** An accepted body binds no reserved name. */
  lemma {:induction false} BoundPlain(ss: seq<Stmt>)
    requires AcceptsAll(ss) && OwnAll(ss)
    ensures NoReserved(Bound(ss))
    decreases ss, 0
  {
    if ss != [] {
      BoundPlainS(ss[0]);
      BoundPlain(ss[1..]);
    }
  }

  lemma {:induction false} BoundPlainS(s: Stmt)
    requires AcceptsS(s) && OwnS(s)
    ensures NoReserved(BoundBy(s))
    decreases s, 1
  {
    match s
    case Assign(ts, _) => BoundTargets(ts);
    case If(_, a, b) => BoundPlain(a); BoundPlain(b);
    case While(_, a, b) => BoundPlain(a); BoundPlain(b);
    case For(_, _, a, b) => BoundPlain(a); BoundPlain(b);
    case Try(a, hs, b, c) => BoundPlain(a); BoundPlainHs(hs); BoundPlain(b); BoundPlain(c);
    case _ =>
  }

  lemma {:induction false} BoundPlainHs(hs: seq<Handler>)
    requires AcceptsHs(hs) && OwnHs(hs)
    ensures NoReserved(HandlerNames(hs))
    decreases hs, 0
  {
    if hs != [] {
      BoundPlain(hs[0].body);
      BoundPlainHs(hs[1..]);
    }
  }

  lemma TmpsReserved(j: nat, k: nat)
    ensures forall x :: x in Tmps(j, k) ==> Reserved(x)
  {
    forall x | x in Tmps(j, k) ensures Reserved(x) {
      var i :| j <= i < k && x == Tmp(i);
      TmpReserved(i);
    }
  }

  /** The variables of a rewritten function's frame are the source's, and temporaries. */
  lemma CallStripped(cfg: Config, d: FunDef, k: nat, args: seq<Val>, t: State)
    requires AcceptsDef(d) && OwnDef(d) && |args| == |d.params| && Regular(t)
    ensures Strip(CallState(cfg, RwDef(d, k), args, t)) == CallState(SOURCE, d, args, Strip(t))
    ensures Regular(CallState(cfg, RwDef(d, k), args, t))
  {
    var r := RwAll(d.body, k);
    BoundAll(d.body, k);
    BoundHead(r.ss);
    BoundPlain(d.body);
    TmpsReserved(k, r.k);
    assert StripNames(Locals(RwDef(d, k))) == Locals(d);
    BindKeys(d.params, args);
    assert Plain(Bind(d.params, args)) == Bind(d.params, args);
    RegularCalled(cfg, d, k, args, t);
  }

  lemma RegularCalled(cfg: Config, d: FunDef, k: nat, args: seq<Val>, t: State)
    requires AcceptsDef(d) && OwnDef(d) && |args| == |d.params| && Regular(t)
    ensures Regular(CallState(cfg, RwDef(d, k), args, t))
  {
    var r := RwAll(d.body, k);
    BoundAll(d.body, k);
    BoundHead(r.ss);
    BoundPlain(d.body);
    BindKeys(d.params, args);
    forall g ensures Stands(g, CallState(cfg, RwDef(d, k), args, t)) {
      assert Stands(g, t);
      GateReserved(g);
      GateNoTmps(g, k, r.k);
      hide GateName, RwAll;
    }
  }

  // ----- expressions -----

  lemma {:induction false} SimE(p: Program, cfg: Config, n: nat, e: Expr, sc: Scope, t: State)
    requires Context(p, t) && AcceptsE(e) && NoReserved(sc.Keys)
    ensures Mirrors(Eval(p, SOURCE, n, e, sc, Strip(t)), Eval(Rewrite(p), cfg, n, RwE(e), sc, t))
    decreases n, 1, e, 1
  {
    hide Eval, EvalAll, EvalComp, Mirrors, InTurn, RwE, Strip, Rewrite, Plain, StripFrame, Kept;
    hide KeepsReserved, Ticked, Lenient, Accepts, OwnNames;
    match e
    case Lit(_) => SimLeaf(p, cfg, n, e, sc, t);
    case Name(x) => SimLeaf(p, cfg, n, e, sc, t);
    case New => SimLeaf(p, cfg, n, e, sc, t);
    case Attr(o, _) => SimE(p, cfg, n, o, sc, t); SimAttr(p, cfg, n, e, sc, t);
    case Bin(_, l, r) => SimTwo(p, cfg, n, e, l, r, sc, t); SimBin(p, cfg, n, e, sc, t);
    case Or(l, r) => SimTwo(p, cfg, n, e, l, r, sc, t); SimOr(p, cfg, n, e, sc, t);
    case Tup(es) => SimEs(p, cfg, n, es, sc, t); SimTup(p, cfg, n, e, sc, t);
    case Item(o, _) => SimE(p, cfg, n, o, sc, t); SimIndex(p, cfg, n, e, sc, t);
    case Push(l, x) => SimTwo(p, cfg, n, e, l, x, sc, t); SimPush(p, cfg, n, e, sc, t);
    case Call(_, _) => SimCallE(p, cfg, n, e, sc, t);
    case Comp(elt, cs) => SimComp(p, cfg, n, elt, cs, sc, t); SimCompE(p, cfg, n, e, sc, t);
  }

  lemma SimLeaf(p: Program, cfg: Config, n: nat, e: Expr, sc: Scope, t: State)
    requires Regular(t) && AcceptsE(e) && (e.Lit? || e.Name? || e.New?)
    ensures Mirrors(Eval(p, SOURCE, n, e, sc, Strip(t)), Eval(Rewrite(p), cfg, n, RwE(e), sc, t))
  {
    hide Rewrite, Grew, Regular;
    if e.Name? { LoadStripped(e.x, sc, t); }
    if e.New? { RegularSame(t, Alloc(Inst(map[]), t).st); }
  }

  lemma SimAttr(p: Program, cfg: Config, n: nat, e: Expr, sc: Scope, t: State)
    requires e.Attr? && Mirrors(Eval(p, SOURCE, n, e.obj, sc, Strip(t)), Eval(Rewrite(p), cfg, n, RwE(e.obj), sc, t))
    requires Regular(t) && NoReserved(sc.Keys)
    ensures Mirrors(Eval(p, SOURCE, n, e, sc, Strip(t)), Eval(Rewrite(p), cfg, n, RwE(e), sc, t))
  {
    hide Rewrite, Plain, StripFrame, Kept, KeepsReserved, Ticked, Lenient, Accepts, OwnNames, Regular, EvalGate;
    Opens(GetAttrGate, sc, t);
    GetAttrIs(Rewrite(p), cfg, n, RwE(e.obj), e.attr, sc, t);
    var to := Eval(Rewrite(p), cfg, n, RwE(e.obj), sc, t);
    if to.EOk? && Regular(to.st) { RegularSame(to.st, ReadAttr(to.v, e.attr, to.st).st); }
  }

  lemma SimIndex(p: Program, cfg: Config, n: nat, e: Expr, sc: Scope, t: State)
    requires e.Item? && Mirrors(Eval(p, SOURCE, n, e.of, sc, Strip(t)), Eval(Rewrite(p), cfg, n, RwE(e.of), sc, t))
    ensures Mirrors(Eval(p, SOURCE, n, e, sc, Strip(t)), Eval(Rewrite(p), cfg, n, RwE(e), sc, t))
  {
    hide Rewrite, Plain, StripFrame, Kept, KeepsReserved, Ticked, Lenient, Accepts, OwnNames;
  }

  lemma SimTup(p: Program, cfg: Config, n: nat, e: Expr, sc: Scope, t: State)
    requires e.Tup?
    requires Mirrors(EvalAll(p, SOURCE, n, e.elts, sc, Strip(t)), EvalAll(Rewrite(p), cfg, n, RwEs(e.elts), sc, t))
    ensures Mirrors(Eval(p, SOURCE, n, e, sc, Strip(t)), Eval(Rewrite(p), cfg, n, RwE(e), sc, t))
  {
    hide EvalAll, RwEs, Rewrite, Plain, StripFrame, Kept, KeepsReserved, Ticked, Lenient, Accepts, OwnNames;
  }

  lemma SimCompE(p: Program, cfg: Config, n: nat, e: Expr, sc: Scope, t: State)
    requires e.Comp? && Mirrors(EvalComp(p, SOURCE, n, e.elt, e.clauses, sc, Strip(t)),
                                EvalComp(Rewrite(p), cfg, n, RwE(e.elt), RwCs(e.clauses), sc, t))
    ensures Mirrors(Eval(p, SOURCE, n, e, sc, Strip(t)), Eval(Rewrite(p), cfg, n, RwE(e), sc, t))
  {
    hide EvalComp, RwCs, Rewrite, Plain, StripFrame, Kept, KeepsReserved, Ticked, Lenient, Accepts, OwnNames, Regular;
    var tr := EvalComp(Rewrite(p), cfg, n, RwE(e.elt), RwCs(e.clauses), sc, t);
    if tr.EOk? && Regular(tr.st) { RegularSame(tr.st, Alloc(ListO(tr.v), tr.st).st); }
  }

  /** Two operands, one after the other. */
  ghost predicate InTurn(p: Program, cfg: Config, n: nat, a: Expr, b: Expr, sc: Scope, t: State) {
    var ra := Eval(p, SOURCE, n, a, sc, Strip(t));
    var ta := Eval(Rewrite(p), cfg, n, RwE(a), sc, t);
    && Mirrors(ra, ta)
    && (ra.EOk? && ra.st.fits && ta.EOk? && !ta.st.meter.refused ==>
          Mirrors(Eval(p, SOURCE, n, b, sc, ra.st), Eval(Rewrite(p), cfg, n, RwE(b), sc, ta.st)))
  }

  lemma SimBin(p: Program, cfg: Config, n: nat, e: Expr, sc: Scope, t: State)
    requires e.Bin? && InTurn(p, cfg, n, e.left, e.right, sc, t)
    ensures Mirrors(Eval(p, SOURCE, n, e, sc, Strip(t)), Eval(Rewrite(p), cfg, n, RwE(e), sc, t))
  {
    hide Rewrite, Plain, StripFrame, Kept, KeepsReserved, Ticked, Lenient, Accepts, OwnNames, Binary, Regular;
    var ra, ta := Eval(p, SOURCE, n, e.left, sc, Strip(t)), Eval(Rewrite(p), cfg, n, RwE(e.left), sc, t);
    if ra.EOk? && ta.EOk? {
      var rb := Eval(p, SOURCE, n, e.right, sc, ra.st);
      var tb := Eval(Rewrite(p), cfg, n, RwE(e.right), sc, ta.st);
      if rb.EOk? && tb.EOk? { BinaryStripped(e.op, ta.v, tb.v, tb.st); }
      if tb.EOk? && Regular(tb.st) { RegularSame(tb.st, Binary(e.op, ta.v, tb.v, tb.st).st); }
    }
  }

  lemma SimOr(p: Program, cfg: Config, n: nat, e: Expr, sc: Scope, t: State)
    requires e.Or? && InTurn(p, cfg, n, e.left, e.right, sc, t)
    ensures Mirrors(Eval(p, SOURCE, n, e, sc, Strip(t)), Eval(Rewrite(p), cfg, n, RwE(e), sc, t))
  {
    hide Rewrite, Plain, Kept, KeepsReserved, Ticked, Lenient, Accepts, OwnNames, Truthy;
  }

  lemma SimPush(p: Program, cfg: Config, n: nat, e: Expr, sc: Scope, t: State)
    requires e.Push? && InTurn(p, cfg, n, e.list, e.item, sc, t)
    ensures Mirrors(Eval(p, SOURCE, n, e, sc, Strip(t)), Eval(Rewrite(p), cfg, n, RwE(e), sc, t))
  {
    hide Rewrite, Plain, StripFrame, Kept, KeepsReserved, Ticked, Lenient, Accepts, OwnNames, Regular, AppendItem;
    var ta := Eval(Rewrite(p), cfg, n, RwE(e.list), sc, t);
    if ta.EOk? {
      var tb := Eval(Rewrite(p), cfg, n, RwE(e.item), sc, ta.st);
      if tb.EOk? { AppendStripped(ta.v, tb.v, tb.st); }
      if tb.EOk? && Regular(tb.st) { RegularSame(tb.st, AppendItem(ta.v, tb.v, tb.st).st); }
    }
  }

  lemma {:induction false} SimTwo(p: Program, cfg: Config, n: nat, e: Expr, a: Expr, b: Expr, sc: Scope, t: State)
    requires Context(p, t) && AcceptsE(a) && AcceptsE(b) && a < e && b < e && NoReserved(sc.Keys)
    ensures InTurn(p, cfg, n, a, b, sc, t)
    decreases n, 1, e, 0
  {
    SimE(p, cfg, n, a, sc, t);
    var ra := Eval(p, SOURCE, n, a, sc, Strip(t));
    var ta := Eval(Rewrite(p), cfg, n, RwE(a), sc, t);
    if ra.EOk? && ra.st.fits && ta.EOk? && !ta.st.meter.refused {
      MirrorsOk(ra, ta);
      SimE(p, cfg, n, b, sc, ta.st);
    }
  }

  lemma MirrorsOk<T(!new)>(r: ER<T>, t: ER<T>)
    requires Mirrors(r, t) && r.EOk? && r.st.fits && !t.st.meter.refused
    ensures t.EOk? && t.v == r.v && r.st == Strip(t.st) && Regular(t.st)
  {
  }

  lemma {:induction false} SimEs(p: Program, cfg: Config, n: nat, es: seq<Expr>, sc: Scope, t: State)
    requires Context(p, t) && AcceptsEs(es) && NoReserved(sc.Keys)
    ensures Mirrors(EvalAll(p, SOURCE, n, es, sc, Strip(t)), EvalAll(Rewrite(p), cfg, n, RwEs(es), sc, t))
    decreases n, 1, es, 0
  {
    hide Rewrite, Plain, Kept, KeepsReserved, Ticked, Lenient, Accepts, OwnNames, Eval;
    if es != [] {
      SimE(p, cfg, n, es[0], sc, t);
      var r0 := Eval(p, SOURCE, n, es[0], sc, Strip(t));
      var t0 := Eval(Rewrite(p), cfg, n, RwE(es[0]), sc, t);
      assert RwEs(es)[1..] == RwEs(es[1..]);
      if r0.EOk? && r0.st.fits && !t0.st.meter.refused { SimEs(p, cfg, n, es[1..], sc, t0.st); }
    }
  }

  lemma {:induction false} SimCallE(p: Program, cfg: Config, n: nat, e: Expr, sc: Scope, t: State)
    requires e.Call? && Context(p, t) && AcceptsE(e) && NoReserved(sc.Keys)
    ensures Mirrors(Eval(p, SOURCE, n, e, sc, Strip(t)), Eval(Rewrite(p), cfg, n, RwE(e), sc, t))
    decreases n, 1, e, 0
  {
    hide Rewrite, Plain, Kept, KeepsReserved, Ticked, Lenient, Accepts, OwnNames, CallFn, EvalAll;
    SimE(p, cfg, n, e.fn, sc, t);
    var rf := Eval(p, SOURCE, n, e.fn, sc, Strip(t));
    var tf := Eval(Rewrite(p), cfg, n, RwE(e.fn), sc, t);
    if rf.EOk? && rf.st.fits && !tf.st.meter.refused {
      SimEs(p, cfg, n, e.args, sc, tf.st);
      var rs := EvalAll(p, SOURCE, n, e.args, sc, rf.st);
      var ts := EvalAll(Rewrite(p), cfg, n, RwEs(e.args), sc, tf.st);
      if rs.EOk? && rs.st.fits && !ts.st.meter.refused { SimCall(p, cfg, n, rf.v, rs.v, ts.st); }
    }
  }

  /** The function a value names, in the table and rewritten. */
  lemma DefsAre(p: Program, f: Val)
    requires Accepts(p) && OwnNames(p)
    ensures |Rewrite(p).defs| == |p.defs|
    ensures f.FunV? && f.id < |p.defs| ==>
      var d, k := p.defs[f.id], StartOf(p.defs, f.id);
      && AcceptsDef(d) && OwnDef(d) && AcceptsAll(d.body) && OwnAll(d.body)
      && Rewrite(p).defs[f.id] == RwDef(d, k)
      && RwDef(d, k).params == d.params && RwDef(d, k).body == PrependCheckpoint(RwAll(d.body, k).ss)
  {
    hide RwAll, PrependCheckpoint, StartOf;
  }

  lemma {:induction false} SimCall(p: Program, cfg: Config, n: nat, f: Val, args: seq<Val>, t: State)
    requires Context(p, t)
    ensures Mirrors(CallFn(p, SOURCE, n, f, args, Strip(t)), CallFn(Rewrite(p), cfg, n, f, args, t))
    decreases n, 0
  {
    hide Rewrite, Plain, StripFrame, Kept, KeepsReserved, Ticked, Lenient, Accepts, OwnNames;
    hide CallFn, CallState, CallOther, ExecAll, Returned, RwDef, RwAll, PrependCheckpoint, AcceptsAll, OwnAll, StartOf;
    hide Regular;
    CallIs(p, SOURCE, n, f, args, Strip(t));
    CallIs(Rewrite(p), cfg, n, f, args, t);
    DefsAre(p, f);
    OtherMirrors(p, cfg, f, args, t);
    if Enters(p, f, args) && n > 0 {
      var d := p.defs[f.id];
      var k := StartOf(p.defs, f.id);
      CallStripped(cfg, d, k, args, t);
      var t' := CallState(cfg, RwDef(d, k), args, t);
      SimBody(p, cfg, n - 1, d.body, k, t');
      var inner := ExecAll(Rewrite(p), cfg, n - 1, RwDef(d, k).body, t');
      ReturnedStripped(t, ExecAll(p, SOURCE, n - 1, d.body, Strip(t')), inner);
    }
  }

  /** A call that enters no function of the program. */
  lemma OtherMirrors(p: Program, cfg: Config, f: Val, args: seq<Val>, t: State)
    requires Regular(t)
    ensures Mirrors(CallOther(p, SOURCE, f, args, Strip(t)), CallOther(Rewrite(p), cfg, f, args, t))
  {
    hide Rewrite, Plain, StripFrame, Metered, Regular;
    var rt := CallOther(Rewrite(p), cfg, f, args, t);
    RegularSame(t, rt.st);
    if f.GateV? && f.gate.SetAttrGate? && |args| == 3 && args[1].StrV? {
      WriteStripped(args[0], args[1].s, args[2], t);
    }
  }

  lemma RegularReturned(t: State, rt: SR)
    requires Regular(t) && Regular(rt.st)
    ensures Regular(Returned(t, rt).st)
  {
    hide GateName;
    forall g ensures Stands(g, Returned(t, rt).st) { assert Stands(g, t) && Stands(g, rt.st); }
  }

  lemma ReturnedStripped(t: State, rs: SR, rt: SR)
    requires MirrorsS(rs, rt) && Regular(t)
    ensures Mirrors(Returned(Strip(t), rs), Returned(t, rt))
  {
    if Regular(rt.st) { RegularReturned(t, rt); }
    hide Regular;
  }

  lemma ClauseIter(cs: seq<Clause>)
    ensures |RwCs(cs)| == |cs|
    ensures cs != [] ==> RwCs(cs)[0].iter == RwE(cs[0].iter) && (AcceptsCs(cs) ==> AcceptsE(cs[0].iter))
  {
    hide RwE, RwEs, AcceptsE;
  }

  lemma {:induction false} SimComp(p: Program, cfg: Config, n: nat, elt: Expr, cs: seq<Clause>, sc: Scope, t: State)
    requires Context(p, t) && AcceptsE(elt) && AcceptsCs(cs) && NoReserved(sc.Keys)
    ensures Mirrors(EvalComp(p, SOURCE, n, elt, cs, sc, Strip(t)),
                    EvalComp(Rewrite(p), cfg, n, RwE(elt), RwCs(cs), sc, t))
    decreases n, 1, cs, 1
  {
    hide Rewrite, Plain, StripFrame, Kept, KeepsReserved, Ticked, Lenient, Accepts, OwnNames;
    hide Iterable, CompLoop, Eval, EvalComp, RwE, RwCs, AcceptsE, AcceptsCs;
    CompIs(p, SOURCE, n, elt, cs, sc, Strip(t));
    CompIs(Rewrite(p), cfg, n, RwE(elt), RwCs(cs), sc, t);
    ClauseIter(cs);
    if cs != [] {
      SimE(p, cfg, n, cs[0].iter, sc, t);
      var ri := Eval(p, SOURCE, n, cs[0].iter, sc, Strip(t));
      var ti := Eval(Rewrite(p), cfg, n, RwE(cs[0].iter), sc, t);
      if ri.EOk? && ri.st.fits && !ti.st.meter.refused && Iterable(ri.v, ri.st.heap) {
        SimLoop(p, cfg, n, elt, cs, sc, ri.v, 0, ti.st);
      }
    }
  }

  lemma JoinedMirrors(r0: ER<seq<Val>>, rs: ER<seq<Val>>, t0: ER<seq<Val>>, ts: ER<seq<Val>>)
    requires Mirrors(r0, t0) && (rs.st.fits ==> r0.st.fits) && (t0.st.meter.refused ==> ts.st.meter.refused)
    requires r0.EOk? && r0.st.fits && !t0.st.meter.refused ==> Mirrors(rs, ts)
    ensures Mirrors(Joined(r0, rs), Joined(t0, ts))
  {
    hide Plain, StripFrame;
  }

  lemma {:induction false} SimLoop(p: Program, cfg: Config, n: nat, elt: Expr, cs: seq<Clause>, sc: Scope,
                                   over: Val, i: nat, t: State)
    requires cs != [] && Context(p, t) && AcceptsE(elt) && AcceptsCs(cs) && NoReserved(sc.Keys)
    ensures Mirrors(CompLoop(p, SOURCE, n, elt, cs, sc, over, i, Strip(t)),
                    CompLoop(Rewrite(p), cfg, n, RwE(elt), RwCs(cs), sc, over, i, t))
    decreases n, 0
  {
    hide Rewrite, Plain, StripFrame, Kept, KeepsReserved, Ticked, Lenient, Accepts, AcceptsE, AcceptsCs, OwnNames;
    hide NextItem, CompLoop, CompItem, RwE, RwCs;
    var item := NextItem(over, i, t.heap);
    if item.None? || n == 0 {
      LoopStops(p, SOURCE, n, elt, cs, sc, over, i, Strip(t));
      LoopStops(Rewrite(p), cfg, n, RwE(elt), RwCs(cs), sc, over, i, t);
    } else {
      var sc' := sc[cs[0].target := item.value];
      ScopeGrows(cs, sc, item.value);
      SimItem(p, cfg, n - 1, elt, cs, sc', t);
      var r0 := CompItem(p, SOURCE, n - 1, elt, cs, sc', Strip(t));
      var t0 := CompItem(Rewrite(p), cfg, n - 1, RwE(elt), RwCs(cs), sc', t);
      if r0.EOk? && r0.st.fits && !t0.st.meter.refused { SimLoop(p, cfg, n - 1, elt, cs, sc, over, i + 1, t0.st); }
      LoopMirrors(p, cfg, n, elt, cs, sc, over, i, t);
    }
  }

  lemma ScopeGrows(cs: seq<Clause>, sc: Scope, v: Val)
    requires cs != [] && AcceptsCs(cs) && NoReserved(sc.Keys)
    ensures NoReserved(sc[cs[0].target := v].Keys)
  {
  }

  lemma LoopMirrors(p: Program, cfg: Config, n: nat, elt: Expr, cs: seq<Clause>, sc: Scope, over: Val, i: nat, t: State)
    requires cs != [] && n > 0 && NextItem(over, i, t.heap).Some?
    requires var sc' := sc[cs[0].target := NextItem(over, i, t.heap).value];
      var t0 := CompItem(Rewrite(p), cfg, n - 1, RwE(elt), RwCs(cs), sc', t);
      var r0 := CompItem(p, SOURCE, n - 1, elt, cs, sc', Strip(t));
      && Mirrors(r0, t0)
      && (r0.EOk? && r0.st.fits && !t0.st.meter.refused ==>
            Mirrors(CompLoop(p, SOURCE, n - 1, elt, cs, sc, over, i + 1, Strip(t0.st)),
                    CompLoop(Rewrite(p), cfg, n - 1, RwE(elt), RwCs(cs), sc, over, i + 1, t0.st)))
    ensures Mirrors(CompLoop(p, SOURCE, n, elt, cs, sc, over, i, Strip(t)),
                    CompLoop(Rewrite(p), cfg, n, RwE(elt), RwCs(cs), sc, over, i, t))
  {
    var q, ws, w := Rewrite(p), RwCs(cs), RwE(elt);
    hide Rewrite, Plain, Kept, KeepsReserved, Ticked, Lenient, NextItem, CompItem, CompLoop, RwE;
    var sc' := sc[cs[0].target := NextItem(over, i, t.heap).value];
    LoopUnfold(p, SOURCE, n, elt, cs, sc, over, i, Strip(t));
    LoopUnfold(q, cfg, n, w, ws, sc, over, i, t);
    var r0 := CompItem(p, SOURCE, n - 1, elt, cs, sc', Strip(t));
    var t0 := CompItem(q, cfg, n - 1, w, ws, sc', t);
    JoinedMirrors(r0, CompLoop(p, SOURCE, n - 1, elt, cs, sc, over, i + 1, r0.st),
                  t0, CompLoop(q, cfg, n - 1, w, ws, sc, over, i + 1, t0.st));
  }

  lemma ClauseIs(cs: seq<Clause>)
    requires cs != []
    ensures RwCs(cs)[0].ifs == [ALWAYS] + RwEs(cs[0].ifs) && RwCs(cs)[1..] == RwCs(cs[1..])
  {
    hide RwEs, RwE;
  }

  lemma {:induction false} SimItem(p: Program, cfg: Config, n: nat, elt: Expr, cs: seq<Clause>, sc: Scope, t: State)
    requires cs != [] && Context(p, t) && AcceptsE(elt) && AcceptsCs(cs) && NoReserved(sc.Keys)
    ensures Mirrors(CompItem(p, SOURCE, n, elt, cs, sc, Strip(t)),
                    CompItem(Rewrite(p), cfg, n, RwE(elt), RwCs(cs), sc, t))
    decreases n, 2
  {
    hide Rewrite, Plain, StripFrame, Kept, KeepsReserved, Ticked, Lenient, Accepts, OwnNames;
    hide RwE, RwEs, RwCs, AcceptsE, Eval, EvalComp, Filters, CompItem, ItemRest;
    var q, ws := Rewrite(p), RwCs(cs);
    ClauseIs(cs);
    SimClause(p, cfg, n, cs[0].ifs, sc, t);
    var rc := Filters(p, SOURCE, n, cs[0].ifs, sc, Strip(t));
    var tc := Filters(q, cfg, n, ws[0].ifs, sc, t);
    ItemUnfold(p, SOURCE, n, elt, cs, sc, Strip(t));
    ItemUnfold(q, cfg, n, RwE(elt), ws, sc, t);
    var rr, tr := ItemRest(p, SOURCE, n, elt, cs, sc, rc.st), ItemRest(q, cfg, n, RwE(elt), ws, sc, tc.st);
    if rc.EOk? && rc.st.fits && !tc.st.meter.refused {
      if |cs| > 1 { SimComp(p, cfg, n, elt, cs[1..], sc, tc.st); }
      else { SimE(p, cfg, n, elt, sc, tc.st); }
      RestMirrors(p, cfg, n, elt, cs, sc, rc.st, tc.st);
    }
    RestGrew(p, SOURCE, n, elt, cs, sc, rc.st);
    RestGrew(q, cfg, n, RwE(elt), ws, sc, tc.st);
    FilteredMirrors(rc, rr, tc, tr);
  }

  lemma RestMirrors(p: Program, cfg: Config, n: nat, elt: Expr, cs: seq<Clause>, sc: Scope, st: State, t: State)
    requires cs != [] && st == Strip(t)
    requires |cs| > 1 ==> Mirrors(EvalComp(p, SOURCE, n, elt, cs[1..], sc, Strip(t)),
                                  EvalComp(Rewrite(p), cfg, n, RwE(elt), RwCs(cs[1..]), sc, t))
    requires |cs| == 1 ==> Mirrors(Eval(p, SOURCE, n, elt, sc, Strip(t)),
                                   Eval(Rewrite(p), cfg, n, RwE(elt), sc, t))
    ensures Mirrors(ItemRest(p, SOURCE, n, elt, cs, sc, st),
                    ItemRest(Rewrite(p), cfg, n, RwE(elt), RwCs(cs), sc, t))
  {
    assert RwCs(cs)[1..] == RwCs(cs[1..]);
    hide RwE, RwCs, Eval, EvalComp, Rewrite, Strip, Grew;
  }

  lemma FilteredMirrors(rc: ER<bool>, rr: ER<seq<Val>>, tc: ER<bool>, tr: ER<seq<Val>>)
    requires Mirrors(rc, tc) && (rr.st.fits ==> rc.st.fits) && (tc.st.meter.refused ==> tr.st.meter.refused)
    requires rc.EOk? && rc.st.fits && !tc.st.meter.refused ==> Mirrors(rr, tr)
    ensures Mirrors(Filtered(rc, rr), Filtered(tc, tr))
  {
    hide Strip;
  }

  /** The injected filter changes nothing but the meter. */
  lemma {:induction false} SimClause(p: Program, cfg: Config, n: nat, ifs: seq<Expr>, sc: Scope, t: State)
    requires Context(p, t) && AcceptsEs(ifs) && NoReserved(sc.Keys)
    ensures Mirrors(Filters(p, SOURCE, n, ifs, sc, Strip(t)),
                    Filters(Rewrite(p), cfg, n, [ALWAYS] + RwEs(ifs), sc, t))
    decreases n, 1, ifs, 1
  {
    var all := [ALWAYS] + RwEs(ifs);
    Opens(CheckpointGate, sc, t);
    FiltersStep(Rewrite(p), cfg, n, all, sc, t);
    assert all[1..] == RwEs(ifs);
    var r := DoCheckpoint(cfg, t);
    RegularSame(t, r.st);
    if r.EOk? { SimIfs(p, cfg, n, ifs, sc, r.st); }
  }

  lemma {:induction false} SimIfs(p: Program, cfg: Config, n: nat, ifs: seq<Expr>, sc: Scope, t: State)
    requires Context(p, t) && AcceptsEs(ifs) && NoReserved(sc.Keys)
    ensures Mirrors(Filters(p, SOURCE, n, ifs, sc, Strip(t)), Filters(Rewrite(p), cfg, n, RwEs(ifs), sc, t))
    decreases n, 1, ifs, 0
  {
    hide Rewrite, Plain, Kept, KeepsReserved, Ticked, Lenient, Accepts, OwnNames, Truthy, Eval;
    if ifs != [] {
      SimE(p, cfg, n, ifs[0], sc, t);
      var r0 := Eval(p, SOURCE, n, ifs[0], sc, Strip(t));
      var t0 := Eval(Rewrite(p), cfg, n, RwE(ifs[0]), sc, t);
      assert RwEs(ifs)[1..] == RwEs(ifs[1..]);
      if r0.EOk? && r0.st.fits && !t0.st.meter.refused && Truthy(r0.v, r0.st.heap) {
        SimIfs(p, cfg, n, ifs[1..], sc, t0.st);
      }
    }
  }

  // ----- sequences of statements -----

  /** A body with its checkpoint is the body, after the checkpoint. */
  lemma PrependRuns(q: Program, cfg: Config, n: nat, body: seq<Stmt>, t: State)
    requires Stands(CheckpointGate, t)
    ensures var r := DoCheckpoint(cfg, t);
      ExecAll(q, cfg, n, PrependCheckpoint(body), t) ==
        if r.EOk? then ExecAll(q, cfg, n, body, r.st) else SExc(r.e, r.st)
  {
    var b := PrependCheckpoint(body);
    assert Headed(b);
    BodySteps(q, cfg, n, b, t);
    var r := DoCheckpoint(cfg, t);
    if body != [] && IsDocstring(body[0]) {
      assert AfterHead(b) == body[1..];
      if r.EOk? { assert Exec(q, cfg, n, body[0], r.st) == SNext(r.st); }
    } else {
      assert AfterHead(b) == body;
    }
  }

  lemma {:induction false} SimBody(p: Program, cfg: Config, n: nat, body: seq<Stmt>, k: nat, t: State)
    requires Context(p, t) && AcceptsAll(body) && OwnAll(body)
    ensures MirrorsS(ExecAll(p, SOURCE, n, body, Strip(t)),
                     ExecAll(Rewrite(p), cfg, n, PrependCheckpoint(RwAll(body, k).ss), t))
    decreases n, 1, body, 1
  {
    PrependRuns(Rewrite(p), cfg, n, RwAll(body, k).ss, t);
    var r := DoCheckpoint(cfg, t);
    RegularSame(t, r.st);
    if r.EOk? { SimAll(p, cfg, n, body, k, r.st); }
  }

  lemma {:induction false} SimAll(p: Program, cfg: Config, n: nat, ss: seq<Stmt>, k: nat, t: State)
    requires Context(p, t) && AcceptsAll(ss) && OwnAll(ss)
    ensures MirrorsS(ExecAll(p, SOURCE, n, ss, Strip(t)), ExecAll(Rewrite(p), cfg, n, RwAll(ss, k).ss, t))
    decreases n, 1, ss, 0
  {
    hide Rewrite, Plain, Kept, KeepsReserved, Ticked, Lenient, Accepts, OwnNames, Exec;
    if ss != [] {
      var q := Rewrite(p);
      var w0 := RwS(ss[0], k);
      var ws := RwAll(ss[1..], w0.k);
      SimS(p, cfg, n, ss[0], k, t);
      ExecJoin(q, cfg, n, w0.ss, ws.ss, t);
      var r0 := Exec(p, SOURCE, n, ss[0], Strip(t));
      var t0 := ExecAll(q, cfg, n, w0.ss, t);
      if r0.SNext? && r0.st.fits && !t0.st.meter.refused { SimAll(p, cfg, n, ss[1..], w0.k, t0.st); }
    }
  }

  /** A loop or a `try` is written as one statement of its kind. */
  lemma OneBlock(p: Program, cfg: Config, n: nat, s: Stmt, k: nat, t: State)
    requires s.While? || s.For? || s.Try?
    ensures |RwS(s, k).ss| == 1
    ensures ExecAll(Rewrite(p), cfg, n, RwS(s, k).ss, t) == Exec(Rewrite(p), cfg, n, RwS(s, k).ss[0], t)
    ensures var q, w := Rewrite(p), RwS(s, k).ss[0];
      && (s.While? ==> w.While? && Exec(q, cfg, n, w, t) == ExecWhile(q, cfg, n, w, t))
      && (s.Try? ==> w.Try? && Exec(q, cfg, n, w, t) == ExecTry(q, cfg, n, w, t))
    ensures s.While? ==> Exec(p, SOURCE, n, s, Strip(t)) == ExecWhile(p, SOURCE, n, s, Strip(t))
    ensures s.Try? ==> Exec(p, SOURCE, n, s, Strip(t)) == ExecTry(p, SOURCE, n, s, Strip(t))
  {
    hide Rewrite, Strip, Ran, RwAll, RwHs, RwE, ExecAll, ExecWhile, ExecTry, ForLoop, Eval;
    var w := RwS(s, k).ss[0];
    assert RwS(s, k).ss == [w];
    ExecOne(Rewrite(p), cfg, n, w, t);
  }

  lemma SimpleIs(s: Stmt, k: nat)
    requires s.ExprS? || s.Return? || s.Raise? || s.Break? || s.Continue?
    ensures var ws := RwS(s, k).ss;
      && ws == [ws[0]]
      && ws[0] == if s.ExprS? then ExprS(RwE(s.e)) else if s.Return? then Return(RwE(s.value)) else s
  {
    hide RwE;
  }

  /** Statements with one expression or none. */
  lemma {:induction false} SimSimple(p: Program, cfg: Config, n: nat, s: Stmt, k: nat, t: State)
    requires Context(p, t) && AcceptsS(s)
    requires s.ExprS? || s.Return? || s.Raise? || s.Break? || s.Continue?
    ensures MirrorsS(Exec(p, SOURCE, n, s, Strip(t)), ExecAll(Rewrite(p), cfg, n, RwS(s, k).ss, t))
    decreases n, 1, s, 2
  {
    hide Rewrite, Plain, StripFrame, Kept, KeepsReserved, Ticked, Lenient, Accepts, OwnNames;
    hide Eval, Exec, ExecAll, RwE, RwS, AcceptsE;
    SimpleIs(s, k);
    var q, w := Rewrite(p), RwS(s, k).ss[0];
    ExecOne(q, cfg, n, w, t);
    SimpleRuns(p, SOURCE, n, s, Strip(t));
    SimpleRuns(q, cfg, n, w, t);
    if s.ExprS? { SimE(p, cfg, n, s.e, map[], t); }
    if s.Return? { SimE(p, cfg, n, s.value, map[], t); }
  }

  lemma IfIs(p: Program, cfg: Config, n: nat, s: Stmt, k: nat, st: State)
    requires s.If?
    ensures var rc := Eval(p, cfg, n, s.cond, map[], st);
      Exec(p, cfg, n, s, st) == Branch(rc, ExecAll(p, cfg, n, s.thn, rc.st), ExecAll(p, cfg, n, s.els, rc.st))
    ensures var ra := RwAll(s.thn, k);
      RwS(s, k).ss == [If(RwE(s.cond), ra.ss, RwAll(s.els, ra.k).ss)]
  {
    hide Ran, Grew, Eval, ExecAll, RwE, RwAll, Truthy;
  }

  lemma BranchMirrors(rc: ER<Val>, a: SR, b: SR, tc: ER<Val>, u: SR, v: SR)
    requires Mirrors(rc, tc)
    requires (a.st.fits ==> rc.st.fits) && (b.st.fits ==> rc.st.fits)
    requires (tc.st.meter.refused ==> u.st.meter.refused) && (tc.st.meter.refused ==> v.st.meter.refused)
    requires rc.EOk? && rc.st.fits && !tc.st.meter.refused ==>
      if Truthy(rc.v, rc.st.heap) then MirrorsS(a, u) else MirrorsS(b, v)
    ensures MirrorsS(Branch(rc, a, b), Branch(tc, u, v))
  {
    assert rc.st == Strip(tc.st) ==> rc.st.heap == tc.st.heap;
    hide Strip, Truthy;
  }

  lemma {:induction false} SimIf(p: Program, cfg: Config, n: nat, s: Stmt, k: nat, t: State)
    requires Context(p, t) && AcceptsS(s) && OwnS(s) && s.If?
    ensures MirrorsS(Exec(p, SOURCE, n, s, Strip(t)), ExecAll(Rewrite(p), cfg, n, RwS(s, k).ss, t))
    decreases n, 1, s, 2
  {
    hide Rewrite, Plain, StripFrame, Kept, KeepsReserved, Ticked, Lenient, Accepts, OwnNames;
    hide Eval, Exec, ExecAll, RwE, RwAll, RwS, Truthy, AcceptsE, AcceptsAll, OwnAll;
    var q := Rewrite(p);
    var ra := RwAll(s.thn, k);
    var rb := RwAll(s.els, ra.k);
    var w := If(RwE(s.cond), ra.ss, rb.ss);
    IfIs(p, SOURCE, n, s, k, Strip(t));
    IfIs(q, cfg, n, w, k, t);
    ExecOne(q, cfg, n, w, t);
    SimE(p, cfg, n, s.cond, map[], t);
    var rc := Eval(p, SOURCE, n, s.cond, map[], Strip(t));
    var tc := Eval(q, cfg, n, RwE(s.cond), map[], t);
    if rc.EOk? && rc.st.fits && !tc.st.meter.refused {
      SimAll(p, cfg, n, s.thn, k, tc.st);
      SimAll(p, cfg, n, s.els, ra.k, tc.st);
    }
    BranchMirrors(rc, ExecAll(p, SOURCE, n, s.thn, rc.st), ExecAll(p, SOURCE, n, s.els, rc.st),
                  tc, ExecAll(q, cfg, n, ra.ss, tc.st), ExecAll(q, cfg, n, rb.ss, tc.st));
  }

  lemma {:induction false} SimS(p: Program, cfg: Config, n: nat, s: Stmt, k: nat, t: State)
    requires Context(p, t) && AcceptsS(s) && OwnS(s)
    ensures MirrorsS(Exec(p, SOURCE, n, s, Strip(t)), ExecAll(Rewrite(p), cfg, n, RwS(s, k).ss, t))
    decreases n, 1, s, 3
  {
    hide Rewrite, Plain, StripFrame, Kept, KeepsReserved, Ticked, Lenient, Accepts, OwnNames;
    hide Eval, Exec, ExecAll, RwE, RwAll, RwS;
    match s
    case Assign(_, _) => SimAssign(p, cfg, n, s, k, t);
    case AugName(_, _, _) => SimAugName(p, cfg, n, s, k, t);
    case AugAttr(_, _, _, _) => SimAugAttr(p, cfg, n, s, k, t);
    case Def(_, _) => SimDef(p, cfg, n, s, k, t);
    case If(_, _, _) => SimIf(p, cfg, n, s, k, t);
    case While(_, _, _) => SimWhile(p, cfg, n, s, k, t); OneBlock(p, cfg, n, s, k, t);
    case For(_, _, _, _) => SimForS(p, cfg, n, s, k, t); OneBlock(p, cfg, n, s, k, t);
    case Try(_, _, _, _) => SimTry(p, cfg, n, s, k, t); OneBlock(p, cfg, n, s, k, t);
    case _ => SimSimple(p, cfg, n, s, k, t);
  }

  lemma DefIs(p: Program, cfg: Config, n: nat, s: Stmt, k: nat, st: State)
    requires s.Def?
    ensures RwS(s, k).ss == [s] + [Assign([TName(s.name)], GCapture(Name(s.name)))]
    ensures Exec(p, cfg, n, s, st) == SNext(Store(s.name, FunV(s.id), st))
  {
    hide Ran, Store;
  }

  lemma NameLoads(q: Program, cfg: Config, n: nat, x: string, u: State)
    ensures Eval(q, cfg, n, Name(x), map[], u) == Load(x, map[], u)
  {
    hide Grew, Load;
  }

  lemma SimDef(p: Program, cfg: Config, n: nat, s: Stmt, k: nat, t: State)
    requires s.Def? && Context(p, t) && OwnS(s)
    ensures MirrorsS(Exec(p, SOURCE, n, s, Strip(t)), ExecAll(Rewrite(p), cfg, n, RwS(s, k).ss, t))
  {
    hide Rewrite, Plain, StripFrame, Kept, KeepsReserved, Ticked, Lenient, Accepts, OwnNames;
    hide Eval, Exec, ExecAll, Store, Load, RwS, Ran, Regular;
    var q := Rewrite(p);
    var Def(f, id) := s;
    var again := Assign([TName(f)], GCapture(Name(f)));
    var u := Store(f, FunV(id), t);
    StoreStripped(f, FunV(id), t);
    LoadStored(f, FunV(id), t);
    DefIs(p, SOURCE, n, s, k, Strip(t));
    DefIs(q, cfg, n, s, k, t);
    ExecJoin(q, cfg, n, [s], [again], t);
    ExecOne(q, cfg, n, s, t);
    ExecOne(q, cfg, n, again, u);
    RegularStored(f, FunV(id), t);
    RegularStored(f, FunV(id), u);
    Opens(CaptureGate, map[], u);
    CaptureIs(q, cfg, n, Name(f), map[], u);
    NameLoads(q, cfg, n, f, u);
    StoreName(q, cfg, n, f, GCapture(Name(f)), u);
  }

  // ----- assignment -----

  lemma {:induction false} SimAssign(p: Program, cfg: Config, n: nat, s: Stmt, k: nat, t: State)
    requires s.Assign? && Context(p, t) && AcceptsS(s)
    ensures MirrorsS(Exec(p, SOURCE, n, s, Strip(t)), ExecAll(Rewrite(p), cfg, n, RwS(s, k).ss, t))
    decreases n, 1, s, 2
  {
    var Assign(ts, e) := s;
    SimE(p, cfg, n, e, map[], t);
    if !HasAttr(ts) {
      SimPlainAssign(p, cfg, n, s, k, t);
    } else if NeedsTmp(ts) {
      SimTmpAssign(p, cfg, n, s, k, t);
    } else {
      SimSingle(p, cfg, n, s, k, t);
    }
  }

  /** Targets with no attribute in them are assigned as they stand. */
  lemma PlainWritten(s: Stmt, k: nat)
    requires s.Assign? && !HasAttr(s.targets)
    ensures RwS(s, k).ss == [Assign(s.targets, RwE(s.value))]
  {
    hide RwE;
  }

  lemma PlainIs(p: Program, cfg: Config, n: nat, s: Stmt, st: State)
    requires s.Assign? && !HasAttr(s.targets)
    ensures var rv := Eval(p, cfg, n, s.value, map[], st);
      && Exec(p, cfg, n, s, st) ==
         (if rv.EOk? then Ended(AssignSame(p, cfg, n, s.targets, rv.v, rv.st)) else Broke(rv))
      && (Exec(p, cfg, n, s, st).st.fits ==> rv.st.fits)
      && (rv.st.meter.refused ==> Exec(p, cfg, n, s, st).st.meter.refused)
  {
    var rv := Eval(p, cfg, n, s.value, map[], st);
    var ts := s.targets;
    assert |ts| > 0 && ts[0].TAttr? ==> HasAttr(ts);
    assert Clear(rv.st, true) == rv.st;
    hide Eval, AssignSame, KeepsReserved, Ticked, Lenient, HasAttr;
    assert Exec(p, cfg, n, s, st) == ExecAssign(p, cfg, n, s, st);
  }

  lemma SimPlainAssign(p: Program, cfg: Config, n: nat, s: Stmt, k: nat, t: State)
    requires s.Assign? && Context(p, t) && AcceptsS(s) && !HasAttr(s.targets)
    requires Mirrors(Eval(p, SOURCE, n, s.value, map[], Strip(t)),
                     Eval(Rewrite(p), cfg, n, RwE(s.value), map[], t))
    ensures MirrorsS(Exec(p, SOURCE, n, s, Strip(t)), ExecAll(Rewrite(p), cfg, n, RwS(s, k).ss, t))
  {
    hide Rewrite, Plain, StripFrame, Kept, KeepsReserved, Ticked, Lenient, Accepts, OwnNames;
    hide Eval, Exec, ExecAll, AssignSame, RwE, RwS, HasAttr, AcceptsE;
    var Assign(ts, e) := s;
    var q := Rewrite(p);
    var w := Assign(ts, RwE(e));
    PlainWritten(s, k);
    ExecOne(q, cfg, n, w, t);
    PlainIs(p, SOURCE, n, s, Strip(t));
    PlainIs(q, cfg, n, w, t);
    var rv := Eval(p, SOURCE, n, e, map[], Strip(t));
    var tv := Eval(q, cfg, n, RwE(e), map[], t);
    if rv.EOk? && rv.st.fits && !tv.st.meter.refused { SimPlainSame(p, cfg, n, ts, rv.v, tv.st); }
  }

  lemma {:induction false} SimPlainTo(p: Program, cfg: Config, n: nat, tg: Target, v: Val, t: State)
    requires AcceptsTs([tg]) && !HasAttr([tg]) && Regular(t)
    ensures Mirrors(AssignTo(p, SOURCE, n, tg, v, Strip(t)), AssignTo(Rewrite(p), cfg, n, tg, v, t))
    decreases tg, 1
  {
    match tg
    case TName(x) => StoreStripped(x, v, t); RegularStored(x, v, t);
    case TTup(us) =>
      var ru := Unpack(v, |us|, t);
      assert Unpack(v, |us|, Strip(t)).EOk? == ru.EOk?;
      if ru.EOk? { SimPlainEach(p, cfg, n, us, ru.v, t); }
  }

  lemma {:induction false} SimPlainEach(p: Program, cfg: Config, n: nat, ts: seq<Target>, vs: seq<Val>, t: State)
    requires |ts| == |vs| && AcceptsTs(ts) && !HasAttr(ts) && Regular(t)
    ensures Mirrors(AssignEach(p, SOURCE, n, ts, vs, Strip(t)), AssignEach(Rewrite(p), cfg, n, ts, vs, t))
    decreases ts, 0
  {
    if ts != [] {
      assert [ts[0]][1..] == [];
      SimPlainTo(p, cfg, n, ts[0], vs[0], t);
      var r0 := AssignTo(p, SOURCE, n, ts[0], vs[0], Strip(t));
      var t0 := AssignTo(Rewrite(p), cfg, n, ts[0], vs[0], t);
      if r0.EOk? && r0.st.fits && !t0.st.meter.refused { SimPlainEach(p, cfg, n, ts[1..], vs[1..], t0.st); }
    }
  }

  lemma {:induction false} SimPlainSame(p: Program, cfg: Config, n: nat, ts: seq<Target>, v: Val, t: State)
    requires AcceptsTs(ts) && !HasAttr(ts) && Regular(t)
    ensures Mirrors(AssignSame(p, SOURCE, n, ts, v, Strip(t)), AssignSame(Rewrite(p), cfg, n, ts, v, t))
  {
    hide Rewrite, Plain, StripFrame, Regular, AssignTo, KeepsReserved, Ticked, Lenient;
    if ts != [] {
      assert [ts[0]][1..] == [];
      SimPlainTo(p, cfg, n, ts[0], v, t);
      var r0 := AssignTo(p, SOURCE, n, ts[0], v, Strip(t));
      var t0 := AssignTo(Rewrite(p), cfg, n, ts[0], v, t);
      if r0.EOk? && r0.st.fits && !t0.st.meter.refused { SimPlainSame(p, cfg, n, ts[1..], v, t0.st); }
    }
  }

  /** `o.a = e` becomes one call, which evaluates `o` first. */
  lemma {:induction false} SimSingle(p: Program, cfg: Config, n: nat, s: Stmt, k: nat, t: State)
    requires s.Assign? && Context(p, t) && AcceptsS(s) && HasAttr(s.targets) && !NeedsTmp(s.targets)
    ensures MirrorsS(Exec(p, SOURCE, n, s, Strip(t)), ExecAll(Rewrite(p), cfg, n, RwS(s, k).ss, t))
    decreases n, 1, s, 1
  {
    var Assign(ts, e) := s;
    var q := Rewrite(p);
    assert |ts| == 1 && ts[0].TAttr? by { assert ts[1..] == []; }
    var TAttr(o, a) := ts[0];
    var call := GSetAttr(RwE(o), a, RwE(e));
    assert RwS(s, k).ss == [ExprS(call)] by {
      assert ts[1..] == [];
      assert EmitAll(ts, RwE(e)) == Emit(ts[0], RwE(e)) + [];
    }
    ExecOne(q, cfg, n, ExprS(call), t);
    assert AcceptsE(o);
    SimE(p, cfg, n, o, map[], t);
    var ro := Eval(p, SOURCE, n, o, map[], Strip(t));
    var to := Eval(q, cfg, n, RwE(o), map[], t);
    TameRewrite(p);
    RegularEval(q, cfg, n, RwE(o), map[], t);
    if ro.EOk? && to.EOk? && !to.st.meter.refused && Strip(to.st) == ro.st { SimE(p, cfg, n, e, map[], to.st); }
    SingleSame(p, cfg, n, s, t, call);
  }

  /** The object, then the value, then the write. */
  function Written(a: string, o: ER<Val>, v: ER<Val>): SR {
    if !o.EOk? then Broke(o)
    else if !v.EOk? then Broke(v)
    else
      var w := WriteAttr(o.v, a, v.v, v.st);
      if w.EOk? then SNext(w.st) else Broke(w)
  }

  /** A source assignment that fits is what it would be with the object first. */
  lemma SourceOther(p: Program, n: nat, s: Stmt, st: State)
    requires s.Assign? && |s.targets| == 1 && s.targets[0].TAttr?
    ensures var rs := ExecAssign(p, SOURCE, n, s, st);
      var ro := Eval(p, SOURCE, n, s.targets[0].obj, map[], st);
      var ov := if ro.EOk? then Eval(p, SOURCE, n, s.value, map[], ro.st) else ro;
      !rs.SDeep? && rs.st.fits ==> rs == Written(s.targets[0].attr, ro, ov) && !ro.EDeep? && !ov.EDeep?
  {
    hide Eval, Grew, Ran;
    var o := s.targets[0].obj;
    var rs := ExecAssign(p, SOURCE, n, s, st);
    var rv, ro := Eval(p, SOURCE, n, s.value, map[], st), Eval(p, SOURCE, n, o, map[], st);
    var vo := if rv.EOk? then Eval(p, SOURCE, n, o, map[], rv.st) else rv;
    var ov := if ro.EOk? then Eval(p, SOURCE, n, s.value, map[], ro.st) else ro;
    if !rs.SDeep? && rs.st.fits {
      assert SameEitherWay(vo, rv, ov, ro);
      assert Clear(ov.st, true) == ov.st && Clear(vo.st, true) == vo.st && Clear(rv.st, true) == rv.st;
    }
  }

  /** The policy lets a gate do what it stands for, or refuses. */
  lemma GateOrRefused(cfg: Config, v: Val, a: string, x: Val, t: State)
    ensures GateRead(cfg, v, a, t) == ReadAttr(v, a, t) || GateRead(cfg, v, a, t).st.meter.refused
    ensures GateWrite(cfg, v, a, x, t) == WriteAttr(v, a, x, t) || GateWrite(cfg, v, a, x, t).st.meter.refused
    ensures Permits(cfg) ==> GateWrite(cfg, v, a, x, t) == WriteAttr(v, a, x, t)
  {
  }

  lemma TargetOther(q: Program, cfg: Config, n: nat, a: string, o: Expr, e: Expr, t: State)
    requires Regular(t)
    ensures var to := Eval(q, cfg, n, o, map[], t);
      var r := Exec(q, cfg, n, ExprS(GSetAttr(o, a, e)), t);
      && var w := Written(a, to, if to.EOk? then Eval(q, cfg, n, e, map[], to.st) else to);
         (r.st.meter.refused || r == w) && (Permits(cfg) ==> r == w)
  {
    hide Grew, Ran, WriteAttr, GateWrite, Eval, Regular;
    Opens(SetAttrGate, map[], t);
    SetAttrIs(q, cfg, n, o, a, e, map[], t);
    var to := Eval(q, cfg, n, o, map[], t);
    if to.EOk? {
      var tv := Eval(q, cfg, n, e, map[], to.st);
      if tv.EOk? { GateOrRefused(cfg, to.v, a, tv.v, tv.st); }
    }
    SimpleRuns(q, cfg, n, ExprS(GSetAttr(o, a, e)), t);
  }

  lemma WrittenGrew(a: string, o: ER<Val>, v: ER<Val>)
    requires !o.EOk? ==> v == o
    ensures Written(a, o, v).st.fits == v.st.fits && Written(a, o, v).st.meter == v.st.meter
  {
    hide WriteAttr;
  }

  lemma WrittenMirrors(a: string, ro: ER<Val>, ov: ER<Val>, to: ER<Val>, tv: ER<Val>)
    requires Mirrors(ro, to) && (!ro.EOk? ==> ov == ro) && (!to.EOk? ==> tv == to)
    requires (ov.st.fits ==> ro.st.fits) && (to.st.meter.refused ==> tv.st.meter.refused)
    requires ro.EOk? && to.EOk? && !to.st.meter.refused && Strip(to.st) == ro.st ==> Mirrors(ov, tv)
    ensures Written(a, ro, ov).SDeep? || MirrorsS(Written(a, ro, ov), Written(a, to, tv))
  {
    WrittenGrew(a, ro, ov);
    WrittenGrew(a, to, tv);
    if ov.EOk? && tv.EOk? { WriteStripped(ro.v, a, ov.v, tv.st); }
    if to.EOk? && tv.EOk? && Regular(tv.st) { RegularSame(tv.st, WriteAttr(to.v, a, tv.v, tv.st).st); }
    hide WriteAttr, Plain, StripFrame, Regular;
  }

  lemma SingleSame(p: Program, cfg: Config, n: nat, s: Stmt, t: State, call: Expr)
    requires Regular(t) && s.Assign? && |s.targets| == 1 && s.targets[0].TAttr?
    requires call == GSetAttr(RwE(s.targets[0].obj), s.targets[0].attr, RwE(s.value))
    requires var ro := Eval(p, SOURCE, n, s.targets[0].obj, map[], Strip(t));
      var to := Eval(Rewrite(p), cfg, n, RwE(s.targets[0].obj), map[], t);
      && Mirrors(ro, to)
      && (ro.EOk? && to.EOk? && !to.st.meter.refused && Strip(to.st) == ro.st ==>
            Mirrors(Eval(p, SOURCE, n, s.value, map[], ro.st), Eval(Rewrite(p), cfg, n, RwE(s.value), map[], to.st)))
    ensures MirrorsS(ExecAssign(p, SOURCE, n, s, Strip(t)), Exec(Rewrite(p), cfg, n, ExprS(call), t))
  {
    var q := Rewrite(p);
    var TAttr(o, a) := s.targets[0];
    SourceOther(p, n, s, Strip(t));
    TargetOther(q, cfg, n, a, RwE(o), RwE(s.value), t);
    hide Rewrite, Plain, StripFrame, Kept, KeepsReserved, Ticked, Lenient, Accepts, OwnNames;
    hide Eval, Exec, ExecAssign, RwE;
    var ro := Eval(p, SOURCE, n, o, map[], Strip(t));
    var to := Eval(q, cfg, n, RwE(o), map[], t);
    var ov := if ro.EOk? then Eval(p, SOURCE, n, s.value, map[], ro.st) else ro;
    var tv := if to.EOk? then Eval(q, cfg, n, RwE(s.value), map[], to.st) else to;
    WrittenGrew(a, ro, ov);
    WrittenGrew(a, to, tv);
    WrittenMirrors(a, ro, ov, to, tv);
  }

  // ----- assignment through a temporary -----

  /** What an expression `tmp[i][j]...` stands for when the temporary `x` holds `v`. */
  function PathVal(from: Expr, x: string, v: Val): Option<Val> {
    match from
    case Name(y) => if y == x then Some(v) else None
    case Item(f, i) =>
      var w := PathVal(f, x, v);
      if w.Some? && w.value.TupV? && i < |w.value.items| then Some(w.value.items[i]) else None
    case _ => None
  }

  lemma {:induction false} PathEval(q: Program, cfg: Config, n: nat, from: Expr, x: string, v: Val, t: State)
    requires Holds(t, x, v) && PathVal(from, x, v).Some?
    ensures Eval(q, cfg, n, from, map[], t) == EOk(PathVal(from, x, v).value, t)
    decreases from
  {
    match from
    case Name(_) =>
    case Item(f, i) => PathEval(q, cfg, n, f, x, v, t);
  }

  /** An assignment and the ones after it, in the source and as written. */
  function AssignThen(r0: ER<Val>, rest: ER<Val>): ER<Val> { if r0.EOk? then rest else r0 }

  function WrittenThen(t0: SR, rest: SR): SR { if t0.SNext? then rest else t0 }

  lemma ThenMirrors(r0: ER<Val>, rr: ER<Val>, t0: SR, tr: SR)
    requires MirrorsA(r0, t0) && (rr.st.fits ==> r0.st.fits) && (t0.st.meter.refused ==> tr.st.meter.refused)
    requires r0.EOk? && r0.st.fits && !t0.st.meter.refused ==> MirrorsA(rr, tr)
    ensures MirrorsA(AssignThen(r0, rr), WrittenThen(t0, tr))
  {
    hide Strip;
  }

  /** What running on keeps: an unfit run stays so, and so does a refused one. */
  lemma RanOn(p: Program, cfg: Config, n: nat, ss: seq<Stmt>, st: State)
    ensures var r := ExecAll(p, cfg, n, ss, st); st.meter.refused ==> r.st.meter.refused
  {
    assert Ran(p, cfg, st, ExecAll(p, cfg, n, ss, st).st);
    hide ExecAll, KeepsReserved, Ticked;
  }

  lemma SameUnfold(p: Program, n: nat, ts: seq<Target>, v: Val, st: State)
    requires ts != []
    ensures var r0 := AssignTo(p, SOURCE, n, ts[0], v, st);
      var rr := AssignSame(p, SOURCE, n, ts[1..], v, r0.st);
      AssignSame(p, SOURCE, n, ts, v, st) == AssignThen(r0, rr) && (rr.st.fits ==> r0.st.fits)
  {
    hide AssignTo, KeepsReserved, Metered;
  }

  lemma EachUnfold(p: Program, n: nat, ts: seq<Target>, vs: seq<Val>, st: State)
    requires ts != [] && |ts| == |vs|
    ensures var r0 := AssignTo(p, SOURCE, n, ts[0], vs[0], st);
      var rr := AssignEach(p, SOURCE, n, ts[1..], vs[1..], r0.st);
      AssignEach(p, SOURCE, n, ts, vs, st) == AssignThen(r0, rr) && (rr.st.fits ==> r0.st.fits)
  {
    hide AssignTo, KeepsReserved, Metered;
  }

  lemma TupleIs(p: Program, n: nat, us: seq<Target>, v: Val, st: State)
    requires v.TupV? && |v.items| == |us|
    ensures AssignTo(p, SOURCE, n, TTup(us), v, st) == AssignEach(p, SOURCE, n, us, v.items, st)
  {
    hide AssignEach, Grew, Ran;
  }

  lemma SimEmitName(p: Program, cfg: Config, n: nat, y: string, from: Expr, x: string, v: Val, t: State)
    requires !Reserved(y) && Holds(t, x, v) && PathVal(from, x, v).Some?
    ensures var rt := ExecAll(Rewrite(p), cfg, n, Emit(TName(y), from), t);
      && MirrorsA(AssignTo(p, SOURCE, n, TName(y), PathVal(from, x, v).value, Strip(t)), rt)
      && (rt.SNext? ==> Holds(rt.st, x, v))
  {
    var q := Rewrite(p);
    var w := PathVal(from, x, v).value;
    PathEval(q, cfg, n, from, x, v, t);
    StoreStripped(y, w, t);
    HoldsAfterStore(t, y, w, x, v);
    hide Rewrite, Plain, StripFrame, Eval, Exec, ExecAll, PathVal, Store, Holds, Ran;
    ExecOne(q, cfg, n, Assign([TName(y)], from), t);
    StoreName(q, cfg, n, y, from, t);
  }

  lemma {:induction false} SimEmit(p: Program, cfg: Config, n: nat, tg: Target, from: Expr, x: string, v: Val, t: State)
    requires Context(p, t) && AcceptsTs([tg]) && Holds(t, x, v)
    requires PathVal(from, x, v).Some? && Shaped(tg, PathVal(from, x, v).value)
    ensures var rt := ExecAll(Rewrite(p), cfg, n, Emit(tg, from), t);
      && MirrorsA(AssignTo(p, SOURCE, n, tg, PathVal(from, x, v).value, Strip(t)), rt)
      && (rt.SNext? ==> Holds(rt.st, x, v))
    decreases n, 1, tg, 2
  {
    var q := Rewrite(p);
    var w := PathVal(from, x, v).value;
    hide Rewrite, Plain, StripFrame, Kept, KeepsReserved, Ticked, Lenient, Accepts, OwnNames;
    hide Eval, ExecAll, PathVal, EmitItems, Store;
    match tg
    case TName(y) => SimEmitName(p, cfg, n, y, from, x, v, t);
    case TAttr(o, a) => SimEmitAttr(p, cfg, n, tg, from, x, v, t);
    case TTup(us) =>
      SimEmitItems(p, cfg, n, us, w.items, from, 0, x, v, t);
      assert w.items[0..] == w.items;
      TupleIs(p, n, us, w, Strip(t));
      hide AssignTo, AssignEach;
  }

  /** An expression leaves the temporaries alone. */
  lemma EvalHolds(q: Program, cfg: Config, n: nat, e: Expr, x: string, v: Val, t: State)
    requires Tame(q) && Holds(t, x, v)
    ensures Holds(Eval(q, cfg, n, e, map[], t).st, x, v)
  {
    assert Grew(q, cfg, t, Eval(q, cfg, n, e, map[], t).st);
    hide Eval, Holds, Ticked;
    HoldsAfter(t, Eval(q, cfg, n, e, map[], t).st, x, v);
  }

  lemma EmitAttrIs(tg: Target, from: Expr)
    requires tg.TAttr?
    ensures Emit(tg, from) == [ExprS(GSetAttr(RwE(tg.obj), tg.attr, from))]
  {
    hide RwE;
  }

  lemma ExprKeeps(q: Program, cfg: Config, n: nat, e: Expr, t: State)
    ensures Exec(q, cfg, n, ExprS(e), t).st == Eval(q, cfg, n, e, map[], t).st
  {
    hide Eval, Grew, Ran;
  }

  lemma AssignAttrIs(p: Program, n: nat, tg: Target, v: Val, st: State)
    requires tg.TAttr?
    ensures var ro := Eval(p, SOURCE, n, tg.obj, map[], st);
      AssignTo(p, SOURCE, n, tg, v, st) == if ro.EOk? then WriteAttr(ro.v, tg.attr, v, ro.st) else ro
  {
    hide Eval, Grew, Ran, WriteAttr;
  }

  lemma {:induction false} SimEmitAttr(
    p: Program, cfg: Config, n: nat, tg: Target, from: Expr, x: string, v: Val, t: State)
    requires tg.TAttr? && Context(p, t) && AcceptsE(tg.obj) && Holds(t, x, v) && PathVal(from, x, v).Some?
    ensures var rt := ExecAll(Rewrite(p), cfg, n, Emit(tg, from), t);
      && MirrorsA(AssignTo(p, SOURCE, n, tg, PathVal(from, x, v).value, Strip(t)), rt)
      && (rt.SNext? ==> Holds(rt.st, x, v))
    decreases n, 1, tg, 1
  {
    hide Rewrite, Plain, StripFrame, Kept, KeepsReserved, Ticked, Lenient, Accepts, OwnNames;
    hide RwE, Eval, Exec, ExecAll, AssignTo, Emit, Holds, PathVal, WriteAttr, Regular;
    TameRewrite(p);
    var q, w := Rewrite(p), PathVal(from, x, v).value;
    var call := GSetAttr(RwE(tg.obj), tg.attr, from);
    EmitAttrIs(tg, from);
    SimE(p, cfg, n, tg.obj, map[], t);
    ExecOne(q, cfg, n, ExprS(call), t);
    var to := Eval(q, cfg, n, RwE(tg.obj), map[], t);
    EvalHolds(q, cfg, n, RwE(tg.obj), x, v, t);
    EvalHolds(q, cfg, n, call, x, v, t);
    if to.EOk? { PathEval(q, cfg, n, from, x, v, to.st); }
    TargetOther(q, cfg, n, tg.attr, RwE(tg.obj), from, t);
    AssignAttrIs(p, n, tg, w, Strip(t));
    ExprKeeps(q, cfg, n, call, t);
    if to.EOk? { WriteStripped(to.v, tg.attr, w, to.st); }
    HoldsRegular(Eval(q, cfg, n, call, map[], t).st, x, v);
  }

  lemma NoItems(p: Program, cfg: Config, n: nat, items: seq<Val>, from: Expr, i: nat, t: State)
    requires i == |items|
    ensures AssignEach(p, SOURCE, n, [], items[i..], Strip(t)) == EOk(NoneV, Strip(t))
    ensures ExecAll(Rewrite(p), cfg, n, EmitItems([], from, i), t) == SNext(t)
  {
    hide Rewrite, Strip, Ran;
  }

  lemma ItemsFirst(ts: seq<Target>, items: seq<Val>, from: Expr, i: nat, x: string, v: Val)
    requires ts != [] && AcceptsTs(ts) && i + |ts| == |items| && ShapedAll(ts, items[i..])
    requires PathVal(from, x, v) == Some(TupV(items))
    ensures EmitItems(ts, from, i) == Emit(ts[0], Item(from, i)) + EmitItems(ts[1..], from, i + 1)
    ensures AcceptsTs([ts[0]]) && AcceptsTs(ts[1..])
    ensures Shaped(ts[0], items[i]) && ShapedAll(ts[1..], items[i + 1..])
    ensures items[i..][0] == items[i] && items[i..][1..] == items[i + 1..]
    ensures PathVal(Item(from, i), x, v) == Some(items[i])
  {
    assert [ts[0]][1..] == [];
    assert items[i..][0] == items[i] && items[i..][1..] == items[i + 1..];
  }

  lemma {:induction false} SimEmitItems(
    p: Program, cfg: Config, n: nat, ts: seq<Target>, items: seq<Val>, from: Expr, i: nat,
    x: string, v: Val, t: State)
    requires Context(p, t) && AcceptsTs(ts) && Holds(t, x, v)
    requires PathVal(from, x, v) == Some(TupV(items)) && i + |ts| == |items| && ShapedAll(ts, items[i..])
    ensures var rt := ExecAll(Rewrite(p), cfg, n, EmitItems(ts, from, i), t);
      && MirrorsA(AssignEach(p, SOURCE, n, ts, items[i..], Strip(t)), rt)
      && (rt.SNext? ==> Holds(rt.st, x, v))
    decreases n, 1, ts, 0
  {
    hide Rewrite, Accepts, OwnNames, PathVal, Emit, EmitItems, AcceptsTs, Shaped, ShapedAll, AssignTo, AssignEach;
    hide Holds, ExecAll, Strip, Ran, Regular;
    var q := Rewrite(p);
    if ts == [] {
      NoItems(p, cfg, n, items, from, i, t);
    } else {
      var e0 := Emit(ts[0], Item(from, i));
      ItemsFirst(ts, items, from, i, x, v);
      SimEmit(p, cfg, n, ts[0], Item(from, i), x, v, t);
      EachUnfold(p, n, ts, items[i..], Strip(t));
      var r0 := AssignTo(p, SOURCE, n, ts[0], items[i], Strip(t));
      var t0 := ExecAll(q, cfg, n, e0, t);
      ExecJoin(q, cfg, n, e0, EmitItems(ts[1..], from, i + 1), t);
      RanOn(q, cfg, n, e0, t);
      RanOn(q, cfg, n, EmitItems(ts[1..], from, i + 1), t0.st);
      if t0.SNext? { HoldsRegular(t0.st, x, v); SimEmitItems(p, cfg, n, ts[1..], items, from, i + 1, x, v, t0.st); }
      ThenMirrors(r0, AssignEach(p, SOURCE, n, ts[1..], items[i + 1..], r0.st),
                  t0, ExecAll(q, cfg, n, EmitItems(ts[1..], from, i + 1), t0.st));
    }
  }

  lemma NoTargets(p: Program, cfg: Config, n: nat, v: Val, x: string, t: State)
    ensures AssignSame(p, SOURCE, n, [], v, Strip(t)) == EOk(NoneV, Strip(t))
    ensures ExecAll(Rewrite(p), cfg, n, EmitAll([], Name(x)), t) == SNext(t)
  {
    hide Rewrite, Strip, Ran;
  }

  lemma TargetsFirst(ts: seq<Target>, v: Val, x: string)
    requires ts != [] && AcceptsTs(ts) && ShapedBy(ts, v)
    ensures EmitAll(ts, Name(x)) == Emit(ts[0], Name(x)) + EmitAll(ts[1..], Name(x))
    ensures AcceptsTs([ts[0]]) && AcceptsTs(ts[1..]) && Shaped(ts[0], v) && ShapedBy(ts[1..], v)
    ensures PathVal(Name(x), x, v) == Some(v)
  {
    assert [ts[0]][1..] == [];
  }

  lemma {:induction false} SimEmitAll(p: Program, cfg: Config, n: nat, ts: seq<Target>, x: string, v: Val, t: State)
    requires Context(p, t) && AcceptsTs(ts) && Holds(t, x, v) && ShapedBy(ts, v)
    ensures MirrorsA(AssignSame(p, SOURCE, n, ts, v, Strip(t)), ExecAll(Rewrite(p), cfg, n, EmitAll(ts, Name(x)), t))
    decreases n, 1, ts, 0
  {
    hide Rewrite, Accepts, OwnNames, PathVal, Emit, EmitAll, AcceptsTs, Shaped, AssignTo, AssignSame;
    hide Holds, ExecAll, Strip, Ran, Regular;
    var q := Rewrite(p);
    if ts == [] {
      NoTargets(p, cfg, n, v, x, t);
    } else {
      var e0 := Emit(ts[0], Name(x));
      TargetsFirst(ts, v, x);
      SimEmit(p, cfg, n, ts[0], Name(x), x, v, t);
      SameUnfold(p, n, ts, v, Strip(t));
      var r0 := AssignTo(p, SOURCE, n, ts[0], v, Strip(t));
      var t0 := ExecAll(q, cfg, n, e0, t);
      ExecJoin(q, cfg, n, e0, EmitAll(ts[1..], Name(x)), t);
      RanOn(q, cfg, n, e0, t);
      RanOn(q, cfg, n, EmitAll(ts[1..], Name(x)), t0.st);
      if t0.SNext? { HoldsRegular(t0.st, x, v); SimEmitAll(p, cfg, n, ts[1..], x, v, t0.st); }
      ThenMirrors(r0, AssignSame(p, SOURCE, n, ts[1..], v, r0.st),
                  t0, ExecAll(q, cfg, n, EmitAll(ts[1..], Name(x)), t0.st));
    }
  }

  lemma ChainWritten(s: Stmt, k: nat)
    requires s.Assign? && HasAttr(s.targets) && NeedsTmp(s.targets)
    ensures RwS(s, k).ss == [Assign([TName(Tmp(k))], RwE(s.value))] + EmitAll(s.targets, Name(Tmp(k)))
  {
    hide RwE, EmitAll, HasAttr, Tmp;
  }

  /** A chain, or a tuple target, in the source. */
  lemma ChainIs(p: Program, n: nat, s: Stmt, st: State)
    requires s.Assign? && HasAttr(s.targets) && NeedsTmp(s.targets)
    ensures var rv := Eval(p, SOURCE, n, s.value, map[], st);
      Exec(p, SOURCE, n, s, st) ==
        if !rv.EOk? then Broke(rv)
        else Ended(AssignSame(p, SOURCE, n, s.targets, rv.v, Clear(rv.st, ShapedBy(s.targets, rv.v))))
    ensures var rv := Eval(p, SOURCE, n, s.value, map[], st);
      Exec(p, SOURCE, n, s, st).st.fits ==> rv.st.fits && (rv.EOk? ==> ShapedBy(s.targets, rv.v))
  {
    hide Eval, AssignSame, KeepsReserved, Metered, ShapedBy;
    assert Exec(p, SOURCE, n, s, st) == ExecAssign(p, SOURCE, n, s, st);
  }

  /** Several targets, or a tuple target: the value is kept in a temporary. */
  lemma {:induction false} SimTmpAssign(p: Program, cfg: Config, n: nat, s: Stmt, k: nat, t: State)
    requires s.Assign? && Context(p, t) && AcceptsS(s) && HasAttr(s.targets) && NeedsTmp(s.targets)
    requires Mirrors(Eval(p, SOURCE, n, s.value, map[], Strip(t)),
                     Eval(Rewrite(p), cfg, n, RwE(s.value), map[], t))
    ensures MirrorsS(Exec(p, SOURCE, n, s, Strip(t)), ExecAll(Rewrite(p), cfg, n, RwS(s, k).ss, t))
    decreases n, 1, s, 1
  {
    hide Rewrite, Plain, StripFrame, Kept, KeepsReserved, Ticked, Lenient, Accepts, OwnNames;
    hide Eval, Exec, ExecAll, AssignSame, Store, Tmp, RwE, RwS, EmitAll, ShapedBy, HasAttr, Regular, Spare;
    var Assign(ts, e) := s;
    var q := Rewrite(p);
    var x := Tmp(k);
    var first := Assign([TName(x)], RwE(e));
    TmpSpare(k);
    ChainIs(p, n, s, Strip(t));
    ChainWritten(s, k);
    ExecJoin(q, cfg, n, [first], EmitAll(ts, Name(x)), t);
    ExecOne(q, cfg, n, first, t);
    StoreName(q, cfg, n, x, RwE(e), t);
    var rv := Eval(p, SOURCE, n, e, map[], Strip(t));
    var tv := Eval(q, cfg, n, RwE(e), map[], t);
    if rv.EOk? && rv.st.fits && !tv.st.meter.refused && ShapedBy(ts, rv.v) {
      StoreTmp(x, tv.v, tv.st);
      HoldsRegular(Store(x, tv.v, tv.st), x, rv.v);
      SimEmitAll(p, cfg, n, ts, x, rv.v, Store(x, tv.v, tv.st));
      assert Clear(rv.st, true) == rv.st;
    }
  }

  // ----- augmented assignment -----

  lemma {:induction false} SimAugName(p: Program, cfg: Config, n: nat, s: Stmt, k: nat, t: State)
    requires s.AugName? && Context(p, t) && AcceptsS(s)
    ensures MirrorsS(Exec(p, SOURCE, n, s, Strip(t)), ExecAll(Rewrite(p), cfg, n, RwS(s, k).ss, t))
    decreases n, 1, s, 2
  {
    hide Rewrite, Plain, Kept, KeepsReserved, Ticked, Lenient, Accepts, OwnNames, Eval, Load, Regular;
    var AugName(x, op, e) := s;
    var q := Rewrite(p);
    ExecOne(q, cfg, n, AugName(x, op, RwE(e)), t);
    LoadStripped(x, map[], t);
    SimE(p, cfg, n, e, map[], t);
    var tv := Eval(q, cfg, n, RwE(e), map[], t);
    if Load(x, map[], t).EOk? && tv.EOk? {
      var ti := InPlace(op, Load(x, map[], t).v, tv.v, tv.st);
      if ti.EOk? { StoreStripped(x, ti.v, ti.st); }
      if Regular(tv.st) {
        RegularSame(tv.st, ti.st);
        if ti.EOk? { RegularStored(x, ti.v, ti.st); }
      }
    }
  }

  /** The call written for an augmented attribute, its object in `x`. */
  function AugCall(s: Stmt, x: string): Stmt
    requires s.AugAttr?
  {
    ExprS(GSetAttr(Name(x), s.attr, Bin(s.op, GGetAttr(Name(x), s.attr), RwE(s.value))))
  }

  lemma AugIs(p: Program, n: nat, s: Stmt, st: State)
    requires s.AugAttr?
    ensures var ro := Eval(p, SOURCE, n, s.obj, map[], st);
      Exec(p, SOURCE, n, s, st) == (if ro.EOk? then AugRest(p, n, s, ro) else Broke(ro))
      && (Exec(p, SOURCE, n, s, st).st.fits ==> ro.st.fits)
  {
    hide KeepsReserved, Metered, ReadAttr, WriteAttr, InPlace, Extends;
    assert Exec(p, SOURCE, n, s, st) == ExecAugAttr(p, SOURCE, n, s, st);
  }

  lemma AugTarget(q: Program, cfg: Config, n: nat, s: Stmt, k: nat, t: State)
    requires s.AugAttr?
    ensures var to := Eval(q, cfg, n, RwE(s.obj), map[], t);
      var rt := ExecAll(q, cfg, n, RwS(s, k).ss, t);
      && rt == (if to.EOk? then Exec(q, cfg, n, AugCall(s, Tmp(k)), Store(Tmp(k), to.v, to.st)) else Broke(to))
      && (to.st.meter.refused ==> rt.st.meter.refused)
  {
    hide Eval, Exec, ExecAll, RwE, Tmp, Store, KeepsReserved, Ticked;
    var first := Assign([TName(Tmp(k))], RwE(s.obj));
    assert RwS(s, k).ss == [first] + [AugCall(s, Tmp(k))];
    ExecJoin(q, cfg, n, [first], [AugCall(s, Tmp(k))], t);
    ExecOne(q, cfg, n, first, t);
    StoreName(q, cfg, n, Tmp(k), RwE(s.obj), t);
    var to := Eval(q, cfg, n, RwE(s.obj), map[], t);
    if to.EOk? { ExecOne(q, cfg, n, AugCall(s, Tmp(k)), Store(Tmp(k), to.v, to.st)); }
  }

  lemma {:induction false} SimAugAttr(p: Program, cfg: Config, n: nat, s: Stmt, k: nat, t: State)
    requires s.AugAttr? && Context(p, t) && AcceptsS(s)
    ensures MirrorsS(Exec(p, SOURCE, n, s, Strip(t)), ExecAll(Rewrite(p), cfg, n, RwS(s, k).ss, t))
    decreases n, 1, s, 2
  {
    hide Rewrite, Plain, StripFrame, Kept, KeepsReserved, Ticked, Lenient, Accepts, OwnNames;
    hide Eval, Exec, ExecAll, ReadAttr, Store, Tmp, RwE, RwS, AugRest, AcceptsE, Regular, Spare;
    var q := Rewrite(p);
    var x := Tmp(k);
    var call := AugCall(s, x);
    TmpSpare(k);
    AugIs(p, n, s, Strip(t));
    AugTarget(q, cfg, n, s, k, t);
    SimE(p, cfg, n, s.obj, map[], t);
    var ro := Eval(p, SOURCE, n, s.obj, map[], Strip(t));
    var to := Eval(q, cfg, n, RwE(s.obj), map[], t);
    if ro.EOk? && ro.st.fits && !to.st.meter.refused {
      var u := Store(x, to.v, to.st);
      StoreTmp(x, to.v, to.st);
      var tg := ReadAttr(to.v, s.attr, u);
      HoldsRegular(u, x, to.v);
      RegularSame(u, tg.st);
      if tg.EOk? { SimE(p, cfg, n, s.value, map[], tg.st); }
      AugSame(p, cfg, n, s, k, ro, u);
    }
  }

  lemma AugSame(p: Program, cfg: Config, n: nat, s: Stmt, k: nat, ro: ER<Val>, u: State)
    requires s.AugAttr? && ro.EOk? && ro.st == Strip(u) && Holds(u, Tmp(k), ro.v)
    requires var tg := ReadAttr(ro.v, s.attr, u);
      tg.EOk? ==> Mirrors(Eval(p, SOURCE, n, s.value, map[], Strip(tg.st)),
                          Eval(Rewrite(p), cfg, n, RwE(s.value), map[], tg.st))
    ensures MirrorsS(AugRest(p, n, s, ro),
                     Exec(Rewrite(p), cfg, n, ExprS(GSetAttr(Name(Tmp(k)), s.attr,
                       Bin(s.op, GGetAttr(Name(Tmp(k)), s.attr), RwE(s.value)))), u))
  {
    hide Rewrite, Plain, Kept, KeepsReserved, Ticked, Lenient, Tmp, Eval, AugInPlace, AugBinary;
    var q := Rewrite(p);
    AugValue(q, cfg, n, s, Tmp(k), ro.v, u);
    var tg := ReadAttr(ro.v, s.attr, u);
    var rg := ReadAttr(ro.v, s.attr, Strip(u));
    assert tg.EOk? == rg.EOk? && Strip(tg.st) == rg.st;
    if tg.EOk? {
      var rv := Eval(p, SOURCE, n, s.value, map[], rg.st);
      var tv := Eval(q, cfg, n, RwE(s.value), map[], tg.st);
      AugEnds(ro.v, s.attr, s.op, rg.v, rv, tv);
    }
  }

  lemma BinIs(q: Program, cfg: Config, n: nat, op: Op, l: Expr, e: Expr, u: State)
    ensures var rl := Eval(q, cfg, n, l, map[], u);
      Eval(q, cfg, n, Bin(op, l, e), map[], u) ==
      if !rl.EOk? then rl else
      var rr := Eval(q, cfg, n, e, map[], rl.st);
      if !rr.EOk? then rr else Binary(op, rl.v, rr.v, rr.st)
  {
    hide Grew, Binary;
  }

  lemma ReadRefused(cfg: Config, v: Val, a: string, t: State)
    requires GateRead(cfg, v, a, t) != ReadAttr(v, a, t)
    ensures GateRead(cfg, v, a, t).EExc? && GateRead(cfg, v, a, t).st.meter.refused
  {
  }

  /** What the call written for an augmented assignment does, unless the policy refuses. */
  lemma AugValue(q: Program, cfg: Config, n: nat, s: Stmt, x: string, o: Val, u: State)
    requires s.AugAttr? && Holds(u, x, o)
    ensures var call := ExprS(GSetAttr(Name(x), s.attr, Bin(s.op, GGetAttr(Name(x), s.attr), RwE(s.value))));
      var r := Exec(q, cfg, n, call, u);
      var tg := ReadAttr(o, s.attr, u);
      || r.st.meter.refused
      || r == if !tg.EOk? then Broke(tg)
              else AugBinary(o, s.attr, s.op, tg.v, Eval(q, cfg, n, RwE(s.value), map[], tg.st))
  {
    hide Plain, Kept, Grew, Ran, Binary, ReadAttr, WriteAttr, Regular, Load, EvalGate;
    var get := GGetAttr(Name(x), s.attr);
    var bin := Bin(s.op, get, RwE(s.value));
    NameLoads(q, cfg, n, x, u);
    Opens(GetAttrGate, map[], u);
    Opens(SetAttrGate, map[], u);
    GetAttrIs(q, cfg, n, Name(x), s.attr, map[], u);
    SetAttrIs(q, cfg, n, Name(x), s.attr, bin, map[], u);
    BinIs(q, cfg, n, s.op, get, RwE(s.value), u);
    var rb := Eval(q, cfg, n, bin, map[], u);
    var tg := ReadAttr(o, s.attr, u);
    hide Eval, GateRead, GateWrite;
    GateOrRefused(cfg, o, s.attr, o, u);
    if GateRead(cfg, o, s.attr, u) != tg { ReadRefused(cfg, o, s.attr, u); }
    if rb.EOk? { GateOrRefused(cfg, o, s.attr, rb.v, rb.st); }
    SimpleRuns(q, cfg, n, ExprS(GSetAttr(Name(x), s.attr, bin)), u);
  }

  /** `o.a = g op v`, once `v` has been evaluated. */
  function AugBinary(o: Val, a: string, op: Op, g: Val, v: ER<Val>): SR {
    if !v.EOk? then Broke(v) else
    var r := Binary(op, g, v.v, v.st);
    if !r.EOk? then Broke(r) else
    var w := WriteAttr(o, a, r.v, r.st);
    if w.EOk? then SNext(w.st) else Broke(w)
  }

  /** `o.a op= v` likewise, in place. */
  function AugInPlace(o: Val, a: string, op: Op, g: Val, v: ER<Val>): SR {
    if !v.EOk? then Broke(v) else
    var r := InPlace(op, g, v.v, Clear(v.st, !Extends(op, g, v.v, v.st.heap)));
    if !r.EOk? then Broke(r) else
    var w := WriteAttr(o, a, r.v, r.st);
    if w.EOk? then SNext(w.st) else Broke(w)
  }

  lemma AugEnds(o: Val, a: string, op: Op, g: Val, rv: ER<Val>, tv: ER<Val>)
    requires Mirrors(rv, tv)
    ensures MirrorsS(AugInPlace(o, a, op, g, rv), AugBinary(o, a, op, g, tv))
  {
    AugKeeps(o, a, op, g, rv);
    AugGrows(o, a, op, g, tv);
    if rv.EOk? && rv.st.fits && !tv.st.meter.refused && !Extends(op, g, rv.v, rv.st.heap) {
      AugPlain(o, a, op, g, rv);
      AugBinaryMirrors(o, a, op, g, rv.v, tv.st);
      hide AugInPlace, AugBinary, Extends, Plain, StripFrame, Strip;
    } else {
      hide AugInPlace, AugBinary, Extends, Plain, StripFrame, Strip;
      if !rv.EOk? { AugStops(o, a, op, g, rv, tv); }
    }
  }

  /** A run that was unfit, or extends a list, ends unfit. */
  lemma AugKeeps(o: Val, a: string, op: Op, g: Val, v: ER<Val>)
    ensures AugInPlace(o, a, op, g, v).st.fits ==>
      v.st.fits && (v.EOk? ==> !Extends(op, g, v.v, v.st.heap))
  {
    hide InPlace, WriteAttr, Extends;
  }

  lemma AugGrows(o: Val, a: string, op: Op, g: Val, v: ER<Val>)
    ensures AugBinary(o, a, op, g, v).st.meter == v.st.meter
  {
    hide Binary, WriteAttr;
  }

  lemma AugStops(o: Val, a: string, op: Op, g: Val, rv: ER<Val>, tv: ER<Val>)
    requires Mirrors(rv, tv) && !rv.EOk?
    ensures MirrorsS(AugInPlace(o, a, op, g, rv), AugBinary(o, a, op, g, tv))
  {
    AugGrows(o, a, op, g, tv);
    hide Binary, WriteAttr, InPlace, Plain, StripFrame;
  }

  /** Where no list is extended, the two are one. */
  lemma AugPlain(o: Val, a: string, op: Op, g: Val, v: ER<Val>)
    requires v.EOk? ==> !Extends(op, g, v.v, v.st.heap)
    ensures AugInPlace(o, a, op, g, v) == AugBinary(o, a, op, g, v)
  {
    hide Binary, WriteAttr, InPlace, Extends;
    if v.EOk? {
      assert Clear(v.st, true) == v.st;
      InPlaceIsPlain(op, g, v.v, v.st);
    }
  }

  lemma AugBinaryMirrors(o: Val, a: string, op: Op, g: Val, v: Val, t: State)
    requires Regular(t)
    ensures MirrorsS(AugBinary(o, a, op, g, EOk(v, Strip(t))), AugBinary(o, a, op, g, EOk(v, t)))
  {
    hide Plain, StripFrame, Binary, WriteAttr, Regular;
    BinaryStripped(op, g, v, t);
    var r := Binary(op, g, v, t);
    RegularSame(t, r.st);
    if r.EOk? { WriteStripped(o, a, r.v, r.st); RegularSame(t, WriteAttr(o, a, r.v, r.st).st); }
  }

  lemma InPlaceIsPlain(op: Op, a: Val, b: Val, st: State)
    requires !Extends(op, a, b, st.heap)
    ensures InPlace(op, a, b, st) == Binary(op, a, b, st)
  {
  }

  lemma BinaryStripped(op: Op, a: Val, b: Val, t: State)
    ensures var r, rt := Binary(op, a, b, Strip(t)), Binary(op, a, b, t);
      r.EOk? == rt.EOk? && Strip(rt.st) == r.st && (r.EOk? ==> r.v == rt.v) && (!r.EOk? ==> r.e == rt.e)
  {
    hide Plain, StripFrame;
  }

  lemma AppendStripped(l: Val, x: Val, t: State)
    ensures var r, rt := AppendItem(l, x, Strip(t)), AppendItem(l, x, t);
      r.EOk? == rt.EOk? && Strip(rt.st) == r.st && (r.EOk? ==> r.v == rt.v) && (!r.EOk? ==> r.e == rt.e)
  {
    hide Plain, StripFrame;
  }

  lemma WriteStripped(o: Val, a: string, v: Val, t: State)
    ensures var r, rt := WriteAttr(o, a, v, Strip(t)), WriteAttr(o, a, v, t);
      r.EOk? == rt.EOk? && Strip(rt.st) == r.st && (!r.EOk? ==> r.e == rt.e)
  {
    hide Plain, StripFrame;
  }

  /** `ExecAugAttr` once the object is known. */
  function AugRest(p: Program, n: nat, s: Stmt, ro: ER<Val>): SR
    requires s.AugAttr? && ro.EOk?
  {
    var rg := ReadAttr(ro.v, s.attr, ro.st);
    if !rg.EOk? then Broke(rg)
    else AugInPlace(ro.v, s.attr, s.op, rg.v, Eval(p, SOURCE, n, s.value, map[], rg.st))
  }

  // ----- loops and try -----

  lemma WhileWritten(s: Stmt, k: nat)
    requires s.While?
    ensures var ra := RwAll(s.body, k);
      RwS(s, k).ss == [While(RwE(s.cond), PrependCheckpoint(ra.ss), RwAll(s.orelse, ra.k).ss)]
  {
    hide RwE, RwAll, PrependCheckpoint;
  }

  lemma {:induction false} SimWhile(p: Program, cfg: Config, n: nat, s: Stmt, k: nat, t: State)
    requires s.While? && Context(p, t) && AcceptsS(s) && OwnS(s)
    ensures MirrorsS(ExecWhile(p, SOURCE, n, s, Strip(t)), ExecWhile(Rewrite(p), cfg, n, RwS(s, k).ss[0], t))
    decreases n, 1, s, 2
  {
    hide Rewrite, Plain, StripFrame, Kept, KeepsReserved, Ticked, Lenient, Accepts, OwnNames, Truthy, Eval, ExecAll;
    hide ExecWhile, RwE, RwS, RwAll, AcceptsE, AcceptsAll, OwnAll, PrependCheckpoint;
    WhileWritten(s, k);
    var q := Rewrite(p);
    var w := RwS(s, k).ss[0];
    WhileIs(p, SOURCE, n, s, Strip(t));
    WhileIs(q, cfg, n, w, t);
    SimE(p, cfg, n, s.cond, map[], t);
    var rc := Eval(p, SOURCE, n, s.cond, map[], Strip(t));
    var tc := Eval(q, cfg, n, RwE(s.cond), map[], t);
    if rc.EOk? && rc.st.fits && !tc.st.meter.refused {
      if !Truthy(rc.v, rc.st.heap) {
        SimAll(p, cfg, n, s.orelse, RwAll(s.body, k).k, tc.st);
      } else if n > 0 {
        SimBody(p, cfg, n - 1, s.body, k, tc.st);
        var rb := ExecAll(p, SOURCE, n - 1, s.body, rc.st);
        var tb := ExecAll(q, cfg, n - 1, w.body, tc.st);
        if (rb.SNext? || rb.SContinue?) && rb.st.fits && !tb.st.meter.refused {
          SimWhile(p, cfg, n - 1, s, k, tb.st);
        }
      }
    }
  }

  lemma {:induction false} SimForS(p: Program, cfg: Config, n: nat, s: Stmt, k: nat, t: State)
    requires s.For? && Context(p, t) && AcceptsS(s) && OwnS(s)
    ensures MirrorsS(Exec(p, SOURCE, n, s, Strip(t)), Exec(Rewrite(p), cfg, n, RwS(s, k).ss[0], t))
    decreases n, 1, s, 2
  {
    hide Rewrite, Plain, Kept, KeepsReserved, Ticked, Lenient, Accepts, OwnNames, Iterable, ForLoop, Eval;
    SimE(p, cfg, n, s.iter, map[], t);
    var ri := Eval(p, SOURCE, n, s.iter, map[], Strip(t));
    var ti := Eval(Rewrite(p), cfg, n, RwE(s.iter), map[], t);
    if ri.EOk? && ri.st.fits && !ti.st.meter.refused && Iterable(ri.v, ri.st.heap) {
      SimFor(p, cfg, n, s.x, s.body, s.orelse, k, RwAll(s.body, k).k, ri.v, 0, ti.st);
    }
  }

  lemma LoopedMirrors(rb: SR, rr: SR, tb: SR, tr: SR)
    requires MirrorsS(rb, tb) && (rr.st.fits ==> rb.st.fits) && (tb.st.meter.refused ==> tr.st.meter.refused)
    requires (rb.SNext? || rb.SContinue?) && rb.st.fits && !tb.st.meter.refused ==> MirrorsS(rr, tr)
    ensures MirrorsS(Looped(rb, rr), Looped(tb, tr))
  {
    hide Strip;
  }

  lemma {:induction false} SimFor(
    p: Program, cfg: Config, n: nat, x: string, body: seq<Stmt>, orelse: seq<Stmt>, j: nat, k: nat,
    over: Val, i: nat, t: State)
    requires Context(p, t) && !Reserved(x) && AcceptsAll(body) && OwnAll(body) && AcceptsAll(orelse) && OwnAll(orelse)
    ensures MirrorsS(
      ForLoop(p, SOURCE, n, x, body, orelse, over, i, Strip(t)),
      ForLoop(Rewrite(p), cfg, n, x, PrependCheckpoint(RwAll(body, j).ss), RwAll(orelse, k).ss, over, i, t))
    decreases n, 1, orelse, 1
  {
    hide Rewrite, Plain, StripFrame, Kept, KeepsReserved, Ticked, Lenient, Accepts, OwnNames, NextItem, ForLoop;
    hide ExecAll, Store, RwAll, PrependCheckpoint, AcceptsAll, OwnAll, Regular;
    var q, wb, wo := Rewrite(p), PrependCheckpoint(RwAll(body, j).ss), RwAll(orelse, k).ss;
    var item := NextItem(over, i, t.heap);
    if item.None? || n == 0 {
      ForStops(p, SOURCE, n, x, body, orelse, over, i, Strip(t));
      ForStops(q, cfg, n, x, wb, wo, over, i, t);
      if item.None? { SimAll(p, cfg, n, orelse, k, t); }
    } else {
      var t' := Store(x, item.value, t);
      StoreStripped(x, item.value, t);
      RegularStored(x, item.value, t);
      SimBody(p, cfg, n - 1, body, j, t');
      var rb := ExecAll(p, SOURCE, n - 1, body, Strip(t'));
      var tb := ExecAll(q, cfg, n - 1, wb, t');
      ForUnfold(p, SOURCE, n, x, body, orelse, over, i, Strip(t));
      ForUnfold(q, cfg, n, x, wb, wo, over, i, t);
      if (rb.SNext? || rb.SContinue?) && rb.st.fits && !tb.st.meter.refused {
        SimFor(p, cfg, n - 1, x, body, orelse, j, k, over, i + 1, tb.st);
      }
      LoopedMirrors(rb, ForLoop(p, SOURCE, n - 1, x, body, orelse, over, i + 1, rb.st),
                    tb, ForLoop(q, cfg, n - 1, x, wb, wo, over, i + 1, tb.st));
    }
  }

  /** What a `try` comes to before its `finally`. */
  function Tried(p: Program, cfg: Config, n: nat, s: Stmt, st: State): SR
    requires s.Try?
  {
    var r0 := ExecAll(p, cfg, n, s.body, st);
    if r0.SExc? then Handle(p, cfg, n, s.handlers, r0.e, r0.st)
    else if r0.SNext? then ExecAll(p, cfg, n, s.orelse, r0.st)
    else r0
  }

  function Finally(r: SR, rf: SR): SR {
    if r.SDeep? then r else if rf.SNext? then WithState(r, rf.st) else rf
  }

  lemma TryUnfold(p: Program, cfg: Config, n: nat, s: Stmt, st: State)
    requires s.Try?
    ensures var r := Tried(p, cfg, n, s, st);
      && ExecTry(p, cfg, n, s, st) == Finally(r, ExecAll(p, cfg, n, s.final, r.st))
      && Ran(p, cfg, st, r.st)
  {
    hide Exec, Tame, Kept;
    var r0 := ExecAll(p, cfg, n, s.body, st);
    assert Ran(p, cfg, st, r0.st);
  }

  lemma FinallyMirrors(r: SR, rf: SR, t: SR, tf: SR)
    requires MirrorsS(r, t) && (rf.st.fits ==> r.st.fits) && (t.st.meter.refused ==> tf.st.meter.refused)
    requires !r.SDeep? && r.st.fits && !t.st.meter.refused ==> MirrorsS(rf, tf)
    ensures MirrorsS(Finally(r, rf), Finally(t, tf))
  {
    hide Plain, StripFrame;
  }

  lemma {:induction false} SimTried(p: Program, cfg: Config, n: nat, s: Stmt, k: nat, t: State)
    requires s.Try? && Context(p, t) && AcceptsS(s) && OwnS(s)
    ensures MirrorsS(Tried(p, SOURCE, n, s, Strip(t)), Tried(Rewrite(p), cfg, n, RwS(s, k).ss[0], t))
    decreases n, 1, s, 1
  {
    var q := Rewrite(p);
    var w := RwS(s, k).ss[0];
    hide ExecAll, Handle, Rewrite, Plain, StripFrame, Kept, KeepsReserved, Ticked, Lenient, Accepts, OwnNames;
    var ka := RwAll(s.body, k).k;
    SimAll(p, cfg, n, s.body, k, t);
    var r0 := ExecAll(p, SOURCE, n, s.body, Strip(t));
    var t0 := ExecAll(q, cfg, n, w.body, t);
    if !r0.SDeep? && r0.st.fits && !t0.st.meter.refused {
      if r0.SExc? { SimHandle(p, cfg, n, s.handlers, ka, r0.e, t0.st); }
      if r0.SNext? { SimAll(p, cfg, n, s.orelse, RwHs(s.handlers, ka).1, t0.st); }
    }
  }

  lemma {:induction false} SimTry(p: Program, cfg: Config, n: nat, s: Stmt, k: nat, t: State)
    requires s.Try? && Context(p, t) && AcceptsS(s) && OwnS(s)
    ensures MirrorsS(ExecTry(p, SOURCE, n, s, Strip(t)), ExecTry(Rewrite(p), cfg, n, RwS(s, k).ss[0], t))
    decreases n, 1, s, 2
  {
    var q := Rewrite(p);
    var w := RwS(s, k).ss[0];
    var kf := RwAll(s.orelse, RwHs(s.handlers, RwAll(s.body, k).k).1).k;
    SimTried(p, cfg, n, s, k, t);
    TryUnfold(p, SOURCE, n, s, Strip(t));
    TryUnfold(q, cfg, n, w, t);
    hide ExecAll, ExecTry, Tried, Finally, Handle, Rewrite, Plain, StripFrame, Kept;
    hide KeepsReserved, Ticked, Lenient, Accepts, OwnNames, Regular, SameFrame;
    var r := Tried(p, SOURCE, n, s, Strip(t));
    var u := Tried(q, cfg, n, w, t);
    if !r.SDeep? && r.st.fits && !u.st.meter.refused { SimAll(p, cfg, n, s.final, kf, u.st); }
    FinallyMirrors(r, ExecAll(p, SOURCE, n, s.final, r.st), u, ExecAll(q, cfg, n, w.final, u.st));
  }

  lemma {:induction false} SimHandle(p: Program, cfg: Config, n: nat, hs: seq<Handler>, k: nat, e: Error, t: State)
    requires Context(p, t) && AcceptsHs(hs) && OwnHs(hs)
    ensures MirrorsS(Handle(p, SOURCE, n, hs, e, Strip(t)), Handle(Rewrite(p), cfg, n, RwHs(hs, k).0, e, t))
    decreases n, 1, hs, 0
  {
    hide Rewrite, Plain, Kept, KeepsReserved, Ticked, Lenient, Accepts, OwnNames, Exec;
    if hs != [] {
      var h := hs[0];
      var ws := RwHs(hs, k).0;
      var rb := RwAll(h.body, k);
      assert ws[1..] == RwHs(hs[1..], rb.k).0;
      if Matches(h.catch, e) {
        if h.catch.Bare? ==> !e.ExitError? {
          assert Clear(t, true) == t && Clear(Strip(t), true) == Strip(t);
          SimAll(p, cfg, n, h.body, k, t);
        }
      } else {
        SimHandle(p, cfg, n, hs[1..], rb.k, e, t);
      }
    }
  }
}
