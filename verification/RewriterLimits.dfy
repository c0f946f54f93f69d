/** Where the rewritten code does not do what the source does. The rewriter gives up Python's
    meaning in four places, and for each one there is a lemma that says exactly when it keeps
    it, and a program where it does not. The tuples of targets are in `Unpacking`. */
module RewriterLimits {
  import opened Python
  import opened Evaluation
  import opened Rewriter
  import opened Preservation

  /** The rewritten statements come to what the source does. */
  predicate Agree(rs: SR, rt: SR) {
    rt == WithState(rs, rt.st) && Strip(rt.st) == rs.st.(fits := rt.st.fits)
  }

  /** What a rewritten expression comes to when nothing refuses it. */
  predicate Same(rv: ER<Val>, tv: ER<Val>) {
    && !rv.EDeep? && Strip(tv.st) == rv.st
    && (rv.EOk? ==> tv.EOk? && tv.v == rv.v)
    && (rv.EExc? ==> tv.EExc? && tv.e == rv.e)
  }

  lemma SameE(p: Program, cfg: Config, n: nat, e: Expr, t: State)
    requires Context(p, t) && AcceptsE(e) && Lenient(cfg) && !t.meter.refused
    requires var rv := Eval(p, SOURCE, n, e, map[], Strip(t)); !rv.EDeep? && rv.st.fits
    ensures Same(Eval(p, SOURCE, n, e, map[], Strip(t)), Eval(Rewrite(p), cfg, n, RwE(e), map[], t))
    ensures t.fits && !Eval(Rewrite(p), cfg, n, RwE(e), map[], t).st.meter.refused
    ensures Regular(Eval(Rewrite(p), cfg, n, RwE(e), map[], t).st)
  {
    SimE(p, cfg, n, e, map[], t);
    assert Grew(p, SOURCE, Strip(t), Eval(p, SOURCE, n, e, map[], Strip(t)).st);
    var tv := Eval(Rewrite(p), cfg, n, RwE(e), map[], t);
    assert Grew(Rewrite(p), cfg, t, tv.st);
    hide Eval, RwE, Rewrite, Plain, StripFrame, KeepsReserved, Ticked, Lenient;
  }

  lemma LoadSame(x: string, t: State)
    requires !Reserved(x)
    ensures Same(Load(x, map[], Strip(t)), Load(x, map[], t))
    ensures Load(x, map[], t).EExc? ==> Load(x, map[], t).e == NameError(x)
  {
  }

  // ----- a single attribute target -----

  /** `x.a = v` in the source, after the value: the object, and the write. */
  function SingleSource(x: string, a: string, rv: ER<Val>, ok: bool): SR
    requires !rv.EDeep?
  {
    if rv.EExc? then SExc(rv.e, Clear(rv.st, ok))
    else
      var o := Load(x, map[], rv.st);
      if o.EExc? then SExc(o.e, Clear(rv.st, ok))
      else
        var w := WriteAttr(o.v, a, rv.v, Clear(rv.st, ok));
        if w.EOk? then SNext(w.st) else Broke(w)
  }

  /** `__st_setattr__(x, 'a', v)`: the object comes first. */
  function SingleTarget(x: string, a: string, t: State, tv: ER<Val>): SR {
    var o := Load(x, map[], t);
    if !o.EOk? then Broke(o)
    else if !tv.EOk? then Broke(tv)
    else
      var w := WriteAttr(o.v, a, tv.v, tv.st);
      if w.EOk? then SNext(w.st) else Broke(w)
  }

  lemma NameIs(p: Program, n: nat, x: string, st: State)
    ensures Eval(p, SOURCE, n, Name(x), map[], st) == Load(x, map[], st)
  {
    hide Grew, Load;
  }

  lemma SourceIs(p: Program, n: nat, x: string, a: string, e: Expr, st: State) returns (ok: bool)
    requires !Eval(p, SOURCE, n, e, map[], st).EDeep?
    ensures Exec(p, SOURCE, n, Assign([TAttr(Name(x), a)], e), st) ==
      SingleSource(x, a, Eval(p, SOURCE, n, e, map[], st), ok)
  {
    hide Eval, Grew, Ran, Load, WriteAttr, SameEitherWay;
    var rv := Eval(p, SOURCE, n, e, map[], st);
    NameIs(p, n, x, st);
    NameIs(p, n, x, rv.st);
    var ro, vo := Load(x, map[], st), if rv.EOk? then Load(x, map[], rv.st) else rv;
    ok := SameEitherWay(vo, rv, if ro.EOk? then rv else ro, ro);
    var s := Assign([TAttr(Name(x), a)], e);
    assert Exec(p, SOURCE, n, s, st) == ExecAssign(p, SOURCE, n, s, st);
  }

  lemma TargetIs(q: Program, cfg: Config, n: nat, x: string, a: string, e: Expr, t: State)
    requires Regular(t) && Permits(cfg)
    ensures ExecAll(q, cfg, n, [ExprS(GSetAttr(Name(x), a, e))], t) ==
      SingleTarget(x, a, t, Eval(q, cfg, n, e, map[], t))
  {
    hide Grew, Ran, Load, WriteAttr, Eval, Regular;
    NameLoads(q, cfg, n, x, t);
    ExecOne(q, cfg, n, ExprS(GSetAttr(Name(x), a, e)), t);
    TargetOther(q, cfg, n, a, Name(x), e, t);
  }

  lemma SingleWritten(s: Stmt, k: nat)
    requires s.Assign? && |s.targets| == 1 && s.targets[0].TAttr?
    ensures RwS(s, k).ss == [ExprS(GSetAttr(RwE(s.targets[0].obj), s.targets[0].attr, RwE(s.value)))]
  {
    var ts := s.targets;
    assert ts[1..] == [];
    assert HasAttr(ts) && !NeedsTmp(ts);
    assert EmitAll(ts, RwE(s.value)) == Emit(ts[0], RwE(s.value)) + EmitAll([], RwE(s.value));
  }

  /** Evaluating the value leaves `x` as it is, for what follows: the same object, or one that
      takes no attribute just as the other; and an `x` that is not there is not reached over
      anything that happened. */
  predicate LeavesAlone(x: string, st: State, rv: ER<Val>)
    requires !rv.EDeep?
  {
    var before := Load(x, map[], st);
    var after := Load(x, map[], rv.st);
    if before.EOk? then
      rv.EExc? ||
      (after.EOk? && (before.v == after.v || (!IsInst(before.v, rv.st.heap) && !IsInst(after.v, rv.st.heap))))
    else rv.st == st && (rv.EExc? ==> rv.e == before.e)
  }

  lemma SingleCompare(x: string, a: string, t: State, rv: ER<Val>, tv: ER<Val>, ok: bool)
    requires !Reserved(x) && Same(rv, tv) && t.fits && rv.st.fits
    ensures Agree(SingleSource(x, a, rv, ok), SingleTarget(x, a, t, tv)) <==> LeavesAlone(x, Strip(t), rv)
  {
    LoadSame(x, t);
    LoadSame(x, tv.st);
    hide Plain, StripFrame, Load;
    var rs, rt := SingleSource(x, a, rv, ok), SingleTarget(x, a, t, tv);
    var o0, o1 := Load(x, map[], t), Load(x, map[], rv.st);
    if o0.EOk? && rv.EOk? && o1.EOk? && IsInst(o0.v, rv.st.heap) && IsInst(o1.v, rv.st.heap) {
      assert rt.st.trace == rv.st.trace + [Put(o0.v.r, a, rv.v)];
      assert rs.st.trace == rv.st.trace + [Put(o1.v.r, a, rv.v)];
      if o0.v != o1.v {
        assert rt.st.trace[|rt.st.trace| - 1] != rs.st.trace[|rs.st.trace| - 1];
      }
    }
  }

  lemma LenientPermits(cfg: Config)
    requires Lenient(cfg)
    ensures Permits(cfg)
  {
  }

  lemma ContextRegular(p: Program, t: State)
    requires Context(p, t)
    ensures Regular(t)
  {
  }

  lemma NameStays(x: string)
    ensures RwE(Name(x)) == Name(x)
  {
  }

  /** `x.a = e`, whatever `x` is and however evaluating `e` ends: the rewritten statement agrees
      exactly when that leaves `x` alone. */
  lemma SingleTargetExactly(p: Program, cfg: Config, n: nat, x: string, a: string, e: Expr, k: nat, t: State)
    requires Context(p, t) && Readable(x) && AcceptsE(e) && Lenient(cfg) && !t.meter.refused
    requires var rv := Eval(p, SOURCE, n, e, map[], Strip(t)); !rv.EDeep? && rv.st.fits
    ensures var s := Assign([TAttr(Name(x), a)], e);
      Agree(Exec(p, SOURCE, n, s, Strip(t)), ExecAll(Rewrite(p), cfg, n, RwS(s, k).ss, t)) <==>
      LeavesAlone(x, Strip(t), Eval(p, SOURCE, n, e, map[], Strip(t)))
  {
    hide Rewrite, Eval, Exec, ExecAll, RwE, RwS, Load, Same, Agree, LeavesAlone, Context, AcceptsE, Lenient, Strip;
    ContextRegular(p, t);
    LenientPermits(cfg);
    var s := Assign([TAttr(Name(x), a)], e);
    var q := Rewrite(p);
    SameE(p, cfg, n, e, t);
    SingleWritten(s, k);
    NameStays(x);
    var ok := SourceIs(p, n, x, a, e, Strip(t));
    TargetIs(q, cfg, n, x, a, RwE(e), t);
    SingleCompare(x, a, t, Eval(p, SOURCE, n, e, map[], Strip(t)), Eval(q, cfg, n, RwE(e), map[], t), ok);
  }

  // ----- any object -----

  /** `o.a = e` in Python's order: the value, the object, the write. */
  function ValueFirst(a: string, v: ER<Val>, o: ER<Val>): SR {
    if !v.EOk? then Broke(v)
    else if !o.EOk? then Broke(o)
    else
      var w := WriteAttr(o.v, a, v.v, o.st);
      if w.EOk? then SNext(w.st) else Broke(w)
  }

  /** The value, then the object; and the object, then the value. */
  function BothOrders(p: Program, n: nat, o: Expr, e: Expr, st: State): (ER<Val>, ER<Val>, ER<Val>, ER<Val>) {
    var rv, ro := Eval(p, SOURCE, n, e, map[], st), Eval(p, SOURCE, n, o, map[], st);
    (rv, if rv.EOk? then Eval(p, SOURCE, n, o, map[], rv.st) else rv,
     ro, if ro.EOk? then Eval(p, SOURCE, n, e, map[], ro.st) else ro)
  }

  predicate Fine(r: ER<Val>) { !r.EDeep? && r.st.fits }

  lemma AnySource(p: Program, n: nat, o: Expr, a: string, e: Expr, st: State) returns (ok: bool)
    requires var (rv, vo, ro, ov) := BothOrders(p, n, o, e, st); Fine(rv) && Fine(vo) && Fine(ro) && Fine(ov)
    ensures var (rv, vo, ro, ov) := BothOrders(p, n, o, e, st);
      var r := ValueFirst(a, rv, vo);
      Exec(p, SOURCE, n, Assign([TAttr(o, a)], e), st) == WithState(r, r.st.(fits := ok)) && r.st.fits
  {
    hide Eval, Grew, Ran, WriteAttr, SameEitherWay;
    var (rv, vo, ro, ov) := BothOrders(p, n, o, e, st);
    ok := SameEitherWay(vo, rv, ov, ro);
    var s := Assign([TAttr(o, a)], e);
    assert Exec(p, SOURCE, n, s, st) == ExecAssign(p, SOURCE, n, s, st);
    if rv.EOk? && vo.EOk? { WriteFlag(vo.v, a, rv.v, vo.st, ok); }
  }

  lemma WriteFlag(o: Val, a: string, v: Val, st: State, f: bool)
    ensures var r := WriteAttr(o, a, v, st); var u := WriteAttr(o, a, v, st.(fits := f));
      && u.EOk? == r.EOk? && u.st == r.st.(fits := f) && r.st.fits == st.fits
      && (!r.EOk? ==> r.EExc? && u.EExc? && u.e == r.e)
  {
  }

  lemma AnyTarget(a: string, ro: ER<Val>, ov: ER<Val>, to: ER<Val>, tv: ER<Val>)
    requires Same(ro, to) && (ro.EOk? ==> Same(ov, tv)) && (!ro.EOk? ==> ov == ro) && (!to.EOk? ==> tv == to)
    requires ov.st.fits
    ensures var r, u := Written(a, ro, ov), Written(a, to, tv);
      u == WithState(r, u.st) && Strip(u.st) == r.st && r.st.fits && u.st.fits
  {
    if ov.EOk? && tv.EOk? { WriteStripped(ro.v, a, ov.v, tv.st); }
    hide Plain, StripFrame, WriteAttr;
  }

  lemma AnyCompare(p: SR, w: SR, rs: SR, rt: SR, ok: bool)
    requires rs == WithState(p, p.st.(fits := ok)) && p.st.fits && w.st.fits && rt.st.fits
    requires rt == WithState(w, rt.st) && Strip(rt.st) == w.st
    ensures Agree(rs, rt) <==> p == w
  {
    hide Strip;
    assert rs.st.(fits := true) == p.st;
  }

  /** `o.a = e` for any object and any value: the rewritten statement agrees exactly when, in the
      source, evaluating the object first comes to what evaluating the value first does. */
  lemma ObjectFirstExactly(p: Program, cfg: Config, n: nat, o: Expr, a: string, e: Expr, k: nat, t: State)
    requires Context(p, t) && AcceptsE(o) && AcceptsE(e) && Lenient(cfg) && !t.meter.refused
    requires var (rv, vo, ro, ov) := BothOrders(p, n, o, e, Strip(t)); Fine(rv) && Fine(vo) && Fine(ro) && Fine(ov)
    ensures var s := Assign([TAttr(o, a)], e);
      var (rv, vo, ro, ov) := BothOrders(p, n, o, e, Strip(t));
      Agree(Exec(p, SOURCE, n, s, Strip(t)), ExecAll(Rewrite(p), cfg, n, RwS(s, k).ss, t)) <==>
      ValueFirst(a, rv, vo) == Written(a, ro, ov)
  {
    hide Rewrite, Eval, Exec, ExecAll, RwE, RwS, Same, Agree, Context, AcceptsE, Lenient, Strip, Regular, WriteAttr;
    ContextRegular(p, t);
    LenientPermits(cfg);
    var s := Assign([TAttr(o, a)], e);
    var q := Rewrite(p);
    var (rv, vo, ro, ov) := BothOrders(p, n, o, e, Strip(t));
    var ok := AnySource(p, n, o, a, e, Strip(t));
    SingleWritten(s, k);
    var to := Eval(q, cfg, n, RwE(o), map[], t);
    var tv := if to.EOk? then Eval(q, cfg, n, RwE(e), map[], to.st) else to;
    SameE(p, cfg, n, o, t);
    SameMeans(ro, to);
    ContextAfter(p, t, to.st);
    if ro.EOk? { SameE(p, cfg, n, e, to.st); }
    AnyTarget(a, ro, ov, to, tv);
    ExecOne(q, cfg, n, ExprS(GSetAttr(RwE(o), a, RwE(e))), t);
    TargetOther(q, cfg, n, a, RwE(o), RwE(e), t);
    AnyCompare(ValueFirst(a, rv, vo), Written(a, ro, ov), Exec(p, SOURCE, n, s, Strip(t)),
               ExecAll(q, cfg, n, RwS(s, k).ss, t), ok);
  }

  lemma SameMeans(r: ER<Val>, u: ER<Val>)
    requires Same(r, u)
    ensures r.EOk? == u.EOk? && Strip(u.st) == r.st
  {
  }

  lemma ContextAfter(p: Program, t: State, u: State)
    requires Context(p, t) && Regular(u)
    ensures Context(p, u)
  {
  }

  /** `x.a = f()`, with an `f` that rebinds the global `x`. Python writes to the new `x`, the
      rewritten statement to the old one. */
  const REBINDER: Program := Program(
    [FunDef([], {"x"}, [Assign([TName("x")], New)])],
    [Assign([TAttr(Name("x"), "a")], Call(Name("f"), []))])

  const TWO_NAMES: State := State(
    map["x" := RefV(0), "f" := FunV(0)], Top, [Inst(map[])], [], true, ZERO)

  /** The state a program starts in: its own names, and those of the gates. */
  function WithGates(st: State): State { st.(globals := st.globals + GATES) }

  const GATES: map<string, Val> := map[
    GateName(CheckpointGate) := GateV(CheckpointGate), GateName(GetAttrGate) := GateV(GetAttrGate),
    GateName(SetAttrGate) := GateV(SetAttrGate), GateName(CaptureGate) := GateV(CaptureGate)]

  lemma GatesStand(g: Gate)
    ensures GateName(g) in GATES && GATES[GateName(g)] == GateV(g) && GateName(g) in GATES.Keys
  {
    assert |GateName(CheckpointGate)| == 17 && |GateName(CaptureGate)| == 22;
    assert GateName(GetAttrGate)[5] == 'g' && GateName(SetAttrGate)[5] == 's';
    assert |GateName(GetAttrGate)| == 14 && |GateName(SetAttrGate)| == 14;
  }

  lemma GatesOnly(x: string)
    requires x in GATES
    ensures Reserved(x)
  {
    var g :| x == GateName(g);
    GateReserved(g);
  }

  lemma StartsRegular(st: State)
    requires st.frame.Top? && NoReserved(st.globals.Keys) && st.meter == ZERO
    ensures Strip(WithGates(st)) == st && Regular(WithGates(st))
  {
    var t := WithGates(st);
    forall g ensures Stands(g, t) { GatesStand(g); }
    hide GateName, GATES;
    forall x | x in GATES ensures Reserved(x) { GatesOnly(x); }
    assert ReservedKeys(t.globals) == GATES.Keys;
    assert Plain(t.globals) == st.globals;
  }

  const REBOUND: State :=
    TWO_NAMES.(globals := TWO_NAMES.globals["x" := RefV(1)], heap := [Inst(map[]), Inst(map[])])

  /** `f()` is the call of function 0. */
  lemma CallF(q: Program)
    ensures Eval(q, SOURCE, 1, Call(Name("f"), []), map[], TWO_NAMES) ==
      CallFn(q, SOURCE, 1, FunV(0), [], TWO_NAMES)
  {
    hide CallFn, Grew, Ran;
    assert Eval(q, SOURCE, 1, Name("f"), map[], TWO_NAMES) == EOk(FunV(0), TWO_NAMES);
    assert EvalAll(q, SOURCE, 1, [], map[], TWO_NAMES) == EOk([], TWO_NAMES);
  }

  lemma AcceptsRebinder()
    ensures Accepts(REBINDER) && OwnNames(REBINDER) && AcceptsE(Call(Name("f"), []))
  {
    var d := REBINDER.defs[0];
    var t := [TName("x")];
    assert Writable("x") && Readable("x") && Readable("f");
    assert t[1..] == [] && AcceptsTs(t);
    assert d.body[1..] == [] && AcceptsDef(d) && OwnDef(d);
    var s := REBINDER.main[0];
    assert s.targets[1..] == [] && AcceptsTs(s.targets) && AcceptsE(Call(Name("f"), []));
    assert AcceptsS(s) && OwnS(s);
    assert REBINDER.main[1..] == [];
  }

  /** Calling `f` gives the global `x` a new object. */
  lemma RebindCall()
    ensures CallFn(REBINDER, SOURCE, 1, FunV(0), [], TWO_NAMES) == EOk(NoneV, REBOUND)
  {
    hide Eval, Exec, ExecAll, CallFn, Locals, Ran, Grew;
    var inner := CallState(SOURCE, REBINDER.defs[0], [], TWO_NAMES);
    CallIs(REBINDER, SOURCE, 1, FunV(0), [], TWO_NAMES);
    NewX(REBINDER, inner);
  }

  lemma NewX(q: Program, st: State)
    requires st.frame.Fn? && "x" in st.frame.declared
    ensures ExecAll(q, SOURCE, 0, [Assign([TName("x")], New)], st) ==
      SNext(st.(globals := st.globals["x" := RefV(|st.heap|)], heap := st.heap + [Inst(map[])]))
  {
    hide Grew, Ran;
    ExecOne(q, SOURCE, 0, Assign([TName("x")], New), st);
    StoreName(q, SOURCE, 0, "x", New, st);
    assert Eval(q, SOURCE, 0, New, map[], st) == Alloc(Inst(map[]), st);
  }

  lemma TwoNames()
    ensures Strip(WithGates(TWO_NAMES)) == TWO_NAMES && Regular(WithGates(TWO_NAMES))
    ensures !LeavesAlone("x", TWO_NAMES, EOk(NoneV, REBOUND))
  {
    StartsRegular(TWO_NAMES);
    assert Load("x", map[], TWO_NAMES) == EOk(RefV(0), TWO_NAMES);
    assert Load("x", map[], REBOUND) == EOk(RefV(1), REBOUND);
    assert IsInst(RefV(1), REBOUND.heap);
  }

  lemma SourceLenient()
    ensures Lenient(SOURCE) && Readable("x")
  {
  }

  lemma ObjectBeforeValue()
    ensures var s := Assign([TAttr(Name("x"), "a")], Call(Name("f"), []));
      !Agree(Exec(REBINDER, SOURCE, 1, s, TWO_NAMES),
             ExecAll(Rewrite(REBINDER), SOURCE, 1, RwS(s, 0).ss, WithGates(TWO_NAMES)))
  {
    hide Regular, Accepts, OwnNames, AcceptsE, Strip, Exec, ExecAll, Rewrite, RwS, Agree, LeavesAlone;
    hide Eval, CallFn, Lenient;
    AcceptsRebinder();
    TwoNames();
    CallF(REBINDER);
    RebindCall();
    SourceLenient();
    SingleTargetExactly(REBINDER, SOURCE, 1, "x", "a", Call(Name("f"), []), 0, WithGates(TWO_NAMES));
  }

  lemma OneStatement(s: Stmt, t: State)
    requires AcceptsS(s) && OwnS(s) && Regular(t)
    ensures Context(Program([], [s]), t)
  {
    hide AcceptsS, OwnS, Regular;
    var p := Program([], [s]);
    assert p.main[1..] == [] && AcceptsAll([]) && OwnAll([]);
    assert AcceptsAll(p.main) && OwnAll(p.main);
  }

  // ----- in-place addition to an attribute -----

  /** An augmented assignment up to its value: the object, its attribute, the value. */
  function AugOperands(p: Program, n: nat, s: Stmt, st: State): (ER<Val>, ER<Val>, ER<Val>)
    requires s.AugAttr?
  {
    var ro := Eval(p, SOURCE, n, s.obj, map[], st);
    var rg := if ro.EOk? then ReadAttr(ro.v, s.attr, ro.st) else ro;
    var rv := if rg.EOk? then Eval(p, SOURCE, n, s.value, map[], rg.st) else rg;
    (ro, rg, rv)
  }

  /** It extends a list. */
  predicate AugExtends(p: Program, n: nat, s: Stmt, st: State)
    requires s.AugAttr?
  {
    var (ro, rg, rv) := AugOperands(p, n, s, st);
    rv.EOk? && rg.EOk? && Extends(s.op, rg.v, rv.v, rv.st.heap)
  }

  /** The list is extended in place, or another one is made, or none: never the same. */
  lemma AugDiffers(o: Val, a: string, op: Op, g: Val, rv: ER<Val>, tv: ER<Val>)
    requires Same(rv, tv) && rv.EOk? && Extends(op, g, rv.v, rv.st.heap)
    ensures !Agree(AugInPlace(o, a, op, g, rv), AugBinary(o, a, op, g, tv))
  {
    hide Plain, StripFrame;
    var rs, rt := AugInPlace(o, a, op, g, rv), AugBinary(o, a, op, g, tv);
    assert tv.st.heap == rv.st.heap;
    assert |rs.st.heap| == |rv.st.heap|;
    if rv.v.TupV? {
      assert rt == SExc(TypeError, tv.st);
    } else {
      assert |rt.st.heap| == |tv.st.heap| + 1;
    }
  }

  lemma AugSourceIs(p: Program, n: nat, s: Stmt, st: State)
    requires s.AugAttr?
    ensures var ro := Eval(p, SOURCE, n, s.obj, map[], st);
      Exec(p, SOURCE, n, s, st) == if ro.EOk? then AugRest(p, n, s, ro) else Broke(ro)
  {
    hide Grew, Ran, ReadAttr, WriteAttr, InPlace, Extends;
    assert Exec(p, SOURCE, n, s, st) == ExecAugAttr(p, SOURCE, n, s, st);
  }

  /** Where nothing is extended, the flag stands. */
  lemma AugFits(o: Val, a: string, op: Op, g: Val, v: ER<Val>)
    requires !v.EDeep? && v.st.fits && (v.EOk? ==> !Extends(op, g, v.v, v.st.heap))
    ensures AugInPlace(o, a, op, g, v).st.fits && !AugInPlace(o, a, op, g, v).SDeep?
  {
    hide InPlace, WriteAttr, Extends;
  }

  lemma AugSourceFits(p: Program, n: nat, s: Stmt, st: State)
    requires s.AugAttr? && !AugExtends(p, n, s, st)
    requires var rv := AugOperands(p, n, s, st).2; !rv.EDeep? && rv.st.fits
    ensures Exec(p, SOURCE, n, s, st).st.fits && !Exec(p, SOURCE, n, s, st).SDeep?
  {
    AugSourceIs(p, n, s, st);
    var (ro, rg, rv) := AugOperands(p, n, s, st);
    hide Eval, Exec, ReadAttr, Extends, AugInPlace;
    if ro.EOk? && rg.EOk? { AugFits(ro.v, s.attr, s.op, rg.v, rv); }
  }

  /** The two statements written, once the operands are known. */
  lemma AugTargetIs(p: Program, cfg: Config, n: nat, s: Stmt, k: nat, t: State) returns (tv: ER<Val>)
    requires s.AugAttr? && Context(p, t) && AcceptsS(s) && Lenient(cfg) && !t.meter.refused
    requires var (ro, rg, rv) := AugOperands(p, n, s, Strip(t)); ro.EOk? && rg.EOk? && rv.EOk? && rv.st.fits
    ensures var (ro, rg, rv) := AugOperands(p, n, s, Strip(t));
      && Same(rv, tv)
      && ExecAll(Rewrite(p), cfg, n, RwS(s, k).ss, t) == AugBinary(ro.v, s.attr, s.op, rg.v, tv)
  {
    var (ro, rg, rv) := AugOperands(p, n, s, Strip(t));
    assert ro.st.fits by { assert Grew(p, SOURCE, rg.st, rv.st); }
    var q, x := Rewrite(p), Tmp(k);
    SameE(p, cfg, n, s.obj, t);
    var to := Eval(q, cfg, n, RwE(s.obj), map[], t);
    TmpSpare(k);
    StoreTmp(x, to.v, to.st);
    var u := Store(x, to.v, to.st);
    RegularSame(u, ReadAttr(to.v, s.attr, u).st);
    var tg := ReadAttr(to.v, s.attr, u);
    ReadStripped(to.v, s.attr, u);
    assert tg.EOk? && tg.v == rg.v && Strip(tg.st) == rg.st && Regular(tg.st) && !tg.st.meter.refused;
    hide Eval, Exec, ExecAll, Rewrite, RwE, RwS, ReadAttr, Plain, StripFrame, Load, Store, Tmp, Lenient;
    SameE(p, cfg, n, s.value, tg.st);
    tv := Eval(q, cfg, n, RwE(s.value), map[], tg.st);
    AugWritten(q, cfg, n, s, k, t);
    AugValue(q, cfg, n, s, x, to.v, u);
  }

  lemma ReadStripped(o: Val, a: string, t: State)
    ensures Same(ReadAttr(o, a, Strip(t)), ReadAttr(o, a, t))
    ensures ReadAttr(o, a, t).st == t.(trace := ReadAttr(o, a, t).st.trace)
  {
    hide Plain, StripFrame;
  }

  lemma AugWritten(q: Program, cfg: Config, n: nat, s: Stmt, k: nat, t: State)
    requires s.AugAttr?
    ensures var to := Eval(q, cfg, n, RwE(s.obj), map[], t);
      var x := Tmp(k);
      to.EOk? ==>
        ExecAll(q, cfg, n, RwS(s, k).ss, t) ==
        Exec(q, cfg, n, ExprS(GSetAttr(Name(x), s.attr, Bin(s.op, GGetAttr(Name(x), s.attr), RwE(s.value)))),
             Store(x, to.v, to.st))
  {
    var x := Tmp(k);
    var first := Assign([TName(x)], RwE(s.obj));
    var call := ExprS(GSetAttr(Name(x), s.attr, Bin(s.op, GGetAttr(Name(x), s.attr), RwE(s.value))));
    assert RwS(s, k).ss == [first] + [call];
    hide Exec, ExecAll, RwS, Eval, RwE, Tmp;
    ExecJoin(q, cfg, n, [first], [call], t);
    ExecOne(q, cfg, n, first, t);
    StoreName(q, cfg, n, x, RwE(s.obj), t);
    var to := Eval(q, cfg, n, RwE(s.obj), map[], t);
    if to.EOk? { ExecOne(q, cfg, n, call, Store(x, to.v, to.st)); }
  }

  /** `o.a op= e`, however evaluating its operands ends: the rewritten statements agree exactly
      when no list is extended. */
  lemma AugAttrExactly(p: Program, cfg: Config, n: nat, s: Stmt, k: nat, t: State)
    requires s.AugAttr? && Context(p, t) && AcceptsS(s) && Lenient(cfg) && !t.meter.refused
    requires var rv := AugOperands(p, n, s, Strip(t)).2; !rv.EDeep? && rv.st.fits
    ensures Agree(Exec(p, SOURCE, n, s, Strip(t)), ExecAll(Rewrite(p), cfg, n, RwS(s, k).ss, t)) <==>
      !AugExtends(p, n, s, Strip(t))
  {
    var rs, rt := Exec(p, SOURCE, n, s, Strip(t)), ExecAll(Rewrite(p), cfg, n, RwS(s, k).ss, t);
    var (ro, rg, rv) := AugOperands(p, n, s, Strip(t));
    if AugExtends(p, n, s, Strip(t)) {
      AugSourceIs(p, n, s, Strip(t));
      var tv := AugTargetIs(p, cfg, n, s, k, t);
      hide Eval, Exec, ExecAll, Rewrite, RwS, ReadAttr, Agree, Same, AugInPlace, AugBinary, Extends;
      AugDiffers(ro.v, s.attr, s.op, rg.v, rv, tv);
    } else {
      AugSourceFits(p, n, s, Strip(t));
      SimAugAttr(p, cfg, n, s, k, t);
      assert Ran(Rewrite(p), cfg, t, rt.st);
      assert !rt.st.meter.refused;
      hide Eval, Exec, ExecAll, Rewrite, RwS, ReadAttr, Plain, StripFrame, AugExtends, AugOperands;
    }
  }

  /** `x.a += ()` on a list: Python leaves the list, the rewritten statement raises. */
  const LISTED: State := State(
    map["x" := RefV(0)], Top, [Inst(map["a" := RefV(1)]), ListO([])], [], true, ZERO)

  const EXTENDER: Stmt := AugAttr(Name("x"), "a", Add, Tup([]))

  lemma InPlaceDiffers()
    ensures var p := Program([], [EXTENDER]);
      !Agree(Exec(p, SOURCE, 0, EXTENDER, LISTED),
             ExecAll(Rewrite(p), SOURCE, 0, RwS(EXTENDER, 0).ss, WithGates(LISTED)))
  {
    var p := Program([], [EXTENDER]);
    StartsRegular(LISTED);
    hide Regular, WithGates;
    assert Readable("x") && AcceptsEs([]) && AcceptsS(EXTENDER) && OwnS(EXTENDER);
    OneStatement(EXTENDER, WithGates(LISTED));
    ExtenderOperands(p);
    hide Eval, Exec, ExecAll, Rewrite, RwS, Agree, AugOperands, AugExtends, Context, AcceptsS, Strip, Plain;
    AugAttrExactly(p, SOURCE, 0, EXTENDER, 0, WithGates(LISTED));
  }

  lemma ExtenderOperands(p: Program)
    ensures var rv := AugOperands(p, 0, EXTENDER, LISTED).2; !rv.EDeep? && rv.st.fits
    ensures AugExtends(p, 0, EXTENDER, LISTED)
  {
    hide Grew, Ran;
    assert Eval(p, SOURCE, 0, Name("x"), map[], LISTED) == EOk(RefV(0), LISTED);
    var rg := ReadAttr(RefV(0), "a", LISTED);
    assert rg.EOk? && rg.v == RefV(1) && rg.st.heap == LISTED.heap;
    assert EvalAll(p, SOURCE, 0, [], map[], rg.st) == EOk([], rg.st);
    assert Eval(p, SOURCE, 0, Tup([]), map[], rg.st) == EOk(TupV([]), rg.st);
  }

  // ----- a bare `except:` -----

  predicate HasBare(hs: seq<Handler>) { exists i :: 0 <= i < |hs| && hs[i].catch.Bare? }

  /** An error that is no `Exception` passes every rewritten handler. */
  lemma {:induction false} PassesAll(q: Program, cfg: Config, n: nat, hs: seq<Handler>, k: nat, e: Error, t: State)
    requires e.ExitError?
    ensures Handle(q, cfg, n, RwHs(hs, k).0, e, t) == SExc(e, t)
    decreases |hs|
  {
    if hs != [] {
      var ws := RwHs(hs, k).0;
      var rb := RwAll(hs[0].body, k);
      assert ws[1..] == RwHs(hs[1..], rb.k).0;
      PassesAll(q, cfg, n, hs[1..], rb.k, e, t);
      hide ExecAll, RwAll;
    }
  }

  /** And every handler of the source that is not bare. */
  lemma {:induction false} PassesNamed(p: Program, n: nat, hs: seq<Handler>, e: Error, st: State)
    requires e.ExitError? && !HasBare(hs)
    ensures Handle(p, SOURCE, n, hs, e, st) == SExc(e, st)
    decreases |hs|
  {
    if hs != [] {
      assert forall i :: 0 <= i < |hs[1..]| ==> hs[1..][i] == hs[i + 1];
      assert !hs[0].catch.Bare?;
      hide ExecAll;
      PassesNamed(p, n, hs[1..], e, st);
    }
  }

  /** An error `e` at a `try`'s handlers: the rewritten ones come to what the source's do exactly
      when `e` is an `Exception`, or none of them is bare, or the bare one that takes it does
      nothing but raise it again. */
  lemma BareExceptExactly(p: Program, cfg: Config, n: nat, hs: seq<Handler>, k: nat, e: Error, t: State)
    requires Context(p, t) && AcceptsHs(hs) && OwnHs(hs) && Lenient(cfg) && !t.meter.refused && t.fits
    requires var rs := Handle(p, SOURCE, n, hs, e, Strip(t)); !rs.SDeep? && (!e.ExitError? ==> rs.st.fits)
    ensures var rs := Handle(p, SOURCE, n, hs, e, Strip(t));
      Agree(rs, Handle(Rewrite(p), cfg, n, RwHs(hs, k).0, e, t)) <==>
      !e.ExitError? || !HasBare(hs) || (rs.SExc? && rs.e == e && rs.st.(fits := true) == Strip(t))
  {
    var rs, rt := Handle(p, SOURCE, n, hs, e, Strip(t)), Handle(Rewrite(p), cfg, n, RwHs(hs, k).0, e, t);
    if e.ExitError? {
      PassesAll(Rewrite(p), cfg, n, hs, k, e, t);
      if !HasBare(hs) { PassesNamed(p, n, hs, e, Strip(t)); }
      hide Handle, Rewrite, RwHs, Plain, StripFrame;
    } else {
      SimHandle(p, cfg, n, hs, k, e, t);
      assert Ran(Rewrite(p), cfg, t, rt.st);
      assert !rt.st.meter.refused;
      hide Handle, Rewrite, RwHs, Plain, StripFrame;
    }
  }

  /** The bare handler takes what is no `Exception`. */
  lemma {:induction false} BareTakes(p: Program, n: nat, hs: seq<Handler>, i: nat, e: Error, st: State)
    requires e.ExitError? && i < |hs| && hs[i].catch.Bare? && !HasBare(hs[..i])
    ensures Handle(p, SOURCE, n, hs, e, st) == ExecAll(p, SOURCE, n, hs[i].body, Clear(st, false))
    decreases i
  {
    hide ExecAll;
    if i > 0 {
      assert hs[..i][0] == hs[0] && !hs[0].catch.Bare?;
      assert hs[1..][..i - 1] == hs[..i][1..];
      BareTakes(p, n, hs[1..], i - 1, e, st);
    }
  }

  /** Nothing in the body can raise. */
  predicate Calm(ss: seq<Stmt>) {
    forall i :: 0 <= i < |ss| ==>
      ss[i].Break? || ss[i].Continue? || (ss[i].ExprS? && ss[i].e.Lit?) || (ss[i].Return? && ss[i].value.Lit?)
  }

  lemma {:induction false} CalmEnds(p: Program, n: nat, ss: seq<Stmt>, st: State)
    requires Calm(ss)
    ensures var r := ExecAll(p, SOURCE, n, ss, st); !r.SExc? && !r.SDeep?
    decreases |ss|
  {
    hide Grew, Ran;
    if ss != [] {
      var s := ss[0];
      if s.ExprS? { assert Eval(p, SOURCE, n, s.e, map[], st) == EOk(ConstVal(s.e.c), st); }
      if s.Return? { assert Eval(p, SOURCE, n, s.value, map[], st) == EOk(ConstVal(s.value.c), st); }
      var r0 := Exec(p, SOURCE, n, s, st);
      hide Eval, Exec;
      if r0.SNext? { CalmEnds(p, n, ss[1..], r0.st); }
    }
  }

  /** Told by the text of the bare handler: one that only raises the error again agrees, and one
      in which nothing can raise does not. */
  lemma BareExceptByText(p: Program, cfg: Config, n: nat, hs: seq<Handler>, i: nat, k: nat, e: Error, t: State)
    requires Context(p, t) && AcceptsHs(hs) && OwnHs(hs) && Lenient(cfg) && !t.meter.refused && t.fits
    requires e.ExitError? && i < |hs| && hs[i].catch.Bare? && !HasBare(hs[..i])
    ensures var rs := Handle(p, SOURCE, n, hs, e, Strip(t)); var rt := Handle(Rewrite(p), cfg, n, RwHs(hs, k).0, e, t);
      && (hs[i].body == [Raise(e)] ==> Agree(rs, rt))
      && (Calm(hs[i].body) ==> !Agree(rs, rt))
  {
    var body := hs[i].body;
    var st := Strip(t);
    assert st.fits;
    BareTakes(p, n, hs, i, e, st);
    if body == [Raise(e)] {
      ExecOne(p, SOURCE, n, Raise(e), Clear(st, false));
      assert Exec(p, SOURCE, n, Raise(e), Clear(st, false)) == SExc(e, Clear(st, false));
      hide Handle, Rewrite, RwHs, Agree, Context, Strip, ExecAll, Exec;
      BareExceptExactly(p, cfg, n, hs, k, e, t);
    } else if Calm(body) {
      CalmEnds(p, n, body, Clear(st, false));
      hide Handle, Rewrite, RwHs, Agree, Context, Strip, ExecAll, Calm;
      BareExceptExactly(p, cfg, n, hs, k, e, t);
    }
  }

  /** `try: raise SystemExit` with `except: pass`: Python goes on, the rewritten code does not. */
  const CATCHER: seq<Handler> := [Handler(Bare, [])]

  lemma BareExceptDiffers(p: Program, t: State)
    requires Context(p, t) && t.fits && !t.meter.refused
    ensures !Agree(Handle(p, SOURCE, 0, CATCHER, ExitError(0), Strip(t)),
                   Handle(Rewrite(p), SOURCE, 0, RwHs(CATCHER, 0).0, ExitError(0), t))
  {
    assert CATCHER[0].catch.Bare? && CATCHER[1..] == [];
    assert Handle(p, SOURCE, 0, CATCHER, ExitError(0), Strip(t)) == SNext(Clear(Strip(t), false));
    assert AcceptsHs(CATCHER) && OwnHs(CATCHER);
    hide Handle, Rewrite, RwHs, Agree, Context, Strip;
    BareExceptExactly(p, SOURCE, 0, CATCHER, 0, ExitError(0), t);
  }
}
