/** Every attribute goes through its gate. What the rewriter writes has no attribute in it but the
    gates' calls, and in every run of it each attribute that is read or written is one the policy
    allowed. */
module Gating {
  import opened Options
  import opened Python
  import opened Evaluation
  import opened Rewriter

  // ----- what is written -----

  predicate GatedE(e: Expr)
    decreases e, 1
  {
    match e
    case Attr(_, _) => false
    case Bin(_, l, r) => GatedE(l) && GatedE(r)
    case Or(l, r) => GatedE(l) && GatedE(r)
    case Tup(es) => GatedEs(es)
    case Item(o, _) => GatedE(o)
    case Push(l, x) => GatedE(l) && GatedE(x)
    case Call(f, args) => GatedE(f) && GatedEs(args)
    case Comp(elt, cs) => GatedE(elt) && GatedCs(cs)
    case GGetAttr(o, _) => GatedE(o)
    case GSetAttr(o, _, x) => GatedE(o) && GatedE(x)
    case GCapture(f) => GatedE(f)
    case _ => true
  }

  predicate GatedEs(es: seq<Expr>)
    decreases es, 0
  {
    es == [] || (GatedE(es[0]) && GatedEs(es[1..]))
  }

  predicate GatedCs(cs: seq<Clause>)
    decreases cs, 0
  {
    cs == [] || (GatedE(cs[0].iter) && GatedEs(cs[0].ifs) && GatedCs(cs[1..]))
  }

  predicate GatedT(t: Target)
    decreases t, 1
  {
    match t
    case TName(_) => true
    case TAttr(_, _) => false
    case TTup(us) => GatedTs(us)
  }

  predicate GatedTs(ts: seq<Target>)
    decreases ts, 0
  {
    ts == [] || (GatedT(ts[0]) && GatedTs(ts[1..]))
  }

  predicate GatedS(s: Stmt)
    decreases s, 1
  {
    match s
    case ExprS(e) => GatedE(e)
    case Assign(ts, e) => GatedTs(ts) && GatedE(e)
    case AugName(_, _, e) => GatedE(e)
    case AugAttr(_, _, _, _) => false
    case If(c, a, b) => GatedE(c) && GatedAll(a) && GatedAll(b)
    case While(c, a, b) => GatedE(c) && GatedAll(a) && GatedAll(b)
    case For(_, it, a, b) => GatedE(it) && GatedAll(a) && GatedAll(b)
    case Try(a, hs, b, c) => GatedAll(a) && GatedHs(hs) && GatedAll(b) && GatedAll(c)
    case Return(e) => GatedE(e)
    case _ => true
  }

  /** What follows a `def`: the function is captured under its name. */
  function Captures(f: string): Stmt { Assign([TName(f)], GCapture(Name(f))) }

  predicate GatedAll(ss: seq<Stmt>)
    decreases ss, 0
  {
    ss == [] ||
    (&& GatedS(ss[0]) && GatedAll(ss[1..])
     && (ss[0].Def? ==> |ss| > 1 && ss[1] == Captures(ss[0].name)))
  }

  predicate GatedHs(hs: seq<Handler>)
    decreases hs, 0
  {
    hs == [] || (GatedAll(hs[0].body) && GatedHs(hs[1..]))
  }

  predicate GatedDefs(p: Program) { forall i :: 0 <= i < |p.defs| ==> GatedAll(p.defs[i].body) }

  predicate Gated(p: Program) { GatedDefs(p) && GatedAll(p.main) }

  // ----- the rewriter writes nothing else -----

  lemma {:induction false} WritesE(e: Expr)
    requires AcceptsE(e)
    ensures GatedE(RwE(e))
    decreases e, 1
  {
    match e
    case Attr(o, _) => WritesE(o);
    case Bin(_, l, r) => WritesE(l); WritesE(r);
    case Or(l, r) => WritesE(l); WritesE(r);
    case Tup(es) => WritesEs(es);
    case Item(o, _) => WritesE(o);
    case Push(l, x) => WritesE(l); WritesE(x);
    case Call(f, args) => WritesE(f); WritesEs(args);
    case Comp(elt, cs) => WritesE(elt); WritesCs(cs);
    case _ =>
  }

  lemma {:induction false} WritesEs(es: seq<Expr>)
    requires AcceptsEs(es)
    ensures GatedEs(RwEs(es))
    decreases es, 0
  {
    if es != [] {
      WritesE(es[0]);
      WritesEs(es[1..]);
      assert RwEs(es)[1..] == RwEs(es[1..]);
    }
  }

  lemma {:induction false} WritesCs(cs: seq<Clause>)
    requires AcceptsCs(cs)
    ensures GatedCs(RwCs(cs))
    decreases cs, 0
  {
    if cs != [] {
      WritesE(cs[0].iter);
      WritesEs(cs[0].ifs);
      WritesCs(cs[1..]);
      var c := RwCs(cs)[0];
      assert RwCs(cs)[1..] == RwCs(cs[1..]);
      assert c.ifs[1..] == RwEs(cs[0].ifs) && GatedE(c.ifs[0]);
    }
  }

  lemma {:induction false} GatedJoin(a: seq<Stmt>, b: seq<Stmt>)
    requires GatedAll(a) && GatedAll(b)
    ensures GatedAll(a + b)
  {
    if a == [] {
      assert a + b == b;
    } else {
      assert (a + b)[1..] == a[1..] + b;
      GatedJoin(a[1..], b);
    }
  }

  lemma GatedOne(s: Stmt)
    requires GatedS(s) && !s.Def?
    ensures GatedAll([s])
  {
    hide GatedS;
    assert [s][1..] == [];
  }

  lemma GatedHead(body: seq<Stmt>)
    requires GatedAll(body)
    ensures GatedAll(PrependCheckpoint(body))
  {
    GatedOne(ExprS(GCheckpoint));
    if body != [] && IsDocstring(body[0]) {
      GatedOne(body[0]);
      GatedJoin([ExprS(GCheckpoint)], body[1..]);
      GatedJoin([body[0]], [ExprS(GCheckpoint)] + body[1..]);
      assert PrependCheckpoint(body) == [body[0]] + ([ExprS(GCheckpoint)] + body[1..]);
    } else {
      GatedJoin([ExprS(GCheckpoint)], body);
    }
  }

  lemma GatedName(x: string)
    ensures GatedTs([TName(x)])
  {
    assert GatedT([TName(x)][0]) && [TName(x)][1..] == [];
  }

  lemma {:induction false} GatedPlain(ts: seq<Target>)
    requires !HasAttr(ts)
    ensures GatedTs(ts)
    decreases ts
  {
    if ts != [] {
      GatedPlain(ts[1..]);
      if ts[0].TTup? { GatedPlain(ts[0].elts); }
    }
  }

  lemma {:induction false} WritesEmit(t: Target, from: Expr)
    requires AcceptsTs([t]) && GatedE(from)
    ensures GatedAll(Emit(t, from))
    decreases t, 1
  {
    match t
    case TName(x) => GatedName(x); GatedOne(Assign([t], from));
    case TAttr(o, a) =>
      WritesE(o);
      assert GatedE(GSetAttr(RwE(o), a, from));
      GatedOne(ExprS(GSetAttr(RwE(o), a, from)));
    case TTup(us) => WritesEmitItems(us, from, 0);
  }

  lemma {:induction false} WritesEmitItems(ts: seq<Target>, from: Expr, i: nat)
    requires AcceptsTs(ts) && GatedE(from)
    ensures GatedAll(EmitItems(ts, from, i))
    decreases ts, 0
  {
    if ts != [] {
      assert [ts[0]][1..] == [] && GatedE(Item(from, i));
      WritesEmit(ts[0], Item(from, i));
      WritesEmitItems(ts[1..], from, i + 1);
      GatedJoin(Emit(ts[0], Item(from, i)), EmitItems(ts[1..], from, i + 1));
    }
  }

  lemma {:induction false} WritesEmitAll(ts: seq<Target>, from: Expr)
    requires AcceptsTs(ts) && GatedE(from)
    ensures GatedAll(EmitAll(ts, from))
  {
    if ts != [] {
      assert [ts[0]][1..] == [];
      WritesEmit(ts[0], from);
      WritesEmitAll(ts[1..], from);
      GatedJoin(Emit(ts[0], from), EmitAll(ts[1..], from));
    }
  }

  lemma {:induction false} WritesAll(ss: seq<Stmt>, k: nat)
    requires AcceptsAll(ss)
    ensures GatedAll(RwAll(ss, k).ss)
    decreases ss, 0
  {
    if ss != [] {
      var r0 := RwS(ss[0], k);
      WritesS(ss[0], k);
      WritesAll(ss[1..], r0.k);
      GatedJoin(r0.ss, RwAll(ss[1..], r0.k).ss);
    }
  }

  lemma {:induction false} WritesS(s: Stmt, k: nat)
    requires AcceptsS(s)
    ensures GatedAll(RwS(s, k).ss)
    decreases s, 1
  {
    hide GatedAll, GatedE, RwE, AcceptsE;
    match s
    case Assign(_, _) => WritesAssign(s, k);
    case AugAttr(_, _, _, _) => WritesAugAttr(s, k);
    case Def(_, _) => WritesDef(s, k);
    case If(_, _, _) => WritesBlock(s, k);
    case While(_, _, _) => WritesBlock(s, k);
    case For(_, _, _, _) => WritesBlock(s, k);
    case Try(_, _, _, _) => WritesTry(s, k);
    case ExprS(e) => WritesE(e); GatedOne(ExprS(RwE(e)));
    case AugName(x, op, e) => WritesE(e); GatedOne(AugName(x, op, RwE(e)));
    case Return(e) => WritesE(e); GatedOne(Return(RwE(e)));
    case _ => GatedOne(s);
  }

  lemma WritesDef(s: Stmt, k: nat)
    requires s.Def?
    ensures GatedAll(RwS(s, k).ss)
  {
    var again := Captures(s.name);
    GatedName(s.name);
    assert GatedE(Name(s.name)) && GatedE(GCapture(Name(s.name)));
    GatedOne(again);
    assert RwS(s, k).ss == [s, again] && [s, again][1..] == [again];
  }

  lemma {:induction false} WritesBlock(s: Stmt, k: nat)
    requires AcceptsS(s) && (s.If? || s.While? || s.For?)
    ensures GatedAll(RwS(s, k).ss)
    decreases s, 0
  {
    hide GatedAll, GatedE, RwE, AcceptsE, RwAll, AcceptsAll;
    var a := if s.If? then s.thn else s.body;
    var b := if s.If? then s.els else s.orelse;
    WritesE(if s.For? then s.iter else s.cond);
    WritesAll(a, k);
    WritesAll(b, RwAll(a, k).k);
    GatedHead(RwAll(a, k).ss);
    var r := RwS(s, k).ss;
    assert r == [r[0]];
    GatedOne(r[0]);
  }

  lemma {:induction false} WritesTry(s: Stmt, k: nat)
    requires AcceptsS(s) && s.Try?
    ensures GatedAll(RwS(s, k).ss)
    decreases s, 0
  {
    hide GatedAll, GatedHs, RwAll, RwHs, AcceptsAll, AcceptsHs;
    var ra := RwAll(s.body, k);
    var rh := RwHs(s.handlers, ra.k);
    WritesAll(s.body, k);
    WritesHs(s.handlers, ra.k);
    WritesAll(s.orelse, rh.1);
    WritesAll(s.final, RwAll(s.orelse, rh.1).k);
    var r := RwS(s, k).ss;
    assert r == [r[0]];
    GatedOne(r[0]);
  }

  lemma {:induction false} WritesHs(hs: seq<Handler>, k: nat)
    requires AcceptsHs(hs)
    ensures GatedHs(RwHs(hs, k).0)
    decreases hs, 0
  {
    if hs != [] {
      var rb := RwAll(hs[0].body, k);
      WritesAll(hs[0].body, k);
      WritesHs(hs[1..], rb.k);
      assert RwHs(hs, k).0[1..] == RwHs(hs[1..], rb.k).0;
    }
  }

  lemma WritesAugAttr(s: Stmt, k: nat)
    requires s.AugAttr? && AcceptsS(s)
    ensures GatedAll(RwS(s, k).ss)
  {
    var AugAttr(o, a, op, e) := s;
    var tmp := Name(Tmp(k));
    WritesE(o);
    WritesE(e);
    GatedName(Tmp(k));
    assert GatedE(tmp) && GatedE(GGetAttr(tmp, a)) && GatedE(Bin(op, GGetAttr(tmp, a), RwE(e)));
    assert GatedE(GSetAttr(tmp, a, Bin(op, GGetAttr(tmp, a), RwE(e))));
    var r := RwS(s, k).ss;
    hide GatedAll, GatedE;
    GatedOne(r[0]);
    GatedOne(r[1]);
    GatedJoin([r[0]], [r[1]]);
    assert r == [r[0]] + [r[1]];
  }

  lemma WritesAssign(s: Stmt, k: nat)
    requires s.Assign? && AcceptsS(s)
    ensures GatedAll(RwS(s, k).ss)
  {
    var Assign(ts, e) := s;
    WritesE(e);
    hide GatedAll, RwE, AcceptsE, EmitAll;
    if !HasAttr(ts) {
      GatedPlain(ts);
      GatedOne(Assign(ts, RwE(e)));
    } else if NeedsTmp(ts) {
      var first := Assign([TName(Tmp(k))], RwE(e));
      GatedName(Tmp(k));
      GatedOne(first);
      WritesEmitAll(ts, Name(Tmp(k)));
      GatedJoin([first], EmitAll(ts, Name(Tmp(k))));
    } else {
      WritesEmitAll(ts, RwE(e));
    }
  }

  /** No attribute is left in what is written for an accepted program, nor an attribute target or
      an augmented attribute; and every `def` is followed by the capture of its function. */
  lemma RewriteGates(p: Program)
    requires Accepts(p)
    ensures Gated(Rewrite(p))
  {
    forall i | 0 <= i < |p.defs| ensures GatedAll(Rewrite(p).defs[i].body) {
      var k := StartOf(p.defs, i);
      assert AcceptsDef(p.defs[i]);
      WritesAll(p.defs[i].body, k);
      GatedHead(RwAll(p.defs[i].body, k).ss);
    }
    WritesAll(p.main, StartOf(p.defs, |p.defs|));
  }

  /** A function's docstring is still the first thing in it. */
  lemma DocstringStays(d: FunDef, k: nat)
    requires d.body != [] && IsDocstring(d.body[0])
    ensures RwDef(d, k).body != [] && RwDef(d, k).body[0] == d.body[0]
  {
    assert RwE(d.body[0].e) == d.body[0].e;
    assert RwS(d.body[0], k).ss == [d.body[0]];
    assert RwAll(d.body, k).ss[0] == d.body[0];
  }

  // ----- the policy is asked -----

  predicate Allowed(cfg: Config, ev: Event) {
    match ev
    case Got(r, a) => cfg.mayRead(r, a)
    case Put(r, a, _) => cfg.mayWrite(r, a)
  }

  /** A gate reads or writes as Python does exactly what the policy allows. What it does not allow
      is an `AttributeError` that leaves the objects, the variables and the counter alone. */
  lemma GateExactly(cfg: Config, r: nat, a: string, x: Val, st: State)
    ensures var got := CallGate(cfg, GetAttrGate, [RefV(r), StrV(a)], st);
      if cfg.mayRead(r, a) then got == ReadAttr(RefV(r), a, st)
      else got.EExc? && got.e == AttributeError && got.st == st.(meter := st.meter.(refused := true))
    ensures var put := CallGate(cfg, SetAttrGate, [RefV(r), StrV(a), x], st);
      if cfg.mayWrite(r, a) then put == WriteAttr(RefV(r), a, x, st)
      else put.EExc? && put.e == AttributeError && put.st == st.(meter := st.meter.(refused := true))
  {
    hide Metered, OnlyObjects;
  }

  /** What has been read and written in between is what the policy allows. */
  predicate Asked(cfg: Config, a: State, b: State) {
    a.trace <= b.trace && forall i :: |a.trace| <= i < |b.trace| ==> Allowed(cfg, b.trace[i])
  }

  lemma AskedOn(cfg: Config, a: State, b: State, c: State)
    requires Asked(cfg, a, b) && Asked(cfg, b, c)
    ensures Asked(cfg, a, c)
  {
    hide Allowed;
    assert forall i :: 0 <= i < |b.trace| ==> c.trace[i] == b.trace[i];
  }

  lemma AskedSame(cfg: Config, a: State, b: State)
    requires b.trace == a.trace
    ensures Asked(cfg, a, b)
  {
  }

  lemma GateAsks(cfg: Config, g: Gate, args: seq<Val>, st: State)
    ensures Asked(cfg, st, CallGate(cfg, g, args, st).st)
  {
    hide Metered;
  }

  lemma OtherAsks(p: Program, cfg: Config, f: Val, args: seq<Val>, st: State)
    ensures Asked(cfg, st, CallOther(p, cfg, f, args, st).st)
  {
    hide Grew, CallGate;
    if f.GateV? { GateAsks(cfg, f.gate, args, st); }
  }

  // ----- expressions -----

  lemma {:induction false} AsksE(p: Program, cfg: Config, n: nat, e: Expr, sc: Scope, st: State)
    requires GatedDefs(p) && GatedE(e)
    ensures Asked(cfg, st, Eval(p, cfg, n, e, sc, st).st)
    decreases n, 1, e, 1
  {
    hide Grew, Truthy, CallFn, EvalAll, EvalComp, EvalCall, EvalGate, EvalCheckpoint, Asked, GatedDefs;
    hide Binary, ReadItem, AppendItem, Load;
    match e
    case Lit(_) => AskedSame(cfg, st, st);
    case Name(_) => AskedSame(cfg, st, st);
    case New => AskedSame(cfg, st, Eval(p, cfg, n, e, sc, st).st);
    case Item(o, i) => AsksE(p, cfg, n, o, sc, st);
    case Bin(_, _, _) => AsksTwo(p, cfg, n, e, sc, st);
    case Or(_, _) => AsksTwo(p, cfg, n, e, sc, st);
    case Push(_, _) => AsksTwo(p, cfg, n, e, sc, st);
    case Tup(es) => AsksEs(p, cfg, n, es, sc, st);
    case Call(_, _) => AsksCallE(p, cfg, n, e, sc, st);
    case Comp(elt, cs) => AsksCompE(p, cfg, n, e, sc, st);
    case GCheckpoint => AsksCheckpoint(p, cfg, n, sc, st);
    case GGetAttr(_, _) => AsksGate(p, cfg, n, e, sc, st);
    case GSetAttr(_, _, _) => AsksGate(p, cfg, n, e, sc, st);
    case GCapture(_) => AsksGate(p, cfg, n, e, sc, st);
  }

  lemma {:induction false} AsksCompE(p: Program, cfg: Config, n: nat, e: Expr, sc: Scope, st: State)
    requires GatedDefs(p) && GatedE(e) && e.Comp?
    ensures Asked(cfg, st, Eval(p, cfg, n, e, sc, st).st)
    decreases n, 1, e, 0
  {
    hide Grew, EvalComp, Asked, GatedDefs;
    AsksComp(p, cfg, n, e.elt, e.clauses, sc, st);
    var rs := EvalComp(p, cfg, n, e.elt, e.clauses, sc, st);
    var r := Eval(p, cfg, n, e, sc, st);
    AskedSame(cfg, rs.st, r.st);
    AskedOn(cfg, st, rs.st, r.st);
  }

  lemma {:induction false} AsksCheckpoint(p: Program, cfg: Config, n: nat, sc: Scope, st: State)
    requires GatedDefs(p)
    ensures Asked(cfg, st, EvalCheckpoint(p, cfg, n, sc, st).st)
    decreases n, 1, Expr.GCheckpoint, 0
  {
    hide Grew, CallFn, Load, Asked, GatedDefs, GateName;
    var r := EvalCheckpoint(p, cfg, n, sc, st);
    var g := Load(GateName(CheckpointGate), sc, st);
    AskedSame(cfg, st, Missed(st));
    if Reached(sc, st) {
      AskedSame(cfg, st, r.st);
    } else if g.EOk? {
      AsksCall(p, cfg, n, g.v, [], Missed(st));
      AskedOn(cfg, st, Missed(st), r.st);
    }
  }

  lemma {:induction false} AsksTwo(p: Program, cfg: Config, n: nat, e: Expr, sc: Scope, st: State)
    requires GatedDefs(p) && GatedE(e) && (e.Bin? || e.Or? || e.Push?)
    ensures Asked(cfg, st, Eval(p, cfg, n, e, sc, st).st)
    decreases n, 1, e, 0
  {
    hide Grew, Truthy, Asked, GatedDefs;
    var a := if e.Push? then e.list else e.left;
    var b := if e.Push? then e.item else e.right;
    AsksE(p, cfg, n, a, sc, st);
    var ra := Eval(p, cfg, n, a, sc, st);
    if ra.EOk? {
      AsksE(p, cfg, n, b, sc, ra.st);
      var rb := Eval(p, cfg, n, b, sc, ra.st);
      AskedOn(cfg, st, ra.st, rb.st);
      if rb.EOk? && !e.Or? {
        AskedSame(cfg, rb.st, Eval(p, cfg, n, e, sc, st).st);
        AskedOn(cfg, st, rb.st, Eval(p, cfg, n, e, sc, st).st);
      }
    }
  }

  lemma {:induction false} AsksCallE(p: Program, cfg: Config, n: nat, e: Expr, sc: Scope, st: State)
    requires GatedDefs(p) && GatedE(e) && e.Call?
    ensures Asked(cfg, st, EvalCall(p, cfg, n, e, sc, st).st)
    decreases n, 1, e, 0
  {
    hide Grew, Eval, CallFn, EvalAll, Asked, GatedDefs;
    AsksE(p, cfg, n, e.fn, sc, st);
    var rf := Eval(p, cfg, n, e.fn, sc, st);
    if rf.EOk? {
      AsksEs(p, cfg, n, e.args, sc, rf.st);
      var rs := EvalAll(p, cfg, n, e.args, sc, rf.st);
      AskedOn(cfg, st, rf.st, rs.st);
      if rs.EOk? {
        AsksCall(p, cfg, n, rf.v, rs.v, rs.st);
        AskedOn(cfg, st, rs.st, CallFn(p, cfg, n, rf.v, rs.v, rs.st).st);
      }
    }
  }

  lemma {:induction false} AsksGate(p: Program, cfg: Config, n: nat, e: Expr, sc: Scope, st: State)
    requires GatedDefs(p) && GatedE(e) && (e.GGetAttr? || e.GSetAttr? || e.GCapture?)
    ensures Asked(cfg, st, EvalGate(p, cfg, n, e, sc, st).st)
    decreases n, 1, e, 0
  {
    hide Grew, CallFn, Load, GateName, Eval, Asked, GatedDefs, Metered;
    AskedSame(cfg, st, st);
    var g := Load(GateName(GateOf(e)), sc, st);
    if g.EOk? {
      var o := if e.GCapture? then e.f else e.obj;
      AsksE(p, cfg, n, o, sc, st);
      var r1 := Eval(p, cfg, n, o, sc, st);
      if r1.EOk? {
        if e.GCapture? {
          AsksCall(p, cfg, n, g.v, [r1.v], r1.st);
          AskedOn(cfg, st, r1.st, CallFn(p, cfg, n, g.v, [r1.v], r1.st).st);
        } else if e.GGetAttr? {
          AsksCall(p, cfg, n, g.v, [r1.v, StrV(e.attr)], r1.st);
          AskedOn(cfg, st, r1.st, CallFn(p, cfg, n, g.v, [r1.v, StrV(e.attr)], r1.st).st);
        } else {
          AsksE(p, cfg, n, e.value, sc, r1.st);
          var r2 := Eval(p, cfg, n, e.value, sc, r1.st);
          AskedOn(cfg, st, r1.st, r2.st);
          if r2.EOk? {
            AsksCall(p, cfg, n, g.v, [r1.v, StrV(e.attr), r2.v], r2.st);
            AskedOn(cfg, st, r2.st, CallFn(p, cfg, n, g.v, [r1.v, StrV(e.attr), r2.v], r2.st).st);
          }
        }
      }
    }
  }

  lemma {:induction false} AsksEs(p: Program, cfg: Config, n: nat, es: seq<Expr>, sc: Scope, st: State)
    requires GatedDefs(p) && GatedEs(es)
    ensures Asked(cfg, st, EvalAll(p, cfg, n, es, sc, st).st)
    decreases n, 1, es, 0
  {
    hide Grew, Eval, Asked, GatedDefs;
    if es == [] {
      AskedSame(cfg, st, st);
    } else {
      AsksE(p, cfg, n, es[0], sc, st);
      var r0 := Eval(p, cfg, n, es[0], sc, st);
      if r0.EOk? {
        AsksEs(p, cfg, n, es[1..], sc, r0.st);
        AskedOn(cfg, st, r0.st, EvalAll(p, cfg, n, es[1..], sc, r0.st).st);
      }
    }
  }

  lemma {:induction false} AsksCall(p: Program, cfg: Config, n: nat, f: Val, args: seq<Val>, st: State)
    requires GatedDefs(p)
    ensures Asked(cfg, st, CallFn(p, cfg, n, f, args, st).st)
    decreases n, 0
  {
    hide ExecAll, CallFn, CallOther, Asked;
    CallIs(p, cfg, n, f, args, st);
    OtherAsks(p, cfg, f, args, st);
    AskedSame(cfg, st, st);
    if n > 0 && Enters(p, f, args) {
      var d := p.defs[f.id];
      var inner := CallState(cfg, d, args, st);
      var r := ExecAll(p, cfg, n - 1, d.body, inner);
      AsksAll(p, cfg, n - 1, d.body, inner);
      AskedSame(cfg, st, inner);
      AskedOn(cfg, st, inner, r.st);
      AskedSame(cfg, r.st, Returned(st, r).st);
      AskedOn(cfg, st, r.st, Returned(st, r).st);
    }
  }

  lemma {:induction false} AsksComp(p: Program, cfg: Config, n: nat, elt: Expr, cs: seq<Clause>, sc: Scope, st: State)
    requires GatedDefs(p) && GatedE(elt) && GatedCs(cs)
    ensures Asked(cfg, st, EvalComp(p, cfg, n, elt, cs, sc, st).st)
    decreases n, 1, cs, 1
  {
    hide Grew, Eval, EvalComp, CompLoop, Iterable, Asked, GatedDefs;
    CompIs(p, cfg, n, elt, cs, sc, st);
    if cs == [] {
      AskedSame(cfg, st, st);
    } else {
      AsksE(p, cfg, n, cs[0].iter, sc, st);
      var ri := Eval(p, cfg, n, cs[0].iter, sc, st);
      if ri.EOk? && Iterable(ri.v, ri.st.heap) {
        AsksLoop(p, cfg, n, elt, cs, sc, ri.v, 0, ri.st);
        AskedOn(cfg, st, ri.st, CompLoop(p, cfg, n, elt, cs, sc, ri.v, 0, ri.st).st);
      }
    }
  }

  lemma {:induction false} AsksLoop(
    p: Program, cfg: Config, n: nat, elt: Expr, cs: seq<Clause>, sc: Scope, over: Val, i: nat, st: State)
    requires GatedDefs(p) && GatedE(elt) && cs != [] && GatedCs(cs)
    ensures Asked(cfg, st, CompLoop(p, cfg, n, elt, cs, sc, over, i, st).st)
    decreases n, 0
  {
    hide CompItem, CompLoop, NextItem, Asked, GatedDefs, GatedE;
    var item := NextItem(over, i, st.heap);
    if item.None? || n == 0 {
      LoopStops(p, cfg, n, elt, cs, sc, over, i, st);
      AskedSame(cfg, st, st);
    } else {
      var sc' := sc[cs[0].target := item.value];
      LoopUnfold(p, cfg, n, elt, cs, sc, over, i, st);
      AsksItem(p, cfg, n - 1, elt, cs, sc', st);
      var r0 := CompItem(p, cfg, n - 1, elt, cs, sc', st);
      if r0.EOk? {
        AsksLoop(p, cfg, n - 1, elt, cs, sc, over, i + 1, r0.st);
        AskedOn(cfg, st, r0.st, CompLoop(p, cfg, n - 1, elt, cs, sc, over, i + 1, r0.st).st);
      }
    }
  }

  lemma {:induction false} AsksItem(p: Program, cfg: Config, n: nat, elt: Expr, cs: seq<Clause>, sc: Scope, st: State)
    requires GatedDefs(p) && GatedE(elt) && cs != [] && GatedCs(cs)
    ensures Asked(cfg, st, CompItem(p, cfg, n, elt, cs, sc, st).st)
    decreases n, 2
  {
    hide Grew, Eval, EvalComp, Filters, CompItem, Asked, GatedDefs, GatedE;
    ItemUnfold(p, cfg, n, elt, cs, sc, st);
    AsksIfs(p, cfg, n, cs[0].ifs, sc, st);
    var rc := Filters(p, cfg, n, cs[0].ifs, sc, st);
    if rc.EOk? && rc.v {
      if |cs| > 1 {
        AsksComp(p, cfg, n, elt, cs[1..], sc, rc.st);
        AskedOn(cfg, st, rc.st, EvalComp(p, cfg, n, elt, cs[1..], sc, rc.st).st);
      } else {
        AsksE(p, cfg, n, elt, sc, rc.st);
        AskedOn(cfg, st, rc.st, Eval(p, cfg, n, elt, sc, rc.st).st);
      }
    }
  }

  lemma {:induction false} AsksIfs(p: Program, cfg: Config, n: nat, ifs: seq<Expr>, sc: Scope, st: State)
    requires GatedDefs(p) && GatedEs(ifs)
    ensures Asked(cfg, st, Filters(p, cfg, n, ifs, sc, st).st)
    decreases n, 1, ifs, 0
  {
    hide Grew, Eval, Truthy, Asked, GatedDefs, GatedE;
    if ifs == [] {
      AskedSame(cfg, st, st);
    } else {
      AsksE(p, cfg, n, ifs[0], sc, st);
      var r0 := Eval(p, cfg, n, ifs[0], sc, st);
      if r0.EOk? && Truthy(r0.v, r0.st.heap) {
        AsksIfs(p, cfg, n, ifs[1..], sc, r0.st);
        AskedOn(cfg, st, r0.st, Filters(p, cfg, n, ifs[1..], sc, r0.st).st);
      }
    }
  }

  // ----- assignments: no target is an attribute, and nothing is asked -----

  lemma {:induction false} AsksTo(p: Program, cfg: Config, n: nat, t: Target, v: Val, st: State)
    requires GatedT(t)
    ensures AssignTo(p, cfg, n, t, v, st).st.trace == st.trace
    decreases t, 1
  {
    hide Grew, Ran, Store, Unpack;
    if t.TTup? {
      var ru := Unpack(v, |t.elts|, st);
      if ru.EOk? { AsksEach(p, cfg, n, t.elts, ru.v, ru.st); }
    }
  }

  lemma {:induction false} AsksEach(p: Program, cfg: Config, n: nat, ts: seq<Target>, vs: seq<Val>, st: State)
    requires |ts| == |vs| && GatedTs(ts)
    ensures AssignEach(p, cfg, n, ts, vs, st).st.trace == st.trace
    decreases ts, 0
  {
    hide Ran, AssignTo, GatedT;
    if ts != [] {
      AsksTo(p, cfg, n, ts[0], vs[0], st);
      var r0 := AssignTo(p, cfg, n, ts[0], vs[0], st);
      if r0.EOk? { AsksEach(p, cfg, n, ts[1..], vs[1..], r0.st); }
    }
  }

  lemma {:induction false} AsksSame(p: Program, cfg: Config, n: nat, ts: seq<Target>, v: Val, st: State)
    requires GatedTs(ts)
    ensures AssignSame(p, cfg, n, ts, v, st).st.trace == st.trace
  {
    hide Ran, AssignTo, GatedT;
    if ts != [] {
      AsksTo(p, cfg, n, ts[0], v, st);
      var r0 := AssignTo(p, cfg, n, ts[0], v, st);
      if r0.EOk? { AsksSame(p, cfg, n, ts[1..], v, r0.st); }
    }
  }

  lemma {:induction false} AsksAssign(p: Program, cfg: Config, n: nat, s: Stmt, st: State)
    requires GatedDefs(p) && s.Assign? && GatedS(s)
    ensures Asked(cfg, st, ExecAssign(p, cfg, n, s, st).st)
    decreases n, 1, s, 2
  {
    hide Grew, Ran, Eval, AssignSame, Asked, GatedDefs, HasAttr, ShapedBy, GatedE;
    var Assign(ts, e) := s;
    assert |ts| > 0 ==> GatedT(ts[0]);
    AsksE(p, cfg, n, e, map[], st);
    var rv := Eval(p, cfg, n, e, map[], st);
    if rv.EOk? {
      var u := Clear(rv.st, HasAttr(ts) ==> ShapedBy(ts, rv.v));
      AsksSame(p, cfg, n, ts, rv.v, u);
      var r := ExecAssign(p, cfg, n, s, st);
      AskedSame(cfg, rv.st, r.st);
      AskedOn(cfg, st, rv.st, r.st);
    }
  }

  lemma {:induction false} AsksAugName(p: Program, cfg: Config, n: nat, s: Stmt, st: State)
    requires GatedDefs(p) && s.AugName? && GatedS(s)
    ensures Asked(cfg, st, ExecAugName(p, cfg, n, s, st).st)
    decreases n, 1, s, 2
  {
    hide Grew, Ran, Eval, Load, Store, Asked, GatedDefs;
    var r := ExecAugName(p, cfg, n, s, st);
    var rx := Load(s.x, map[], st);
    if rx.EOk? {
      AsksE(p, cfg, n, s.value, map[], st);
      var rv := Eval(p, cfg, n, s.value, map[], st);
      if rv.EOk? {
        InPlaceQuiet(s.op, rx.v, rv.v, rv.st);
        hide InPlace;
        AskedSame(cfg, rv.st, r.st);
        AskedOn(cfg, st, rv.st, r.st);
      }
    } else {
      AskedSame(cfg, st, r.st);
    }
  }

  lemma InPlaceQuiet(op: Op, a: Val, b: Val, st: State)
    ensures InPlace(op, a, b, st).st.trace == st.trace
  {
  }

  // ----- statements -----

  lemma {:induction false} AsksAll(p: Program, cfg: Config, n: nat, ss: seq<Stmt>, st: State)
    requires GatedDefs(p) && GatedAll(ss)
    ensures Asked(cfg, st, ExecAll(p, cfg, n, ss, st).st)
    decreases n, 1, ss, 0
  {
    hide Ran, Exec, Asked, GatedDefs, GatedS;
    if ss == [] {
      AskedSame(cfg, st, st);
    } else {
      AsksS(p, cfg, n, ss[0], st);
      var r0 := Exec(p, cfg, n, ss[0], st);
      if r0.SNext? {
        AsksAll(p, cfg, n, ss[1..], r0.st);
        AskedOn(cfg, st, r0.st, ExecAll(p, cfg, n, ss[1..], r0.st).st);
      }
    }
  }

  lemma {:induction false} AsksS(p: Program, cfg: Config, n: nat, s: Stmt, st: State)
    requires GatedDefs(p) && GatedS(s)
    ensures Asked(cfg, st, Exec(p, cfg, n, s, st).st)
    decreases n, 1, s, 3
  {
    hide Grew, Ran, Eval, ExecAll, ExecAssign, ExecAugName, ExecWhile, ExecTry, ForLoop, Store, Asked, GatedDefs;
    match s
    case ExprS(e) => AsksE(p, cfg, n, e, map[], st);
    case Assign(_, _) => AsksAssign(p, cfg, n, s, st);
    case AugName(_, _, _) => AsksAugName(p, cfg, n, s, st);
    case Def(f, id) => AskedSame(cfg, st, Store(f, FunV(id), st));
    case If(c, a, b) =>
      AsksE(p, cfg, n, c, map[], st);
      var rc := Eval(p, cfg, n, c, map[], st);
      if rc.EOk? {
        AsksAll(p, cfg, n, if Truthy(rc.v, rc.st.heap) then a else b, rc.st);
        AskedOn(cfg, st, rc.st, Exec(p, cfg, n, s, st).st);
      }
    case While(_, _, _) => AsksWhile(p, cfg, n, s, st);
    case For(x, it, a, b) =>
      AsksE(p, cfg, n, it, map[], st);
      var ri := Eval(p, cfg, n, it, map[], st);
      if ri.EOk? && Iterable(ri.v, ri.st.heap) {
        AsksFor(p, cfg, n, x, a, b, ri.v, 0, ri.st);
        AskedOn(cfg, st, ri.st, Exec(p, cfg, n, s, st).st);
      }
    case Try(_, _, _, _) => AsksTry(p, cfg, n, s, st);
    case Return(e) => AsksE(p, cfg, n, e, map[], st);
    case _ => AskedSame(cfg, st, st);
  }

  lemma {:induction false} AsksWhile(p: Program, cfg: Config, n: nat, s: Stmt, st: State)
    requires GatedDefs(p) && s.While? && GatedS(s)
    ensures Asked(cfg, st, ExecWhile(p, cfg, n, s, st).st)
    decreases n, 1, s, 2
  {
    hide Grew, Ran, Eval, ExecAll, Truthy, Asked, GatedDefs, GatedAll, GatedE;
    AsksE(p, cfg, n, s.cond, map[], st);
    var rc := Eval(p, cfg, n, s.cond, map[], st);
    if rc.EOk? {
      if !Truthy(rc.v, rc.st.heap) {
        AsksAll(p, cfg, n, s.orelse, rc.st);
        AskedOn(cfg, st, rc.st, ExecAll(p, cfg, n, s.orelse, rc.st).st);
      } else if n > 0 {
        AsksAll(p, cfg, n - 1, s.body, rc.st);
        var rb := ExecAll(p, cfg, n - 1, s.body, rc.st);
        AskedOn(cfg, st, rc.st, rb.st);
        if rb.SNext? || rb.SContinue? {
          AsksWhile(p, cfg, n - 1, s, rb.st);
          AskedOn(cfg, st, rb.st, ExecWhile(p, cfg, n - 1, s, rb.st).st);
        }
      }
    }
  }

  lemma {:induction false} AsksFor(
    p: Program, cfg: Config, n: nat, x: string, body: seq<Stmt>, orelse: seq<Stmt>, over: Val, i: nat, st: State)
    requires GatedDefs(p) && GatedAll(body) && GatedAll(orelse)
    ensures Asked(cfg, st, ForLoop(p, cfg, n, x, body, orelse, over, i, st).st)
    decreases n, 1, orelse, 1
  {
    hide ExecAll, ForLoop, NextItem, Store, Asked, GatedDefs, GatedAll;
    var item := NextItem(over, i, st.heap);
    if item.None? || n == 0 {
      ForStops(p, cfg, n, x, body, orelse, over, i, st);
      AskedSame(cfg, st, st);
      AsksAll(p, cfg, n, orelse, st);
    } else {
      var st' := Store(x, item.value, st);
      ForUnfold(p, cfg, n, x, body, orelse, over, i, st);
      AskedSame(cfg, st, st');
      AsksAll(p, cfg, n - 1, body, st');
      var rb := ExecAll(p, cfg, n - 1, body, st');
      AskedOn(cfg, st, st', rb.st);
      if rb.SNext? || rb.SContinue? {
        AsksFor(p, cfg, n - 1, x, body, orelse, over, i + 1, rb.st);
        AskedOn(cfg, st, rb.st, ForLoop(p, cfg, n - 1, x, body, orelse, over, i + 1, rb.st).st);
      }
    }
  }

  lemma {:induction false} AsksTry(p: Program, cfg: Config, n: nat, s: Stmt, st: State)
    requires GatedDefs(p) && s.Try? && GatedS(s)
    ensures Asked(cfg, st, ExecTry(p, cfg, n, s, st).st)
    decreases n, 1, s, 2
  {
    hide Ran, Metered, ExecAll, Handle, Asked, GatedDefs, GatedAll, GatedHs;
    AsksAll(p, cfg, n, s.body, st);
    var r0 := ExecAll(p, cfg, n, s.body, st);
    var r1 :=
      if r0.SExc? then Handle(p, cfg, n, s.handlers, r0.e, r0.st)
      else if r0.SNext? then ExecAll(p, cfg, n, s.orelse, r0.st)
      else r0;
    if r0.SExc? { AsksHandle(p, cfg, n, s.handlers, r0.e, r0.st); AskedOn(cfg, st, r0.st, r1.st); }
    if r0.SNext? { AsksAll(p, cfg, n, s.orelse, r0.st); AskedOn(cfg, st, r0.st, r1.st); }
    AsksAll(p, cfg, n, s.final, r1.st);
    AskedOn(cfg, st, r1.st, ExecAll(p, cfg, n, s.final, r1.st).st);
  }

  lemma {:induction false} AsksHandle(p: Program, cfg: Config, n: nat, hs: seq<Handler>, e: Error, st: State)
    requires GatedDefs(p) && GatedHs(hs)
    ensures Asked(cfg, st, Handle(p, cfg, n, hs, e, st).st)
    decreases n, 1, hs, 0
  {
    hide Ran, ExecAll, Asked, GatedDefs, GatedAll;
    if hs == [] {
      AskedSame(cfg, st, st);
    } else if Matches(hs[0].catch, e) {
      var u := Clear(st, hs[0].catch.Bare? ==> !e.ExitError?);
      AskedSame(cfg, st, u);
      AsksAll(p, cfg, n, hs[0].body, u);
      AskedOn(cfg, st, u, ExecAll(p, cfg, n, hs[0].body, u).st);
    } else {
      AsksHandle(p, cfg, n, hs[1..], e, st);
    }
  }

  /** Whatever the policy is, whatever the program names and catches, and however far it gets: in
      every run of an accepted program, rewritten, each attribute read and each attribute written is
      one the policy allows for that object. */
  lemma PolicyAsked(p: Program, cfg: Config, n: nat, st: State)
    requires Accepts(p)
    ensures var r := Run(Rewrite(p), cfg, n, st);
      && st.trace <= r.st.trace
      && forall i :: |st.trace| <= i < |r.st.trace| ==> Allowed(cfg, r.st.trace[i])
  {
    RewriteGates(p);
    AsksAll(Rewrite(p), cfg, n, Rewrite(p).main, st);
  }

  /** And so in every call of one of its functions from outside. */
  lemma CallbackAsks(p: Program, cfg: Config, n: nat, f: Val, args: seq<Val>, st: State)
    requires Accepts(p)
    ensures Asked(cfg, st, CallFn(Rewrite(p), cfg, n, f, args, st).st)
  {
    RewriteGates(p);
    AsksCall(Rewrite(p), cfg, n, f, args, st);
  }
}
