/** The checkpoints are where the rewriter is to put them and nowhere else: one for each loop body,
    each function body and each comprehension clause, so that an iteration, a call and an item cost
    one tick each and nothing else costs any. */
module OneCheckpoint {
  import opened Python
  import opened Rewriter

  // ----- what is written -----

  predicate FreeE(e: Expr)
    decreases e, 1
  {
    match e
    case GCheckpoint => false
    case Attr(o, _) => FreeE(o)
    case Bin(_, l, r) => FreeE(l) && FreeE(r)
    case Or(l, r) => FreeE(l) && FreeE(r)
    case Tup(es) => FreeEs(es)
    case Item(o, _) => FreeE(o)
    case Push(l, x) => FreeE(l) && FreeE(x)
    case Call(f, args) => FreeE(f) && FreeEs(args)
    case Comp(elt, cs) => FreeE(elt) && FreeCs(cs)
    case GGetAttr(o, _) => FreeE(o)
    case GSetAttr(o, _, x) => FreeE(o) && FreeE(x)
    case GCapture(f) => FreeE(f)
    case _ => true
  }

  predicate FreeEs(es: seq<Expr>)
    decreases es, 0
  {
    es == [] || (FreeE(es[0]) && FreeEs(es[1..]))
  }

  predicate FreeCs(cs: seq<Clause>)
    decreases cs, 0
  {
    cs == [] ||
    (&& FreeE(cs[0].iter)
     && cs[0].ifs != [] && cs[0].ifs[0] == Or(GCheckpoint, Lit(BoolC(true))) && FreeEs(cs[0].ifs[1..])
     && FreeCs(cs[1..]))
  }

  predicate FreeT(t: Target)
    decreases t, 1
  {
    match t
    case TName(_) => true
    case TAttr(o, _) => FreeE(o)
    case TTup(us) => FreeTs(us)
  }

  predicate FreeTs(ts: seq<Target>)
    decreases ts, 0
  {
    ts == [] || (FreeT(ts[0]) && FreeTs(ts[1..]))
  }

  predicate FreeS(s: Stmt)
    decreases s, 1
  {
    match s
    case ExprS(e) => FreeE(e)
    case Assign(ts, e) => FreeTs(ts) && FreeE(e)
    case AugName(_, _, e) => FreeE(e)
    case AugAttr(o, _, _, e) => FreeE(o) && FreeE(e)
    case If(c, a, b) => FreeE(c) && FreeAll(a) && FreeAll(b)
    case While(c, a, b) => FreeE(c) && OnceIn(a) && FreeAll(b)
    case For(_, it, a, b) => FreeE(it) && OnceIn(a) && FreeAll(b)
    case Try(a, hs, b, c) => FreeAll(a) && FreeHs(hs) && FreeAll(b) && FreeAll(c)
    case Return(e) => FreeE(e)
    case _ => true
  }

  /** A body with a checkpoint at its head, or after its docstring, and none behind it. */
  predicate OnceIn(body: seq<Stmt>)
    decreases body, 1
  {
    && body != []
    && (if body[0] == ExprS(GCheckpoint) then FreeAll(body[1..])
        else |body| > 1 && IsDocstring(body[0]) && body[1] == ExprS(GCheckpoint) && FreeAll(body[2..]))
  }

  predicate FreeAll(ss: seq<Stmt>)
    decreases ss, 0
  {
    ss == [] || (FreeS(ss[0]) && FreeAll(ss[1..]))
  }

  predicate FreeHs(hs: seq<Handler>)
    decreases hs, 0
  {
    hs == [] || (FreeAll(hs[0].body) && FreeHs(hs[1..]))
  }

  predicate Once(p: Program) {
    (forall i :: 0 <= i < |p.defs| ==> OnceIn(p.defs[i].body)) && FreeAll(p.main)
  }

  // ----- the rewriter writes one in each place -----

  lemma {:induction false} KeepsE(e: Expr)
    requires AcceptsE(e)
    ensures FreeE(RwE(e))
    decreases e, 1
  {
    match e
    case Attr(o, _) => KeepsE(o);
    case Bin(_, l, r) => KeepsE(l); KeepsE(r);
    case Or(l, r) => KeepsE(l); KeepsE(r);
    case Tup(es) => KeepsEs(es);
    case Item(o, _) => KeepsE(o);
    case Push(l, x) => KeepsE(l); KeepsE(x);
    case Call(f, args) => KeepsE(f); KeepsEs(args);
    case Comp(elt, cs) => KeepsE(elt); KeepsCs(cs);
    case _ =>
  }

  lemma {:induction false} KeepsEs(es: seq<Expr>)
    requires AcceptsEs(es)
    ensures FreeEs(RwEs(es))
    decreases es, 0
  {
    if es != [] {
      KeepsE(es[0]);
      KeepsEs(es[1..]);
      assert RwEs(es)[1..] == RwEs(es[1..]);
    }
  }

  lemma {:induction false} KeepsCs(cs: seq<Clause>)
    requires AcceptsCs(cs)
    ensures FreeCs(RwCs(cs))
    decreases cs, 0
  {
    if cs != [] {
      KeepsE(cs[0].iter);
      KeepsEs(cs[0].ifs);
      KeepsCs(cs[1..]);
      var c := RwCs(cs)[0];
      assert RwCs(cs)[1..] == RwCs(cs[1..]);
      assert c.ifs[1..] == RwEs(cs[0].ifs);
    }
  }

  lemma {:induction false} FreeJoin(a: seq<Stmt>, b: seq<Stmt>)
    requires FreeAll(a) && FreeAll(b)
    ensures FreeAll(a + b)
  {
    if a == [] {
      assert a + b == b;
    } else {
      assert (a + b)[1..] == a[1..] + b;
      FreeJoin(a[1..], b);
    }
  }

  lemma FreeOne(s: Stmt)
    requires FreeS(s)
    ensures FreeAll([s])
  {
    hide FreeS;
    assert [s][1..] == [];
  }

  lemma OnceHead(body: seq<Stmt>)
    requires FreeAll(body)
    ensures OnceIn(PrependCheckpoint(body))
  {
    var r := PrependCheckpoint(body);
    if body != [] && IsDocstring(body[0]) {
      assert r[2..] == body[1..];
    } else {
      assert r[1..] == body;
    }
  }

  lemma FreeName(x: string)
    ensures FreeTs([TName(x)])
  {
    assert FreeT([TName(x)][0]) && [TName(x)][1..] == [];
  }

  lemma {:induction false} FreePlain(ts: seq<Target>)
    requires !HasAttr(ts)
    ensures FreeTs(ts)
    decreases ts
  {
    if ts != [] {
      FreePlain(ts[1..]);
      if ts[0].TTup? { FreePlain(ts[0].elts); }
    }
  }

  lemma {:induction false} KeepsEmit(t: Target, from: Expr)
    requires AcceptsTs([t]) && FreeE(from)
    ensures FreeAll(Emit(t, from))
    decreases t, 1
  {
    match t
    case TName(x) => FreeName(x); FreeOne(Assign([t], from));
    case TAttr(o, a) =>
      KeepsE(o);
      assert FreeE(GSetAttr(RwE(o), a, from));
      FreeOne(ExprS(GSetAttr(RwE(o), a, from)));
    case TTup(us) => KeepsEmitItems(us, from, 0);
  }

  lemma {:induction false} KeepsEmitItems(ts: seq<Target>, from: Expr, i: nat)
    requires AcceptsTs(ts) && FreeE(from)
    ensures FreeAll(EmitItems(ts, from, i))
    decreases ts, 0
  {
    if ts != [] {
      assert [ts[0]][1..] == [] && FreeE(Item(from, i));
      KeepsEmit(ts[0], Item(from, i));
      KeepsEmitItems(ts[1..], from, i + 1);
      FreeJoin(Emit(ts[0], Item(from, i)), EmitItems(ts[1..], from, i + 1));
    }
  }

  lemma {:induction false} KeepsEmitAll(ts: seq<Target>, from: Expr)
    requires AcceptsTs(ts) && FreeE(from)
    ensures FreeAll(EmitAll(ts, from))
  {
    if ts != [] {
      assert [ts[0]][1..] == [];
      KeepsEmit(ts[0], from);
      KeepsEmitAll(ts[1..], from);
      FreeJoin(Emit(ts[0], from), EmitAll(ts[1..], from));
    }
  }

  lemma {:induction false} KeepsAll(ss: seq<Stmt>, k: nat)
    requires AcceptsAll(ss)
    ensures FreeAll(RwAll(ss, k).ss)
    decreases ss, 0
  {
    if ss != [] {
      var r0 := RwS(ss[0], k);
      KeepsS(ss[0], k);
      KeepsAll(ss[1..], r0.k);
      FreeJoin(r0.ss, RwAll(ss[1..], r0.k).ss);
    }
  }

  lemma {:induction false} KeepsS(s: Stmt, k: nat)
    requires AcceptsS(s)
    ensures FreeAll(RwS(s, k).ss)
    decreases s, 1
  {
    hide FreeAll, FreeE, RwE, AcceptsE;
    match s
    case Assign(_, _) => KeepsAssign(s, k);
    case AugAttr(_, _, _, _) => KeepsAugAttr(s, k);
    case Def(_, _) => KeepsDef(s, k);
    case If(_, _, _) => KeepsBlock(s, k);
    case While(_, _, _) => KeepsBlock(s, k);
    case For(_, _, _, _) => KeepsBlock(s, k);
    case Try(_, _, _, _) => KeepsTry(s, k);
    case ExprS(e) => KeepsE(e); FreeOne(ExprS(RwE(e)));
    case AugName(x, op, e) => KeepsE(e); FreeOne(AugName(x, op, RwE(e)));
    case Return(e) => KeepsE(e); FreeOne(Return(RwE(e)));
    case _ => FreeOne(s);
  }

  lemma KeepsDef(s: Stmt, k: nat)
    requires s.Def?
    ensures FreeAll(RwS(s, k).ss)
  {
    var again := Assign([TName(s.name)], GCapture(Name(s.name)));
    FreeName(s.name);
    assert FreeE(Name(s.name)) && FreeE(GCapture(Name(s.name)));
    FreeOne(again);
    assert RwS(s, k).ss == [s, again] && [s, again][1..] == [again];
  }

  lemma {:induction false} KeepsBlock(s: Stmt, k: nat)
    requires AcceptsS(s) && (s.If? || s.While? || s.For?)
    ensures FreeAll(RwS(s, k).ss)
    decreases s, 0
  {
    hide FreeAll, FreeE, RwE, AcceptsE, RwAll, AcceptsAll;
    var a := if s.If? then s.thn else s.body;
    var b := if s.If? then s.els else s.orelse;
    KeepsE(if s.For? then s.iter else s.cond);
    KeepsAll(a, k);
    KeepsAll(b, RwAll(a, k).k);
    OnceHead(RwAll(a, k).ss);
    var r := RwS(s, k).ss;
    assert r == [r[0]];
    FreeOne(r[0]);
  }

  lemma {:induction false} KeepsTry(s: Stmt, k: nat)
    requires AcceptsS(s) && s.Try?
    ensures FreeAll(RwS(s, k).ss)
    decreases s, 0
  {
    hide FreeAll, FreeHs, RwAll, RwHs, AcceptsAll, AcceptsHs;
    var ra := RwAll(s.body, k);
    var rh := RwHs(s.handlers, ra.k);
    KeepsAll(s.body, k);
    KeepsHs(s.handlers, ra.k);
    KeepsAll(s.orelse, rh.1);
    KeepsAll(s.final, RwAll(s.orelse, rh.1).k);
    var r := RwS(s, k).ss;
    assert r == [r[0]];
    FreeOne(r[0]);
  }

  lemma {:induction false} KeepsHs(hs: seq<Handler>, k: nat)
    requires AcceptsHs(hs)
    ensures FreeHs(RwHs(hs, k).0)
    decreases hs, 0
  {
    if hs != [] {
      var rb := RwAll(hs[0].body, k);
      KeepsAll(hs[0].body, k);
      KeepsHs(hs[1..], rb.k);
      assert RwHs(hs, k).0[1..] == RwHs(hs[1..], rb.k).0;
    }
  }

  lemma KeepsAugAttr(s: Stmt, k: nat)
    requires s.AugAttr? && AcceptsS(s)
    ensures FreeAll(RwS(s, k).ss)
  {
    var AugAttr(o, a, op, e) := s;
    var tmp := Name(Tmp(k));
    KeepsE(o);
    KeepsE(e);
    FreeName(Tmp(k));
    assert FreeE(tmp) && FreeE(GGetAttr(tmp, a)) && FreeE(Bin(op, GGetAttr(tmp, a), RwE(e)));
    assert FreeE(GSetAttr(tmp, a, Bin(op, GGetAttr(tmp, a), RwE(e))));
    var r := RwS(s, k).ss;
    hide FreeAll, FreeE;
    FreeOne(r[0]);
    FreeOne(r[1]);
    FreeJoin([r[0]], [r[1]]);
    assert r == [r[0]] + [r[1]];
  }

  lemma KeepsAssign(s: Stmt, k: nat)
    requires s.Assign? && AcceptsS(s)
    ensures FreeAll(RwS(s, k).ss)
  {
    var Assign(ts, e) := s;
    KeepsE(e);
    hide FreeAll, RwE, AcceptsE, EmitAll;
    if !HasAttr(ts) {
      FreePlain(ts);
      FreeOne(Assign(ts, RwE(e)));
    } else if NeedsTmp(ts) {
      var first := Assign([TName(Tmp(k))], RwE(e));
      FreeName(Tmp(k));
      FreeOne(first);
      KeepsEmitAll(ts, Name(Tmp(k)));
      FreeJoin([first], EmitAll(ts, Name(Tmp(k))));
    } else {
      KeepsEmitAll(ts, RwE(e));
    }
  }

  /** An accepted program is written with exactly one checkpoint in every place that has one. */
  lemma RewriteChecksOnce(p: Program)
    requires Accepts(p)
    ensures Once(Rewrite(p))
  {
    forall i | 0 <= i < |p.defs| ensures OnceIn(Rewrite(p).defs[i].body) {
      var k := StartOf(p.defs, i);
      assert AcceptsDef(p.defs[i]);
      KeepsAll(p.defs[i].body, k);
      OnceHead(RwAll(p.defs[i].body, k).ss);
    }
    KeepsAll(p.main, StartOf(p.defs, |p.defs|));
  }
}
