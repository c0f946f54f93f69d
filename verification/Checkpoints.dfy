/** Where the checkpoints stand in what the rewriter writes: at the head of every loop body and
    function body, and as the first filter of every comprehension clause. */
module Checkpoints {
  import opened Python
  import opened Rewriter

  // ----- where the checkpoints stand -----

  predicate Headed(body: seq<Stmt>) {
    || (|body| >= 1 && body[0] == ExprS(GCheckpoint))
    || (|body| >= 2 && IsDocstring(body[0]) && body[1] == ExprS(GCheckpoint))
  }

  predicate CheckedE(e: Expr)
    decreases e, 1
  {
    match e
    case Attr(o, _) => CheckedE(o)
    case Bin(_, l, r) => CheckedE(l) && CheckedE(r)
    case Or(l, r) => CheckedE(l) && CheckedE(r)
    case Tup(es) => CheckedEs(es)
    case Item(o, _) => CheckedE(o)
    case Push(l, x) => CheckedE(l) && CheckedE(x)
    case Call(f, args) => CheckedE(f) && CheckedEs(args)
    case Comp(elt, cs) => CheckedE(elt) && CheckedCs(cs)
    case GGetAttr(o, _) => CheckedE(o)
    case GSetAttr(o, _, x) => CheckedE(o) && CheckedE(x)
    case GCapture(f) => CheckedE(f)
    case _ => true
  }

  predicate CheckedEs(es: seq<Expr>)
    decreases es, 0
  {
    es == [] || (CheckedE(es[0]) && CheckedEs(es[1..]))
  }

  predicate CheckedCs(cs: seq<Clause>)
    decreases cs, 0
  {
    cs == [] ||
    (&& cs[0].target != GateName(CheckpointGate)
     && CheckedE(cs[0].iter)
     && cs[0].ifs != [] && cs[0].ifs[0] == ALWAYS && CheckedEs(cs[0].ifs)
     && CheckedCs(cs[1..]))
  }

  predicate CheckedTs(ts: seq<Target>)
    decreases ts, 0
  {
    ts == [] || (CheckedT(ts[0]) && CheckedTs(ts[1..]))
  }

  predicate CheckedT(t: Target)
    decreases t, 1
  {
    match t
    case TName(_) => true
    case TAttr(o, _) => CheckedE(o)
    case TTup(us) => CheckedTs(us)
  }

  predicate CheckedS(s: Stmt)
    decreases s, 1
  {
    match s
    case ExprS(e) => CheckedE(e)
    case Assign(ts, e) => CheckedTs(ts) && CheckedE(e)
    case AugName(_, _, e) => CheckedE(e)
    case AugAttr(o, _, _, e) => CheckedE(o) && CheckedE(e)
    case If(c, a, b) => CheckedE(c) && CheckedAll(a) && CheckedAll(b)
    case While(c, a, b) => CheckedE(c) && Headed(a) && CheckedAll(a) && CheckedAll(b)
    case For(_, it, a, b) => CheckedE(it) && Headed(a) && CheckedAll(a) && CheckedAll(b)
    case Try(a, hs, b, c) => CheckedAll(a) && CheckedHs(hs) && CheckedAll(b) && CheckedAll(c)
    case Return(e) => CheckedE(e)
    case _ => true
  }

  predicate CheckedAll(ss: seq<Stmt>)
    decreases ss, 0
  {
    ss == [] || (CheckedS(ss[0]) && CheckedAll(ss[1..]))
  }

  predicate CheckedHs(hs: seq<Handler>)
    decreases hs, 0
  {
    hs == [] || (CheckedAll(hs[0].body) && CheckedHs(hs[1..]))
  }

  predicate CheckedDefs(p: Program) {
    forall i :: 0 <= i < |p.defs| ==> Headed(p.defs[i].body) && CheckedAll(p.defs[i].body)
  }

  predicate Checked(p: Program) { CheckedDefs(p) && CheckedAll(p.main) }

  // ----- the rewriter puts them there -----

  lemma {:induction false} ChecksE(e: Expr)
    ensures CheckedE(e) ==> CheckedE(RwE(e))
    ensures AcceptsE(e) ==> CheckedE(RwE(e))
    decreases e, 1
  {
    match e
    case Attr(o, _) => ChecksE(o);
    case Bin(_, l, r) => ChecksE(l); ChecksE(r);
    case Or(l, r) => ChecksE(l); ChecksE(r);
    case Tup(es) => ChecksEs(es);
    case Item(o, _) => ChecksE(o);
    case Push(l, x) => ChecksE(l); ChecksE(x);
    case Call(f, args) => ChecksE(f); ChecksEs(args);
    case Comp(elt, cs) => ChecksE(elt); ChecksCs(cs);
    case _ =>
  }

  lemma {:induction false} ChecksEs(es: seq<Expr>)
    ensures CheckedEs(es) ==> CheckedEs(RwEs(es))
    ensures AcceptsEs(es) ==> CheckedEs(RwEs(es))
    decreases es, 0
  {
    if es != [] {
      ChecksE(es[0]);
      ChecksEs(es[1..]);
      assert RwEs(es)[1..] == RwEs(es[1..]);
    }
  }

  lemma {:induction false} ChecksCs(cs: seq<Clause>)
    ensures CheckedCs(cs) ==> CheckedCs(RwCs(cs))
    ensures AcceptsCs(cs) ==> CheckedCs(RwCs(cs))
    decreases cs, 0
  {
    if cs != [] {
      ChecksE(cs[0].iter);
      ChecksEs(cs[0].ifs);
      ChecksCs(cs[1..]);
      GateReserved(CheckpointGate);
      var c := RwCs(cs)[0];
      assert RwCs(cs)[1..] == RwCs(cs[1..]);
      assert c.ifs[1..] == RwEs(cs[0].ifs);
    }
  }

  lemma {:induction false} CheckedJoin(a: seq<Stmt>, b: seq<Stmt>)
    ensures CheckedAll(a + b) == (CheckedAll(a) && CheckedAll(b))
  {
    if a == [] {
      assert a + b == b;
    } else {
      assert (a + b)[1..] == a[1..] + b;
      CheckedJoin(a[1..], b);
    }
  }

  lemma CheckedHead(body: seq<Stmt>)
    requires CheckedAll(body)
    ensures Headed(PrependCheckpoint(body)) && CheckedAll(PrependCheckpoint(body))
  {
    var cp := [ExprS(GCheckpoint)];
    assert cp[1..] == [] && CheckedAll(cp);
    if body != [] && IsDocstring(body[0]) {
      assert PrependCheckpoint(body) == [body[0]] + (cp + body[1..]);
      CheckedJoin(cp, body[1..]);
      CheckedJoin([body[0]], cp + body[1..]);
      assert [body[0]][1..] == [];
    } else {
      CheckedJoin(cp, body);
    }
  }

  lemma CheckedName(x: string)
    ensures CheckedTs([TName(x)])
  {
    var ts := [TName(x)];
    assert CheckedT(ts[0]) && ts[1..] == [];
  }

  lemma {:induction false} ChecksEmit(t: Target, from: Expr)
    requires AcceptsTs([t]) && CheckedE(from)
    ensures CheckedAll(Emit(t, from))
    decreases t, 1
  {
    var r := Emit(t, from);
    match t
    case TName(x) => CheckedName(x); assert CheckedE(from) && CheckedS(r[0]) && r[1..] == [];
    case TAttr(o, a) => ChecksE(o); assert CheckedE(r[0].e) && CheckedS(r[0]) && r[1..] == [];
    case TTup(us) => ChecksEmitItems(us, from, 0);
  }

  lemma {:induction false} ChecksEmitItems(ts: seq<Target>, from: Expr, i: nat)
    requires AcceptsTs(ts) && CheckedE(from)
    ensures CheckedAll(EmitItems(ts, from, i))
    decreases ts, 0
  {
    if ts != [] {
      assert [ts[0]][1..] == [];
      ChecksEmit(ts[0], Item(from, i));
      ChecksEmitItems(ts[1..], from, i + 1);
      CheckedJoin(Emit(ts[0], Item(from, i)), EmitItems(ts[1..], from, i + 1));
    }
  }

  lemma {:induction false} ChecksEmitAll(ts: seq<Target>, from: Expr)
    requires AcceptsTs(ts) && CheckedE(from)
    ensures CheckedAll(EmitAll(ts, from))
  {
    if ts != [] {
      assert [ts[0]][1..] == [];
      ChecksEmit(ts[0], from);
      ChecksEmitAll(ts[1..], from);
      CheckedJoin(Emit(ts[0], from), EmitAll(ts[1..], from));
    }
  }

  lemma {:induction false} CheckedPlain(ts: seq<Target>)
    requires !HasAttr(ts)
    ensures CheckedTs(ts)
    decreases ts
  {
    if ts != [] {
      CheckedPlain(ts[1..]);
      if ts[0].TTup? { CheckedPlain(ts[0].elts); }
    }
  }

  lemma {:induction false} ChecksAll(ss: seq<Stmt>, k: nat)
    requires AcceptsAll(ss)
    ensures CheckedAll(RwAll(ss, k).ss)
    decreases ss, 0
  {
    if ss != [] {
      var r0 := RwS(ss[0], k);
      ChecksS(ss[0], k);
      ChecksAll(ss[1..], r0.k);
      CheckedJoin(r0.ss, RwAll(ss[1..], r0.k).ss);
    }
  }

  lemma CheckedOne(s: Stmt)
    requires CheckedS(s)
    ensures CheckedAll([s])
  {
    hide CheckedS;
    assert [s][1..] == [];
  }

  lemma {:induction false} ChecksS(s: Stmt, k: nat)
    requires AcceptsS(s)
    ensures CheckedAll(RwS(s, k).ss)
    decreases s, 1
  {
    hide CheckedAll, CheckedE, RwE, AcceptsE;
    var r := RwS(s, k).ss;
    match s
    case Assign(_, _) => ChecksAssign(s, k);
    case AugAttr(_, _, _, _) => ChecksAugAttr(s, k);
    case Def(_, _) => ChecksDef(s, k);
    case If(_, _, _) => ChecksBlock(s, k);
    case While(_, _, _) => ChecksBlock(s, k);
    case For(_, _, _, _) => ChecksBlock(s, k);
    case Try(_, _, _, _) => ChecksTry(s, k);
    case ExprS(e) => ChecksE(e); CheckedOne(ExprS(RwE(e)));
    case AugName(x, op, e) => ChecksE(e); CheckedOne(AugName(x, op, RwE(e)));
    case Return(e) => ChecksE(e); CheckedOne(Return(RwE(e)));
    case _ => CheckedOne(s);
  }

  lemma ChecksDef(s: Stmt, k: nat)
    requires s.Def?
    ensures CheckedAll(RwS(s, k).ss)
  {
    var again := Assign([TName(s.name)], GCapture(Name(s.name)));
    CheckedName(s.name);
    assert CheckedE(Name(s.name)) && CheckedE(GCapture(Name(s.name)));
    hide CheckedAll;
    CheckedPairOf(s, again);
    assert RwS(s, k).ss == [s] + [again];
  }

  lemma {:induction false} ChecksBlock(s: Stmt, k: nat)
    requires AcceptsS(s) && (s.If? || s.While? || s.For?)
    ensures CheckedAll(RwS(s, k).ss)
    decreases s, 0
  {
    hide CheckedAll, CheckedE, RwE, AcceptsE, RwAll, AcceptsAll, Headed;
    var a := if s.If? then s.thn else s.body;
    var b := if s.If? then s.els else s.orelse;
    ChecksE(if s.For? then s.iter else s.cond);
    ChecksAll(a, k);
    ChecksAll(b, RwAll(a, k).k);
    CheckedHead(RwAll(a, k).ss);
    var r := RwS(s, k).ss;
    assert r == [r[0]];
    CheckedOne(r[0]);
  }

  lemma {:induction false} ChecksTry(s: Stmt, k: nat)
    requires AcceptsS(s) && s.Try?
    ensures CheckedAll(RwS(s, k).ss)
    decreases s, 0
  {
    hide CheckedAll, CheckedHs, RwAll, RwHs, AcceptsAll, AcceptsHs;
    var ra := RwAll(s.body, k);
    var rh := RwHs(s.handlers, ra.k);
    ChecksAll(s.body, k);
    ChecksHs(s.handlers, ra.k);
    ChecksAll(s.orelse, rh.1);
    ChecksAll(s.final, RwAll(s.orelse, rh.1).k);
    var r := RwS(s, k).ss;
    assert r == [r[0]];
    CheckedOne(r[0]);
  }

  lemma ChecksAugAttr(s: Stmt, k: nat)
    requires s.AugAttr? && AcceptsS(s)
    ensures CheckedAll(RwS(s, k).ss)
  {
    var AugAttr(o, a, op, e) := s;
    var r := RwS(s, k).ss;
    ChecksE(o);
    ChecksE(e);
    CheckedName(Tmp(k));
    var tmp := Name(Tmp(k));
    assert CheckedE(GGetAttr(tmp, a));
    assert CheckedE(Bin(op, GGetAttr(tmp, a), RwE(e)));
    assert CheckedS(r[0]) && CheckedS(r[1]);
    assert r == [r[0]] + [r[1]];
    CheckedPairOf(r[0], r[1]);
  }

  lemma CheckedPairOf(a: Stmt, b: Stmt)
    requires CheckedS(a) && CheckedS(b)
    ensures CheckedAll([a] + [b])
  {
    assert [a][1..] == [] && [b][1..] == [];
    CheckedJoin([a], [b]);
  }

  lemma ChecksAssign(s: Stmt, k: nat)
    requires s.Assign? && AcceptsS(s)
    ensures CheckedAll(RwS(s, k).ss)
  {
    var Assign(ts, e) := s;
    var r := RwS(s, k).ss;
    ChecksE(e);
    hide CheckedAll, CheckedE, RwE, AcceptsE, EmitAll;
    if !HasAttr(ts) {
      CheckedPlain(ts);
      CheckedOne(Assign(ts, RwE(e)));
    } else if NeedsTmp(ts) {
      var first := Assign([TName(Tmp(k))], RwE(e));
      CheckedName(Tmp(k));
      CheckedOne(first);
      ChecksEmitAll(ts, Name(Tmp(k)));
      CheckedJoin([first], EmitAll(ts, Name(Tmp(k))));
    } else {
      ChecksEmitAll(ts, RwE(e));
    }
  }

  lemma {:induction false} ChecksHs(hs: seq<Handler>, k: nat)
    requires AcceptsHs(hs)
    ensures CheckedHs(RwHs(hs, k).0)
    decreases hs, 0
  {
    if hs != [] {
      var rb := RwAll(hs[0].body, k);
      ChecksAll(hs[0].body, k);
      ChecksHs(hs[1..], rb.k);
      assert RwHs(hs, k).0[1..] == RwHs(hs[1..], rb.k).0;
    }
  }

  /** Every loop body, function body and comprehension clause of a rewritten program
      starts with a checkpoint. */
  lemma RewriteChecks(p: Program)
    requires Accepts(p)
    ensures Checked(Rewrite(p))
  {
    forall i | 0 <= i < |p.defs|
      ensures Headed(Rewrite(p).defs[i].body) && CheckedAll(Rewrite(p).defs[i].body)
    {
      var k := StartOf(p.defs, i);
      assert AcceptsDef(p.defs[i]);
      ChecksAll(p.defs[i].body, k);
      CheckedHead(RwAll(p.defs[i].body, k).ss);
    }
    ChecksAll(p.main, StartOf(p.defs, |p.defs|));
  }
}
