/** The rewriter: what it refuses, and what it writes for what it accepts. */
module Rewriter {
  import opened Python
  import opened Text

  // ----- names -----

  function Tmp(k: nat): string { "__st_tmp_" + Decimal(k) }

  const BLOCKED_NAMES: set<string> := {"exec", "eval", "compile", "__import__"}

  /** Names the code may assign, delete or declare global. */
  predicate Writable(x: string) { !Reserved(x) && x !in BLOCKED_NAMES }

  /** Names the code may read. Reading `__import__` is redirected to a gate, and is not
      part of this model. */
  predicate Readable(x: string) { !Reserved(x) && x != "__builtins__" && x != "__import__" }

  lemma TmpReserved(k: nat)
    ensures Reserved(Tmp(k))
  {
    assert Tmp(k)[..5] == "__st_";
  }

  lemma GateReserved(g: Gate)
    ensures Reserved(GateName(g))
  {
    assert GateName(g)[..5] == "__st_";
  }

  lemma GateNoTmp(g: Gate, k: nat)
    ensures GateName(g) != Tmp(k)
  {
    assert Tmp(k)[5] == 't';
  }

  lemma TmpInjective(j: nat, k: nat)
    requires Tmp(j) == Tmp(k)
    ensures j == k
  {
    assert Tmp(j)[9..] == Decimal(j) && Tmp(k)[9..] == Decimal(k);
    DecimalInjective(j, k);
  }

  // ----- what is accepted -----

  predicate AcceptsE(e: Expr)
    decreases e, 1
  {
    match e
    case Lit(_) => true
    case Name(x) => Readable(x)
    case Attr(o, _) => AcceptsE(o)
    case Bin(_, l, r) => AcceptsE(l) && AcceptsE(r)
    case Or(l, r) => AcceptsE(l) && AcceptsE(r)
    case Tup(es) => AcceptsEs(es)
    case Item(o, _) => AcceptsE(o)
    case New => true
    case Push(l, x) => AcceptsE(l) && AcceptsE(x)
    case Call(f, args) => AcceptsE(f) && AcceptsEs(args)
    case Comp(elt, cs) => AcceptsE(elt) && AcceptsCs(cs)
    case _ => false
  }

  predicate AcceptsEs(es: seq<Expr>)
    decreases es, 0
  {
    es == [] || (AcceptsE(es[0]) && AcceptsEs(es[1..]))
  }

  predicate AcceptsCs(cs: seq<Clause>)
    decreases cs, 0
  {
    cs == [] ||
    (Writable(cs[0].target) && AcceptsE(cs[0].iter) && AcceptsEs(cs[0].ifs) && AcceptsCs(cs[1..]))
  }

  predicate AcceptsTs(ts: seq<Target>)
    decreases ts, 0
  {
    ts == [] ||
    ((match ts[0]
      case TName(x) => Writable(x)
      case TAttr(o, _) => AcceptsE(o)
      case TTup(us) => AcceptsTs(us)) && AcceptsTs(ts[1..]))
  }

  predicate AcceptsS(s: Stmt)
    decreases s, 1
  {
    match s
    case ExprS(e) => AcceptsE(e)
    case Assign(ts, e) => ts != [] && AcceptsTs(ts) && AcceptsE(e)
    case AugName(x, _, e) => Writable(x) && AcceptsE(e)
    case AugAttr(o, _, _, e) => AcceptsE(o) && AcceptsE(e)
    case Def(_, _) => true
    case If(c, a, b) => AcceptsE(c) && AcceptsAll(a) && AcceptsAll(b)
    case While(c, a, b) => AcceptsE(c) && AcceptsAll(a) && AcceptsAll(b)
    case For(x, it, a, b) => Writable(x) && AcceptsE(it) && AcceptsAll(a) && AcceptsAll(b)
    case Try(a, hs, b, c) => AcceptsAll(a) && AcceptsHs(hs) && AcceptsAll(b) && AcceptsAll(c)
    case Return(e) => AcceptsE(e)
    case _ => true
  }

  predicate AcceptsAll(ss: seq<Stmt>)
    decreases ss, 0
  {
    ss == [] || (AcceptsS(ss[0]) && AcceptsAll(ss[1..]))
  }

  predicate AcceptsHs(hs: seq<Handler>)
    decreases hs, 0
  {
    hs == [] || (AcceptsAll(hs[0].body) && AcceptsHs(hs[1..]))
  }

  predicate AcceptsDef(d: FunDef) {
    (forall x :: x in d.declared ==> Writable(x)) && AcceptsAll(d.body)
  }

  predicate Accepts(p: Program) {
    (forall i :: 0 <= i < |p.defs| ==> AcceptsDef(p.defs[i])) && AcceptsAll(p.main)
  }

  // A function's own name and its parameters are not `Name` nodes, so the rewriter does
  // not look at them: that they are not reserved is asked for separately.

  predicate OwnS(s: Stmt)
    decreases s, 1
  {
    match s
    case Def(f, _) => !Reserved(f)
    case If(_, a, b) => OwnAll(a) && OwnAll(b)
    case While(_, a, b) => OwnAll(a) && OwnAll(b)
    case For(_, _, a, b) => OwnAll(a) && OwnAll(b)
    case Try(a, hs, b, c) => OwnAll(a) && OwnHs(hs) && OwnAll(b) && OwnAll(c)
    case _ => true
  }

  predicate OwnAll(ss: seq<Stmt>)
    decreases ss, 0
  {
    ss == [] || (OwnS(ss[0]) && OwnAll(ss[1..]))
  }

  predicate OwnHs(hs: seq<Handler>)
    decreases hs, 0
  {
    hs == [] || (OwnAll(hs[0].body) && OwnHs(hs[1..]))
  }

  predicate OwnDef(d: FunDef) { NoReserved(Params(d.params)) && OwnAll(d.body) }

  predicate OwnNames(p: Program) {
    (forall i :: 0 <= i < |p.defs| ==> OwnDef(p.defs[i])) && OwnAll(p.main)
  }

  // ----- expressions -----

  const ALWAYS: Expr := Or(GCheckpoint, Lit(BoolC(true)))

  function RwE(e: Expr): Expr
    decreases e, 1
  {
    match e
    case Attr(o, a) => GGetAttr(RwE(o), a)
    case Bin(op, l, r) => Bin(op, RwE(l), RwE(r))
    case Or(l, r) => Or(RwE(l), RwE(r))
    case Tup(es) => Tup(RwEs(es))
    case Item(o, i) => Item(RwE(o), i)
    case Push(l, x) => Push(RwE(l), RwE(x))
    case Call(f, args) => Call(RwE(f), RwEs(args))
    case Comp(elt, cs) => Comp(RwE(elt), RwCs(cs))
    case _ => e
  }

  function RwEs(es: seq<Expr>): (r: seq<Expr>)
    ensures |r| == |es|
    decreases es, 0
  {
    if es == [] then [] else [RwE(es[0])] + RwEs(es[1..])
  }

  /** Every clause gets a checkpoint as its first filter, one that is always true. */
  function RwCs(cs: seq<Clause>): (r: seq<Clause>)
    ensures |r| == |cs|
    decreases cs, 0
  {
    if cs == [] then []
    else [Clause(cs[0].target, RwE(cs[0].iter), [ALWAYS] + RwEs(cs[0].ifs))] + RwCs(cs[1..])
  }

  // ----- statements -----

  predicate IsDocstring(s: Stmt) { s.ExprS? && s.e.Lit? && s.e.c.StrC? }

  /** A checkpoint at the head of a body, after its docstring. */
  function PrependCheckpoint(body: seq<Stmt>): seq<Stmt> {
    if body != [] && IsDocstring(body[0])
    then [body[0], ExprS(GCheckpoint)] + body[1..]
    else [ExprS(GCheckpoint)] + body
  }

  /** The statements that give `t` the value `from` stands for. */
  function Emit(t: Target, from: Expr): seq<Stmt>
    decreases t, 1
  {
    match t
    case TAttr(o, a) => [ExprS(GSetAttr(RwE(o), a, from))]
    case TTup(us) => EmitItems(us, from, 0)
    case TName(x) => [Assign([t], from)]
  }

  function EmitItems(ts: seq<Target>, from: Expr, i: nat): seq<Stmt>
    decreases ts, 0
  {
    if ts == [] then [] else Emit(ts[0], Item(from, i)) + EmitItems(ts[1..], from, i + 1)
  }

  function EmitAll(ts: seq<Target>, from: Expr): seq<Stmt> {
    if ts == [] then [] else Emit(ts[0], from) + EmitAll(ts[1..], from)
  }

  predicate NeedsTmp(ts: seq<Target>) { |ts| > 1 || (|ts| == 1 && ts[0].TTup?) }

  /** Rewritten statements, and the next temporary's number. */
  datatype Out = Out(ss: seq<Stmt>, k: nat)

  function RwS(s: Stmt, k: nat): Out
    decreases s, 1
  {
    match s
    case ExprS(e) => Out([ExprS(RwE(e))], k)
    case Assign(ts, e) =>
      if !HasAttr(ts) then Out([Assign(ts, RwE(e))], k)
      else if NeedsTmp(ts) then
        Out([Assign([TName(Tmp(k))], RwE(e))] + EmitAll(ts, Name(Tmp(k))), k + 1)
      else Out(EmitAll(ts, RwE(e)), k)
    case AugName(x, op, e) => Out([AugName(x, op, RwE(e))], k)
    case AugAttr(o, a, op, e) =>
      var tmp := Name(Tmp(k));
      Out([Assign([TName(Tmp(k))], RwE(o)),
           ExprS(GSetAttr(tmp, a, Bin(op, GGetAttr(tmp, a), RwE(e))))], k + 1)
    case Def(f, _) => Out([s, Assign([TName(f)], GCapture(Name(f)))], k)
    case If(c, a, b) =>
      var ra := RwAll(a, k);
      var rb := RwAll(b, ra.k);
      Out([If(RwE(c), ra.ss, rb.ss)], rb.k)
    case While(c, a, b) =>
      var ra := RwAll(a, k);
      var rb := RwAll(b, ra.k);
      Out([While(RwE(c), PrependCheckpoint(ra.ss), rb.ss)], rb.k)
    case For(x, it, a, b) =>
      var ra := RwAll(a, k);
      var rb := RwAll(b, ra.k);
      Out([For(x, RwE(it), PrependCheckpoint(ra.ss), rb.ss)], rb.k)
    case Try(a, hs, b, c) =>
      var ra := RwAll(a, k);
      var rh := RwHs(hs, ra.k);
      var rb := RwAll(b, rh.1);
      var rc := RwAll(c, rb.k);
      Out([Try(ra.ss, rh.0, rb.ss, rc.ss)], rc.k)
    case Return(e) => Out([Return(RwE(e))], k)
    case _ => Out([s], k)
  }

  function RwAll(ss: seq<Stmt>, k: nat): Out
    decreases ss, 0
  {
    if ss == [] then Out([], k) else
    var r0 := RwS(ss[0], k);
    var rs := RwAll(ss[1..], r0.k);
    Out(r0.ss + rs.ss, rs.k)
  }

  /** A bare `except:` becomes `except Exception:`. */
  function RwHs(hs: seq<Handler>, k: nat): (seq<Handler>, nat)
    decreases hs, 0
  {
    if hs == [] then ([], k) else
    var rb := RwAll(hs[0].body, k);
    var rs := RwHs(hs[1..], rb.k);
    ([Handler(if hs[0].catch.Bare? then AnyException else hs[0].catch, rb.ss)] + rs.0, rs.1)
  }

  function RwDef(d: FunDef, k: nat): FunDef {
    FunDef(d.params, d.declared, PrependCheckpoint(RwAll(d.body, k).ss))
  }

  /** The number of the first temporary of the i-th function. */
  function StartOf(defs: seq<FunDef>, i: nat): nat
    requires i <= |defs|
  {
    if i == 0 then 0 else RwAll(defs[i - 1].body, StartOf(defs, i - 1)).k
  }

  function Rewrite(p: Program): Program {
    Program(seq(|p.defs|, i requires 0 <= i < |p.defs| => RwDef(p.defs[i], StartOf(p.defs, i))),
            RwAll(p.main, StartOf(p.defs, |p.defs|)).ss)
  }

  // ----- the names a rewritten body binds -----

  function Tmps(j: nat, k: nat): set<string> { set i | j <= i < k :: Tmp(i) }

  lemma GateNoTmps(g: Gate, j: nat, k: nat)
    ensures GateName(g) !in Tmps(j, k)
  {
    if GateName(g) in Tmps(j, k) {
      var i :| j <= i < k && GateName(g) == Tmp(i);
      GateNoTmp(g, i);
    }
  }

  lemma TmpsJoin(a: nat, b: nat, c: nat)
    requires a <= b <= c
    ensures Tmps(a, b) + Tmps(b, c) == Tmps(a, c)
  {
    forall x | x in Tmps(a, c) ensures x in Tmps(a, b) + Tmps(b, c) {
      var i :| a <= i < c && x == Tmp(i);
      if i < b { assert x in Tmps(a, b); } else { assert x in Tmps(b, c); }
    }
  }

  lemma {:induction false} BoundJoin(a: seq<Stmt>, b: seq<Stmt>)
    ensures Bound(a + b) == Bound(a) + Bound(b)
  {
    if a == [] {
      assert a + b == b;
    } else {
      assert (a + b)[1..] == a[1..] + b;
      BoundJoin(a[1..], b);
    }
  }

  lemma BoundOne(s: Stmt)
    ensures Bound([s]) == BoundBy(s)
  {
    assert [s][1..] == [];
  }

  lemma BoundHead(body: seq<Stmt>)
    ensures Bound(PrependCheckpoint(body)) == Bound(body)
  {
    BoundOne(ExprS(GCheckpoint));
    if body != [] && IsDocstring(body[0]) {
      assert [body[0], ExprS(GCheckpoint)] == [body[0]] + [ExprS(GCheckpoint)];
      BoundJoin([body[0]], [ExprS(GCheckpoint)]);
      BoundOne(body[0]);
      BoundJoin([body[0], ExprS(GCheckpoint)], body[1..]);
    } else {
      BoundJoin([ExprS(GCheckpoint)], body);
    }
  }

  lemma {:induction false} BoundEmit(t: Target, from: Expr)
    ensures Bound(Emit(t, from)) == TargetNames([t])
    decreases t, 1
  {
    assert [t][1..] == [];
    match t
    case TName(x) => BoundOne(Assign([t], from));
    case TAttr(o, a) => BoundOne(ExprS(GSetAttr(RwE(o), a, from)));
    case TTup(us) => BoundEmitItems(us, from, 0);
  }

  lemma {:induction false} BoundEmitItems(ts: seq<Target>, from: Expr, i: nat)
    ensures Bound(EmitItems(ts, from, i)) == TargetNames(ts)
    decreases ts, 0
  {
    if ts != [] {
      BoundEmit(ts[0], Item(from, i));
      BoundEmitItems(ts[1..], from, i + 1);
      BoundJoin(Emit(ts[0], Item(from, i)), EmitItems(ts[1..], from, i + 1));
      assert [ts[0]][1..] == [];
    }
  }

  lemma {:induction false} BoundEmitAll(ts: seq<Target>, from: Expr)
    ensures Bound(EmitAll(ts, from)) == TargetNames(ts)
  {
    if ts != [] {
      BoundEmit(ts[0], from);
      BoundEmitAll(ts[1..], from);
      BoundJoin(Emit(ts[0], from), EmitAll(ts[1..], from));
      assert [ts[0]][1..] == [];
    }
  }

  /** A rewritten body binds what the source body binds, and the temporaries numbered
      from `k`: each number is used by one statement only. */
  lemma {:induction false} BoundAll(ss: seq<Stmt>, k: nat)
    ensures Binds(ss, k)
    decreases ss, 0
  {
    if ss != [] {
      var r0 := RwS(ss[0], k);
      BoundS(ss[0], k);
      BoundAll(ss[1..], r0.k);
      BoundJoin(r0.ss, RwAll(ss[1..], r0.k).ss);
      TmpsJoin(k, r0.k, RwAll(ss, k).k);
    }
  }

  lemma {:induction false} BoundS(s: Stmt, k: nat)
    ensures k <= RwS(s, k).k
    ensures Bound(RwS(s, k).ss) == BoundBy(s) + Tmps(k, RwS(s, k).k)
    decreases s, 1
  {
    match s
    case Assign(_, _) => BoundAssign(s, k);
    case AugAttr(_, _, _, _) => BoundAugAttr(s, k);
    case Def(f, _) =>
      var again := Assign([TName(f)], GCapture(Name(f)));
      assert RwS(s, k).ss == [s] + [again];
      BoundJoin([s], [again]);
      BoundOne(s);
      BoundOne(again);
      assert TargetNames([TName(f)]) == {f};
    case If(_, a, b) =>
      BoundAll(a, k); BoundAll(b, RwAll(a, k).k); BoundPair(a, b, k); BoundOne(RwS(s, k).ss[0]);
    case While(_, a, b) =>
      BoundAll(a, k); BoundAll(b, RwAll(a, k).k); BoundPair(a, b, k); BoundOne(RwS(s, k).ss[0]);
    case For(_, _, a, b) =>
      BoundAll(a, k); BoundAll(b, RwAll(a, k).k); BoundPair(a, b, k); BoundOne(RwS(s, k).ss[0]);
    case Try(a, hs, b, c) =>
      var ra := RwAll(a, k);
      var rh := RwHs(hs, ra.k);
      BoundAll(a, k);
      BoundHs(hs, ra.k);
      BoundAll(b, rh.1);
      BoundAll(c, RwAll(b, rh.1).k);
      BoundTry(s, k);
    case _ => BoundOne(RwS(s, k).ss[0]);
  }

  lemma BoundAssign(s: Stmt, k: nat)
    requires s.Assign?
    ensures k <= RwS(s, k).k
    ensures Bound(RwS(s, k).ss) == BoundBy(s) + Tmps(k, RwS(s, k).k)
  {
    var Assign(ts, e) := s;
    if !HasAttr(ts) {
      BoundOne(Assign(ts, RwE(e)));
    } else if NeedsTmp(ts) {
      BoundTmpThen(k, RwE(e), EmitAll(ts, Name(Tmp(k))));
      BoundEmitAll(ts, Name(Tmp(k)));
    } else {
      BoundEmitAll(ts, RwE(e));
    }
  }

  lemma BoundAugAttr(s: Stmt, k: nat)
    requires s.AugAttr?
    ensures Bound(RwS(s, k).ss) == BoundBy(s) + Tmps(k, RwS(s, k).k)
  {
    var AugAttr(o, a, op, e) := s;
    var tmp := Name(Tmp(k));
    var put := ExprS(GSetAttr(tmp, a, Bin(op, GGetAttr(tmp, a), RwE(e))));
    BoundOne(put);
    assert RwS(s, k).ss == [Assign([TName(Tmp(k))], RwE(o))] + [put];
    BoundTmpThen(k, RwE(o), [put]);
  }

  lemma BoundTry(s: Stmt, k: nat)
    requires s.Try? && Binds(s.body, k)
    requires var ka := RwAll(s.body, k).k; var rh := RwHs(s.handlers, ka);
      && ka <= rh.1
      && HandlerNames(rh.0) == HandlerNames(s.handlers) + Tmps(ka, rh.1)
      && Binds(s.orelse, rh.1) && Binds(s.final, RwAll(s.orelse, rh.1).k)
    ensures k <= RwS(s, k).k
    ensures Bound(RwS(s, k).ss) == BoundBy(s) + Tmps(k, RwS(s, k).k)
  {
    var ra := RwAll(s.body, k);
    var rh := RwHs(s.handlers, ra.k);
    var rb := RwAll(s.orelse, rh.1);
    var rc := RwAll(s.final, rb.k);
    BindsMeans(s.body, k);
    BindsMeans(s.orelse, rh.1);
    BindsMeans(s.final, rb.k);
    BoundPair(s.orelse, s.final, rh.1);
    TryIs(s, k);
    hide RwAll, RwHs, RwS, Bound, BoundBy, HandlerNames, Tmps, Binds;
    BoundOne(RwS(s, k).ss[0]);
    TryNames(ra.ss, rh.0, rb.ss, rc.ss);
    TryNames(s.body, s.handlers, s.orelse, s.final);
    TmpsJoin(k, ra.k, rh.1);
    TmpsJoin(k, rh.1, rc.k);
    TrySets(Bound(s.body), HandlerNames(s.handlers), Bound(s.orelse), Bound(s.final),
            Tmps(k, ra.k), Tmps(ra.k, rh.1), Tmps(rh.1, rc.k), Bound(rb.ss), Bound(rc.ss));
    assert s == Try(s.body, s.handlers, s.orelse, s.final);
  }

  lemma BindsMeans(ss: seq<Stmt>, k: nat)
    requires Binds(ss, k)
    ensures k <= RwAll(ss, k).k && Bound(RwAll(ss, k).ss) == Bound(ss) + Tmps(k, RwAll(ss, k).k)
  {
    hide RwAll, Bound, Tmps;
  }

  lemma TrySets(a: set<string>, h: set<string>, b: set<string>, c: set<string>, t: set<string>, u: set<string>,
                v: set<string>, rb: set<string>, rc: set<string>)
    requires rb + rc == b + c + v
    ensures (a + t) + (h + u) + rb + rc == a + h + b + c + (t + u + v)
  {
  }

  lemma TryIs(s: Stmt, k: nat)
    requires s.Try?
    ensures var ra := RwAll(s.body, k);
      var rh := RwHs(s.handlers, ra.k);
      var rb := RwAll(s.orelse, rh.1);
      var rc := RwAll(s.final, rb.k);
      RwS(s, k) == Out([Try(ra.ss, rh.0, rb.ss, rc.ss)], rc.k)
  {
    hide RwAll, RwHs;
  }

  lemma TryNames(a: seq<Stmt>, hs: seq<Handler>, b: seq<Stmt>, c: seq<Stmt>)
    ensures BoundBy(Try(a, hs, b, c)) == Bound(a) + HandlerNames(hs) + Bound(b) + Bound(c)
  {
    hide Bound, HandlerNames;
  }

  lemma BoundTmpThen(k: nat, e: Expr, rest: seq<Stmt>)
    ensures Bound([Assign([TName(Tmp(k))], e)] + rest) == Bound(rest) + Tmps(k, k + 1)
  {
    BoundJoin([Assign([TName(Tmp(k))], e)], rest);
    BoundOne(Assign([TName(Tmp(k))], e));
    assert [TName(Tmp(k))][1..] == [];
    assert Tmp(k) in Tmps(k, k + 1);
    assert TargetNames([TName(Tmp(k))]) == {Tmp(k)};
    assert Tmps(k, k + 1) == {Tmp(k)};
  }

  ghost predicate Binds(ss: seq<Stmt>, k: nat) {
    k <= RwAll(ss, k).k && Bound(RwAll(ss, k).ss) == Bound(ss) + Tmps(k, RwAll(ss, k).k)
  }

  lemma BoundPair(a: seq<Stmt>, b: seq<Stmt>, k: nat)
    requires Binds(a, k) && Binds(b, RwAll(a, k).k)
    ensures var ra := RwAll(a, k); var rb := RwAll(b, ra.k);
      && Bound(ra.ss) + Bound(rb.ss) == Bound(a) + Bound(b) + Tmps(k, rb.k)
      && Bound(PrependCheckpoint(ra.ss)) == Bound(ra.ss)
  {
    var ra := RwAll(a, k);
    TmpsJoin(k, ra.k, RwAll(b, ra.k).k);
    BoundHead(ra.ss);
  }

  lemma {:induction false} BoundHs(hs: seq<Handler>, k: nat)
    ensures k <= RwHs(hs, k).1
    ensures HandlerNames(RwHs(hs, k).0) == HandlerNames(hs) + Tmps(k, RwHs(hs, k).1)
    decreases hs, 0
  {
    if hs != [] {
      var rb := RwAll(hs[0].body, k);
      BoundAll(hs[0].body, k);
      BoundHs(hs[1..], rb.k);
      var r := RwHs(hs, k).0;
      assert r[1..] == RwHs(hs[1..], rb.k).0;
      TmpsJoin(k, rb.k, RwHs(hs, k).1);
    }
  }
}
