/** What the rewriter refuses, told by the names in a program: it accepts a program exactly when no
    name that is loaded and no name that is stored is one it keeps back. The names of functions and
    parameters are neither. */
module Acceptance {
  import opened Python
  import opened Rewriter

  predicate MayLoad(xs: set<string>) {
    forall x :: x in xs ==> !("__st_" <= x) && x != "__builtins__" && x != "__import__"
  }

  predicate MayStore(xs: set<string>) {
    forall x :: x in xs ==>
      !("__st_" <= x) && x != "exec" && x != "eval" && x != "compile" && x != "__import__"
  }

  // ----- the names loaded and stored -----

  function LoadsE(e: Expr): set<string>
    decreases e, 1
  {
    match e
    case Name(x) => {x}
    case Attr(o, _) => LoadsE(o)
    case Bin(_, l, r) => LoadsE(l) + LoadsE(r)
    case Or(l, r) => LoadsE(l) + LoadsE(r)
    case Tup(es) => LoadsEs(es)
    case Item(o, _) => LoadsE(o)
    case Push(l, x) => LoadsE(l) + LoadsE(x)
    case Call(f, args) => LoadsE(f) + LoadsEs(args)
    case Comp(elt, cs) => LoadsE(elt) + LoadsCs(cs)
    case _ => {}
  }

  function LoadsEs(es: seq<Expr>): set<string>
    decreases es, 0
  {
    if es == [] then {} else LoadsE(es[0]) + LoadsEs(es[1..])
  }

  function LoadsCs(cs: seq<Clause>): set<string>
    decreases cs, 0
  {
    if cs == [] then {} else LoadsE(cs[0].iter) + LoadsEs(cs[0].ifs) + LoadsCs(cs[1..])
  }

  /** The variables of the comprehensions in an expression. */
  function StoresE(e: Expr): set<string>
    decreases e, 1
  {
    match e
    case Attr(o, _) => StoresE(o)
    case Bin(_, l, r) => StoresE(l) + StoresE(r)
    case Or(l, r) => StoresE(l) + StoresE(r)
    case Tup(es) => StoresEs(es)
    case Item(o, _) => StoresE(o)
    case Push(l, x) => StoresE(l) + StoresE(x)
    case Call(f, args) => StoresE(f) + StoresEs(args)
    case Comp(elt, cs) => StoresE(elt) + StoresCs(cs)
    case _ => {}
  }

  function StoresEs(es: seq<Expr>): set<string>
    decreases es, 0
  {
    if es == [] then {} else StoresE(es[0]) + StoresEs(es[1..])
  }

  function StoresCs(cs: seq<Clause>): set<string>
    decreases cs, 0
  {
    if cs == [] then {} else {cs[0].target} + StoresE(cs[0].iter) + StoresEs(cs[0].ifs) + StoresCs(cs[1..])
  }

  function LoadsTs(ts: seq<Target>): set<string>
    decreases ts, 0
  {
    if ts == [] then {} else
    (match ts[0]
     case TName(_) => {}
     case TAttr(o, _) => LoadsE(o)
     case TTup(us) => LoadsTs(us)) + LoadsTs(ts[1..])
  }

  function StoresTs(ts: seq<Target>): set<string>
    decreases ts, 0
  {
    if ts == [] then {} else
    (match ts[0]
     case TName(x) => {x}
     case TAttr(o, _) => StoresE(o)
     case TTup(us) => StoresTs(us)) + StoresTs(ts[1..])
  }

  function LoadsS(s: Stmt): set<string>
    decreases s, 1
  {
    match s
    case ExprS(e) => LoadsE(e)
    case Assign(ts, e) => LoadsTs(ts) + LoadsE(e)
    case AugName(_, _, e) => LoadsE(e)
    case AugAttr(o, _, _, e) => LoadsE(o) + LoadsE(e)
    case If(c, a, b) => LoadsE(c) + LoadsAll(a) + LoadsAll(b)
    case While(c, a, b) => LoadsE(c) + LoadsAll(a) + LoadsAll(b)
    case For(_, it, a, b) => LoadsE(it) + LoadsAll(a) + LoadsAll(b)
    case Try(a, hs, b, c) => LoadsAll(a) + LoadsHs(hs) + LoadsAll(b) + LoadsAll(c)
    case Return(e) => LoadsE(e)
    case _ => {}
  }

  function LoadsAll(ss: seq<Stmt>): set<string>
    decreases ss, 0
  {
    if ss == [] then {} else LoadsS(ss[0]) + LoadsAll(ss[1..])
  }

  function LoadsHs(hs: seq<Handler>): set<string>
    decreases hs, 0
  {
    if hs == [] then {} else LoadsAll(hs[0].body) + LoadsHs(hs[1..])
  }

  function StoresS(s: Stmt): set<string>
    decreases s, 1
  {
    match s
    case ExprS(e) => StoresE(e)
    case Assign(ts, e) => StoresTs(ts) + StoresE(e)
    case AugName(x, _, e) => {x} + StoresE(e)
    case AugAttr(o, _, _, e) => StoresE(o) + StoresE(e)
    case If(c, a, b) => StoresE(c) + StoresAll(a) + StoresAll(b)
    case While(c, a, b) => StoresE(c) + StoresAll(a) + StoresAll(b)
    case For(x, it, a, b) => {x} + StoresE(it) + StoresAll(a) + StoresAll(b)
    case Try(a, hs, b, c) => StoresAll(a) + StoresHs(hs) + StoresAll(b) + StoresAll(c)
    case Return(e) => StoresE(e)
    case _ => {}
  }

  function StoresAll(ss: seq<Stmt>): set<string>
    decreases ss, 0
  {
    if ss == [] then {} else StoresS(ss[0]) + StoresAll(ss[1..])
  }

  function StoresHs(hs: seq<Handler>): set<string>
    decreases hs, 0
  {
    if hs == [] then {} else StoresAll(hs[0].body) + StoresHs(hs[1..])
  }

  // ----- what a parser gives: no gate expressions, and assignments have targets -----

  predicate SourceE(e: Expr)
    decreases e, 1
  {
    match e
    case Attr(o, _) => SourceE(o)
    case Bin(_, l, r) => SourceE(l) && SourceE(r)
    case Or(l, r) => SourceE(l) && SourceE(r)
    case Tup(es) => SourceEs(es)
    case Item(o, _) => SourceE(o)
    case Push(l, x) => SourceE(l) && SourceE(x)
    case Call(f, args) => SourceE(f) && SourceEs(args)
    case Comp(elt, cs) => SourceE(elt) && SourceCs(cs)
    case GCheckpoint => false
    case GGetAttr(_, _) => false
    case GSetAttr(_, _, _) => false
    case GCapture(_) => false
    case _ => true
  }

  predicate SourceEs(es: seq<Expr>)
    decreases es, 0
  {
    es == [] || (SourceE(es[0]) && SourceEs(es[1..]))
  }

  predicate SourceCs(cs: seq<Clause>)
    decreases cs, 0
  {
    cs == [] || (SourceE(cs[0].iter) && SourceEs(cs[0].ifs) && SourceCs(cs[1..]))
  }

  predicate SourceTs(ts: seq<Target>)
    decreases ts, 0
  {
    ts == [] ||
    ((match ts[0]
      case TName(_) => true
      case TAttr(o, _) => SourceE(o)
      case TTup(us) => SourceTs(us)) && SourceTs(ts[1..]))
  }

  predicate SourceS(s: Stmt)
    decreases s, 1
  {
    match s
    case ExprS(e) => SourceE(e)
    case Assign(ts, e) => ts != [] && SourceTs(ts) && SourceE(e)
    case AugName(_, _, e) => SourceE(e)
    case AugAttr(o, _, _, e) => SourceE(o) && SourceE(e)
    case If(c, a, b) => SourceE(c) && SourceAll(a) && SourceAll(b)
    case While(c, a, b) => SourceE(c) && SourceAll(a) && SourceAll(b)
    case For(_, it, a, b) => SourceE(it) && SourceAll(a) && SourceAll(b)
    case Try(a, hs, b, c) => SourceAll(a) && SourceHs(hs) && SourceAll(b) && SourceAll(c)
    case Return(e) => SourceE(e)
    case _ => true
  }

  predicate SourceAll(ss: seq<Stmt>)
    decreases ss, 0
  {
    ss == [] || (SourceS(ss[0]) && SourceAll(ss[1..]))
  }

  predicate SourceHs(hs: seq<Handler>)
    decreases hs, 0
  {
    hs == [] || (SourceAll(hs[0].body) && SourceHs(hs[1..]))
  }

  predicate Source(p: Program) {
    (forall i :: 0 <= i < |p.defs| ==> SourceAll(p.defs[i].body)) && SourceAll(p.main)
  }

  // ----- exactly -----

  lemma MayUnion(a: set<string>, b: set<string>)
    ensures MayLoad(a + b) <==> MayLoad(a) && MayLoad(b)
    ensures MayStore(a + b) <==> MayStore(a) && MayStore(b)
  {
    assert MayLoad(a + b) ==> forall x :: x in a || x in b ==> x in a + b;
    assert MayStore(a + b) ==> forall x :: x in a || x in b ==> x in a + b;
  }

  lemma MayOne(x: string)
    ensures MayLoad({x}) <==> Readable(x)
    ensures MayStore({x}) <==> Writable(x)
    ensures MayLoad({}) && MayStore({})
  {
    assert Reserved(x) <==> "__st_" <= x;
    assert x in {x};
  }

  lemma {:induction false} AcceptsExactlyE(e: Expr)
    ensures AcceptsE(e) <==> SourceE(e) && MayLoad(LoadsE(e)) && MayStore(StoresE(e))
    decreases e, 1
  {
    hide MayLoad, MayStore, Readable, Writable;
    MayOne("");
    match e
    case Name(x) => MayOne(x);
    case Attr(o, _) => AcceptsExactlyE(o);
    case Bin(_, l, r) => AcceptsExactlyTwo(e, l, r);
    case Or(l, r) => AcceptsExactlyTwo(e, l, r);
    case Tup(es) => AcceptsExactlyEs(es);
    case Item(o, _) => AcceptsExactlyE(o);
    case Push(l, x) => AcceptsExactlyTwo(e, l, x);
    case Call(f, args) =>
      AcceptsExactlyE(f); AcceptsExactlyEs(args);
      MayUnion(LoadsE(f), LoadsEs(args)); MayUnion(StoresE(f), StoresEs(args));
    case Comp(elt, cs) =>
      AcceptsExactlyE(elt); AcceptsExactlyCs(cs);
      MayUnion(LoadsE(elt), LoadsCs(cs)); MayUnion(StoresE(elt), StoresCs(cs));
    case _ =>
  }

  lemma {:induction false} AcceptsExactlyTwo(e: Expr, a: Expr, b: Expr)
    requires a < e && b < e
    ensures AcceptsE(a) && AcceptsE(b) <==>
      SourceE(a) && SourceE(b) && MayLoad(LoadsE(a) + LoadsE(b)) && MayStore(StoresE(a) + StoresE(b))
    decreases e, 0
  {
    hide MayLoad, MayStore, AcceptsE, SourceE, LoadsE, StoresE;
    AcceptsExactlyE(a);
    AcceptsExactlyE(b);
    MayUnion(LoadsE(a), LoadsE(b));
    MayUnion(StoresE(a), StoresE(b));
  }

  lemma {:induction false} AcceptsExactlyEs(es: seq<Expr>)
    ensures AcceptsEs(es) <==> SourceEs(es) && MayLoad(LoadsEs(es)) && MayStore(StoresEs(es))
    decreases es, 0
  {
    hide MayLoad, MayStore;
    MayOne("");
    if es != [] {
      AcceptsExactlyE(es[0]);
      AcceptsExactlyEs(es[1..]);
      MayUnion(LoadsE(es[0]), LoadsEs(es[1..]));
      MayUnion(StoresE(es[0]), StoresEs(es[1..]));
    }
  }

  lemma {:induction false} AcceptsExactlyCs(cs: seq<Clause>)
    ensures AcceptsCs(cs) <==> SourceCs(cs) && MayLoad(LoadsCs(cs)) && MayStore(StoresCs(cs))
    decreases cs, 0
  {
    hide MayLoad, MayStore, Writable;
    MayOne("");
    if cs != [] {
      var c := cs[0];
      AcceptsExactlyE(c.iter);
      AcceptsExactlyEs(c.ifs);
      AcceptsExactlyCs(cs[1..]);
      MayOne(c.target);
      MayUnion(LoadsE(c.iter), LoadsEs(c.ifs));
      MayUnion(LoadsE(c.iter) + LoadsEs(c.ifs), LoadsCs(cs[1..]));
      MayUnion({c.target}, StoresE(c.iter));
      MayUnion({c.target} + StoresE(c.iter), StoresEs(c.ifs));
      MayUnion({c.target} + StoresE(c.iter) + StoresEs(c.ifs), StoresCs(cs[1..]));
    }
  }

  lemma {:induction false} AcceptsExactlyTs(ts: seq<Target>)
    ensures AcceptsTs(ts) <==> SourceTs(ts) && MayLoad(LoadsTs(ts)) && MayStore(StoresTs(ts))
    decreases ts, 0
  {
    hide MayLoad, MayStore, Writable, AcceptsE, SourceE, LoadsE, StoresE;
    MayOne("");
    if ts != [] {
      var t, rest := ts[0], ts[1..];
      AcceptsExactlyTs(rest);
      var l := match t case TName(_) => {} case TAttr(o, _) => LoadsE(o) case TTup(us) => LoadsTs(us);
      var s := match t case TName(x) => {x} case TAttr(o, _) => StoresE(o) case TTup(us) => StoresTs(us);
      MayUnion(l, LoadsTs(rest));
      MayUnion(s, StoresTs(rest));
      match t
      case TName(x) => MayOne(x);
      case TAttr(o, _) => AcceptsExactlyE(o);
      case TTup(us) => AcceptsExactlyTs(us);
    }
  }

  lemma {:induction false} AcceptsExactlyS(s: Stmt)
    ensures AcceptsS(s) <==> SourceS(s) && MayLoad(LoadsS(s)) && MayStore(StoresS(s))
    decreases s, 1
  {
    hide MayLoad, MayStore, Writable, AcceptsE, SourceE, LoadsE, StoresE;
    MayOne("");
    match s
    case ExprS(e) => AcceptsExactlyE(e);
    case Return(e) => AcceptsExactlyE(e);
    case Assign(ts, e) =>
      AcceptsExactlyTs(ts); AcceptsExactlyE(e);
      MayUnion(LoadsTs(ts), LoadsE(e)); MayUnion(StoresTs(ts), StoresE(e));
    case AugName(x, _, e) => AcceptsExactlyE(e); MayOne(x); MayUnion({x}, StoresE(e));
    case AugAttr(o, _, _, e) =>
      AcceptsExactlyE(o); AcceptsExactlyE(e);
      MayUnion(LoadsE(o), LoadsE(e)); MayUnion(StoresE(o), StoresE(e));
    case If(c, a, b) => AcceptsExactlyBlock(s, c, a, b, {});
    case While(c, a, b) => AcceptsExactlyBlock(s, c, a, b, {});
    case For(x, it, a, b) => MayOne(x); AcceptsExactlyBlock(s, it, a, b, {x});
    case Try(_, _, _, _) => AcceptsExactlyTry(s);
    case _ =>
  }

  /** An expression and two blocks. */
  lemma {:induction false} AcceptsExactlyBlock(s: Stmt, e: Expr, a: seq<Stmt>, b: seq<Stmt>, xs: set<string>)
    requires s.If? || s.While? || s.For?
    requires e == (if s.For? then s.iter else s.cond)
    requires if s.If? then a == s.thn && b == s.els else a == s.body && b == s.orelse
    ensures AcceptsE(e) && AcceptsAll(a) && AcceptsAll(b) <==>
      && SourceE(e) && SourceAll(a) && SourceAll(b)
      && MayLoad(LoadsE(e) + LoadsAll(a) + LoadsAll(b)) && MayStore(StoresE(e) + StoresAll(a) + StoresAll(b))
    ensures MayStore(xs + StoresE(e) + StoresAll(a) + StoresAll(b)) <==>
      MayStore(xs) && MayStore(StoresE(e) + StoresAll(a) + StoresAll(b))
    decreases s, 0
  {
    hide MayLoad, MayStore, AcceptsE, SourceE, LoadsE, StoresE;
    AcceptsExactlyE(e);
    AcceptsExactlyAll(a);
    AcceptsExactlyAll(b);
    MayUnion(LoadsE(e), LoadsAll(a));
    MayUnion(LoadsE(e) + LoadsAll(a), LoadsAll(b));
    MayUnion(StoresE(e), StoresAll(a));
    MayUnion(StoresE(e) + StoresAll(a), StoresAll(b));
    MayUnion(xs, StoresE(e));
    MayUnion(xs + StoresE(e), StoresAll(a));
    MayUnion(xs + StoresE(e) + StoresAll(a), StoresAll(b));
  }

  lemma {:induction false} AcceptsExactlyTry(s: Stmt)
    requires s.Try?
    ensures AcceptsS(s) <==> SourceS(s) && MayLoad(LoadsS(s)) && MayStore(StoresS(s))
    decreases s, 0
  {
    hide MayLoad, MayStore, AcceptsAll, SourceAll, LoadsAll, StoresAll, AcceptsHs, SourceHs, LoadsHs, StoresHs;
    var Try(a, hs, b, c) := s;
    AcceptsExactlyAll(a);
    AcceptsExactlyHs(hs);
    AcceptsExactlyAll(b);
    AcceptsExactlyAll(c);
    MayUnion(LoadsAll(a), LoadsHs(hs));
    MayUnion(LoadsAll(a) + LoadsHs(hs), LoadsAll(b));
    MayUnion(LoadsAll(a) + LoadsHs(hs) + LoadsAll(b), LoadsAll(c));
    MayUnion(StoresAll(a), StoresHs(hs));
    MayUnion(StoresAll(a) + StoresHs(hs), StoresAll(b));
    MayUnion(StoresAll(a) + StoresHs(hs) + StoresAll(b), StoresAll(c));
  }

  lemma {:induction false} AcceptsExactlyAll(ss: seq<Stmt>)
    ensures AcceptsAll(ss) <==> SourceAll(ss) && MayLoad(LoadsAll(ss)) && MayStore(StoresAll(ss))
    decreases ss, 0
  {
    hide MayLoad, MayStore, AcceptsS, SourceS, LoadsS, StoresS;
    MayOne("");
    if ss != [] {
      AcceptsExactlyS(ss[0]);
      AcceptsExactlyAll(ss[1..]);
      MayUnion(LoadsS(ss[0]), LoadsAll(ss[1..]));
      MayUnion(StoresS(ss[0]), StoresAll(ss[1..]));
    }
  }

  lemma {:induction false} AcceptsExactlyHs(hs: seq<Handler>)
    ensures AcceptsHs(hs) <==> SourceHs(hs) && MayLoad(LoadsHs(hs)) && MayStore(StoresHs(hs))
    decreases hs, 0
  {
    hide MayLoad, MayStore, AcceptsAll, SourceAll, LoadsAll, StoresAll;
    MayOne("");
    if hs != [] {
      AcceptsExactlyAll(hs[0].body);
      AcceptsExactlyHs(hs[1..]);
      MayUnion(LoadsAll(hs[0].body), LoadsHs(hs[1..]));
      MayUnion(StoresAll(hs[0].body), StoresHs(hs[1..]));
    }
  }

  /** A program as it is parsed is accepted exactly when every name it loads and every name it
      stores or declares `global` may be. */
  lemma AcceptsExactly(p: Program)
    requires Source(p)
    ensures Accepts(p) <==>
      && MayLoad(LoadsAll(p.main)) && MayStore(StoresAll(p.main))
      && (forall i :: 0 <= i < |p.defs| ==>
            MayLoad(LoadsAll(p.defs[i].body)) && MayStore(StoresAll(p.defs[i].body)) && MayStore(p.defs[i].declared))
  {
    hide AcceptsAll, SourceAll, LoadsAll, StoresAll;
    AcceptsExactlyAll(p.main);
    forall i | 0 <= i < |p.defs|
      ensures AcceptsDef(p.defs[i]) <==>
        MayLoad(LoadsAll(p.defs[i].body)) && MayStore(StoresAll(p.defs[i].body)) && MayStore(p.defs[i].declared)
    {
      AcceptsExactlyAll(p.defs[i].body);
      DeclaredExactly(p.defs[i].declared);
    }
    hide MayLoad, MayStore, AcceptsDef;
  }

  lemma DeclaredExactly(xs: set<string>)
    ensures (forall x :: x in xs ==> Writable(x)) <==> MayStore(xs)
  {
    forall x | x in xs ensures Writable(x) <==> MayStore({x}) { MayOne(x); }
    hide Writable;
    if MayStore(xs) { forall x | x in xs ensures Writable(x) { assert MayStore({x}); } }
    if forall x :: x in xs ==> Writable(x) {
      forall x | x in xs
        ensures !("__st_" <= x) && x != "exec" && x != "eval" && x != "compile" && x != "__import__"
      {
        assert MayStore({x}) && x in {x};
      }
    }
  }
}
