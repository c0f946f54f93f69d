/** The rewriter as the object it is: visitors that share one counter of temporaries, and build
    their statements by appending and inserting. Each does what the function of the rewriting
    says, where the theorems are proved. */
module RewriterObject {
  import opened Python
  import opened Rewriter

  class RewriterObject {
    var tmpCounter: nat

    constructor ()
      ensures tmpCounter == 0
    {
      tmpCounter := 0;
    }

    method NewTmp() returns (x: string)
      modifies this
      ensures x == Tmp(old(tmpCounter)) && tmpCounter == old(tmpCounter) + 1
    {
      x := Tmp(tmpCounter);
      tmpCounter := tmpCounter + 1;
    }

    /** Insert the checkpoint after a docstring, or at the head. */
    method InsertCheckpoint(body: seq<Stmt>) returns (r: seq<Stmt>)
      ensures r == PrependCheckpoint(body)
    {
      var at := if body != [] && IsDocstring(body[0]) then 1 else 0;
      r := body[..at] + [ExprS(GCheckpoint)] + body[at..];
    }

    /** An expression: an attribute becomes a call of the gate, everything else is visited. */
    method VisitExpr(e: Expr) returns (r: Expr)
      ensures r == RwE(e)
      decreases e, 1
    {
      match e
      case Attr(o, a) =>
        var ro := VisitExpr(o);
        r := GGetAttr(ro, a);
      case Bin(op, x, y) =>
        var rx := VisitExpr(x);
        var ry := VisitExpr(y);
        r := Bin(op, rx, ry);
      case Or(x, y) =>
        var rx := VisitExpr(x);
        var ry := VisitExpr(y);
        r := Or(rx, ry);
      case Tup(es) =>
        var rs := VisitExprs(es);
        r := Tup(rs);
      case Item(o, i) =>
        var ro := VisitExpr(o);
        r := Item(ro, i);
      case Push(x, y) =>
        var rx := VisitExpr(x);
        var ry := VisitExpr(y);
        r := Push(rx, ry);
      case Call(f, args) =>
        var rf := VisitExpr(f);
        var rs := VisitExprs(args);
        r := Call(rf, rs);
      case Comp(elt, cs) =>
        var rt := VisitExpr(elt);
        var rs := VisitClauses(cs);
        r := Comp(rt, rs);
      case _ => r := e;
    }

    method VisitExprs(es: seq<Expr>) returns (r: seq<Expr>)
      ensures r == RwEs(es)
      decreases es, 0
    {
      r := [];
      while |r| < |es|
        invariant |r| <= |es| && r == RwEs(es[..|r|])
      {
        var one := VisitExpr(es[|r|]);
        ExprsAdd(es, |r|);
        r := r + [one];
      }
      assert es[..|r|] == es;
    }

    /** The clauses of a comprehension, each with the checkpoint inserted before its filters. */
    method VisitClauses(cs: seq<Clause>) returns (r: seq<Clause>)
      ensures r == RwCs(cs)
      decreases cs, 0
    {
      r := [];
      while |r| < |cs|
        invariant |r| <= |cs| && r == RwCs(cs[..|r|])
      {
        var c := cs[|r|];
        var iter := VisitExpr(c.iter);
        var ifs := VisitExprs(c.ifs);
        var one := Clause(c.target, iter, [Or(GCheckpoint, Lit(BoolC(true)))] + ifs);
        ClausesAdd(cs, |r|);
        r := r + [one];
      }
      assert cs[..|r|] == cs;
    }

    /** The statements that assign `from` to a target, a tuple item by item. */
    method EmitTargetAssign(t: Target, from: Expr) returns (ss: seq<Stmt>)
      ensures ss == Emit(t, from)
      decreases t
    {
      match t
      case TAttr(o, a) =>
        var ro := VisitExpr(o);
        ss := [ExprS(GSetAttr(ro, a, from))];
      case TName(x) => ss := [Assign([t], from)];
      case TTup(us) =>
        ss := [];
        var i := 0;
        while i < |us|
          invariant 0 <= i <= |us|
          invariant ss + EmitItems(us[i..], from, i) == EmitItems(us, from, 0)
        {
          var more := EmitTargetAssign(us[i], Item(from, i));
          assert us[i..][1..] == us[i + 1..];
          AppendOne(ss, more, EmitItems(us[i + 1..], from, i + 1));
          ss := ss + more;
          i := i + 1;
        }
        assert EmitItems(us[i..], from, i) == [];
    }

    method VisitAssign(s: Stmt) returns (ss: seq<Stmt>)
      requires s.Assign?
      modifies this
      ensures Out(ss, tmpCounter) == RwS(s, old(tmpCounter))
    {
      var Assign(ts, e) := s;
      var from := VisitExpr(e);
      if !HasAttr(ts) { return [Assign(ts, from)]; }
      ss := [];
      if |ts| > 1 || ts[0].TTup? {
        var x := NewTmp();
        ss := [Assign([TName(x)], from)];
        from := Name(x);
      }
      ghost var head, k := ss, tmpCounter;
      var i := 0;
      while i < |ts|
        invariant 0 <= i <= |ts| && tmpCounter == k
        invariant ss + EmitAll(ts[i..], from) == head + EmitAll(ts, from)
      {
        var more := EmitTargetAssign(ts[i], from);
        assert ts[i..][1..] == ts[i + 1..];
        AppendOne(ss, more, EmitAll(ts[i + 1..], from));
        ss := ss + more;
        i := i + 1;
      }
      assert EmitAll(ts[i..], from) == [];
      assert ss == head + EmitAll(ts, from);
      assert head == [] ==> ss == EmitAll(ts, from);
      assert ts[0..] == ts;
    }

    /** The object once, in a temporary; then its attribute is read and written. */
    method VisitAugAttr(s: Stmt) returns (ss: seq<Stmt>)
      requires s.AugAttr?
      modifies this
      ensures Out(ss, tmpCounter) == RwS(s, old(tmpCounter))
    {
      var obj := VisitExpr(s.obj);
      var value := VisitExpr(s.value);
      var x := NewTmp();
      var read := GGetAttr(Name(x), s.attr);
      ss := [Assign([TName(x)], obj), ExprS(GSetAttr(Name(x), s.attr, Bin(s.op, read, value)))];
    }

    method VisitStmt(s: Stmt) returns (ss: seq<Stmt>)
      modifies this
      ensures Out(ss, tmpCounter) == RwS(s, old(tmpCounter))
      decreases s, 1
    {
      match s
      case ExprS(e) =>
        var r := VisitExpr(e);
        ss := [ExprS(r)];
      case Assign(_, _) => ss := VisitAssign(s);
      case AugName(x, op, e) =>
        var r := VisitExpr(e);
        ss := [AugName(x, op, r)];
      case AugAttr(_, _, _, _) => ss := VisitAugAttr(s);
      case Def(f, _) => ss := [s, Assign([TName(f)], GCapture(Name(f)))];
      case Return(e) =>
        var r := VisitExpr(e);
        ss := [Return(r)];
      case Raise(_) => ss := [s];
      case Break => ss := [s];
      case Continue => ss := [s];
      case If(c, a, b) =>
        var rc := VisitExpr(c);
        var ra := VisitBody(a);
        var rb := VisitBody(b);
        ss := [If(rc, ra, rb)];
      case While(c, a, b) =>
        var rc := VisitExpr(c);
        var ra := VisitBody(a);
        var rb := VisitBody(b);
        var body := InsertCheckpoint(ra);
        ss := [While(rc, body, rb)];
      case For(x, it, a, b) =>
        var ri := VisitExpr(it);
        var ra := VisitBody(a);
        var rb := VisitBody(b);
        var body := InsertCheckpoint(ra);
        ss := [For(x, ri, body, rb)];
      case Try(a, hs, b, c) =>
        var ra := VisitBody(a);
        var rh := VisitHandlers(hs);
        var rb := VisitBody(b);
        var rc := VisitBody(c);
        ss := [Try(ra, rh, rb, rc)];
    }

    method VisitBody(ss: seq<Stmt>) returns (r: seq<Stmt>)
      modifies this
      ensures Out(r, tmpCounter) == RwAll(ss, old(tmpCounter))
      decreases ss, 0
    {
      r := [];
      var i := 0;
      while i < |ss|
        invariant 0 <= i <= |ss|
        invariant r + RwAll(ss[i..], tmpCounter).ss == RwAll(ss, old(tmpCounter)).ss
        invariant RwAll(ss[i..], tmpCounter).k == RwAll(ss, old(tmpCounter)).k
      {
        assert ss[i..][0] == ss[i] && ss[i..][1..] == ss[i + 1..];
        var more := VisitStmt(ss[i]);
        AppendOne(r, more, RwAll(ss[i + 1..], tmpCounter).ss);
        r := r + more;
        i := i + 1;
      }
      assert ss[i..] == [];
    }

    /** A bare `except:` becomes `except Exception:`. */
    method VisitHandlers(hs: seq<Handler>) returns (r: seq<Handler>)
      modifies this
      ensures (r, tmpCounter) == RwHs(hs, old(tmpCounter))
      decreases hs, 0
    {
      if hs == [] { return []; }
      var body := VisitBody(hs[0].body);
      var catch := if hs[0].catch.Bare? then AnyException else hs[0].catch;
      var rest := VisitHandlers(hs[1..]);
      r := [Handler(catch, body)] + rest;
    }

    method VisitDef(d: FunDef) returns (r: FunDef)
      modifies this
      ensures r == RwDef(d, old(tmpCounter)) && tmpCounter == RwAll(d.body, old(tmpCounter)).k
    {
      var body := VisitBody(d.body);
      body := InsertCheckpoint(body);
      r := FunDef(d.params, d.declared, body);
    }

    /** A whole program, from a fresh rewriter. */
    method VisitModule(p: Program) returns (q: Program)
      requires tmpCounter == 0
      modifies this
      ensures q == Rewrite(p)
    {
      hide RwAll, RwDef, Rewrite;
      var defs: seq<FunDef> := [];
      while |defs| < |p.defs|
        invariant |defs| <= |p.defs| && tmpCounter == StartOf(p.defs, |defs|)
        invariant RewrittenDefs(p, defs)
      {
        var r := VisitDef(p.defs[|defs|]);
        defs := defs + [r];
      }
      var main := VisitBody(p.main);
      q := Program(defs, main);
      ProgramIs(p, q);
    }
  }

  predicate RewrittenDefs(p: Program, defs: seq<FunDef>) {
    |defs| <= |p.defs| && forall i :: 0 <= i < |defs| ==> defs[i] == RwDef(p.defs[i], StartOf(p.defs, i))
  }

  lemma ProgramIs(p: Program, q: Program)
    requires |q.defs| == |p.defs| && RewrittenDefs(p, q.defs)
    requires q.main == RwAll(p.main, StartOf(p.defs, |p.defs|)).ss
    ensures q == Rewrite(p)
  {
    hide RwAll, RwDef, StartOf;
    assert q.defs == Rewrite(p).defs;
  }

  lemma ExprsAdd(es: seq<Expr>, i: nat)
    requires i < |es|
    ensures RwEs(es[..i + 1]) == RwEs(es[..i]) + [RwE(es[i])]
  {
    assert es[..i + 1] == es[..i] + [es[i]];
    ExprsJoin(es[..i], es[i]);
  }

  lemma {:induction false} ExprsJoin(es: seq<Expr>, e: Expr)
    ensures RwEs(es + [e]) == RwEs(es) + [RwE(e)]
  {
    hide RwE;
    if es == [] {
      assert es + [e] == [e] && [e][1..] == [];
    } else {
      assert (es + [e])[1..] == es[1..] + [e];
      ExprsJoin(es[1..], e);
    }
  }

  lemma ClausesAdd(cs: seq<Clause>, i: nat)
    requires i < |cs|
    ensures RwCs(cs[..i + 1]) ==
      RwCs(cs[..i]) + [Clause(cs[i].target, RwE(cs[i].iter), [ALWAYS] + RwEs(cs[i].ifs))]
  {
    assert cs[..i + 1] == cs[..i] + [cs[i]];
    ClausesJoin(cs[..i], cs[i]);
  }

  lemma {:induction false} ClausesJoin(cs: seq<Clause>, c: Clause)
    ensures RwCs(cs + [c]) == RwCs(cs) + [Clause(c.target, RwE(c.iter), [ALWAYS] + RwEs(c.ifs))]
  {
    hide RwE, RwEs;
    if cs == [] {
      assert cs + [c] == [c] && [c][1..] == [];
    } else {
      assert (cs + [c])[1..] == cs[1..] + [c];
      ClausesJoin(cs[1..], c);
    }
  }

  lemma AppendOne(a: seq<Stmt>, b: seq<Stmt>, c: seq<Stmt>)
    ensures a + (b + c) == (a + b) + c
  {
  }
}
