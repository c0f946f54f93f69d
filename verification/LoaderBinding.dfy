/** When every cached module is bound on its parent: exactly when no directory without an
    `__init__.py` lies in a package. In such a package's place, a body that imports through the
    bare directory has it built twice, and what was bound on the first object is lost. */
module LoaderBinding {
  import opened Options
  import opened Names
  import opened Loader

  /** Whatever the bodies do, an import from an empty cache leaves everything bound. */
  ghost predicate AlwaysBound(inits: set<Name>, plains: set<Name>) {
    forall fs: Files, m: Name :: fs.inits.Keys == inits && fs.plains.Keys == plains && Ok(fs, {}, EMPTY) ==>
      Bound({}, Resolve(fs, {}, m, EMPTY).st)
  }

  /** A bare directory: files are below it, and none is it. */
  ghost predicate IsBare(names: set<Name>, p: Name) { p !in names && exists u :: u in names && Below(p, u) }

  ghost predicate LayeredIn(inits: set<Name>, plains: set<Name>) {
    && NoShadowIn(inits, plains)
    && forall p: Name, q: Name :: IsBare(inits + plains, p) && Below(q, p) ==> q !in inits + plains
  }

  // ----- attributes are of objects already made, and only new objects become attributes -----

  ghost predicate OnMade(st: State) { forall k :: k in st.attrs ==> k.0 < st.next && st.attrs[k] < st.next }

  /** What is bound in between is what was made in between. */
  ghost predicate BindsNew(a: State, b: State) {
    forall k :: k in b.attrs ==> (k in a.attrs && b.attrs[k] == a.attrs[k]) || a.next <= b.attrs[k]
  }

  lemma BindsNewOn(a: State, b: State, c: State)
    requires BindsNew(a, b) && BindsNew(b, c) && a.next <= b.next
    ensures BindsNew(a, c)
  {
  }

  /** A binding of something new on something made. */
  lemma OnMadeBind(a: State, b: State, o: nat, leaf: string, v: nat)
    requires OnMade(b) && BindsNew(a, b) && a.next <= v < b.next && o < b.next
    ensures var c := b.(attrs := b.attrs[(o, leaf) := v]); OnMade(c) && BindsNew(a, c)
  {
  }

  lemma OnMadeSame(a: State, b: State)
    requires OnMade(a) && b.attrs == a.attrs && a.next <= b.next
    ensures OnMade(b) && BindsNew(a, b)
  {
  }

  lemma {:induction false} OnMadeResolve(fs: Files, run: set<Name>, m: Name, st: State)
    requires Ok(fs, run, st) && OnMade(st)
    ensures var r := Resolve(fs, run, m, st); OnMade(r.st) && BindsNew(st, r.st)
    decreases Universe(fs) - run, 0, |m|, 0
  {
    hide OnMade;
    var src := Lookup(fs, m);
    if m !in st.cache && src.Some? {
      if |m| > 1 { KnownParent(fs, m); OnMadePackage(fs, run, Parent(m), st); }
      var up := if |m| > 1 then Package(fs, run, Parent(m), st) else Res(Missing, st);
      if !up.out.Raised? && m !in up.st.cache {
        OnMadeLoad(fs, run, m, src.value, up);
        BindsNewOn(st, up.st, Load(fs, run, m, src.value, up).st);
      }
    }
  }

  lemma {:induction false} OnMadeLoad(fs: Files, run: set<Name>, m: Name, src: Source, up: Res)
    requires Ok(fs, run, up.st) && m !in up.st.cache && Lookup(fs, m) == Some(src)
    requires |m| > 1 ==> up.out.Found? && Parent(m) in up.st.cache && up.st.cache[Parent(m)] == up.out.mod
    requires OnMade(up.st)
    ensures var r := Load(fs, run, m, src, up); OnMade(r.st) && BindsNew(up.st, r.st)
    decreases Universe(fs) - run, 0, 0
  {
    hide RunBody, Load, OnMade, BindsNew;
    BegunOk(fs, run, m, up.st);
    LoadEnds(fs, run, m, src, up);
    var st := Begun(run, m, up.st);
    OnMadeSame(up.st, st);
    OnMadeBody(fs, run + {m}, src.body, st);
    var b := RunBody(fs, run + {m}, src.body, st).st;
    hide Ok;
    BindsNewOn(up.st, st, b);
    OnMadeSame(b, Undone(b, m, src.package));
    BindsNewOn(up.st, b, Undone(b, m, src.package));
    if |m| > 1 { OnMadeBind(up.st, b, up.out.mod, Leaf(m), up.st.next); }
  }

  /** How a load ends. */
  lemma LoadEnds(fs: Files, run: set<Name>, m: Name, src: Source, up: Res)
    requires Ok(fs, run, up.st) && m !in up.st.cache && Lookup(fs, m) == Some(src)
    requires |m| > 1 ==> up.out.Found? && Parent(m) in up.st.cache && up.st.cache[Parent(m)] == up.out.mod
    requires Ok(fs, run + {m}, Begun(run, m, up.st))
    ensures var b := RunBody(fs, run + {m}, src.body, Begun(run, m, up.st));
      Load(fs, run, m, src, up) ==
      if !b.ok then Res(Raised, Undone(b.st, m, src.package))
      else if |m| == 1 then Res(Found(up.st.next), b.st)
      else Res(Found(up.st.next), b.st.(attrs := b.st.attrs[(up.out.mod, Leaf(m)) := up.st.next]))
  {
    hide RunBody, Ok, Keeps;
  }

  lemma {:induction false} OnMadePackage(fs: Files, run: set<Name>, p: Name, st: State)
    requires Ok(fs, run, st) && Known(fs, p) && OnMade(st)
    ensures var r := Package(fs, run, p, st); OnMade(r.st) && BindsNew(st, r.st)
    decreases Universe(fs) - run, 0, |p|, 1
  {
    hide OnMade, BindsNew;
    if p in st.cache {
      OnMadeSame(st, st);
    } else if p in Universe(fs) {
      PackageIs(fs, run, p, st);
      OnMadeResolve(fs, run, p, st);
    } else {
      if |p| > 1 { KnownParent(fs, p); OnMadePackage(fs, run, Parent(p), st); }
      var up := if |p| > 1 then Package(fs, run, Parent(p), st) else Res(Missing, st);
      if !up.out.Raised? {
        PackageBare(fs, run, p, st, up);
        OnMadeBare(fs, run, p, st, up);
      }
    }
  }

  lemma OnMadeBare(fs: Files, run: set<Name>, p: Name, st: State, up: Res)
    requires OnMade(st) && (if |p| > 1 then OnMade(up.st) && BindsNew(st, up.st) else up.st == st)
    requires st.next <= up.st.next && (|p| > 1 ==> up.out.Found? && up.out.mod < up.st.next)
    ensures var b := Bare(p, up).st; OnMade(b) && BindsNew(st, b)
  {
    OnMadeSame(st, st);
    var b := up.st.(cache := up.st.cache[p := up.st.next], next := up.st.next + 1);
    OnMadeSame(up.st, b);
    hide OnMade, BindsNew;
    BindsNewOn(st, up.st, b);
    if |p| > 1 { OnMadeBind(st, b, up.out.mod, Leaf(p), up.st.next); }
  }

  lemma {:induction false} OnMadeBody(fs: Files, run: set<Name>, acts: Body, st: State)
    requires Ok(fs, run, st) && OnMade(st)
    ensures var r := RunBody(fs, run, acts, st); OnMade(r.st) && BindsNew(st, r.st)
    decreases Universe(fs) - run, 1, acts
  {
    hide OnMade;
    if acts != [] && !acts[0].Fail? {
      OnMadeResolve(fs, run, acts[0].name, st);
      var r0 := Chain(fs, run, acts[0].name, st);
      if acts[0].TryImport? || r0.out.Found? {
        OnMadeBody(fs, run, acts[1..], r0.st);
        BindsNewOn(st, r0.st, RunBody(fs, run, acts[1..], r0.st).st);
      }
    }
  }

  /** A module that loads becomes its parent's attribute at the end: while the body runs it is
      nobody's, and after a failure it is nobody's either. */
  lemma BoundOnceLoaded(fs: Files, run: set<Name>, m: Name, src: Source, up: Res)
    requires Ok(fs, run, up.st) && m !in up.st.cache && Lookup(fs, m) == Some(src)
    requires |m| > 1 ==> up.out.Found? && Parent(m) in up.st.cache && up.st.cache[Parent(m)] == up.out.mod
    requires OnMade(up.st) && Ok(fs, run + {m}, Begun(run, m, up.st))
    ensures var r, mod := Load(fs, run, m, src, up), up.st.next;
      && (forall i: nat, k :: i <= |src.body| ==>
            var during := RunBody(fs, run + {m}, src.body[..i], Begun(run, m, up.st)).st;
            k in during.attrs ==> during.attrs[k] != mod)
      && (r.out.Raised? ==> forall k :: k in r.st.attrs ==> r.st.attrs[k] != mod)
      && (r.out.Found? ==>
            && r.out.mod == mod
            && forall k :: k in r.st.attrs ==> (r.st.attrs[k] == mod <==> |m| > 1 && k == (up.out.mod, Leaf(m))))
  {
    var st := Begun(run, m, up.st);
    forall i: nat | i <= |src.body|
      ensures BindsNew(st, RunBody(fs, run + {m}, src.body[..i], st).st)
    {
      OnMadeBody(fs, run + {m}, src.body[..i], st);
    }
    assert src.body[..|src.body|] == src.body;
    hide RunBody, Ok, Keeps;
  }

  // ----- a bare directory in a package -----

  /** `q` is a package whose body imports `u`, everything else is quiet, and all the
      directories from `q` down to `u` are bare. */
  ghost predicate Gap(fs: Files, q: Name, u: Name) {
    && Ok(fs, {}, EMPTY) && q in fs.inits && fs.inits[q] == [TryImport(u)] && QuietBut(fs, q, {})
    && u in Universe(fs) && |u| > 1 && Below(q, Parent(u))
    && (forall e: Name :: Below(q, e) && Below(e, u) ==> e !in Universe(fs))
  }

  /** The package imports `u` on its own account. */
  lemma PackageImports(fs: Files, q: Name, u: Name)
    requires Gap(fs, q, u) && Known(fs, q)
    ensures var r := Package(fs, {}, q, EMPTY); r.out.Found? && u in r.st.cache
  {
    var up := if |q| > 1 then (KnownParent(fs, q); Package(fs, {}, Parent(q), EMPTY)) else Res(Missing, EMPTY);
    if |q| > 1 { QuietPackage(fs, {}, Parent(q), EMPTY, q); }
    assert q !in up.st.cache && !up.out.Raised?;
    LoadCase(fs, {}, q, EMPTY, up);
    BegunOk(fs, {}, q, up.st);
    assert Below(Parent(u), u);
    BelowChain(q, Parent(u), u);
    ImportingBody(fs, {} + {q}, q, u, Begun({}, q, up.st));
    hide Package, Resolve, RunBody, Ok, Keeps, Gap;
    LoadedWith(fs, {}, q, Source(true, [TryImport(u)]), up, u);
    PackageIs(fs, {}, q, EMPTY);
  }

  lemma ImportingBody(fs: Files, run: set<Name>, q: Name, u: Name, st: State)
    requires Ok(fs, run, st) && q in st.cache && u in Universe(fs) && Below(q, u) && QuietBut(fs, q, {})
    ensures var b := RunBody(fs, run, [TryImport(u)], st); b.ok && u in b.st.cache
  {
    QuietResolve(fs, run, u, st, q);
    var c := Chain(fs, run, u, st);
    assert u in c.st.cache;
    hide Chain, Resolve, Ok, Keeps;
    assert [TryImport(u)][1..] == [];
    assert RunBody(fs, run, [], c.st) == Ran(true, c.st);
  }

  lemma LoadedWith(fs: Files, run: set<Name>, m: Name, src: Source, up: Res, u: Name)
    requires Ok(fs, run, up.st) && m !in up.st.cache && Lookup(fs, m) == Some(src)
    requires |m| > 1 ==> up.out.Found? && Parent(m) in up.st.cache && up.st.cache[Parent(m)] == up.out.mod
    requires Ok(fs, run + {m}, Begun(run, m, up.st))
    requires var b := RunBody(fs, run + {m}, src.body, Begun(run, m, up.st)); b.ok && u in b.st.cache
    ensures var r := Load(fs, run, m, src, up); r.out.Found? && u in r.st.cache
  {
    hide RunBody, Keeps;
  }

  /** Every bare directory on the way is then made anew, with nothing bound on it. */
  lemma {:induction false} MadeAnew(fs: Files, q: Name, u: Name, e: Name)
    requires Gap(fs, q, u) && Below(q, e) && Below(e, u) && Known(fs, e)
    ensures var r := Package(fs, {}, e, EMPTY);
      r.out.Found? && u in r.st.cache && forall a :: (r.out.mod, a) !in r.st.attrs
    decreases |e|
  {
    KnownParent(fs, e);
    PrefixOfParent(e, q);
    var up := Package(fs, {}, Parent(e), EMPTY);
    if q == Parent(e) {
      PackageImports(fs, q, u);
    } else {
      BelowChain(Parent(e), e, u);
      MadeAnew(fs, q, u, Parent(e));
    }
    OnMadePackage(fs, {}, Parent(e), EMPTY);
    PackageBare(fs, {}, e, EMPTY, up);
    assert up.out.mod < up.st.next;
    hide Package, Ok, Keeps;
  }

  /** So `u` is cached and not bound. */
  lemma LeftUnbound(fs: Files, q: Name, u: Name)
    requires Gap(fs, q, u)
    ensures !Bound({}, Resolve(fs, {}, u, EMPTY).st)
  {
    KnownParent(fs, u);
    MadeAnew(fs, q, u, Parent(u));
    var up := Package(fs, {}, Parent(u), EMPTY);
    FoundCase(fs, {}, u, EMPTY, up);
    hide Package, Resolve, Ok, Keeps, Gap;
    assert up.st.cache[Parent(u)] == up.out.mod;
    assert !Attached(up.st, u);
  }

  /** The case of `Resolve` where the parent's body has imported the module already. */
  lemma FoundCase(fs: Files, run: set<Name>, m: Name, st: State, up: Res)
    requires Ok(fs, run, st) && m !in st.cache && m in Universe(fs)
    requires |m| > 1 && Known(fs, Parent(m)) && up == Package(fs, run, Parent(m), st)
    requires !up.out.Raised? && m in up.st.cache
    ensures Resolve(fs, run, m, st) == Res(Found(up.st.cache[m]), up.st)
  {
    hide Package, Load, Keeps;
  }

  // ----- finding the gap -----

  /** From a bare directory down: a file whose own directory is bare. */
  lemma {:induction false} FirstBelow(names: set<Name>, p: Name, u: Name) returns (v: Name)
    requires p !in names && u in names && Below(p, u)
    ensures v in names && |v| > 1 && Parent(v) !in names && (Parent(v) == p || Below(p, Parent(v)))
    decreases |u|
  {
    PrefixOfParent(u, p);
    if Parent(u) in names {
      v := FirstBelow(names, p, Parent(u));
    } else {
      v := u;
    }
  }

  /** And up from there: the last file above, with nothing but bare directories between. */
  lemma {:induction false} LastAbove(names: set<Name>, q: Name, e: Name) returns (r: Name)
    requires q in names && e !in names && Below(q, e)
    ensures r in names && Below(r, e) && (forall x: Name :: Below(r, x) && Below(x, e) ==> x !in names)
    decreases |e|
  {
    PrefixOfParent(e, q);
    if Parent(e) in names {
      r := Parent(e);
      assert Below(r, e);
    } else {
      assert q != Parent(e);
      r := LastAbove(names, q, Parent(e));
      assert Below(Parent(e), e);
      BelowChain(r, Parent(e), e);
      forall x: Name | Below(r, x) && Below(x, e) ensures x !in names { PrefixOfParent(e, x); }
    }
  }

  lemma GapBreaks(inits: set<Name>, plains: set<Name>, p: Name, q: Name)
    requires NoShadowIn(inits, plains) && IsBare(inits + plains, p) && Below(q, p) && q in inits + plains
    ensures !AlwaysBound(inits, plains)
  {
    var names := inits + plains;
    var u0 :| u0 in names && Below(p, u0);
    var u := FirstBelow(names, p, u0);
    var e: Name := Parent(u);
    if e != p { BelowChain(q, p, e); }
    var r := LastAbove(names, q, e);
    assert Below(e, u);
    BelowChain(r, e, u);
    assert r in inits;
    forall x: Name | Below(r, x) && Below(x, u) ensures x !in names { PrefixOfParent(u, x); }
    hide IsBare, NoShadowIn, AlwaysBound;
    GapIs(inits, plains, r, u);
  }

  /** The files with that gap, and bodies that fall into it. */
  lemma GapIs(inits: set<Name>, plains: set<Name>, r: Name, u: Name)
    requires r in inits && u in inits + plains && |u| > 1 && Below(r, Parent(u))
    requires forall x: Name :: Below(r, x) && Below(x, u) ==> x !in inits + plains
    ensures !AlwaysBound(inits, plains)
  {
    var fs := Files(Quiet(inits)[r := [TryImport(u)]], Quiet(plains));
    assert fs.inits.Keys == inits && fs.plains.Keys == plains && Ok(fs, {}, EMPTY);
    hide Quiet;
    assert Gap(fs, r, u);
    hide Gap, Bound, Resolve, Ok;
    LeftUnbound(fs, r, u);
  }

  lemma LayeredBinds(inits: set<Name>, plains: set<Name>)
    requires LayeredIn(inits, plains)
    ensures AlwaysBound(inits, plains)
  {
    forall fs: Files, m: Name | fs.inits.Keys == inits && fs.plains.Keys == plains && Ok(fs, {}, EMPTY)
      ensures Bound({}, Resolve(fs, {}, m, EMPTY).st)
    {
      LayeredFiles(fs);
      hide LayeredIn, Resolve, Ok;
      BoundResolve(fs, {}, m, EMPTY);
    }
  }

  lemma ShadowBreaks(inits: set<Name>, plains: set<Name>)
    requires !NoShadowIn(inits, plains)
    ensures !AlwaysBound(inits, plains)
  {
    ClosedExactly(inits, plains);
    hide NoShadowIn, Resolve, Ok, ParentClosed, Bound;
    var fs: Files, m: Name :| fs.inits.Keys == inits && fs.plains.Keys == plains && Ok(fs, {}, EMPTY) &&
      !ParentClosed(Resolve(fs, {}, m, EMPTY).st.cache);
    if Bound({}, Resolve(fs, {}, m, EMPTY).st) { BoundIsClosed(Resolve(fs, {}, m, EMPTY).st); }
  }

  /** Everything cached is bound on its parent when an import returns, whatever the bodies do,
      exactly when no plain module shadows a directory and no bare one is in a package. */
  lemma BoundExactly(inits: set<Name>, plains: set<Name>)
    ensures AlwaysBound(inits, plains) <==> LayeredIn(inits, plains)
  {
    hide AlwaysBound, NoShadowIn, IsBare;
    if LayeredIn(inits, plains) {
      LayeredBinds(inits, plains);
    } else if NoShadowIn(inits, plains) {
      var p: Name, q: Name :| IsBare(inits + plains, p) && Below(q, p) && q in inits + plains;
      GapBreaks(inits, plains, p, q);
    } else {
      ShadowBreaks(inits, plains);
    }
  }

  lemma LayeredFiles(fs: Files)
    requires LayeredIn(fs.inits.Keys, fs.plains.Keys)
    ensures Layered(fs)
  {
  }

  lemma BoundIsClosed(st: State)
    requires Bound({}, st)
    ensures ParentClosed(st.cache)
  {
    forall k | k in st.cache && |k| > 1 ensures Parent(k) in st.cache { assert Attached(st, k); }
  }
}
