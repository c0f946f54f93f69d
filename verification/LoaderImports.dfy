/** What a module that loaded can count on: the names it imports. A body comes to its end exactly
    when none of its actions breaks it, and then every name it imports without swallowing is
    importable. Afterwards a name may be taken out again by the roll-back of a circular import. */
module LoaderImports {
  import opened Options
  import opened Names
  import opened Loader

  // ----- one body -----

  /** The action stops the body: it raises, or imports what is not found or raises. */
  predicate Breaks(fs: Files, run: set<Name>, x: Action, st: State)
    requires Ok(fs, run, st)
  {
    match x
    case Fail => true
    case Import(n) => !Chain(fs, run, n, st).out.Found?
    case TryImport(_) => false
  }

  /** What an action leaves. */
  function After(fs: Files, run: set<Name>, x: Action, st: State): State
    requires Ok(fs, run, st)
  {
    if x.Fail? then st else Chain(fs, run, x.name, st).st
  }

  lemma {:induction false} BodyAdd(fs: Files, run: set<Name>, acts: Body, x: Action, st: State)
    requires Ok(fs, run, st)
    ensures var r := RunBody(fs, run, acts, st);
      RunBody(fs, run, acts + [x], st) ==
      if r.ok then Ran(!Breaks(fs, run, x, r.st), After(fs, run, x, r.st)) else r
    decreases acts
  {
    hide Chain, Keeps, Ok;
    if acts == [] {
      assert acts + [x] == [x] && [x][1..] == [];
      var s := After(fs, run, x, st);
      if !x.Fail? { assert Ok(fs, run, s) && RunBody(fs, run, [], s) == Ran(true, s); }
    } else {
      assert (acts + [x])[1..] == acts[1..] + [x] && (acts + [x])[0] == acts[0];
      if !acts[0].Fail? {
        var r0 := Chain(fs, run, acts[0].name, st);
        BodyAdd(fs, run, acts[1..], x, r0.st);
      }
    }
  }

  /** A body comes to its end exactly when no action of it breaks it where it stands. */
  lemma {:induction false} BodyExactly(fs: Files, run: set<Name>, acts: Body, st: State)
    requires Ok(fs, run, st)
    ensures RunBody(fs, run, acts, st).ok <==>
      forall i :: 0 <= i < |acts| ==>
        var r := RunBody(fs, run, acts[..i], st); r.ok && !Breaks(fs, run, acts[i], r.st)
    decreases |acts|
  {
    hide RunBody, Chain, Keeps, Breaks, Ok;
    if acts == [] {
      EmptyBody(fs, run, st);
    } else {
      var k := |acts| - 1;
      var less := acts[..k];
      assert acts == less + [acts[k]];
      BodyAdd(fs, run, less, acts[k], st);
      BodyExactly(fs, run, less, st);
      forall i | 0 <= i < k ensures less[..i] == acts[..i] && less[i] == acts[i] {}
    }
  }

  lemma EmptyBody(fs: Files, run: set<Name>, st: State)
    requires Ok(fs, run, st)
    ensures RunBody(fs, run, [], st) == Ran(true, st)
  {
  }

  /** Then it has no `Fail` in it, and every name it imports without swallowing is cached. */
  lemma {:induction false} BodyHasImports(fs: Files, run: set<Name>, acts: Body, st: State)
    requires Ok(fs, run, st) && RunBody(fs, run, acts, st).ok
    ensures forall i :: 0 <= i < |acts| ==>
      !acts[i].Fail? && (acts[i].Import? ==> acts[i].name in RunBody(fs, run, acts, st).st.cache)
    decreases acts
  {
    if acts != [] && !acts[0].Fail? {
      var r0 := Chain(fs, run, acts[0].name, st);
      assert acts[0].Import? ==> acts[0].name in r0.st.cache;
      BodyHasImports(fs, run, acts[1..], r0.st);
      hide Chain;
      var r := RunBody(fs, run, acts, st);
      assert r == RunBody(fs, run, acts[1..], r0.st);
      forall i | 0 <= i < |acts| ensures !acts[i].Fail? && (acts[i].Import? ==> acts[i].name in r.st.cache) {
        if i > 0 { assert acts[i] == acts[1..][i - 1]; }
      }
    }
  }

  // ----- every run -----

  /** The body of a module: the package's before the plain module's. */
  function BodyOf(fs: Files, k: Name): Body
    requires k in Universe(fs)
  {
    if k in fs.inits then fs.inits[k] else fs.plains[k]
  }

  /** A module loads exactly when nothing in its body breaks it. */
  lemma LoadExactly(fs: Files, run: set<Name>, m: Name, src: Source, up: Res)
    requires Ok(fs, run, up.st) && m !in up.st.cache && Lookup(fs, m) == Some(src)
    requires |m| > 1 ==> up.out.Found? && Parent(m) in up.st.cache && up.st.cache[Parent(m)] == up.out.mod
    requires Ok(fs, run + {m}, Begun(run, m, up.st))
    ensures var acts := BodyOf(fs, m);
      Load(fs, run, m, src, up).out.Found? <==>
      forall i :: 0 <= i < |acts| ==>
        var r := RunBody(fs, run + {m}, acts[..i], Begun(run, m, up.st));
        r.ok && !Breaks(fs, run + {m}, acts[i], r.st)
  {
    assert src.body == BodyOf(fs, m);
    BodyExactly(fs, run + {m}, src.body, Begun(run, m, up.st));
    hide RunBody, Ok, Keeps, Breaks;
  }

  /** What is cached is given back, and nothing done for it; a name that is neither cached nor in a
      file is the only one that is not found; any other is found, or something raised. */
  lemma ResolveExactly(fs: Files, run: set<Name>, m: Name, st: State)
    requires Ok(fs, run, st)
    ensures var r := Resolve(fs, run, m, st);
      && (m in st.cache ==> r == Res(Found(st.cache[m]), st))
      && (r.out.Missing? <==> m !in st.cache && m !in fs.inits && m !in fs.plains)
  {
  }

  /** A dotted import gives the top package, and has then cached the name it was asked for; with that
      cached and the top package gone, it raises. */
  lemma ChainExactly(fs: Files, run: set<Name>, m: Name, st: State)
    requires Ok(fs, run, st)
    ensures var r := Chain(fs, run, m, st);
      && (r.out.Found? ==> m in r.st.cache && [m[0]] in r.st.cache && r.out.mod == r.st.cache[[m[0]]])
      && (r.out.Missing? <==> m !in st.cache && m !in fs.inits && m !in fs.plains)
      && (m in st.cache ==> r.st == st && (r.out.Found? <==> [m[0]] in st.cache))
  {
    ResolveExactly(fs, run, m, st);
    assert m[..1] == [m[0]];
    hide Resolve, Ok, Keeps;
  }

  predicate Imports(acts: Body, n: Name) { exists i :: 0 <= i < |acts| && acts[i] == Import(n) }

  /** What a loaded module imports without swallowing is cached, or was and has been rolled back. */
  ghost predicate Has(fs: Files, run: set<Name>, st: State) {
    forall k, n :: k in st.cache && k !in run && k in Universe(fs) && Imports(BodyOf(fs, k), n) ==>
      n in st.cache || n in st.undone
  }

  lemma {:induction false} HasResolve(fs: Files, run: set<Name>, m: Name, st: State)
    requires Ok(fs, run, st) && Has(fs, run, st)
    ensures Has(fs, run, Resolve(fs, run, m, st).st)
    decreases Universe(fs) - run, 0, |m|, 0
  {
    hide Has, Keeps;
    var src := Lookup(fs, m);
    if m !in st.cache && src.Some? {
      if |m| > 1 { KnownParent(fs, m); HasPackage(fs, run, Parent(m), st); }
      var up := if |m| > 1 then Package(fs, run, Parent(m), st) else Res(Missing, st);
      if !up.out.Raised? && m !in up.st.cache { HasLoad(fs, run, m, src.value, up); }
    }
  }

  lemma {:induction false} HasLoad(fs: Files, run: set<Name>, m: Name, src: Source, up: Res)
    requires Ok(fs, run, up.st) && m !in up.st.cache && Lookup(fs, m) == Some(src)
    requires |m| > 1 ==> up.out.Found? && Parent(m) in up.st.cache && up.st.cache[Parent(m)] == up.out.mod
    requires Has(fs, run, up.st)
    ensures Has(fs, run, Load(fs, run, m, src, up).st)
    decreases Universe(fs) - run, 0, 0
  {
    hide Keeps, RunBody;
    var st := Begun(run, m, up.st);
    BegunOk(fs, run, m, up.st);
    HasBegun(fs, run, m, up.st);
    HasBody(fs, run + {m}, src.body, st);
    var body := RunBody(fs, run + {m}, src.body, st);
    assert src.body == BodyOf(fs, m);
    hide Ok, Has;
    if body.ok {
      BodyHasImports(fs, run + {m}, src.body, st);
      HasEnded(fs, run, m, body.st, Load(fs, run, m, src, up).st);
    } else {
      HasUndone(fs, run, m, body.st, src.package);
    }
  }

  lemma HasBegun(fs: Files, run: set<Name>, m: Name, st: State)
    requires Has(fs, run, st)
    ensures Has(fs, run + {m}, Begun(run, m, st))
  {
    hide Imports, BodyOf;
  }

  lemma HasEnded(fs: Files, run: set<Name>, m: Name, st: State, end: State)
    requires Has(fs, run + {m}, st) && m in Universe(fs) && end.cache == st.cache && end.undone == st.undone
    requires forall i :: 0 <= i < |BodyOf(fs, m)| ==>
      BodyOf(fs, m)[i].Import? ==> BodyOf(fs, m)[i].name in st.cache
    ensures Has(fs, run, end)
  {
    forall k, n | k in end.cache && k !in run && k in Universe(fs) && Imports(BodyOf(fs, k), n)
      ensures n in end.cache || n in end.undone
    {
      if k == m { var i :| 0 <= i < |BodyOf(fs, m)| && BodyOf(fs, m)[i] == Import(n); }
    }
  }

  lemma HasUndone(fs: Files, run: set<Name>, m: Name, st: State, package: bool)
    requires Has(fs, run + {m}, st)
    ensures Has(fs, run, Undone(st, m, package))
  {
    hide Imports, BodyOf;
    var b := Undone(st, m, package);
    assert m !in b.cache;
    forall n | n in st.cache ensures n in b.cache || n in b.undone {}
  }

  lemma {:induction false} HasPackage(fs: Files, run: set<Name>, p: Name, st: State)
    requires Ok(fs, run, st) && Known(fs, p) && Has(fs, run, st)
    ensures Has(fs, run, Package(fs, run, p, st).st)
    decreases Universe(fs) - run, 0, |p|, 1
  {
    hide Has, Keeps;
    if p !in st.cache {
      HasResolve(fs, run, p, st);
      if p !in Universe(fs) {
        if |p| > 1 { KnownParent(fs, p); HasPackage(fs, run, Parent(p), st); }
        var up := if |p| > 1 then Package(fs, run, Parent(p), st) else Res(Missing, st);
        if !up.out.Raised? { HasBare(fs, run, p, up); }
      }
    }
  }

  lemma HasBare(fs: Files, run: set<Name>, p: Name, up: Res)
    requires Has(fs, run, up.st) && p !in Universe(fs) && (|p| > 1 ==> up.out.Found?)
    ensures Has(fs, run, Bare(p, up).st)
  {
    hide Imports, BodyOf;
  }

  lemma {:induction false} HasBody(fs: Files, run: set<Name>, acts: Body, st: State)
    requires Ok(fs, run, st) && Has(fs, run, st)
    ensures Has(fs, run, RunBody(fs, run, acts, st).st)
    decreases Universe(fs) - run, 1, acts
  {
    hide Has, Keeps;
    if acts != [] && !acts[0].Fail? {
      HasResolve(fs, run, acts[0].name, st);
      var r0 := Chain(fs, run, acts[0].name, st);
      assert r0.st == Resolve(fs, run, acts[0].name, st).st;
      hide Chain;
      if acts[0].TryImport? || r0.out.Found? { HasBody(fs, run, acts[1..], r0.st); }
    }
  }

  // ----- where nothing is swallowed -----

  ghost predicate NoSwallow(fs: Files) {
    forall k :: k in Universe(fs) ==> Steadfast(BodyOf(fs, k))
  }

  predicate Steadfast(acts: Body) { forall i :: 0 <= i < |acts| ==> !acts[i].TryImport? }

  lemma {:induction false} NothingUndone(fs: Files, run: set<Name>, m: Name, st: State)
    requires Ok(fs, run, st) && NoSwallow(fs)
    ensures var r := Resolve(fs, run, m, st); !r.out.Raised? ==> r.st.undone == st.undone
    decreases Universe(fs) - run, 0, |m|, 0
  {
    hide Keeps;
    var src := Lookup(fs, m);
    if m !in st.cache && src.Some? {
      if |m| > 1 { KnownParent(fs, m); NothingUndoneAbove(fs, run, Parent(m), st); }
      var up := if |m| > 1 then Package(fs, run, Parent(m), st) else Res(Missing, st);
      if !up.out.Raised? && m !in up.st.cache {
        BegunOk(fs, run, m, up.st);
        assert src.value.body == BodyOf(fs, m);
        NothingUndoneBody(fs, run + {m}, src.value.body, Begun(run, m, up.st));
        LoadCase(fs, run, m, st, up);
        hide Resolve, RunBody, Ok;
      }
    }
  }

  lemma {:induction false} NothingUndoneAbove(fs: Files, run: set<Name>, p: Name, st: State)
    requires Ok(fs, run, st) && Known(fs, p) && NoSwallow(fs)
    ensures var r := Package(fs, run, p, st); !r.out.Raised? ==> r.st.undone == st.undone
    decreases Universe(fs) - run, 0, |p|, 1
  {
    hide Keeps;
    if p !in st.cache {
      NothingUndone(fs, run, p, st);
      if p !in Universe(fs) && |p| > 1 { KnownParent(fs, p); NothingUndoneAbove(fs, run, Parent(p), st); }
      hide Resolve;
    }
  }

  lemma {:induction false} NothingUndoneBody(fs: Files, run: set<Name>, acts: Body, st: State)
    requires Ok(fs, run, st) && NoSwallow(fs) && Steadfast(acts)
    ensures var r := RunBody(fs, run, acts, st); r.ok ==> r.st.undone == st.undone
    decreases Universe(fs) - run, 1, acts
  {
    hide Keeps;
    if acts != [] && acts[0].Import? {
      NothingUndone(fs, run, acts[0].name, st);
      var r0 := Chain(fs, run, acts[0].name, st);
      hide Resolve;
      if r0.out.Found? { NothingUndoneBody(fs, run, acts[1..], r0.st); }
    }
  }

  /** After any import, from any cache this holds of: what a cached module imports without swallowing
      is cached, or was rolled back. And where no body swallows a failure, an import that is found
      rolls nothing back: from a fresh cache, every cached module has all that it imports. */
  lemma FoundHasImports(fs: Files, m: Name)
    requires Ok(fs, {}, EMPTY)
    ensures var r := Resolve(fs, {}, m, EMPTY);
      && Has(fs, {}, r.st)
      && (NoSwallow(fs) && r.out.Found? ==>
            forall k, n :: k in r.st.cache && k in Universe(fs) && Imports(BodyOf(fs, k), n) ==> n in r.st.cache)
  {
    HasResolve(fs, {}, m, EMPTY);
    if NoSwallow(fs) { NothingUndone(fs, {}, m, EMPTY); }
    hide Resolve, NoSwallow;
  }

  // ----- a module that has lost what it imports -----

  /** `t` swallows the failure of `x`, which imports `b` and raises; and `b` imports `x`. */
  predicate Circle(fs: Files, t: Name, x: Name, b: Name) {
    && |t| == 1 && |x| == 1 && |b| == 1 && t != x && x != b && t != b && fs.inits == map[]
    && t in fs.plains && fs.plains[t] == [TryImport(x)]
    && x in fs.plains && fs.plains[x] == [Import(b), Fail]
    && b in fs.plains && fs.plains[b] == [Import(x)]
  }

  function One(t: Name): State { Begun({}, t, EMPTY) }

  function Two(t: Name, x: Name): State { Begun({t}, x, One(t)) }

  function Three(t: Name, x: Name, b: Name): State { Begun({t, x}, b, Two(t, x)) }

  lemma StageOne(fs: Files, t: Name, x: Name, b: Name)
    requires Circle(fs, t, x, b)
    ensures Ok(fs, {}, EMPTY) && Ok(fs, {t}, One(t)) && One(t).cache == map[t := 0] && One(t).next == 1
  {
    BegunOk(fs, {}, t, EMPTY);
    assert {} + {t} == {t};
  }

  lemma StageTwo(fs: Files, t: Name, x: Name, b: Name)
    requires Circle(fs, t, x, b)
    ensures Ok(fs, {t, x}, Two(t, x)) && Two(t, x).cache == map[t := 0, x := 1] && Two(t, x).next == 2
  {
    StageOne(fs, t, x, b);
    hide Ok, One;
    BegunOk(fs, {t}, x, One(t));
    assert {t} + {x} == {t, x};
  }

  lemma StageThree(fs: Files, t: Name, x: Name, b: Name)
    requires Circle(fs, t, x, b)
    ensures Ok(fs, {t, x, b}, Three(t, x, b)) && Ok(fs, {t, x}, Three(t, x, b))
    ensures Three(t, x, b).cache == map[t := 0, x := 1, b := 2]
  {
    StageTwo(fs, t, x, b);
    hide Two;
    BegunOk(fs, {t, x}, b, Two(t, x));
    assert {t, x} + {b} == {t, x, b};
  }

  /** `b` loads: it finds `x` in the cache, still running. */
  lemma BLoads(fs: Files, t: Name, x: Name, b: Name)
    requires Circle(fs, t, x, b) && Ok(fs, {t, x}, Two(t, x))
    ensures Chain(fs, {t, x}, b, Two(t, x)) == Res(Found(2), Three(t, x, b))
  {
    StageTwo(fs, t, x, b);
    StageThree(fs, t, x, b);
    var two, three, run := Two(t, x), Three(t, x, b), {t, x, b};
    assert three == Begun({t, x}, b, two);
    hide Ok, Keeps, Two, Three;
    assert x[..1] == x && b[..1] == b;
    assert Resolve(fs, run, x, three) == Res(Found(1), three);
    assert Chain(fs, run, x, three) == Res(Found(1), three);
    var acts := [Import(x)];
    assert acts[1..] == [] && RunBody(fs, run, [], three) == Ran(true, three);
    assert RunBody(fs, run, acts, three) == Ran(true, three);
    assert {t, x} + {b} == run;
    LoadCase(fs, {t, x}, b, two, Res(Missing, two));
    assert Load(fs, {t, x}, b, Source(false, acts), Res(Missing, two)) == Res(Found(2), three);
  }

  /** `x` fails after that, and is taken out. */
  lemma XFails(fs: Files, t: Name, x: Name, b: Name)
    requires Circle(fs, t, x, b) && Ok(fs, {t}, One(t))
    ensures Resolve(fs, {t}, x, One(t)) == Res(Raised, Undone(Three(t, x, b), x, false))
  {
    StageOne(fs, t, x, b);
    StageTwo(fs, t, x, b);
    StageThree(fs, t, x, b);
    BLoads(fs, t, x, b);
    BodyBreaks(fs, {t, x}, b, Two(t, x), Three(t, x, b));
    assert Two(t, x) == Begun({t}, x, One(t));
    hide Ok, Keeps, Chain, Two, Three, Resolve, Load, RunBody;
    assert {t} + {x} == {t, x};
    LoadCase(fs, {t}, x, One(t), Res(Missing, One(t)));
    LoadFails(fs, {t}, x, Source(false, [Import(b), Fail]), Res(Missing, One(t)));
  }

  lemma BodyBreaks(fs: Files, run: set<Name>, b: Name, st: State, next: State)
    requires Ok(fs, run, st) && Ok(fs, run, next) && Chain(fs, run, b, st) == Res(Found(2), next)
    ensures RunBody(fs, run, [Import(b), Fail], st) == Ran(false, next)
  {
    hide Ok, Keeps, Chain;
    assert [Import(b), Fail][1..] == [Fail] && RunBody(fs, run, [Fail], next) == Ran(false, next);
  }

  lemma BodySwallows(fs: Files, run: set<Name>, x: Name, st: State, left: State)
    requires Ok(fs, run, st) && Resolve(fs, run, x, st) == Res(Raised, left)
    ensures RunBody(fs, run, [TryImport(x)], st) == Ran(true, left)
  {
    hide Ok, Keeps, Resolve;
    assert Chain(fs, run, x, st) == Res(Raised, left);
    assert [TryImport(x)][1..] == [] && RunBody(fs, run, [], left) == Ran(true, left);
  }

  /** The import of `t` succeeds, and leaves `b` importable without the `x` it imported. */
  lemma LosesImport(fs: Files, t: Name, x: Name, b: Name)
    requires Circle(fs, t, x, b)
    ensures Ok(fs, {}, EMPTY)
    ensures var r := Resolve(fs, {}, t, EMPTY);
      r.out.Found? && b in r.st.cache && Imports(BodyOf(fs, b), x) && x !in r.st.cache
  {
    StageOne(fs, t, x, b);
    StageThree(fs, t, x, b);
    XFails(fs, t, x, b);
    var one, left := One(t), Undone(Three(t, x, b), x, false);
    assert one == Begun({}, t, EMPTY);
    assert BodyOf(fs, b)[0] == Import(x);
    assert b in left.cache && x !in left.cache;
    hide Keeps, One, Three, Undone, Resolve, RunBody;
    BodySwallows(fs, {t}, x, one, left);
    hide Ok;
    assert {} + {t} == {t};
    TLoads(fs, t, [TryImport(x)], left);
  }

  lemma TLoads(fs: Files, t: Name, acts: Body, left: State)
    requires Ok(fs, {}, EMPTY) && |t| == 1 && Lookup(fs, t) == Some(Source(false, acts))
    requires Ok(fs, {} + {t}, Begun({}, t, EMPTY))
    requires RunBody(fs, {} + {t}, acts, Begun({}, t, EMPTY)) == Ran(true, left)
    ensures Resolve(fs, {}, t, EMPTY) == Res(Found(0), left)
  {
    hide RunBody, Keeps, Ok;
    LoadCase(fs, {}, t, EMPTY, Res(Missing, EMPTY));
  }

  /** The files of the case. */
  lemma LosesImportHappens()
    ensures var t, x, b := ["t"], ["x"], ["b"];
      Circle(Files(map[], map[t := [TryImport(x)], x := [Import(b), Fail], b := [Import(x)]]), t, x, b)
  {
    assert ["t"][0] == "t" && ["x"][0] == "x" && ["b"][0] == "b" && "t" != "x" && "x" != "b" && "t" != "b";
  }
}
