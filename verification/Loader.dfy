/** The workspace module loader: a cache filled by imports that run code which imports.

    A module's body is what its source makes the loader do: imports that must succeed, imports
    whose failure it swallows, and raising. `run` is the set of modules whose bodies are
    running, one for each frame of the recursion. */
module Loader {
  import opened Options
  import opened Names

  datatype Action = Import(name: Name) | TryImport(name: Name) | Fail

  type Body = seq<Action>

  /** The files under the module root: `n/__init__.py` and `n.py`. */
  datatype Files = Files(inits: map<Name, Body>, plains: map<Name, Body>)

  datatype Source = Source(package: bool, body: Body)

  /** A package is found before a plain module. */
  function Lookup(fs: Files, m: Name): Option<Source> {
    if m in fs.inits then Some(Source(true, fs.inits[m]))
    else if m in fs.plains then Some(Source(false, fs.plains[m]))
    else None
  }

  function Universe(fs: Files): set<Name> { fs.inits.Keys + fs.plains.Keys }

  function Parent(m: Name): Name
    requires |m| > 1
  {
    m[..|m| - 1]
  }

  function Leaf(m: Name): string { m[|m| - 1] }

  /** `k` is below `p`: its dotted name starts with `p` and a dot. */
  predicate Below(p: Name, k: Name) { |p| < |k| && k[..|p|] == p }

  /** The start of a body: what was cached and what was running then. */
  datatype Start = Start(name: Name, cached: set<Name>, running: set<Name>)

  /** `attrs[(o, a)]` is the module bound as attribute `a` of module object `o`. Beside that we keep
      the starts, and the names that were ever taken out of the cache again. */
  datatype State = State(
    cache: map<Name, nat>, attrs: map<(nat, string), nat>, next: nat, starts: seq<Start>, undone: set<Name>)

  datatype Outcome = Found(mod: nat) | Missing | Raised

  datatype Res = Res(out: Outcome, st: State)

  datatype Ran = Ran(ok: bool, st: State)

  // ----- what holds between any two steps -----

  /** A plain module, one that is not a package too. */
  predicate IsPlain(fs: Files, p: Name) { p in fs.plains && p !in fs.inits }

  /** Every prefix of a cached name is cached, unless it is a plain module's. */
  ghost predicate Closed(fs: Files, cache: map<Name, nat>) {
    forall k, p: Name :: k in cache && Below(p, k) ==> p in cache || IsPlain(fs, p)
  }

  /** Only files, and directories files are in, are ever cached. */
  ghost predicate Known(fs: Files, k: Name) {
    k in Universe(fs) || exists u :: u in Universe(fs) && Below(k, u)
  }

  ghost predicate Ok(fs: Files, run: set<Name>, st: State) {
    && run <= st.cache.Keys
    && Closed(fs, st.cache)
    && (forall k :: k in st.cache ==> Known(fs, k))
    && (forall k :: k in st.cache ==> st.cache[k] < st.next)
    && (forall k, j :: k in st.cache && j in st.cache && st.cache[k] == st.cache[j] ==> k == j)
    && (forall i :: 0 <= i < |st.starts| ==>
          st.starts[i].name !in st.starts[i].cached && st.starts[i].name !in st.starts[i].running)
  }

  /** Whatever was importable still is, as the same module. */
  ghost predicate Keeps(a: State, b: State) {
    && a.next <= b.next
    && a.starts <= b.starts && a.undone <= b.undone
    && (forall k :: k in a.cache ==> k in b.cache && b.cache[k] == a.cache[k])
    && (forall k :: k in b.cache && k !in a.cache ==> a.next <= b.cache[k])
  }

  // ----- the loader -----

  function Rollback(cache: map<Name, nat>, m: Name, package: bool): map<Name, nat> {
    cache - (set k | k in cache && (k == m || (package && Below(m, k))))
  }

  function Resolve(fs: Files, run: set<Name>, m: Name, st: State): (r: Res)
    requires Ok(fs, run, st)
    ensures Ok(fs, run, r.st) && Keeps(st, r.st)
    ensures r.out.Found? ==> m in r.st.cache && r.st.cache[m] == r.out.mod
    ensures r.out.Missing? ==> m !in Universe(fs) && r.st == st
    decreases Universe(fs) - run, 0, |m|, 0
  {
    if m in st.cache then Res(Found(st.cache[m]), st) else
    var src := Lookup(fs, m);
    if src.None? then Res(Missing, st) else
    var up := if |m| > 1 then Package(fs, run, Parent(m), st) else Res(Missing, st);
    if up.out.Raised? then up
    else if m in up.st.cache then Res(Found(up.st.cache[m]), up.st)
    else Load(fs, run, m, src.value, up)
  }

  /** Build the module, run its body, and bind it on its parent or roll it back. */
  function Load(fs: Files, run: set<Name>, m: Name, src: Source, up: Res): (r: Res)
    requires Ok(fs, run, up.st) && m !in up.st.cache && Lookup(fs, m) == Some(src)
    requires |m| > 1 ==> up.out.Found? && Parent(m) in up.st.cache && up.st.cache[Parent(m)] == up.out.mod
    ensures Ok(fs, run, r.st) && Keeps(up.st, r.st) && !r.out.Missing?
    ensures r.out.Found? ==> m in r.st.cache && r.st.cache[m] == r.out.mod
    ensures r.out.Raised? ==> m !in r.st.cache
    ensures r.out.Raised? && src.package ==> forall k :: k in r.st.cache ==> !Below(m, k)
    decreases Universe(fs) - run, 0, 0
  {
    var mod := up.st.next;
    var st := Begun(run, m, up.st);
    BegunOk(fs, run, m, up.st);
    var body := RunBody(fs, run + {m}, src.body, st);
    if body.ok then
      var end := if |m| > 1 then body.st.(attrs := body.st.attrs[(up.out.mod, Leaf(m)) := mod]) else body.st;
      Res(Found(mod), end)
    else
      RollbackOk(fs, run, m, up.st, body.st);
      Res(Raised, Undone(body.st, m, src.package))
  }

  /** The roll-back of a failed module. */
  function Undone(st: State, m: Name, package: bool): State {
    var cache := Rollback(st.cache, m, package);
    st.(cache := cache, undone := st.undone + (st.cache.Keys - cache.Keys))
  }

  function Begun(run: set<Name>, m: Name, st: State): State {
    st.(cache := st.cache[m := st.next], next := st.next + 1,
        starts := st.starts + [Start(m, st.cache.Keys, run)])
  }

  /** The parent that a dotted name needs: one already cached, one with a file, or a bare object. */
  function Package(fs: Files, run: set<Name>, p: Name, st: State): (r: Res)
    requires Ok(fs, run, st) && Known(fs, p)
    ensures Ok(fs, run, r.st) && Keeps(st, r.st) && !r.out.Missing?
    ensures r.out.Found? ==> p in r.st.cache && r.st.cache[p] == r.out.mod
    decreases Universe(fs) - run, 0, |p|, 1
  {
    if p in st.cache then Res(Found(st.cache[p]), st) else
    var r0 := Resolve(fs, run, p, st);
    if !r0.out.Missing? then r0 else
    var up := if |p| > 1 then Package(fs, run, Parent(p), st) else Res(Missing, st);
    if up.out.Raised? then up else
    BareOk(fs, run, p, up);
    Bare(p, up)
  }

  /** A package object with no file behind it, bound on its parent. */
  function Bare(p: Name, up: Res): Res
    requires |p| > 1 ==> up.out.Found?
  {
    var st := up.st.(cache := up.st.cache[p := up.st.next], next := up.st.next + 1);
    Res(Found(up.st.next),
        if |p| > 1 then st.(attrs := st.attrs[(up.out.mod, Leaf(p)) := up.st.next]) else st)
  }

  /** A body's imports, in order, until one fails that the body does not swallow. */
  function RunBody(fs: Files, run: set<Name>, acts: Body, st: State): (r: Ran)
    requires Ok(fs, run, st)
    ensures Ok(fs, run, r.st) && Keeps(st, r.st)
    decreases Universe(fs) - run, 1, acts
  {
    if acts == [] then Ran(true, st) else
    match acts[0]
    case Fail => Ran(false, st)
    case Import(n) =>
      var r0 := Chain(fs, run, n, st);
      if r0.out.Found? then RunBody(fs, run, acts[1..], r0.st) else Ran(false, r0.st)
    case TryImport(n) => RunBody(fs, run, acts[1..], Chain(fs, run, n, st).st)
  }

  /** `import a.b.c`: the top package. A cached module whose top package is gone raises. */
  function Chain(fs: Files, run: set<Name>, m: Name, st: State): (r: Res)
    requires Ok(fs, run, st)
    ensures Ok(fs, run, r.st) && Keeps(st, r.st)
    decreases Universe(fs) - run, 0, |m|, 2
  {
    var r0 := Resolve(fs, run, m, st);
    if !r0.out.Found? then r0
    else if m[..1] in r0.st.cache then Res(Found(r0.st.cache[m[..1]]), r0.st)
    else Res(Raised, r0.st)
  }

  // ----- why the cache stays well formed -----

  lemma BegunOk(fs: Files, run: set<Name>, m: Name, st: State)
    requires Ok(fs, run, st) && m !in st.cache && m in Universe(fs)
    requires |m| > 1 ==> Parent(m) in st.cache
    ensures Ok(fs, run + {m}, Begun(run, m, st)) && Keeps(st, Begun(run, m, st))
  {
    var b := Begun(run, m, st);
    forall k, p: Name | k in b.cache && Below(p, k) ensures p in b.cache || IsPlain(fs, p) {
      if k == m { PrefixOfParent(m, p); }
    }
  }

  /** A proper prefix of a name is its parent, or a prefix of that. */
  lemma PrefixOfParent(m: Name, p: Name)
    requires Below(p, m)
    ensures |m| > 1 && (p == Parent(m) || Below(p, Parent(m)))
  {
    assert m[..|m| - 1][..|p|] == m[..|p|];
  }

  lemma BareOk(fs: Files, run: set<Name>, p: Name, up: Res)
    requires Ok(fs, run, up.st) && Known(fs, p)
    requires |p| > 1 ==> up.out.Found? && Parent(p) in up.st.cache && up.st.cache[Parent(p)] == up.out.mod
    ensures Ok(fs, run, Bare(p, up).st)
  {
    var b := Bare(p, up).st;
    forall k, q: Name | k in b.cache && Below(q, k) ensures q in b.cache || IsPlain(fs, q) {
      if k == p { PrefixOfParent(p, q); }
    }
  }

  /** Taking a failed module out takes out nothing that was there before it started. */
  lemma RollbackOk(fs: Files, run: set<Name>, m: Name, before: State, st: State)
    requires Ok(fs, run, before) && m !in before.cache && m in Universe(fs)
    requires Ok(fs, run + {m}, st) && Keeps(Begun(run, m, before), st)
    ensures var b := Undone(st, m, m in fs.inits);
      Ok(fs, run, b) && Keeps(before, b)
  {
    var b := Undone(st, m, m in fs.inits);
    RollbackKeeps(fs, run, m, before, st);
    RollbackClosed(fs, st.cache, m);
    forall k | k in run ensures k in b.cache { assert k in before.cache; }
  }

  lemma RollbackKeeps(fs: Files, run: set<Name>, m: Name, before: State, st: State)
    requires Closed(fs, before.cache) && m !in before.cache
    requires Keeps(Begun(run, m, before), st)
    ensures Keeps(before, Undone(st, m, m in fs.inits))
  {
    var c := Rollback(st.cache, m, m in fs.inits);
    forall k | k in before.cache ensures k in c && c[k] == before.cache[k] {
      assert k in Begun(run, m, before).cache;
      assert !(m in fs.inits && Below(m, k));
    }
    forall k | k in c && k !in before.cache ensures before.next <= c[k] {
      assert k !in Begun(run, m, before).cache;
    }
  }

  lemma RollbackClosed(fs: Files, cache: map<Name, nat>, m: Name)
    requires Closed(fs, cache) && m in Universe(fs)
    ensures Closed(fs, Rollback(cache, m, m in fs.inits))
  {
    var c := Rollback(cache, m, m in fs.inits);
    forall k, p: Name | k in c && Below(p, k) ensures p in c || IsPlain(fs, p) {
      assert p in cache || IsPlain(fs, p);
      if p == m {
        assert m in fs.plains;
      } else if m in fs.inits && Below(m, p) {
        BelowChain(m, p, k);
      }
    }
  }

  lemma AboveParent(p: Name, m: Name)
    requires |m| > 1
    ensures p == Parent(m) || Below(p, Parent(m)) ==> Below(p, m)
  {
    assert Below(Parent(m), m);
    if Below(p, Parent(m)) { BelowChain(p, Parent(m), m); }
  }

  lemma BelowChain(a: Name, b: Name, c: Name)
    requires Below(a, b) && Below(b, c)
    ensures Below(a, c)
  {
    assert c[..|a|] == c[..|b|][..|a|];
  }

  // ----- parents -----

  /** No plain `x.py` stands beside a directory `x` that holds modules. */
  ghost predicate NoShadow(fs: Files) {
    forall p, u :: IsPlain(fs, p) && u in Universe(fs) ==> !Below(p, u)
  }

  ghost predicate ParentClosed(cache: map<Name, nat>) {
    forall k :: k in cache && |k| > 1 ==> Parent(k) in cache
  }

  lemma ParentsCached(fs: Files, run: set<Name>, st: State)
    requires Ok(fs, run, st) && NoShadow(fs)
    ensures ParentClosed(st.cache)
    ensures forall k, p: Name :: k in st.cache && Below(p, k) ==> p in st.cache
  {
    forall k, p: Name | k in st.cache && Below(p, k) ensures p in st.cache {
      assert Known(fs, k);
      if k !in Universe(fs) {
        var u :| u in Universe(fs) && Below(k, u);
        BelowChain(p, k, u);
      }
    }
    forall k | k in st.cache && |k| > 1 ensures Parent(k) in st.cache { assert Below(Parent(k), k); }
  }

  /** An import that raises leaves neither the module nor anything below it. */
  lemma {:induction false} FailedLeavesNothing(fs: Files, run: set<Name>, m: Name, st: State)
    requires Ok(fs, run, st) && NoShadow(fs) && Resolve(fs, run, m, st).out.Raised?
    ensures m in Universe(fs)
    ensures forall k :: k in Resolve(fs, run, m, st).st.cache ==> k != m && !Below(m, k)
    decreases |m|, 0
  {
    var r := Resolve(fs, run, m, st);
    ParentsCached(fs, run, r.st);
    if |m| > 1 {
      KnownParent(fs, m);
      if Package(fs, run, Parent(m), st).out.Raised? { FailedPackage(fs, run, Parent(m), st); }
    }
    hide Package, Load, Ok, Keeps;
    assert m !in r.st.cache;
  }

  lemma {:induction false} FailedPackage(fs: Files, run: set<Name>, p: Name, st: State)
    requires Ok(fs, run, st) && Known(fs, p) && NoShadow(fs) && Package(fs, run, p, st).out.Raised?
    ensures forall k :: k in Package(fs, run, p, st).st.cache ==> k != p && !Below(p, k)
    decreases |p|, 1
  {
    var r := Package(fs, run, p, st);
    if Resolve(fs, run, p, st).out.Raised? {
      FailedLeavesNothing(fs, run, p, st);
    } else {
      FailedPackage(fs, run, Parent(p), st);
      assert Below(Parent(p), p);
      ParentsCached(fs, run, r.st);
    }
  }

  // ----- binding on the parent -----

  /** `k` is the object bound under its leaf name on its cached parent. */
  ghost predicate Attached(st: State, k: Name)
    requires |k| > 1 && k in st.cache
  {
    && Parent(k) in st.cache
    && (st.cache[Parent(k)], Leaf(k)) in st.attrs
    && st.attrs[(st.cache[Parent(k)], Leaf(k))] == st.cache[k]
  }

  /** Every cached dotted module that is not still running is attached. */
  ghost predicate Bound(run: set<Name>, st: State) {
    forall k :: k in st.cache && |k| > 1 && k !in run ==> Attached(st, k)
  }

  /** A directory without `__init__.py` is in no directory with one. */
  ghost predicate Layered(fs: Files) {
    && NoShadow(fs)
    && forall p: Name, q: Name :: Known(fs, p) && p !in Universe(fs) && Below(q, p) ==> q !in Universe(fs)
  }

  lemma KnownParent(fs: Files, m: Name)
    requires Known(fs, m) && |m| > 1
    ensures Known(fs, Parent(m)) && Below(Parent(m), m)
  {
    assert Below(Parent(m), m);
    if m !in Universe(fs) {
      var u :| u in Universe(fs) && Below(m, u);
      BelowChain(Parent(m), m, u);
    }
  }

  /** A package without a file is a bare object on its parent's. */
  lemma PackageBare(fs: Files, run: set<Name>, p: Name, st: State, up: Res)
    requires Ok(fs, run, st) && Known(fs, p) && p !in st.cache && p !in Universe(fs)
    requires |p| > 1 ==> Known(fs, Parent(p))
    requires up == if |p| > 1 then Package(fs, run, Parent(p), st) else Res(Missing, st)
    requires !up.out.Raised?
    ensures (|p| > 1 ==> up.out.Found?) && Package(fs, run, p, st) == Bare(p, up) && Bare(p, up).out.Found?
  {
    assert Resolve(fs, run, p, st) == Res(Missing, st);
    hide Resolve, Keeps, Ok;
  }

  /** The package of a file is what resolving it gives. */
  lemma PackageIs(fs: Files, run: set<Name>, p: Name, st: State)
    requires Ok(fs, run, st) && Known(fs, p) && p !in st.cache && p in Universe(fs)
    ensures Package(fs, run, p, st) == Resolve(fs, run, p, st)
  {
    hide Resolve, Keeps, Ok;
  }

  lemma BareKeys(p: Name, up: Res, before: set<Name>, k: Name)
    requires |p| > 1 ==> up.out.Found?
    requires forall j :: j in up.st.cache && j !in before ==> |p| > 1 && (j == Parent(p) || Below(j, Parent(p)))
    requires k in Bare(p, up).st.cache && k !in before
    ensures k == p || Below(k, p)
  {
    if k != p { AboveParent(k, p); }
  }

  /** Going through bare packages only makes bare packages: no body runs. */
  lemma {:induction false} BareAdds(fs: Files, run: set<Name>, p: Name, st: State)
    requires Ok(fs, run, st) && Known(fs, p) && p !in Universe(fs)
    requires forall q :: Below(q, p) ==> q !in Universe(fs)
    ensures var r := Package(fs, run, p, st);
      && r.out.Found?
      && forall k :: k in r.st.cache && k !in st.cache ==> k == p || Below(k, p)
    decreases |p|
  {
    if p !in st.cache {
      if |p| > 1 {
        KnownParent(fs, p);
        forall q | Below(q, Parent(p)) ensures q !in Universe(fs) { BelowChain(q, Parent(p), p); }
        BareAdds(fs, run, Parent(p), st);
      }
      var up := if |p| > 1 then Package(fs, run, Parent(p), st) else Res(Missing, st);
      PackageBare(fs, run, p, st, up);
      hide Package, Bare, Ok, Keeps;
      forall k | k in Bare(p, up).st.cache && k !in st.cache ensures k == p || Below(k, p) {
        BareKeys(p, up, st.cache.Keys, k);
      }
    }
  }

  lemma {:induction false} BoundResolve(fs: Files, run: set<Name>, m: Name, st: State)
    requires Ok(fs, run, st) && Layered(fs) && Bound(run, st)
    ensures Bound(run, Resolve(fs, run, m, st).st)
    decreases Universe(fs) - run, 0, |m|, 0
  {
    var src := Lookup(fs, m);
    if m !in st.cache && src.Some? {
      if |m| > 1 { KnownParent(fs, m); BoundPackage(fs, run, Parent(m), st); }
      var up := if |m| > 1 then Package(fs, run, Parent(m), st) else Res(Missing, st);
      if !up.out.Raised? && m !in up.st.cache { BoundLoad(fs, run, m, src.value, up); }
    }
  }

  lemma {:induction false} BoundLoad(fs: Files, run: set<Name>, m: Name, src: Source, up: Res)
    requires Ok(fs, run, up.st) && m !in up.st.cache && Lookup(fs, m) == Some(src)
    requires |m| > 1 ==> up.out.Found? && Parent(m) in up.st.cache && up.st.cache[Parent(m)] == up.out.mod
    requires Layered(fs) && Bound(run, up.st)
    ensures Bound(run, Load(fs, run, m, src, up).st)
    decreases Universe(fs) - run, 0, 0
  {
    var st := Begun(run, m, up.st);
    BegunOk(fs, run, m, up.st);
    BoundBegun(fs, run, m, up.st);
    BoundBody(fs, run + {m}, src.body, st);
    var body := RunBody(fs, run + {m}, src.body, st);
    if body.ok {
      BoundAttach(fs, run, m, up, body.st);
    } else {
      BoundRollback(fs, run, m, body.st);
    }
  }

  lemma BoundBegun(fs: Files, run: set<Name>, m: Name, st: State)
    requires Ok(fs, run, st) && m !in st.cache && Bound(run, st)
    ensures Bound(run + {m}, Begun(run, m, st))
  {
    var b := Begun(run, m, st);
    forall k | k in b.cache && |k| > 1 && k !in run + {m} ensures Attached(b, k) {
      assert Attached(st, k);
    }
  }

  /** Only one name has a given place on a given object. */
  lemma OneSlot(fs: Files, run: set<Name>, st: State, k: Name, m: Name)
    requires Ok(fs, run, st) && |k| > 1 && |m| > 1 && Parent(k) in st.cache && Parent(m) in st.cache
    requires st.cache[Parent(k)] == st.cache[Parent(m)] && Leaf(k) == Leaf(m)
    ensures k == m
  {
    assert Parent(k) == Parent(m);
    assert k == Parent(k) + [Leaf(k)] && m == Parent(m) + [Leaf(m)];
  }

  /** Binding one module on its parent leaves the others bound: no two modules share an object. */
  lemma BoundAttach(fs: Files, run: set<Name>, m: Name, up: Res, st: State)
    requires Ok(fs, run + {m}, st) && Bound(run + {m}, st) && m in st.cache
    requires Keeps(Begun(run, m, up.st), st) && m !in up.st.cache
    requires |m| > 1 ==> up.out.Found? && Parent(m) in up.st.cache && up.st.cache[Parent(m)] == up.out.mod
    ensures Bound(run, if |m| > 1 then st.(attrs := st.attrs[(up.out.mod, Leaf(m)) := st.cache[m]]) else st)
  {
    if |m| > 1 {
      var e := st.(attrs := st.attrs[(up.out.mod, Leaf(m)) := st.cache[m]]);
      assert Parent(m) in Begun(run, m, up.st).cache;
      forall k | k in e.cache && |k| > 1 && k !in run ensures Attached(e, k) {
        if k != m {
          assert Attached(st, k);
          if st.cache[Parent(k)] == up.out.mod && Leaf(k) == Leaf(m) { OneSlot(fs, run + {m}, st, k, m); }
        }
      }
    }
  }

  lemma BoundRollback(fs: Files, run: set<Name>, m: Name, st: State)
    requires Ok(fs, run + {m}, st) && Bound(run + {m}, st) && Layered(fs) && m in Universe(fs)
    ensures Bound(run, Undone(st, m, m in fs.inits))
  {
    var b := Undone(st, m, m in fs.inits);
    forall k | k in b.cache && |k| > 1 && k !in run ensures Attached(b, k) {
      assert Attached(st, k);
      assert Below(Parent(k), k);
      if Parent(k) == m {
        NothingBelowPlain(fs, m, k);
      } else if m in fs.inits && Below(m, Parent(k)) {
        BelowChain(m, Parent(k), k);
      }
    }
  }

  lemma NothingBelowPlain(fs: Files, m: Name, k: Name)
    requires NoShadow(fs) && m in Universe(fs) && Known(fs, k) && Below(m, k)
    ensures m in fs.inits
  {
    if k !in Universe(fs) {
      var u :| u in Universe(fs) && Below(k, u);
      BelowChain(m, k, u);
    }
  }

  lemma {:induction false} BoundPackage(fs: Files, run: set<Name>, p: Name, st: State)
    requires Ok(fs, run, st) && Known(fs, p) && Layered(fs) && Bound(run, st)
    ensures Bound(run, Package(fs, run, p, st).st)
    decreases Universe(fs) - run, 0, |p|, 1
  {
    if p !in st.cache {
      BoundResolve(fs, run, p, st);
      if p !in Universe(fs) && |p| > 1 {
        KnownParent(fs, p);
        BoundPackage(fs, run, Parent(p), st);
        forall q | Below(q, Parent(p)) ensures q !in Universe(fs) { BelowChain(q, Parent(p), p); }
        BareAdds(fs, run, Parent(p), st);
        BoundBare(fs, run, p, Package(fs, run, Parent(p), st));
      } else if p !in Universe(fs) {
        BoundBare(fs, run, p, Res(Missing, st));
      }
    }
  }

  lemma BoundBare(fs: Files, run: set<Name>, p: Name, up: Res)
    requires Ok(fs, run, up.st) && Bound(run, up.st) && p !in up.st.cache
    requires |p| > 1 ==> up.out.Found? && Parent(p) in up.st.cache && up.st.cache[Parent(p)] == up.out.mod
    ensures Bound(run, Bare(p, up).st)
  {
    var b := Bare(p, up).st;
    forall k | k in b.cache && |k| > 1 && k !in run ensures Attached(b, k) {
      if k != p {
        assert Attached(up.st, k);
        if |p| > 1 && up.st.cache[Parent(k)] == up.out.mod && Leaf(k) == Leaf(p) {
          OneSlot(fs, run, up.st, k, p);
        }
      }
    }
  }

  lemma {:induction false} BoundBody(fs: Files, run: set<Name>, acts: Body, st: State)
    requires Ok(fs, run, st) && Layered(fs) && Bound(run, st)
    ensures Bound(run, RunBody(fs, run, acts, st).st)
    decreases Universe(fs) - run, 1, acts
  {
    if acts != [] && !acts[0].Fail? {
      BoundResolve(fs, run, acts[0].name, st);
      var r0 := Chain(fs, run, acts[0].name, st);
      if acts[0].TryImport? || r0.out.Found? { BoundBody(fs, run, acts[1..], r0.st); }
    }
  }

  /** The object attribute access `top.x.y...` comes to. */
  function Dotted(attrs: map<(nat, string), nat>, top: nat, path: seq<string>): Option<nat> {
    if path == [] then Some(top) else
    var o := Dotted(attrs, top, path[..|path| - 1]);
    if o.Some? && (o.value, path[|path| - 1]) in attrs then Some(attrs[(o.value, path[|path| - 1])]) else None
  }

  lemma {:induction false} DottedReaches(fs: Files, st: State, m: Name)
    requires Ok(fs, {}, st) && NoShadow(fs) && Bound({}, st) && m in st.cache
    ensures m[..1] in st.cache && Dotted(st.attrs, st.cache[m[..1]], m[1..]) == Some(st.cache[m])
    decreases |m|
  {
    if |m| == 1 {
      assert m[..1] == m && m[1..] == [];
    } else {
      assert Attached(st, m);
      DottedReaches(fs, st, Parent(m));
      assert Parent(m)[..1] == m[..1];
      assert m[1..][..|m[1..]| - 1] == Parent(m)[1..];
    }
  }

  /** When the outermost import returns, everything cached is bound on its parent; and an
      `import a.b.c` that succeeds returns the top package, from which a, b and c are
      reached by attributes. */
  lemma ImportBinds(fs: Files, m: Name, st: State)
    requires Ok(fs, {}, st) && Layered(fs) && Bound({}, st)
    ensures var r := Chain(fs, {}, m, st);
      && Bound({}, r.st) && ParentClosed(r.st.cache)
      && (m in st.cache ==> r.out.Found?)
      && (r.out.Found? ==> forall i :: 1 <= i <= |m| ==>
            && m[..i] in r.st.cache
            && Dotted(r.st.attrs, r.out.mod, m[1..i]) == Some(r.st.cache[m[..i]]))
  {
    BoundResolve(fs, {}, m, st);
    var r := Chain(fs, {}, m, st);
    var r0 := Resolve(fs, {}, m, st);
    ParentsCached(fs, {}, r0.st);
    hide Resolve, Ok, Keeps;
    if r0.out.Found? {
      if |m| > 1 { assert Below(m[..1], m); } else { assert m[..1] == m; }
      EachPrefix(fs, r0.st, m);
    }
  }

  lemma TopCached(fs: Files, m: Name, st: State)
    requires Ok(fs, {}, st) && NoShadow(fs) && m in st.cache
    ensures m[..1] in st.cache
  {
    ParentsCached(fs, {}, st);
    if |m| > 1 { assert Below(m[..1], m); } else { assert m[..1] == m; }
  }

  lemma EachPrefix(fs: Files, st: State, m: Name)
    requires Ok(fs, {}, st) && NoShadow(fs) && Bound({}, st) && m in st.cache && m[..1] in st.cache
    ensures forall i :: 1 <= i <= |m| ==>
      m[..i] in st.cache && Dotted(st.attrs, st.cache[m[..1]], m[1..i]) == Some(st.cache[m[..i]])
  {
    ParentsCached(fs, {}, st);
    forall i | 1 <= i <= |m|
      ensures m[..i] in st.cache && Dotted(st.attrs, st.cache[m[..1]], m[1..i]) == Some(st.cache[m[..i]])
    {
      var k: Name := m[..i];
      if i < |m| { assert Below(k, m); } else { assert k == m; }
      DottedReaches(fs, st, k);
      assert k[..1] == m[..1] && k[1..] == m[1..i];
    }
  }

  // ----- where the two conditions on the files are needed -----

  const EMPTY: State := State(map[], map[], 0, [], {})

  /** Whatever the bodies do, an import from an empty cache leaves every parent cached. */
  ghost predicate AlwaysClosed(inits: set<Name>, plains: set<Name>) {
    forall fs: Files, m: Name :: fs.inits.Keys == inits && fs.plains.Keys == plains && Ok(fs, {}, EMPTY) ==>
      ParentClosed(Resolve(fs, {}, m, EMPTY).st.cache)
  }

  ghost predicate NoShadowIn(inits: set<Name>, plains: set<Name>) {
    forall p, u :: p in plains && p !in inits && u in inits + plains ==> !Below(p, u)
  }

  ghost function Quiet(names: set<Name>): (r: map<Name, Body>)
    ensures r.Keys == names
    ensures forall k :: k in names ==> r[k] == []
  {
    if names == {} then map[] else
    var k :| k in names;
    Quiet(names - {k})[k := []]
  }

  /** Nothing but `p` has anything in its body, as far as it is not loaded yet. */
  ghost predicate QuietBut(fs: Files, p: Name, cache: set<Name>) {
    forall k :: k in Universe(fs) && k != p && k !in cache ==> Lookup(fs, k).value.body == []
  }

  /** A module with nothing in its body loads, and only itself is added. */
  lemma QuietLoad(fs: Files, run: set<Name>, m: Name, src: Source, up: Res)
    requires Ok(fs, run, up.st) && m !in up.st.cache && Lookup(fs, m) == Some(src) && src.body == []
    requires |m| > 1 ==> up.out.Found? && Parent(m) in up.st.cache && up.st.cache[Parent(m)] == up.out.mod
    ensures var b := Begun(run, m, up.st);
      Load(fs, run, m, src, up) == Res(Found(up.st.next),
        if |m| > 1 then b.(attrs := b.attrs[(up.out.mod, Leaf(m)) := up.st.next]) else b)
  {
    BegunOk(fs, run, m, up.st);
    var st := Begun(run, m, up.st);
    assert RunBody(fs, run + {m}, [], st) == Ran(true, st);
  }

  /** So do the packages it goes through, and those are all that is added. */
  lemma {:induction false} QuietResolve(fs: Files, run: set<Name>, m: Name, st: State, p: Name)
    requires Ok(fs, run, st) && (m in Universe(fs) || m in st.cache) && QuietBut(fs, p, st.cache.Keys)
    requires m == p || Below(p, m) ==> p in st.cache
    ensures var r := Resolve(fs, run, m, st);
      r.out.Found? && forall k :: k in r.st.cache && k !in st.cache ==> k == m || Below(k, m)
    decreases |m|, 0
  {
    if m !in st.cache {
      if |m| > 1 {
        KnownParent(fs, m);
        AboveParent(p, m);
        QuietPackage(fs, run, Parent(m), st, p);
      }
      var up := if |m| > 1 then Package(fs, run, Parent(m), st) else Res(Missing, st);
      QuietStep(fs, run, m, st, up);
    }
  }

  /** The case of `Resolve` that builds the module. */
  lemma LoadCase(fs: Files, run: set<Name>, m: Name, st: State, up: Res)
    requires Ok(fs, run, st) && m !in st.cache && m in Universe(fs)
    requires |m| > 1 ==> Known(fs, Parent(m))
    requires up == if |m| > 1 then Package(fs, run, Parent(m), st) else Res(Missing, st)
    requires !up.out.Raised? && m !in up.st.cache
    ensures Resolve(fs, run, m, st) == Load(fs, run, m, Lookup(fs, m).value, up)
  {
    hide Package, Load, Keeps;
  }

  lemma LoadFails(fs: Files, run: set<Name>, m: Name, src: Source, up: Res)
    requires Ok(fs, run, up.st) && m !in up.st.cache && Lookup(fs, m) == Some(src)
    requires |m| > 1 ==> up.out.Found? && Parent(m) in up.st.cache && up.st.cache[Parent(m)] == up.out.mod
    requires Ok(fs, run + {m}, Begun(run, m, up.st)) && !RunBody(fs, run + {m}, src.body, Begun(run, m, up.st)).ok
    ensures var b := RunBody(fs, run + {m}, src.body, Begun(run, m, up.st));
      Load(fs, run, m, src, up) == Res(Raised, Undone(b.st, m, src.package))
  {
    hide RunBody, Keeps;
  }

  lemma QuietStep(fs: Files, run: set<Name>, m: Name, st: State, up: Res)
    requires Ok(fs, run, st) && m !in st.cache && m in Universe(fs) && Lookup(fs, m).value.body == []
    requires |m| > 1 ==> Known(fs, Parent(m))
    requires up == if |m| > 1 then Package(fs, run, Parent(m), st) else Res(Missing, st)
    requires |m| > 1 ==> up.out.Found? && Known(fs, Parent(m))
    requires forall k :: k in up.st.cache && k !in st.cache ==> |m| > 1 && (k == Parent(m) || Below(k, Parent(m)))
    ensures var r := Resolve(fs, run, m, st);
      r.out.Found? && forall k :: k in r.st.cache && k !in st.cache ==> k == m || Below(k, m)
  {
    var r := Resolve(fs, run, m, st);
    assert m !in up.st.cache;
    LoadCase(fs, run, m, st, up);
    QuietLoad(fs, run, m, Lookup(fs, m).value, up);
    hide Package, Load, Resolve, Ok, Keeps;
    forall k | k in r.st.cache && k !in st.cache ensures k == m || Below(k, m) {
      if k != m {
        assert k in up.st.cache && Below(Parent(m), m);
        if k != Parent(m) { BelowChain(k, Parent(m), m); }
      }
    }
  }

  lemma {:induction false} QuietPackage(fs: Files, run: set<Name>, q: Name, st: State, p: Name)
    requires Ok(fs, run, st) && Known(fs, q) && QuietBut(fs, p, st.cache.Keys)
    requires q == p || Below(p, q) ==> p in st.cache
    ensures var r := Package(fs, run, q, st);
      r.out.Found? && forall k :: k in r.st.cache && k !in st.cache ==> k == q || Below(k, q)
    decreases |q|, 1
  {
    hide Resolve, Bare, Keeps, QuietBut;
    if q !in st.cache {
      if q in Universe(fs) {
        QuietResolve(fs, run, q, st, p);
        PackageIs(fs, run, q, st);
      } else {
        if |q| > 1 {
          KnownParent(fs, q);
          AboveParent(p, q);
          QuietPackage(fs, run, Parent(q), st, p);
        }
        var up := if |q| > 1 then Package(fs, run, Parent(q), st) else Res(Missing, st);
        PackageBare(fs, run, q, st, up);
        hide Package, Ok;
        forall k | k in Bare(q, up).st.cache && k !in st.cache ensures k == q || Below(k, q) {
          BareKeys(q, up, st.cache.Keys, k);
        }
      }
    }
  }

  /** The orphan: a plain module that imports what is below it, and fails. */
  lemma Orphan(inits: set<Name>, plains: set<Name>, p: Name, u: Name)
    requires p in plains && p !in inits && u in inits + plains && Below(p, u)
    ensures !AlwaysClosed(inits, plains)
  {
    var fs := Files(Quiet(inits), Quiet(plains)[p := [TryImport(u), Fail]]);
    assert fs.inits.Keys == inits && fs.plains.Keys == plains && Ok(fs, {}, EMPTY);
    hide Quiet;
    OrphanLeft(fs, p, u);
    var r := Resolve(fs, {}, p, EMPTY);
    hide Resolve;
    if ParentClosed(r.st.cache) { ClimbTo(r.st.cache, p, u); }
  }

  lemma OrphanLeft(fs: Files, p: Name, u: Name)
    requires Ok(fs, {}, EMPTY) && IsPlain(fs, p) && fs.plains[p] == [TryImport(u), Fail]
    requires u in Universe(fs) && Below(p, u) && QuietBut(fs, p, {})
    ensures var r := Resolve(fs, {}, p, EMPTY); u in r.st.cache && p !in r.st.cache
  {
    var up := if |p| > 1 then (KnownParent(fs, p); Package(fs, {}, Parent(p), EMPTY)) else Res(Missing, EMPTY);
    if |p| > 1 { QuietPackage(fs, {}, Parent(p), EMPTY, p); }
    assert p !in up.st.cache && !up.out.Raised?;
    LoadCase(fs, {}, p, EMPTY, up);
    BegunOk(fs, {}, p, up.st);
    OrphanBody(fs, {} + {p}, p, u, Begun({}, p, up.st));
    hide Package, Resolve, RunBody, Ok, Keeps;
    LoadFails(fs, {}, p, Source(false, fs.plains[p]), up);
  }

  lemma OrphanBody(fs: Files, run: set<Name>, p: Name, u: Name, st: State)
    requires Ok(fs, run, st) && p in st.cache && u in Universe(fs) && Below(p, u) && QuietBut(fs, p, {})
    ensures var b := RunBody(fs, run, [TryImport(u), Fail], st); !b.ok && u in b.st.cache
  {
    QuietResolve(fs, run, u, st, p);
    var c := Chain(fs, run, u, st);
    assert u in c.st.cache;
    hide Chain, Resolve, Ok, Keeps;
    assert [TryImport(u), Fail][1..] == [Fail];
    assert RunBody(fs, run, [Fail], c.st) == Ran(false, c.st);
  }

  lemma {:induction false} ClimbTo(cache: map<Name, nat>, p: Name, u: Name)
    requires ParentClosed(cache) && u in cache && Below(p, u)
    ensures p in cache
    decreases |u|
  {
    PrefixOfParent(u, p);
    if p != Parent(u) { ClimbTo(cache, p, Parent(u)); }
  }

  /** The cache is closed under taking the parent, whatever the bodies do, exactly when no
      plain module stands beside a directory of modules. */
  lemma ClosedExactly(inits: set<Name>, plains: set<Name>)
    ensures AlwaysClosed(inits, plains) <==> NoShadowIn(inits, plains)
  {
    if NoShadowIn(inits, plains) {
      forall fs: Files, m: Name | fs.inits.Keys == inits && fs.plains.Keys == plains && Ok(fs, {}, EMPTY)
        ensures ParentClosed(Resolve(fs, {}, m, EMPTY).st.cache)
      {
        assert NoShadow(fs);
        ParentsCached(fs, {}, Resolve(fs, {}, m, EMPTY).st);
      }
    } else {
      var p, u :| p in plains && p !in inits && u in inits + plains && Below(p, u);
      Orphan(inits, plains, p, u);
    }
  }
}
