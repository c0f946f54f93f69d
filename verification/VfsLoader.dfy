/** The loader as the object it is: `_VFSLoader` with its cache, filled and rolled back by
    methods that call each other again from inside a running body. Every method does what the
    function of the same name in `Loader` says, where its properties are proved. */
module VfsLoader {
  import opened Options
  import opened Names
  import opened Loader

  class VfsLoader {
    const fs: Files
    var cache: map<Name, nat>
    var attrs: map<(nat, string), nat>
    var next: nat
    ghost var starts: seq<Start>
    ghost var undone: set<Name>

    ghost function View(): State
      reads this
    {
      State(cache, attrs, next, starts, undone)
    }

    constructor (fs: Files)
      ensures this.fs == fs && View() == EMPTY && Ok(fs, {}, View()) && Bound({}, View())
    {
      this.fs := fs;
      cache, attrs, next, starts, undone := map[], map[], 0, [], {};
    }

    method ResolveModule(m: Name, ghost run: set<Name>) returns (out: Outcome)
      requires Ok(fs, run, View())
      modifies this
      ensures Resolve(fs, run, m, old(View())) == Res(out, View())
      decreases Universe(fs) - run, 0, |m|, 0
    {
      if m in cache { return Found(cache[m]); }
      var src := Lookup(fs, m);
      if src.None? { return Missing; }
      var parent := Missing;
      if |m| > 1 {
        KnownParent(fs, m);
        parent := GetPackage(Parent(m), run);
        if parent.Raised? { return Raised; }
      }
      if m in cache { return Found(cache[m]); }
      out := Build(m, src.value, parent, run);
    }

    method Build(m: Name, src: Source, parent: Outcome, ghost run: set<Name>) returns (out: Outcome)
      requires Ok(fs, run, View()) && m !in cache && Lookup(fs, m) == Some(src)
      requires |m| > 1 ==> parent.Found? && Parent(m) in cache && cache[Parent(m)] == parent.mod
      modifies this
      ensures Load(fs, run, m, src, Res(parent, old(View()))) == Res(out, View())
      decreases Universe(fs) - run, 0, 0
    {
      ghost var before := View();
      BegunOk(fs, run, m, before);
      starts := starts + [Start(m, cache.Keys, run)];
      var mod := next;
      cache, next := cache[m := mod], next + 1;
      assert View() == Begun(run, m, before);
      var ok := ExecBody(src.body, run + {m});
      if ok {
        if |m| > 1 { attrs := attrs[(parent.mod, Leaf(m)) := mod]; }
        out := Found(mod);
      } else {
        ghost var whole := cache.Keys;
        Forget(m, src.package);
        undone := undone + (whole - cache.Keys);
        out := Raised;
      }
    }

    /** Undo a failed import: the module is no longer cached, nor, for a package, what is below. */
    method Forget(m: Name, package: bool)
      modifies `cache
      ensures cache == Rollback(old(cache), m, package)
    {
      ghost var whole := cache;
      cache := cache - {m};
      if package {
        var inside := set n | n in cache && Below(m, n);
        ghost var all := inside;
        while inside != {}
          invariant inside <= all
          invariant cache == whole - {m} - (all - inside)
          decreases inside
        {
          var n :| n in inside;
          cache := cache - {n};
          inside := inside - {n};
        }
      }
      assert cache.Keys == Rollback(whole, m, package).Keys;
    }

    method GetPackage(p: Name, ghost run: set<Name>) returns (out: Outcome)
      requires Ok(fs, run, View()) && Known(fs, p)
      modifies this
      ensures Package(fs, run, p, old(View())) == Res(out, View())
      decreases Universe(fs) - run, 0, |p|, 1
    {
      if p in cache { return Found(cache[p]); }
      hide Resolve, Keeps;
      out := ResolveModule(p, run);
      if !out.Missing? { return; }
      var grand := Missing;
      if |p| > 1 {
        KnownParent(fs, p);
        grand := GetPackage(Parent(p), run);
        if grand.Raised? { return Raised; }
      }
      var pkg := next;
      cache, next := cache[p := pkg], next + 1;
      if |p| > 1 { attrs := attrs[(grand.mod, Leaf(p)) := pkg]; }
      out := Found(pkg);
    }

    /** Run a body: its imports in order, until one fails that it does not swallow. */
    method ExecBody(acts: Body, ghost run: set<Name>) returns (ok: bool)
      requires Ok(fs, run, View())
      modifies this
      ensures RunBody(fs, run, acts, old(View())) == Ran(ok, View())
      decreases Universe(fs) - run, 1, acts
    {
      if acts == [] { return true; }
      match acts[0] {
        case Fail => ok := false;
        case Import(n) =>
          var out := EnsurePackageChain(n, run);
          if out.Found? { ok := ExecBody(acts[1..], run); } else { ok := false; }
        case TryImport(n) =>
          var _ := EnsurePackageChain(n, run);
          ok := ExecBody(acts[1..], run);
      }
    }

    method EnsurePackageChain(m: Name, ghost run: set<Name>) returns (out: Outcome)
      requires Ok(fs, run, View())
      modifies this
      ensures Chain(fs, run, m, old(View())) == Res(out, View())
      decreases Universe(fs) - run, 0, |m|, 2
    {
      out := ResolveModule(m, run);
      if !out.Found? { return; }
      out := if m[..1] in cache then Found(cache[m[..1]]) else Raised;
    }

    /** An import made by top-level code: nothing is running yet. */
    method TopLevelImport(m: Name) returns (out: Outcome)
      requires Layered(fs) && Ok(fs, {}, View()) && Bound({}, View())
      modifies this
      ensures Ok(fs, {}, View()) && Bound({}, View()) && Keeps(old(View()), View())
      ensures ParentClosed(cache)
      ensures out.Missing? ==> m !in Universe(fs) && View() == old(View())
      ensures out.Found? ==> forall i :: 1 <= i <= |m| ==>
        m[..i] in cache && Dotted(attrs, out.mod, m[1..i]) == Some(cache[m[..i]])
      ensures out.Raised? ==> forall k :: k in cache ==> k != m && !Below(m, k)
    {
      ImportBinds(fs, m, View());
      if Resolve(fs, {}, m, View()).out.Raised? { FailedLeavesNothing(fs, {}, m, View()); }
      if Resolve(fs, {}, m, View()).out.Found? { TopCached(fs, m, Resolve(fs, {}, m, View()).st); }
      out := EnsurePackageChain(m, {});
    }
  }
}
