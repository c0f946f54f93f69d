/** A policy in another process: the registrations cross, every object gets the identity it has
    there, and the indexes are rebuilt. Whatever the identities are, every lookup finds the
    same registration and every decision is the same. */
module PolicyTransit {
  import opened Options
  import opened Names
  import opened Policy
  import opened PolicyIndex

  // ----- the same thing under other identities -----

  function Reg1(f: Id -> Id, r: Reg): Reg { r.(obj := f(r.obj)) }

  function RegOpt(f: Id -> Id, r: Option<Reg>): Option<Reg> { if r.Some? then Some(Reg1(f, r.value)) else None }

  function IdOpt(f: Id -> Id, o: Option<Id>): Option<Id> { if o.Some? then Some(f(o.value)) else None }

  function Regs(f: Id -> Id, regs: seq<Reg>): (r: seq<Reg>)
    ensures |r| == |regs|
    ensures forall i :: 0 <= i < |r| ==> r[i] == Reg1(f, regs[i])
  {
    if regs == [] then [] else [Reg1(f, regs[0])] + Regs(f, regs[1..])
  }

  function Ids(f: Id -> Id, os: seq<Id>): (r: seq<Id>)
    ensures |r| == |os|
    ensures forall i :: 0 <= i < |r| ==> r[i] == f(os[i])
  {
    if os == [] then [] else [f(os[0])] + Ids(f, os[1..])
  }

  function KindThere(f: Id -> Id, k: Kind): Kind { if k.Super? then Super(Ids(f, k.rest)) else k }

  function ImportThere(f: Id -> Id, i: Import): Import { if i.Value? then Value(f(i.obj)) else i }

  ghost predicate Injective(f: Id -> Id) { forall a, b :: f(a) == f(b) ==> a == b }

  /** `v` is the world `w` of the other process. */
  ghost predicate Renames(f: Id -> Id, w: World, v: World) {
    && (forall o :: v.kind(f(o)) == KindThere(f, w.kind(o)))
    && (forall o :: v.typeOf(f(o)) == f(w.typeOf(o)) && v.isType(f(o)) == w.isType(o))
    && (forall o :: v.moduleOf(f(o)) == w.moduleOf(o) && v.classNames(f(o)) == w.classNames(o))
    && (forall o, a :: v.member(f(o), a) == IdOpt(f, w.member(o, a)))
    && (forall o, a :: v.unregistered(f(o), a) == w.unregistered(o, a))
    && (forall n :: v.importable(n) == IdOpt(f, w.importable(n)))
  }

  /** What arrives: the registrations, and indexes rebuilt from them. */
  function Arrived(f: Id -> Id, p: Policy): Policy {
    var classes, modules := Regs(f, p.classes), Regs(f, p.modules);
    Policy(classes, modules, Rebuild(classes), Rebuild(modules))
  }

  ghost predicate IndexRight(p: Policy) { Indexed(p.modules, p.byModule) && Indexed(p.classes, p.byClass) }

  // ----- lookups -----

  lemma {:induction false} ScanThere(f: Id -> Id, regs: seq<Reg>, o: Id)
    requires Injective(f)
    ensures Scan(Regs(f, regs), f(o)) == RegOpt(f, Scan(regs, o))
  {
    if regs != [] {
      assert f(regs[|regs| - 1].obj) == f(o) ==> regs[|regs| - 1].obj == o;
      hide Injective, Regs;
      assert Regs(f, regs)[..|regs| - 1] == Regs(f, regs[..|regs| - 1]);
      ScanThere(f, regs[..|regs| - 1], o);
    }
  }

  lemma {:induction false} GetThere(f: Id -> Id, regs: seq<Reg>, n: Name)
    ensures Get(Regs(f, regs), n) == RegOpt(f, Get(regs, n))
  {
    if regs != [] {
      assert Regs(f, regs)[1..] == Regs(f, regs[1..]);
      GetThere(f, regs[1..], n);
    }
  }

  lemma ArrivedGet(f: Id -> Id, p: Policy, n: Name)
    ensures Get(Arrived(f, p).modules, n) == RegOpt(f, Get(p.modules, n))
  {
    GetThere(f, p.modules, n);
  }

  lemma {:induction false} CoveringThere(f: Id -> Id, regs: seq<Reg>, m: Name)
    ensures Covering(Regs(f, regs), m) == RegOpt(f, Covering(regs, m))
  {
    if regs != [] {
      assert Regs(f, regs)[1..] == Regs(f, regs[1..]);
      CoveringThere(f, regs[1..], m);
    }
  }

  /** Every lookup by identity finds the same registration. */
  lemma LookupThere(f: Id -> Id, p: Policy, o: Id)
    requires Injective(f) && IndexRight(p)
    ensures ByModule(Arrived(f, p), f(o)) == RegOpt(f, ByModule(p, o))
    ensures ByClass(Arrived(f, p), f(o)) == RegOpt(f, ByClass(p, o))
  {
    ScanThere(f, p.modules, o);
    ScanThere(f, p.classes, o);
    RebuildIndexed(Regs(f, p.modules));
    RebuildIndexed(Regs(f, p.classes));
    hide Injective, Regs, Rebuild;
    var q := Arrived(f, p);
    assert Lookup(q.byModule, f(o)) == Scan(q.modules, f(o)) && Lookup(q.byClass, f(o)) == Scan(q.classes, f(o));
    assert Lookup(p.byModule, o) == Scan(p.modules, o) && Lookup(p.byClass, o) == Scan(p.classes, o);
  }

  lemma {:induction false} FirstClassThere(f: Id -> Id, p: Policy, classes: seq<Id>)
    requires Injective(f) && IndexRight(p)
    ensures FirstClass(Arrived(f, p), Ids(f, classes)) == RegOpt(f, FirstClass(p, classes))
  {
    hide Injective, IndexRight, Arrived, ByClass;
    if classes != [] {
      LookupThere(f, p, classes[0]);
      assert Ids(f, classes)[1..] == Ids(f, classes[1..]);
      FirstClassThere(f, p, classes[1..]);
    }
  }

  lemma {:induction false} AncestorThere(f: Id -> Id, p: Policy, n: Name, i: nat)
    requires i < |n|
    ensures FindAncestor(Arrived(f, p), n, i) == RegOpt(f, FindAncestor(p, n, i))
    ensures MemberAncestor(Arrived(f, p), n, i) == RegOpt(f, MemberAncestor(p, n, i))
    ensures CoveredImport(Arrived(f, p), n, i) == CoveredImport(p, n, i)
  {
    hide Get, Regs, Arrived;
    if i > 0 {
      ArrivedGet(f, p, n[..i]);
      AncestorThere(f, p, n, i - 1);
    }
  }

  lemma ImportAllowedThere(f: Id -> Id, p: Policy, n: Name)
    ensures ImportAllowed(Arrived(f, p), n) == ImportAllowed(p, n)
    ensures MemberReg(Arrived(f, p), n) == RegOpt(f, MemberReg(p, n))
  {
    hide Get, Regs, Arrived, FindAncestor, MemberAncestor, CoveredImport;
    ArrivedGet(f, p, n);
    AncestorThere(f, p, n, |n| - 1);
  }

  lemma {:induction false} DescendThere(f: Id -> Id, w: World, v: World, obj: Id, path: Name, parts: seq<string>)
    requires Renames(f, w, v)
    ensures Descend(v, f(obj), path, parts) == IdOpt(f, Descend(w, obj, path, parts))
    decreases |parts|
  {
    if parts != [] {
      var next := if w.member(obj, parts[0]).Some? then w.member(obj, parts[0]) else w.importable(path + [parts[0]]);
      assert v.member(f(obj), parts[0]) == IdOpt(f, w.member(obj, parts[0]));
      if next.Some? { DescendThere(f, w, v, next.value, path + [parts[0]], parts[1..]); }
    }
  }

  lemma {:induction false} ResolveThere(f: Id -> Id, p: Policy, w: World, v: World, n: Name, i: nat)
    requires Renames(f, w, v) && i < |n|
    ensures ResolveFrom(Arrived(f, p), v, n, i) == IdOpt(f, ResolveFrom(p, w, n, i))
  {
    hide Get, Regs, Renames, Arrived, Descend;
    if i > 0 {
      ArrivedGet(f, p, n[..i]);
      ResolveThere(f, p, w, v, n, i - 1);
      var r := Get(p.modules, n[..i]);
      if r.Some? { DescendThere(f, w, v, r.value.obj, n[..i], n[i..]); }
    }
  }

  lemma ResolveModuleThere(f: Id -> Id, p: Policy, w: World, v: World, n: Name)
    requires Renames(f, w, v)
    ensures ResolveModule(Arrived(f, p), v, n) == IdOpt(f, ResolveModule(p, w, n))
  {
    hide Get, Regs, Renames, Arrived, ResolveFrom;
    ArrivedGet(f, p, n);
    ResolveThere(f, p, w, v, n, |n| - 1);
  }

  lemma FindByTypeThere(f: Id -> Id, p: Policy, w: World, v: World, o: Id)
    requires Injective(f) && IndexRight(p) && Renames(f, w, v)
    ensures FindByType(Arrived(f, p), v, f(o)) == RegOpt(f, FindByType(p, w, o))
  {
    LookupThere(f, p, w.typeOf(o));
    LookupThere(f, p, o);
    assert v.typeOf(f(o)) == f(w.typeOf(o)) && v.moduleOf(f(w.typeOf(o))) == w.moduleOf(w.typeOf(o));
    if w.moduleOf(w.typeOf(o)).Some? { CoveringThere(f, p.modules, w.moduleOf(w.typeOf(o)).value); }
    assert v.isType(f(o)) == w.isType(o);
    hide Injective, IndexRight, Renames, ByClass, Covering;
  }

  lemma KindMeans(f: Id -> Id, w: World, v: World, o: Id)
    requires Renames(f, w, v)
    ensures v.kind(f(o)) == KindThere(f, w.kind(o))
  {
  }

  lemma FindModuleThere(f: Id -> Id, p: Policy, w: World, v: World, o: Id)
    requires Injective(f) && IndexRight(p) && Renames(f, w, v) && w.kind(o).Module?
    requires v.kind(f(o)) == w.kind(o)
    ensures Find(Arrived(f, p), v, f(o)) == RegOpt(f, Find(p, w, o))
  {
    hide Injective, IndexRight, Renames, ByModule, FindByType, Arrived, FindAncestor, Reg1;
    var n := w.kind(o).name;
    LookupThere(f, p, o);
    FindByTypeThere(f, p, w, v, o);
    AncestorThere(f, p, n, |n| - 1);
    RecursiveThere(f, FindAncestor(p, n, |n| - 1));
  }

  /** The registration an object falls under is the same. */
  lemma FindThere(f: Id -> Id, p: Policy, w: World, v: World, o: Id)
    requires Injective(f) && IndexRight(p) && Renames(f, w, v)
    ensures Find(Arrived(f, p), v, f(o)) == RegOpt(f, Find(p, w, o))
  {
    KindMeans(f, w, v, o);
    hide Injective, IndexRight, Renames, ByModule, FindByType, Arrived, FirstClass, FindAncestor, Ids, Reg1;
    match w.kind(o)
    case Nothing =>
    case Super(rest) => FirstClassThere(f, p, rest);
    case Module(_) => FindModuleThere(f, p, w, v, o);
    case Other => LookupThere(f, p, o); FindByTypeThere(f, p, w, v, o);
  }

  lemma RecursiveThere(f: Id -> Id, r: Option<Reg>)
    ensures RegOpt(f, r).Some? == r.Some?
    ensures r.Some? ==> RegOpt(f, r).value.recursive == r.value.recursive && RegOpt(f, r).value == Reg1(f, r.value)
    ensures r.Some? ==> Reg1(f, r.value).filters == r.value.filters && Reg1(f, r.value).configure == r.value.configure
  {
  }

  // ----- decisions -----

  lemma QualifiedThere(f: Id -> Id, w: World, v: World, o: Id, a: string)
    requires Renames(f, w, v)
    ensures QualifiedNames(v, f(o), a) == QualifiedNames(w, o, a)
    ensures v.member(f(o), a) == IdOpt(f, w.member(o, a)) && v.unregistered(f(o), a) == w.unregistered(o, a)
    ensures v.kind(f(o)).Module? == w.kind(o).Module?
  {
    assert v.kind(f(o)) == KindThere(f, w.kind(o)) && v.classNames(f(o)) == w.classNames(o);
  }

  /** Whether an attribute may be read is decided the same. */
  lemma AttrAllowedThere(f: Id -> Id, p: Policy, w: World, v: World, o: Id, a: string)
    requires Injective(f) && IndexRight(p) && Renames(f, w, v)
    ensures AttrAllowed(Arrived(f, p), v, f(o), a) == AttrAllowed(p, w, o, a)
  {
    hide Injective, IndexRight, Renames, Find, QualifiedNames, Arrived, Any;
    FindThere(f, p, w, v, o);
    RecursiveThere(f, Find(p, w, o));
    QualifiedThere(f, w, v, o, a);
    if w.member(o, a).Some? {
      FindThere(f, p, w, v, w.member(o, a).value);
      QualifiedThere(f, w, v, w.member(o, a).value, a);
    }
  }

  lemma FetchThere(f: Id -> Id, p: Policy, w: World, v: World, n: Name, a: string)
    requires Injective(f) && IndexRight(p) && Renames(f, w, v)
    ensures Fetch(Arrived(f, p), v, n, a) == ImportThere(f, Fetch(p, w, n, a))
  {
    hide Injective, IndexRight, Renames, Arrived, ImportAllowed, ResolveModule, FoundMember;
    ImportAllowedThere(f, p, n + [a]);
    ResolveModuleThere(f, p, w, v, n);
    if ResolveModule(p, w, n).Some? {
      var obj := ResolveModule(p, w, n).value;
      FoundThere(f, w, v, n, obj, a);
      var found := FoundMember(w, n, obj, a);
      if found.Some? { ModuleThere(f, w, v, found.value); }
    }
  }

  lemma FoundThere(f: Id -> Id, w: World, v: World, n: Name, obj: Id, a: string)
    requires Renames(f, w, v)
    ensures FoundMember(v, n, f(obj), a) == IdOpt(f, FoundMember(w, n, obj, a))
  {
    assert v.importable(n + [a]) == IdOpt(f, w.importable(n + [a]));
    assert v.member(f(obj), a) == IdOpt(f, w.member(obj, a));
  }

  lemma ModuleThere(f: Id -> Id, w: World, v: World, o: Id)
    requires Renames(f, w, v)
    ensures v.kind(f(o)).Module? == w.kind(o).Module?
  {
    assert v.kind(f(o)) == KindThere(f, w.kind(o));
  }

  /** So is what a from-import gives. */
  lemma ResolveMemberThere(f: Id -> Id, p: Policy, w: World, v: World, n: Name, a: string)
    requires Injective(f) && IndexRight(p) && Renames(f, w, v)
    ensures ResolveMember(Arrived(f, p), v, n, a) == ImportThere(f, ResolveMember(p, w, n, a))
  {
    hide Injective, IndexRight, Renames, Arrived, ImportAllowed, MemberReg, RegOpt, Reg1, Fetch;
    ImportAllowedThere(f, p, n);
    RecursiveThere(f, MemberReg(p, n));
    FetchThere(f, p, w, v, n, a);
  }

  /** A right index is also what the agreement of the searches asks for. */
  lemma {:induction false} ScanHas(regs: seq<Reg>, i: nat)
    requires i < |regs|
    ensures Scan(regs, regs[i].obj).Some?
  {
    if i < |regs| - 1 {
      assert regs[..|regs| - 1][i] == regs[i];
      ScanHas(regs[..|regs| - 1], i);
    }
  }

  lemma RightIsCanonical(p: Policy, w: World)
    requires Distinct(p.modules) && Indexed(p.modules, p.byModule)
    requires forall i :: 0 <= i < |p.modules| ==> w.kind(p.modules[i].obj) == Module(p.modules[i].name)
    ensures Canonical(p, w)
  {
    forall i | 0 <= i < |p.modules| ensures p.modules[i].obj in p.byModule { ScanHas(p.modules, i); }
    forall o | o in p.byModule ensures p.byModule[o] in p.modules && p.byModule[o].obj == o {
      assert Lookup(p.byModule, o) == Scan(p.modules, o);
    }
  }
}
