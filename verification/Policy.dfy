/** What a policy decides: which registration an object falls under, and what may be read
    from it or imported.

    A module name is the sequence of its parts. The five searches for the registration that
    covers a name are written out one by one, as the code has them; what they all should find
    is said once, by `Nearest`. What the interpreter knows about objects is the `World`. */
module Policy {
  import opened Options
  import opened Names

  type Id = nat

  /** The compiled include and exclude patterns: for a bare name, and the dotted ones. */
  datatype Filters = Filters(
    includes: string -> bool, includesQual: Name -> bool, excludes: string -> bool, excludesQual: Name -> bool)

  /** A class or a module; a class is never recursive. */
  datatype Reg = Reg(name: Name, obj: Id, recursive: bool, filters: Filters, configure: set<string>)

  /** Registrations in the order of the dictionary they are kept in: a name keeps the place it
      first got. The indexes are keyed by the identity of the object. */
  datatype Policy = Policy(classes: seq<Reg>, modules: seq<Reg>, byClass: map<Id, Reg>, byModule: map<Id, Reg>)

  datatype Kind = Nothing | Super(rest: seq<Id>) | Module(name: Name) | Other

  datatype World = World(
    kind: Id -> Kind,                        // of a super object: the classes after its own
    typeOf: Id -> Id,
    isType: Id -> bool,
    moduleOf: Id -> Option<Name>,            // a type's `__module__`
    classNames: Id -> seq<string>,           // along the method resolution order
    member: (Id, string) -> Option<Id>,
    importable: Name -> Option<Id>,
    unregistered: (Id, string) -> bool)      // the rule for objects no registration covers

  const INTROSPECTION_DUNDERS: set<string> := {"__name__", "__qualname__", "__module__", "__doc__"}
  const MODULE_METADATA_DUNDERS: set<string> := {"__version__", "__author__", "__all__"}

  function Get(regs: seq<Reg>, n: Name): (r: Option<Reg>)
    ensures r.Some? ==> r.value in regs && r.value.name == n
    ensures r.None? ==> forall i :: 0 <= i < |regs| ==> regs[i].name != n
  {
    if regs == [] then None else if regs[0].name == n then Some(regs[0]) else Get(regs[1..], n)
  }

  predicate Registered(p: Policy, n: Name) { Get(p.modules, n).Some? }

  // ----- the searches -----

  /** `_find_registration_for`, for a module: the nearest registered ancestor decides. */
  function FindAncestor(p: Policy, n: Name, i: nat): Option<Reg>
    requires i < |n|
  {
    if i == 0 then None
    else if Get(p.modules, n[..i]).Some? then Get(p.modules, n[..i])
    else FindAncestor(p, n, i - 1)
  }

  /** `is_import_allowed`, past the direct match. */
  predicate CoveredImport(p: Policy, n: Name, i: nat)
    requires i < |n|
  {
    if i == 0 then false
    else
      match Get(p.modules, n[..i])
      case None => CoveredImport(p, n, i - 1)
      case Some(reg) => reg.recursive && !reg.filters.excludesQual(n) && !reg.filters.excludes(n[|n| - 1])
  }

  predicate ImportAllowed(p: Policy, n: Name) {
    Get(p.modules, n).Some? || CoveredImport(p, n, |n| - 1)
  }

  /** From an object down the parts of a name, importing what is not yet an attribute. */
  function Descend(w: World, obj: Id, path: Name, parts: seq<string>): Option<Id>
    decreases |parts|
  {
    if parts == [] then Some(obj)
    else
      var next := if w.member(obj, parts[0]).Some? then w.member(obj, parts[0]) else w.importable(path + [parts[0]]);
      if next.None? then None else Descend(w, next.value, path + [parts[0]], parts[1..])
  }

  /** `resolve_module`: the nearest recursive ancestor, whatever lies between. */
  function ResolveFrom(p: Policy, w: World, n: Name, i: nat): Option<Id>
    requires i < |n|
  {
    if i == 0 then None
    else
      match Get(p.modules, n[..i])
      case Some(reg) => if reg.recursive then Descend(w, reg.obj, n[..i], n[i..]) else ResolveFrom(p, w, n, i - 1)
      case None => ResolveFrom(p, w, n, i - 1)
  }

  function ResolveModule(p: Policy, w: World, n: Name): Option<Id> {
    match Get(p.modules, n)
    case Some(reg) => Some(reg.obj)
    case None => ResolveFrom(p, w, n, |n| - 1)
  }

  /** `resolve_module_member` and `__st_importfrom__` look for a recursive one, too. */
  function MemberAncestor(p: Policy, n: Name, i: nat): Option<Reg>
    requires i < |n|
  {
    if i == 0 then None
    else
      var r := Get(p.modules, n[..i]);
      if r.Some? && r.value.recursive then r else MemberAncestor(p, n, i - 1)
  }

  function GateAncestor(p: Policy, n: Name, i: nat): Option<Reg>
    requires i < |n|
  {
    if i > 0 then
      match Get(p.modules, n[..i])
      case Some(reg) => if reg.recursive then Some(reg) else GateAncestor(p, n, i - 1)
      case None => GateAncestor(p, n, i - 1)
    else None
  }

  /** The registration a from-import reads its member under, and the one whose privileges the
      gate gives it. */
  function MemberReg(p: Policy, n: Name): Option<Reg> {
    var r := Get(p.modules, n);
    if r.Some? then r else MemberAncestor(p, n, |n| - 1)
  }

  function GateReg(p: Policy, n: Name): Option<Reg> {
    var r := Get(p.modules, n);
    if r.Some? then r else GateAncestor(p, n, |n| - 1)
  }

  // ----- objects and their registrations -----

  /** An index entry counts only for the object itself. */
  function ByModule(p: Policy, o: Id): Option<Reg> {
    if o in p.byModule && p.byModule[o].obj == o then Some(p.byModule[o]) else None
  }

  function ByClass(p: Policy, o: Id): Option<Reg> {
    if o in p.byClass && p.byClass[o].obj == o then Some(p.byClass[o]) else None
  }

  /** None of the first `n` classes is registered. */
  predicate NoClass(p: Policy, classes: seq<Id>, n: nat)
    requires n <= |classes|
  {
    forall i :: 0 <= i < n ==> ByClass(p, classes[i]).None?
  }

  /** The first registered class along a method resolution order. */
  function FirstClass(p: Policy, classes: seq<Id>): (r: Option<Reg>)
    ensures r.None? <==> NoClass(p, classes, |classes|)
    ensures r.Some? ==> exists i :: 0 <= i < |classes| && ByClass(p, classes[i]) == r && NoClass(p, classes, i)
  {
    if classes == [] then None
    else if ByClass(p, classes[0]).Some? then ByClass(p, classes[0])
    else FirstClass(p, classes[1..])
  }

  /** The first recursive registration that a type's module lies under. */
  function Covering(regs: seq<Reg>, m: Name): (r: Option<Reg>)
    ensures r.None? <==> forall i :: 0 <= i < |regs| ==> !(regs[i].recursive && regs[i].name <= m)
    ensures r.Some? ==> r.value in regs && r.value.recursive && r.value.name <= m
  {
    if regs == [] then None
    else if regs[0].recursive && regs[0].name <= m then Some(regs[0])
    else Covering(regs[1..], m)
  }

  function FindByType(p: Policy, w: World, o: Id): Option<Reg> {
    if ByClass(p, w.typeOf(o)).Some? then ByClass(p, w.typeOf(o))
    else if w.isType(o) && ByClass(p, o).Some? then ByClass(p, o)
    else
      match w.moduleOf(w.typeOf(o))
      case Some(m) => Covering(p.modules, m)
      case None => None
  }

  /** `_find_registration_for`. */
  function Find(p: Policy, w: World, o: Id): Option<Reg> {
    match w.kind(o)
    case Nothing => None
    case Super(rest) => FirstClass(p, rest)
    case Module(n) =>
      if ByModule(p, o).Some? then ByModule(p, o)
      else
        (match FindAncestor(p, n, |n| - 1)
         case Some(reg) => if reg.recursive then Some(reg) else None
         case None => FindByType(p, w, o))
    case Other => if ByModule(p, o).Some? then ByModule(p, o) else FindByType(p, w, o)
  }

  function QualifiedNames(w: World, o: Id, a: string): seq<Name> {
    match w.kind(o)
    case Module(n) => [n + [a]]
    case _ => ClassQualified(w.classNames(o), a)
  }

  function ClassQualified(classes: seq<string>, a: string): seq<Name> {
    if classes == [] then [] else [[classes[0], a]] + ClassQualified(classes[1..], a)
  }

  predicate Any(f: Name -> bool, ns: seq<Name>) { exists i :: 0 <= i < |ns| && f(ns[i]) }

  /** `is_attr_allowed`. */
  predicate AttrAllowed(p: Policy, w: World, o: Id, a: string) {
    match Find(p, w, o)
    case None => w.unregistered(o, a)
    case Some(reg) =>
      var quals := QualifiedNames(w, o, a);
      var sub := w.member(o, a);
      if a in reg.configure || a in INTROSPECTION_DUNDERS then true
      else if a in MODULE_METADATA_DUNDERS && w.kind(o).Module? then true
      else if !reg.filters.includes(a) && !Any(reg.filters.includesQual, quals) then
        sub.Some? && Find(p, w, sub.value).Some?
      else if reg.filters.excludes(a) || Any(reg.filters.excludesQual, quals) then false
      else if !reg.recursive && sub.Some? && w.kind(sub.value).Module? then Find(p, w, sub.value).Some?
      else true
  }

  datatype Import = Refused | Missing | Metadata | Value(obj: Id)

  /** `resolve_module_member`. */
  function ResolveMember(p: Policy, w: World, n: Name, a: string): Import {
    if !ImportAllowed(p, n) then Refused
    else
      match MemberReg(p, n)
      case None => Refused
      case Some(reg) =>
        if a in MODULE_METADATA_DUNDERS then Metadata
        else if !(reg.filters.includes(a) || reg.filters.includesQual(n + [a])) then Refused
        else if reg.filters.excludes(a) || reg.filters.excludesQual(n + [a]) then Refused
        else Fetch(p, w, n, a)
  }

  /** An attribute of the module, or else a submodule still to be imported. */
  function FoundMember(w: World, n: Name, obj: Id, a: string): Option<Id> {
    if w.member(obj, a).Some? then w.member(obj, a) else w.importable(n + [a])
  }

  /** The member itself; a module among the members has to be importable by its dotted name. */
  function Fetch(p: Policy, w: World, n: Name, a: string): Import {
    match ResolveModule(p, w, n)
    case None => Missing
    case Some(obj) =>
      var found := FoundMember(w, n, obj, a);
      if found.None? then Missing
      else if w.kind(found.value).Module? && !ImportAllowed(p, n + [a]) then Refused
      else Value(found.value)
  }

  // ----- what the searches find -----

  /** The length of the nearest registered ancestor of `n` no longer than `i`, or 0. */
  predicate Nearest(p: Policy, n: Name, i: nat, k: nat)
    requires i < |n|
  {
    && k <= i
    && (k > 0 ==> Registered(p, n[..k]))
    && (forall j :: k < j <= i ==> !Registered(p, n[..j]))
  }

  lemma {:induction false} FindsNearest(p: Policy, n: Name, i: nat, k: nat)
    requires i < |n| && Nearest(p, n, i, k)
    ensures FindAncestor(p, n, i) == if k == 0 then None else Get(p.modules, n[..k])
    ensures CoveredImport(p, n, i) <==>
      k > 0 && var reg := Get(p.modules, n[..k]).value;
      reg.recursive && !reg.filters.excludesQual(n) && !reg.filters.excludes(n[|n| - 1])
  {
    if i > k { FindsNearest(p, n, i - 1, k); }
  }

  lemma {:induction false} RecursiveSame(p: Policy, n: Name, i: nat)
    requires i < |n|
    ensures GateAncestor(p, n, i) == MemberAncestor(p, n, i)
    ensures GateAncestor(p, n, i).Some? ==> GateAncestor(p, n, i).value.recursive
  {
    if i > 0 { RecursiveSame(p, n, i - 1); }
  }

  lemma {:induction false} NearestExists(p: Policy, n: Name, i: nat) returns (k: nat)
    requires i < |n|
    ensures Nearest(p, n, i, k)
  {
    if i == 0 || Registered(p, n[..i]) { k := i; }
    else { k := NearestExists(p, n, i - 1); }
  }

  /** Past the nearest registered ancestor the last three go on, unless it is recursive. */
  lemma {:induction false} RecursiveFrom(p: Policy, w: World, n: Name, i: nat, k: nat)
    requires i < |n| && Nearest(p, n, i, k)
    ensures MemberAncestor(p, n, i) == MemberAncestor(p, n, k)
    ensures ResolveFrom(p, w, n, i) == ResolveFrom(p, w, n, k)
    ensures k > 0 && Get(p.modules, n[..k]).value.recursive ==>
      && MemberAncestor(p, n, i) == Get(p.modules, n[..k])
      && ResolveFrom(p, w, n, i) == Descend(w, Get(p.modules, n[..k]).value.obj, n[..k], n[k..])
  {
    if i > k { RecursiveFrom(p, w, n, i - 1, k); }
  }

  /** The searches that stop at the nearest registered ancestor and those that pass over it
      agree exactly when it is recursive, or nothing above it is. */
  lemma SearchesAgreeExactly(p: Policy, n: Name)
    ensures
      var nearest := FindAncestor(p, n, |n| - 1);
      var stops := if nearest.Some? && nearest.value.recursive then nearest else None;
      stops == MemberAncestor(p, n, |n| - 1) <==>
      nearest.None? || nearest.value.recursive || MemberAncestor(p, n, |n| - 1).None?
  {
    var k := NearestExists(p, n, |n| - 1);
    FindsNearest(p, n, |n| - 1, k);
    var w := World(_ => Nothing, _ => 0, _ => false, _ => None, _ => [], (_, _) => None, _ => None, (_, _) => false);
    RecursiveFrom(p, w, n, |n| - 1, k);
  }

  /** All five select the same registration for a name that may be imported. */
  lemma SearchesAgree(p: Policy, w: World, n: Name)
    requires ImportAllowed(p, n) && !Registered(p, n)
    ensures var reg := FindAncestor(p, n, |n| - 1);
      && reg.Some? && reg.value.recursive && reg.value.name < n
      && MemberReg(p, n) == reg && GateReg(p, n) == reg
      && ResolveModule(p, w, n) == Descend(w, reg.value.obj, reg.value.name, n[|reg.value.name|..])
  {
    var k := NearestExists(p, n, |n| - 1);
    FindsNearest(p, n, |n| - 1, k);
    RecursiveFrom(p, w, n, |n| - 1, k);
    RecursiveSame(p, n, |n| - 1);
  }

  // ----- attribute traversal and from-import -----

  ghost predicate Plain(reg: Reg) { reg.configure == {} && forall a :: reg.filters.includes(a) }

  /** Every registration takes in all names, without overrides. */
  ghost predicate AllIncluded(p: Policy) { forall i :: 0 <= i < |p.modules| ==> Plain(p.modules[i]) }

  /** A module is registered under its own name, and the index has what is registered. */
  ghost predicate Canonical(p: Policy, w: World) {
    && (forall i :: 0 <= i < |p.modules| ==> w.kind(p.modules[i].obj) == Module(p.modules[i].name))
    && (forall i, j :: 0 <= i < j < |p.modules| ==> p.modules[i].name != p.modules[j].name)
    && (forall i :: 0 <= i < |p.modules| ==> p.modules[i].obj in p.byModule)
    && (forall o :: o in p.byModule ==> p.byModule[o] in p.modules && p.byModule[o].obj == o)
  }

  /** The index finds a module under the name it has, and no other way. */
  lemma IndexByName(p: Policy, w: World, o: Id, n: Name)
    requires Canonical(p, w) && w.kind(o) == Module(n)
    ensures Registered(p, n) && Get(p.modules, n).value.obj == o ==> ByModule(p, o) == Get(p.modules, n)
    ensures !Registered(p, n) ==> ByModule(p, o).None?
  {
    if ByModule(p, o).Some? {
      var r := ByModule(p, o).value;
      assert r in p.modules && r.obj == o && r.name == n;
    }
  }

  /** A module that may be imported is read, by traversal, under the registration that a
      from-import uses. */
  lemma SameRegistration(p: Policy, w: World, n: Name, o: Id)
    requires Canonical(p, w) && ImportAllowed(p, n)
    requires ResolveModule(p, w, n) == Some(o) && w.kind(o) == Module(n)
    ensures Find(p, w, o) == MemberReg(p, n) == GateReg(p, n)
    ensures Find(p, w, o).Some? && Find(p, w, o).value in p.modules
    ensures !Registered(p, n) ==> Find(p, w, o).value.recursive
  {
    IndexByName(p, w, o, n);
    if !Registered(p, n) { SearchesAgree(p, w, n); FoundIn(p, n, |n| - 1); }
  }

  lemma {:induction false} FoundIn(p: Policy, n: Name, i: nat)
    requires i < |n|
    ensures FindAncestor(p, n, i).Some? ==> FindAncestor(p, n, i).value in p.modules
  {
    if i > 0 { FoundIn(p, n, i - 1); }
  }

  /** What a submodule inherits: the parent's registration when that is recursive. */
  lemma SubmoduleNearest(p: Policy, n: Name, a: string)
    requires ImportAllowed(p, n)
    ensures FindAncestor(p, n + [a], |n|) == MemberReg(p, n) && MemberReg(p, n).Some?
    ensures var reg := MemberReg(p, n).value;
      CoveredImport(p, n + [a], |n|) <==>
      reg.recursive && !reg.filters.excludesQual(n + [a]) && !reg.filters.excludes(a)
  {
    var m := n + [a];
    assert m[..|n|] == n;
    var w := World(_ => Nothing, _ => 0, _ => false, _ => None, _ => [], (_, _) => None, _ => None, (_, _) => false);
    if Registered(p, n) {
      FindsNearest(p, m, |n|, |n|);
    } else {
      SearchesAgree(p, w, n);
      var k := NearestExists(p, n, |n| - 1);
      FindsNearest(p, n, |n| - 1, k);
      assert forall j :: 0 <= j < |n| ==> m[..j] == n[..j];
      assert Nearest(p, m, |n|, k);
      FindsNearest(p, m, |n|, k);
    }
  }

  /** A submodule found under its parent has a registration exactly when it may be imported. */
  lemma SubmoduleAgrees(p: Policy, w: World, n: Name, a: string, sub: Id)
    requires Canonical(p, w) && ImportAllowed(p, n) && w.kind(sub) == Module(n + [a])
    requires Registered(p, n + [a]) ==> Get(p.modules, n + [a]).value.obj == sub
    requires MemberReg(p, n).Some?
    requires !MemberReg(p, n).value.filters.excludesQual(n + [a]) && !MemberReg(p, n).value.filters.excludes(a)
    ensures ImportAllowed(p, n + [a]) <==> MemberReg(p, n).value.recursive || Registered(p, n + [a])
    ensures Find(p, w, sub).Some? <==> ImportAllowed(p, n + [a])
  {
    IndexByName(p, w, sub, n + [a]);
    SubmoduleNearest(p, n, a);
  }

  predicate Dunder(a: string) { |a| >= 4 && a[..2] == "__" && a[|a| - 2..] == "__" }

  predicate Excluded(reg: Reg, n: Name, a: string) { reg.filters.excludes(a) || reg.filters.excludesQual(n + [a]) }

  /** The two decisions on a member of an importable module, without the searches. */
  lemma Decisions(p: Policy, w: World, n: Name, o: Id, a: string, v: Id)
    requires Canonical(p, w) && AllIncluded(p) && ImportAllowed(p, n)
    requires ResolveModule(p, w, n) == Some(o) && w.kind(o) == Module(n)
    requires !Dunder(a) && w.member(o, a) == Some(v)
    ensures MemberReg(p, n).Some?
    ensures var reg := MemberReg(p, n).value;
      && (AttrAllowed(p, w, o, a) <==>
          !Excluded(reg, n, a) && (w.kind(v).Module? ==> reg.recursive || Find(p, w, v).Some?))
      && (ResolveMember(p, w, n, a) ==
          if !Excluded(reg, n, a) && (w.kind(v).Module? ==> ImportAllowed(p, n + [a])) then Value(v) else Refused)
  {
    SameRegistration(p, w, n, o);
    var reg := MemberReg(p, n).value;
    assert Plain(reg);
    NotDescribing(a);
    OneName(reg, n, a);
    hide Find, ImportAllowed, MemberReg, ResolveModule, Canonical, AllIncluded, Dunder, Any;
    TraversalDecides(p, w, n, o, a, v, reg);
  }

  lemma OneName(reg: Reg, n: Name, a: string)
    ensures Any(reg.filters.excludesQual, [n + [a]]) <==> reg.filters.excludesQual(n + [a])
  {
    assert [n + [a]][0] == n + [a];
  }

  lemma TraversalDecides(p: Policy, w: World, n: Name, o: Id, a: string, v: Id, reg: Reg)
    requires Find(p, w, o) == Some(reg) && Plain(reg) && w.kind(o) == Module(n) && w.member(o, a) == Some(v)
    requires a !in INTROSPECTION_DUNDERS && a !in MODULE_METADATA_DUNDERS
    ensures AttrAllowed(p, w, o, a) <==>
      !Excluded(reg, n, a) && (w.kind(v).Module? ==> reg.recursive || Find(p, w, v).Some?)
  {
    OneName(reg, n, a);
    hide Find, Any;
  }

  /** For an importable module and a member it has: attribute traversal allows it exactly when
      a from-import gives it. Any exclude patterns may stand; a member that is a module has to
      be the submodule of that name. */
  lemma TraversalMatchesImport(p: Policy, w: World, n: Name, o: Id, a: string, v: Id)
    requires Canonical(p, w) && AllIncluded(p) && ImportAllowed(p, n)
    requires ResolveModule(p, w, n) == Some(o) && w.kind(o) == Module(n)
    requires !Dunder(a) && w.member(o, a) == Some(v)
    requires w.kind(v).Module? ==>
      w.kind(v) == Module(n + [a]) && (Registered(p, n + [a]) ==> Get(p.modules, n + [a]).value.obj == v)
    ensures AttrAllowed(p, w, o, a) <==> ResolveMember(p, w, n, a) == Value(v)
    ensures !AttrAllowed(p, w, o, a) <==> ResolveMember(p, w, n, a) == Refused
  {
    Decisions(p, w, n, o, a, v);
    if !Excluded(MemberReg(p, n).value, n, a) && w.kind(v).Module? {
      SubmoduleAgrees(p, w, n, a, v);
    }
    hide Find, ImportAllowed, MemberReg, ResolveModule, Canonical, AllIncluded, AttrAllowed, ResolveMember;
  }

  /** For a member that is any module at all: the two agree exactly when the member is excluded,
      or its parent's registration is recursive, or the module it is has a registration just
      when the dotted name is registered. */
  lemma ModuleMemberExactly(p: Policy, w: World, n: Name, o: Id, a: string, v: Id)
    requires Canonical(p, w) && AllIncluded(p) && ImportAllowed(p, n)
    requires ResolveModule(p, w, n) == Some(o) && w.kind(o) == Module(n)
    requires !Dunder(a) && w.member(o, a) == Some(v) && w.kind(v).Module?
    ensures MemberReg(p, n).Some?
    ensures
      (AttrAllowed(p, w, o, a) <==> ResolveMember(p, w, n, a) == Value(v)) <==>
      || Excluded(MemberReg(p, n).value, n, a)
      || MemberReg(p, n).value.recursive
      || (Find(p, w, v).Some? <==> Registered(p, n + [a]))
  {
    Decisions(p, w, n, o, a, v);
    SubmoduleNearest(p, n, a);
    ImportMeans(p, n + [a]);
    hide Find, ImportAllowed, MemberReg, ResolveModule, Canonical, AllIncluded, AttrAllowed, ResolveMember;
  }

  lemma ImportMeans(p: Policy, n: Name)
    ensures ImportAllowed(p, n) <==> Registered(p, n) || CoveredImport(p, n, |n| - 1)
  {
  }

  // A module `foo` that binds the registered module `bar` as its attribute `b`.
  const OPEN := Filters(_ => true, _ => false, _ => false, _ => false)
  const FOO := Reg(["foo"], 1, false, OPEN, {})
  const BAR := Reg(["bar"], 2, false, OPEN, {})
  const ALIASING := Policy([], [FOO, BAR], map[], map[1 := FOO, 2 := BAR])
  const ALIASED := World(
    o => if o == 1 then Module(["foo"]) else if o == 2 then Module(["bar"]) else Other,
    _ => 0, _ => false, _ => None, _ => [],
    (o, a) => if o == 1 && a == "b" then Some(2) else None, _ => None, (_, _) => false)

  /** Traversal reaches `foo.b`, and `from foo import b` is refused. */
  lemma AliasedModuleDiffers()
    ensures Canonical(ALIASING, ALIASED) && AllIncluded(ALIASING) && ImportAllowed(ALIASING, ["foo"])
    ensures AttrAllowed(ALIASING, ALIASED, 1, "b") && ResolveMember(ALIASING, ALIASED, ["foo"], "b") == Refused
  {
    var p, w, n := ALIASING, ALIASED, ["foo"];
    assert p.modules[0] == FOO && p.modules[1] == BAR && FOO.name[0] != BAR.name[0];
    assert Get(p.modules, n) == Some(FOO);
    Decisions(p, w, n, 1, "b", 2);
    var m := n + ["b"];
    assert |m| == 2 && |FOO.name| == 1 && |BAR.name| == 1;
    assert Get(p.modules, m).None?;
    assert m[..1] == n;
    assert !CoveredImport(p, m, 1);
    assert ByModule(p, 2) == Some(BAR);
  }

  lemma NotDescribing(a: string)
    requires !Dunder(a)
    ensures a !in INTROSPECTION_DUNDERS && a !in MODULE_METADATA_DUNDERS
  {
    assert Dunder("__name__") && Dunder("__qualname__") && Dunder("__module__") && Dunder("__doc__");
    assert Dunder("__version__") && Dunder("__author__") && Dunder("__all__");
  }
}
