/** What the policy answers, for every policy, object and name: each answer by a condition on the
    registrations and their patterns, with no pattern taken for granted. */
module PolicyDecisions {
  import opened Options
  import opened Names
  import opened Policy

  // ----- patterns -----

  /** `q` is the attribute's name under an owner of it: the module, or a class the object is of. */
  ghost predicate Owned(w: World, o: Id, a: string, q: Name) {
    if w.kind(o).Module? then q == w.kind(o).name + [a]
    else exists i :: 0 <= i < |w.classNames(o)| && q == [w.classNames(o)[i], a]
  }

  lemma {:induction false} ClassOwned(classes: seq<string>, a: string, q: Name)
    ensures q in ClassQualified(classes, a) <==> exists i :: 0 <= i < |classes| && q == [classes[i], a]
  {
    if classes != [] {
      ClassOwned(classes[1..], a, q);
      if i :| 0 <= i < |classes| && q == [classes[i], a] {
        if i > 0 { assert q == [classes[1..][i - 1], a]; }
      }
      if q in ClassQualified(classes[1..], a) {
        var i :| 0 <= i < |classes[1..]| && q == [classes[1..][i], a];
        assert q == [classes[i + 1], a];
      }
    }
  }

  lemma OwnedNames(w: World, o: Id, a: string, q: Name)
    ensures q in QualifiedNames(w, o, a) <==> Owned(w, o, a, q)
  {
    if !w.kind(o).Module? { ClassOwned(w.classNames(o), a, q); }
  }

  /** The include patterns take the name, bare or under an owner. */
  ghost predicate Included(reg: Reg, w: World, o: Id, a: string) {
    reg.filters.includes(a) || exists q :: Owned(w, o, a, q) && reg.filters.includesQual(q)
  }

  ghost predicate Excludes(reg: Reg, w: World, o: Id, a: string) {
    reg.filters.excludes(a) || exists q :: Owned(w, o, a, q) && reg.filters.excludesQual(q)
  }

  lemma AnyOwned(f: Name -> bool, w: World, o: Id, a: string)
    ensures Any(f, QualifiedNames(w, o, a)) <==> exists q :: Owned(w, o, a, q) && f(q)
  {
    var qs := QualifiedNames(w, o, a);
    if Any(f, qs) {
      var i :| 0 <= i < |qs| && f(qs[i]);
      OwnedNames(w, o, a, qs[i]);
    }
    if q :| Owned(w, o, a, q) && f(q) {
      OwnedNames(w, o, a, q);
      var i :| 0 <= i < |qs| && qs[i] == q;
    }
  }

  // ----- attributes -----

  /** The member of that name has a registration of its own. */
  predicate MemberRegistered(p: Policy, w: World, o: Id, a: string) {
    w.member(o, a).Some? && Find(p, w, w.member(o, a).value).Some?
  }

  /** The attribute gate's question, for every object and every name. With no registration it is the
      rule for such objects. Under one, the names that describe it and the configured ones are
      allowed; a name the include patterns take is allowed exactly when it is not excluded and is
      not an unregistered module under a registration that is not recursive; and any other name
      exactly when its member has a registration of its own. */
  lemma AttrExactly(p: Policy, w: World, o: Id, a: string)
    ensures Find(p, w, o).None? ==> (AttrAllowed(p, w, o, a) <==> w.unregistered(o, a))
    ensures Find(p, w, o).Some? ==>
      var reg := Find(p, w, o).value;
      var describes := a in {"__name__", "__qualname__", "__module__", "__doc__"}
        || (w.kind(o).Module? && a in {"__version__", "__author__", "__all__"});
      AttrAllowed(p, w, o, a) <==>
        || a in reg.configure || describes
        || (!Included(reg, w, o, a) && MemberRegistered(p, w, o, a))
        || (Included(reg, w, o, a) && !Excludes(reg, w, o, a)
            && (w.member(o, a).Some? && w.kind(w.member(o, a).value).Module? && !reg.recursive ==>
                  MemberRegistered(p, w, o, a)))
  {
    if Find(p, w, o).Some? {
      var reg := Find(p, w, o).value;
      AnyOwned(reg.filters.includesQual, w, o, a);
      AnyOwned(reg.filters.excludesQual, w, o, a);
      hide Find, Any, QualifiedNames, Owned;
    }
  }

  // ----- registrations -----

  /** Which registration an object falls under. One of its own comes first, if the index has it for
      this very object. A module else falls under its nearest registered ancestor, and under nothing
      when that is not recursive. Everything else falls under its type's class, its own, or the
      first recursive registration over its type's module, in that order. */
  lemma FindExactly(p: Policy, w: World, o: Id, k: nat)
    requires w.kind(o).Module? ==>
      var n := w.kind(o).name; if n == [] then k == 0 else Nearest(p, n, |n| - 1, k)
    ensures var r := Find(p, w, o); var own := o in p.byModule && p.byModule[o].obj == o;
      && (w.kind(o).Nothing? ==> r.None?)
      && (w.kind(o).Super? ==> r == FirstClass(p, w.kind(o).rest))
      && (own && (w.kind(o).Module? || w.kind(o).Other?) ==> r == Some(p.byModule[o]))
      && (w.kind(o).Module? && !own && k > 0 ==>
            var reg := Get(p.modules, w.kind(o).name[..k]); r == if reg.value.recursive then reg else None)
      && ((w.kind(o).Module? && !own && k == 0) || (w.kind(o).Other? && !own) ==> r == FindByType(p, w, o))
  {
    if w.kind(o).Module? && w.kind(o).name != [] {
      var n := w.kind(o).name;
      FindsNearest(p, n, |n| - 1, k);
    }
  }

  /** Where the type decides. */
  lemma TypeExactly(p: Policy, w: World, o: Id)
    ensures var r := FindByType(p, w, o); var t := w.typeOf(o);
      var byType := t in p.byClass && p.byClass[t].obj == t;
      var byOwn := w.isType(o) && o in p.byClass && p.byClass[o].obj == o;
      && (byType ==> r == Some(p.byClass[t]))
      && (!byType && byOwn ==> r == Some(p.byClass[o]))
      && (!byType && !byOwn && w.moduleOf(t).None? ==> r.None?)
      && (!byType && !byOwn && w.moduleOf(t).Some? ==>
            (r.Some? <==> exists i :: FirstOver(p.modules, w.moduleOf(t).value, i) && r == Some(p.modules[i]))
            && (r.None? <==> forall i :: 0 <= i < |p.modules| ==> !Over(p.modules[i], w.moduleOf(t).value)))
  {
    if w.moduleOf(w.typeOf(o)).Some? { CoveringFirst(p.modules, w.moduleOf(w.typeOf(o)).value); }
  }

  /** A recursive registration of the module or of a package it is in. */
  predicate Over(reg: Reg, m: Name) { reg.recursive && reg.name <= m }

  predicate FirstOver(regs: seq<Reg>, m: Name, i: int) {
    0 <= i < |regs| && Over(regs[i], m) && forall j :: 0 <= j < i ==> !Over(regs[j], m)
  }

  lemma {:induction false} CoveringFirst(regs: seq<Reg>, m: Name)
    ensures Covering(regs, m).Some? <==> exists i :: FirstOver(regs, m, i) && Covering(regs, m) == Some(regs[i])
    ensures Covering(regs, m).None? <==> forall i :: 0 <= i < |regs| ==> !Over(regs[i], m)
  {
    if regs != [] {
      CoveringFirst(regs[1..], m);
      if Over(regs[0], m) {
        assert FirstOver(regs, m, 0);
      } else if Covering(regs[1..], m).Some? {
        var i :| FirstOver(regs[1..], m, i) && Covering(regs[1..], m) == Some(regs[1..][i]);
        assert forall j :: 0 < j < i + 1 ==> regs[j] == regs[1..][j - 1];
        assert FirstOver(regs, m, i + 1);
      } else {
        assert forall i :: 0 < i < |regs| ==> regs[i] == regs[1..][i - 1];
      }
    }
  }

  // ----- imports -----

  /** A module may be imported exactly when it is registered, or its nearest registered ancestor is
      recursive and excludes neither its dotted name nor its last part. */
  lemma ImportExactly(p: Policy, n: Name, k: nat)
    requires n != [] && Nearest(p, n, |n| - 1, k)
    ensures ImportAllowed(p, n) <==>
      || Registered(p, n)
      || (k > 0 && var reg := Get(p.modules, n[..k]).value;
          reg.recursive && !reg.filters.excludesQual(n) && !reg.filters.excludes(n[|n| - 1]))
  {
    FindsNearest(p, n, |n| - 1, k);
  }

  /** A from-import, for every module name and every member name, by the registration the module is
      read under: refused where the module is, where the include patterns take the name neither bare
      nor dotted, where it is excluded, and where it is a module that may not be imported; else the
      member, if there is one, found as an attribute or imported. */
  lemma MemberExactly(p: Policy, w: World, n: Name, a: string)
    ensures var r := ResolveMember(p, w, n, a);
      && (!ImportAllowed(p, n) ==> r == Refused)
      && (ImportAllowed(p, n) ==>
            MemberReg(p, n).Some? &&
            var reg := MemberReg(p, n).value;
            var included := reg.filters.includes(a) || reg.filters.includesQual(n + [a]);
            var excluded := reg.filters.excludes(a) || reg.filters.excludesQual(n + [a]);
            var found := ResolveModule(p, w, n);
            if a in {"__version__", "__author__", "__all__"} then r == Metadata
            else if !included || excluded then r == Refused
            else if found.None? then r == Missing
            else
              var v := if w.member(found.value, a).Some? then w.member(found.value, a) else w.importable(n + [a]);
              r == if v.None? then Missing
                   else if w.kind(v.value).Module? && !ImportAllowed(p, n + [a]) then Refused
                   else Value(v.value))
  {
    if ImportAllowed(p, n) && !Registered(p, n) { SearchesAgree(p, w, n); }
    hide ImportAllowed, ResolveModule, MemberReg;
  }

  // ----- the way down to a module -----

  /** The object found for one part under an object: its attribute, or else the import. */
  function Below(w: World, o: Id, path: Name, part: string): Option<Id> {
    if w.member(o, part).Some? then w.member(o, part) else w.importable(path + [part])
  }

  /** `objs` are the objects on the way from the first to the last along the parts. */
  predicate Way(w: World, path: Name, parts: seq<string>, objs: seq<Id>) {
    |objs| == |parts| + 1 &&
    forall i :: 0 <= i < |parts| ==> Below(w, objs[i], path + parts[..i], parts[i]) == Some(objs[i + 1])
  }

  /** Going down finds an object exactly when there is a way to it. */
  lemma {:induction false} DescendExactly(w: World, obj: Id, path: Name, parts: seq<string>, o: Id)
    ensures Descend(w, obj, path, parts) == Some(o) <==>
      exists objs :: Way(w, path, parts, objs) && objs[0] == obj && objs[|parts|] == o
    decreases |parts|
  {
    if parts == [] {
      if Descend(w, obj, path, parts) == Some(o) { assert Way(w, path, parts, [obj]); }
    } else {
      var next := Below(w, obj, path, parts[0]);
      if next.Some? { DescendExactly(w, next.value, path + [parts[0]], parts[1..], o); }
      if Descend(w, obj, path, parts) == Some(o) {
        var objs :| Way(w, path + [parts[0]], parts[1..], objs) && objs[0] == next.value && objs[|parts[1..]|] == o;
        WayLonger(w, obj, path, parts, objs);
      }
      if objs :| Way(w, path, parts, objs) && objs[0] == obj && objs[|parts|] == o {
        WayShorter(w, path, parts, objs);
        assert objs[1..][|parts[1..]|] == o;
      }
    }
  }

  /** The object a module name stands for: what is registered under it; and for a name that may be
      imported under an ancestor's registration, what there is a way to from that one's object. */
  lemma ModuleExactly(p: Policy, w: World, n: Name, o: Id)
    requires ImportAllowed(p, n)
    ensures Registered(p, n) ==> ResolveModule(p, w, n) == Some(Get(p.modules, n).value.obj)
    ensures !Registered(p, n) ==>
      var reg := FindAncestor(p, n, |n| - 1);
      && reg.Some? && reg.value.name < n
      && var parts := n[|reg.value.name|..];
         ResolveModule(p, w, n) == Some(o) <==>
         exists objs :: Way(w, reg.value.name, parts, objs) && objs[0] == reg.value.obj && objs[|parts|] == o
  {
    if !Registered(p, n) {
      SearchesAgree(p, w, n);
      var reg := FindAncestor(p, n, |n| - 1).value;
      DescendExactly(w, reg.obj, reg.name, n[|reg.name|..], o);
    }
  }

  lemma PathsAre(path: Name, parts: seq<string>, i: nat)
    requires i < |parts[..]| && parts != [] && i < |parts| - 1
    ensures path + [parts[0]] + parts[1..][..i] == path + parts[..i + 1] && parts[1..][i] == parts[i + 1]
  {
    assert parts[..i + 1] == [parts[0]] + parts[1..][..i];
  }

  lemma WayLonger(w: World, obj: Id, path: Name, parts: seq<string>, objs: seq<Id>)
    requires parts != [] && Way(w, path + [parts[0]], parts[1..], objs)
    requires Below(w, obj, path, parts[0]) == Some(objs[0])
    ensures Way(w, path, parts, [obj] + objs) && ([obj] + objs)[|parts|] == objs[|parts[1..]|]
  {
    var all := [obj] + objs;
    forall i | 0 <= i < |parts| ensures Below(w, all[i], path + parts[..i], parts[i]) == Some(all[i + 1]) {
      if i == 0 { assert path + parts[..0] == path; } else { PathsAre(path, parts, i - 1); }
    }
  }

  lemma WayShorter(w: World, path: Name, parts: seq<string>, objs: seq<Id>)
    requires parts != [] && Way(w, path, parts, objs)
    ensures Below(w, objs[0], path, parts[0]) == Some(objs[1]) && Way(w, path + [parts[0]], parts[1..], objs[1..])
  {
    assert path + parts[..0] == path;
    forall i | 0 <= i < |parts[1..]|
      ensures Below(w, objs[1..][i], path + [parts[0]] + parts[1..][..i], parts[1..][i]) == Some(objs[1..][i + 1])
    {
      PathsAre(path, parts, i);
    }
  }
}
