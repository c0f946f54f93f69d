/** The policy as the object it is: registrations update its dictionaries and its indexes in
    place, and loading one rebuilds the indexes. */
module PolicyObject {
  import opened Policy
  import opened PolicyIndex
  import opened PolicyTransit

  class PolicyObject {
    var classes: seq<Reg>
    var modules: seq<Reg>
    var byClass: map<Id, Reg>
    var byModule: map<Id, Reg>

    ghost function Now(): Policy
      reads this
    {
      Policy(classes, modules, byClass, byModule)
    }

    ghost predicate Valid()
      reads this
    {
      Distinct(classes) && Distinct(modules) && IndexRight(Now())
    }

    constructor ()
      ensures Valid() && classes == [] && modules == []
    {
      classes, modules, byClass, byModule := [], [], map[], map[];
    }

    /** `cls` and `module`: the index stays right exactly when the registration is in order. */
    method RegisterCls(reg: Reg)
      requires Valid()
      modifies this
      ensures Now() == RegisterClass(old(Now()), reg)
      ensures Valid() <==> InOrder(old(classes), reg)
    {
      PutDistinct(classes, reg);
      RegisterExactly(classes, byClass, reg);
      classes := Assign(classes, reg);
      byClass := byClass[reg.obj := reg];
    }

    method RegisterMod(reg: Reg)
      requires Valid()
      modifies this
      ensures Now() == RegisterModule(old(Now()), reg)
      ensures Valid() <==> InOrder(old(modules), reg)
    {
      PutDistinct(modules, reg);
      RegisterExactly(modules, byModule, reg);
      modules := Assign(modules, reg);
      byModule := byModule[reg.obj := reg];
    }

    /** A dictionary's assignment. */
    static method Assign(regs: seq<Reg>, reg: Reg) returns (r: seq<Reg>)
      ensures r == Put(regs, reg)
    {
      var i := 0;
      PutAt(regs, reg);
      while i < |regs|
        invariant 0 <= i <= |regs|
        invariant forall j :: 0 <= j < i ==> regs[j].name != reg.name
      {
        if regs[i].name == reg.name {
          assert At(regs, reg.name) == i;
          return regs[..i] + [reg] + regs[i + 1..];
        }
        i := i + 1;
      }
      return regs + [reg];
    }

    /** `__setstate__`: the registrations as they arrived, and the indexes from them. */
    method SetState(classes: seq<Reg>, modules: seq<Reg>)
      requires Distinct(classes) && Distinct(modules)
      modifies this
      ensures Valid() && Now() == Policy(classes, modules, Rebuild(classes), Rebuild(modules))
    {
      this.classes, this.modules := classes, modules;
      byClass := Index(classes);
      byModule := Index(modules);
      RebuildIndexed(classes);
      RebuildIndexed(modules);
    }

    static method Index(regs: seq<Reg>) returns (index: map<Id, Reg>)
      ensures index == Rebuild(regs)
    {
      index := map[];
      var i := 0;
      while i < |regs|
        invariant 0 <= i <= |regs|
        invariant index == Rebuild(regs[..i])
      {
        assert regs[..i + 1][..i] == regs[..i];
        index := index[regs[i].obj := regs[i]];
        i := i + 1;
      }
      assert regs[..i] == regs;
    }
  }
}
