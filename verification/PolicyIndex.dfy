/** The indexes by identity: kept up by each registration, dropped when a policy is sent to
    another process, and rebuilt there from the registrations and the identities objects have
    in that process. Against them stands a scan: the last registration of the object, in the
    order of the dictionary. */
module PolicyIndex {
  import opened Options
  import opened Names
  import opened Policy

  function Scan(regs: seq<Reg>, o: Id): (r: Option<Reg>)
    ensures r.Some? ==> r.value in regs && r.value.obj == o
  {
    if regs == [] then None
    else if regs[|regs| - 1].obj == o then Some(regs[|regs| - 1])
    else Scan(regs[..|regs| - 1], o)
  }

  /** Assigning to a dictionary's key: the key keeps its place. */
  function Put(regs: seq<Reg>, reg: Reg): seq<Reg> {
    if regs == [] then [reg]
    else if regs[0].name == reg.name then [reg] + regs[1..]
    else [regs[0]] + Put(regs[1..], reg)
  }

  ghost predicate Distinct(regs: seq<Reg>) {
    forall i, j :: 0 <= i < j < |regs| ==> regs[i].name != regs[j].name
  }

  function Lookup(index: map<Id, Reg>, o: Id): Option<Reg> { if o in index then Some(index[o]) else None }

  /** The index and the scan agree on every object. */
  ghost predicate Indexed(regs: seq<Reg>, index: map<Id, Reg>) { forall o :: Lookup(index, o) == Scan(regs, o) }

  function RegisterModule(p: Policy, reg: Reg): Policy {
    p.(modules := Put(p.modules, reg), byModule := p.byModule[reg.obj := reg])
  }

  function RegisterClass(p: Policy, reg: Reg): Policy {
    p.(classes := Put(p.classes, reg), byClass := p.byClass[reg.obj := reg])
  }

  /** Where a name is kept. */
  function At(regs: seq<Reg>, n: Name): (i: nat)
    ensures i <= |regs|
    ensures i < |regs| ==> regs[i].name == n
    ensures forall j :: 0 <= j < i ==> regs[j].name != n
  {
    if regs == [] || regs[0].name == n then 0 else 1 + At(regs[1..], n)
  }

  /** What a registration must meet: its name is new; or no later name has its object, and the
      name had that object before, or else the object it had has a later name. */
  ghost predicate InOrder(regs: seq<Reg>, reg: Reg) {
    var i := At(regs, reg.name);
    i < |regs| ==>
      && Scan(regs[i + 1..], reg.obj).None?
      && (regs[i].obj == reg.obj || Scan(regs[i + 1..], regs[i].obj).Some?)
  }

  // ----- scanning -----

  lemma {:induction false} ScanConcat(a: seq<Reg>, b: seq<Reg>, o: Id)
    ensures Scan(a + b, o) == if Scan(b, o).Some? then Scan(b, o) else Scan(a, o)
    decreases |b|
  {
    if b == [] {
      assert a + b == a;
    } else {
      assert (a + b)[..|a + b| - 1] == a + b[..|b| - 1];
      ScanConcat(a, b[..|b| - 1], o);
    }
  }

  lemma ScanOne(reg: Reg, o: Id)
    ensures Scan([reg], o) == if reg.obj == o then Some(reg) else None
  {
    assert [reg][..0] == [];
  }

  lemma Shifted(h: Reg, rest: seq<Reg>, i: nat, reg: Reg)
    requires i < |rest|
    ensures var regs := [h] + rest;
      regs[..i + 1] + [reg] + regs[i + 2..] == [h] + (rest[..i] + [reg] + rest[i + 1..])
  {
    var regs := [h] + rest;
    assert regs[..i + 1] == [h] + rest[..i];
    assert regs[i + 2..] == rest[i + 1..];
  }

  lemma {:induction false} PutAt(regs: seq<Reg>, reg: Reg)
    ensures var i := At(regs, reg.name);
      Put(regs, reg) == if i < |regs| then regs[..i] + [reg] + regs[i + 1..] else regs + [reg]
  {
    if regs != [] {
      var h, rest := regs[0], regs[1..];
      assert regs == [h] + rest;
      if h.name == reg.name {
        assert regs[..0] == [];
      } else {
        PutAt(rest, reg);
        var i := At(rest, reg.name);
        hide Put, At;
        if i < |rest| { Shifted(h, rest, i, reg); }
      }
    }
  }

  lemma PutDistinct(regs: seq<Reg>, reg: Reg)
    requires Distinct(regs)
    ensures Distinct(Put(regs, reg))
  {
    PutAt(regs, reg);
    var i := At(regs, reg.name);
    hide Put, At;
    if i < |regs| {
      assert regs[..i] + [reg] + regs[i + 1..] == regs[i := reg];
      ReplacedDistinct(regs, i, reg);
    } else {
      AddedDistinct(regs, reg);
    }
  }

  lemma ReplacedDistinct(regs: seq<Reg>, i: nat, reg: Reg)
    requires Distinct(regs) && i < |regs| && regs[i].name == reg.name
    ensures Distinct(regs[i := reg])
  {
    assert forall j :: 0 <= j < |regs| ==> regs[i := reg][j].name == regs[j].name;
  }

  lemma AddedDistinct(regs: seq<Reg>, reg: Reg)
    requires Distinct(regs) && (forall j :: 0 <= j < |regs| ==> regs[j].name != reg.name)
    ensures Distinct(regs + [reg])
  {
  }

  /** The scan after a registration. */
  lemma ScanPut(regs: seq<Reg>, reg: Reg, o: Id)
    ensures var i := At(regs, reg.name);
      Scan(Put(regs, reg), o) ==
      if i == |regs| then (if reg.obj == o then Some(reg) else Scan(regs, o))
      else if Scan(regs[i + 1..], o).Some? then Scan(regs[i + 1..], o)
      else if reg.obj == o then Some(reg)
      else Scan(regs[..i], o)
  {
    hide Scan, Put, At;
    PutAt(regs, reg);
    ScanOne(reg, o);
    var i := At(regs, reg.name);
    if i < |regs| {
      ScanConcat(regs[..i] + [reg], regs[i + 1..], o);
      ScanConcat(regs[..i], [reg], o);
    } else {
      ScanConcat(regs, [reg], o);
    }
  }

  lemma ScanSplit(regs: seq<Reg>, i: nat, o: Id)
    requires i < |regs|
    ensures Scan(regs, o) ==
      if Scan(regs[i + 1..], o).Some? then Scan(regs[i + 1..], o)
      else if regs[i].obj == o then Some(regs[i])
      else Scan(regs[..i], o)
  {
    hide Scan;
    assert regs == regs[..i] + [regs[i]] + regs[i + 1..];
    ScanOne(regs[i], o);
    ScanConcat(regs[..i] + [regs[i]], regs[i + 1..], o);
    ScanConcat(regs[..i], [regs[i]], o);
  }

  // ----- one registration -----

  /** A registration keeps the index right exactly when it is in order. */
  lemma RegisterExactly(regs: seq<Reg>, index: map<Id, Reg>, reg: Reg)
    requires Distinct(regs) && Indexed(regs, index)
    ensures Indexed(Put(regs, reg), index[reg.obj := reg]) <==> InOrder(regs, reg)
  {
    if InOrder(regs, reg) {
      forall o ensures Lookup(index[reg.obj := reg], o) == Scan(Put(regs, reg), o) {
        InOrderAt(regs, index, reg, o);
      }
    } else {
      OutOfOrder(regs, index, reg);
    }
  }

  lemma InOrderAt(regs: seq<Reg>, index: map<Id, Reg>, reg: Reg, o: Id)
    requires Indexed(regs, index) && InOrder(regs, reg)
    ensures Lookup(index[reg.obj := reg], o) == Scan(Put(regs, reg), o)
  {
    hide Scan, Put, At;
    ScanPut(regs, reg, o);
    var i := At(regs, reg.name);
    if i < |regs| { ScanSplit(regs, i, o); }
  }

  /** Out of order, the index goes wrong for the object's own lookup or for the one the name
      had before. */
  lemma OutOfOrder(regs: seq<Reg>, index: map<Id, Reg>, reg: Reg)
    requires Distinct(regs) && Indexed(regs, index) && !InOrder(regs, reg)
    ensures !Indexed(Put(regs, reg), index[reg.obj := reg])
  {
    hide Put, At, Scan, Indexed;
    var i := At(regs, reg.name);
    if Scan(regs[i + 1..], reg.obj).Some? {
      ScanPut(regs, reg, reg.obj);
      OtherName(regs, i, Scan(regs[i + 1..], reg.obj).value);
      NotIndexed(Put(regs, reg), index[reg.obj := reg], reg.obj);
    } else {
      var o := regs[i].obj;
      ScanPut(regs, reg, o);
      ScanSplit(regs, i, o);
      IndexedAt(regs, index, o);
      if Scan(regs[..i], o).Some? { OtherName(regs, i, Scan(regs[..i], o).value); }
      NotIndexed(Put(regs, reg), index[reg.obj := reg], o);
    }
  }

  lemma IndexedAt(regs: seq<Reg>, index: map<Id, Reg>, o: Id)
    requires Indexed(regs, index)
    ensures Lookup(index, o) == Scan(regs, o)
  {
  }

  lemma NotIndexed(regs: seq<Reg>, index: map<Id, Reg>, o: Id)
    requires Lookup(index, o) != Scan(regs, o)
    ensures !Indexed(regs, index)
  {
  }

  lemma OtherName(regs: seq<Reg>, i: nat, r: Reg)
    requires Distinct(regs) && i < |regs| && (r in regs[i + 1..] || r in regs[..i])
    ensures r.name != regs[i].name
  {
  }

  const OPEN: Filters := Filters(x => true, x => true, x => false, x => false)

  /** Two modules, and then the first name again with the second's object. */
  const FIRST: Reg := Reg(["a"], 1, false, OPEN, {})

  const SECOND: Reg := Reg(["b"], 2, false, OPEN, {})

  const AGAIN: Reg := Reg(["a"], 2, true, OPEN, {})

  /** The index then gives the first name's registration for the object, and the scan the
      second's: the rebuilt index would differ from the kept one. */
  lemma StaleIndex()
    ensures var regs := RegisterAll([], [FIRST, SECOND, AGAIN]); var index := IndexAll(map[], [FIRST, SECOND, AGAIN]);
      Lookup(index, 2) == Some(AGAIN) && Scan(regs, 2) == Some(SECOND) && !Indexed(regs, index)
  {
    var all := [FIRST, SECOND, AGAIN];
    assert all[..2] == [FIRST, SECOND] && all[..2][..1] == [FIRST] && [FIRST][..0] == [];
    assert RegisterAll([], [FIRST]) == [FIRST];
    PutSecond();
    assert RegisterAll([], all[..2]) == [FIRST, SECOND];
    assert RegisterAll([], all) == [AGAIN, SECOND];
    assert Scan([AGAIN, SECOND], 2) == Some(SECOND);
    assert Lookup(IndexAll(map[], all), 2) == Some(AGAIN);
    NotIndexed([AGAIN, SECOND], IndexAll(map[], all), 2);
  }

  lemma PutSecond()
    ensures Put([FIRST], SECOND) == [FIRST, SECOND] && Put([FIRST, SECOND], AGAIN) == [AGAIN, SECOND]
  {
    assert [FIRST][1..] == [] && [FIRST, SECOND][1..] == [SECOND];
    assert Put([], SECOND) == [SECOND];
  }

  // ----- every sequence of registrations -----

  function RegisterAll(regs: seq<Reg>, more: seq<Reg>): seq<Reg>
    decreases |more|
  {
    if more == [] then regs else Put(RegisterAll(regs, more[..|more| - 1]), more[|more| - 1])
  }

  function IndexAll(index: map<Id, Reg>, more: seq<Reg>): map<Id, Reg>
    decreases |more|
  {
    if more == [] then index else IndexAll(index, more[..|more| - 1])[more[|more| - 1].obj := more[|more| - 1]]
  }

  ghost predicate AllInOrder(regs: seq<Reg>, more: seq<Reg>) {
    forall i :: 0 <= i < |more| ==> InOrder(RegisterAll(regs, more[..i]), more[i])
  }

  lemma {:induction false} AllDistinct(more: seq<Reg>)
    ensures Distinct(RegisterAll([], more))
    decreases |more|
  {
    if more != [] {
      AllDistinct(more[..|more| - 1]);
      PutDistinct(RegisterAll([], more[..|more| - 1]), more[|more| - 1]);
    }
  }

  ghost predicate RightAfter(more: seq<Reg>) { Indexed(RegisterAll([], more), IndexAll(map[], more)) }

  ghost predicate RightThroughout(more: seq<Reg>) { forall i :: 0 <= i <= |more| ==> RightAfter(more[..i]) }

  lemma RightSplit(more: seq<Reg>)
    requires more != []
    ensures RightThroughout(more) <==> RightThroughout(more[..|more| - 1]) && RightAfter(more)
  {
    hide RightAfter;
    var front := more[..|more| - 1];
    assert forall i :: 0 <= i <= |front| ==> more[..i] == front[..i];
    assert more[..|more|] == more;
  }

  lemma RightNext(more: seq<Reg>)
    requires more != [] && RightAfter(more[..|more| - 1])
    ensures RightAfter(more) <==> InOrder(RegisterAll([], more[..|more| - 1]), more[|more| - 1])
  {
    hide Indexed, InOrder;
    var front := more[..|more| - 1];
    AllDistinct(front);
    RegisterExactly(RegisterAll([], front), IndexAll(map[], front), more[|more| - 1]);
  }

  /** The index agrees with the scan all the way through a sequence of registrations exactly
      when each of them is in order. */
  lemma {:induction false} IndexedThroughout(more: seq<Reg>)
    ensures RightThroughout(more) <==> AllInOrder([], more)
    decreases |more|
  {
    hide RightAfter, InOrder;
    if more == [] {
      StartsIndexed();
      assert more[..0] == [];
    } else {
      var front := more[..|more| - 1];
      IndexedThroughout(front);
      RightSplit(more);
      InOrderSplit(more);
      if RightThroughout(front) {
        assert front[..|front|] == front;
        RightNext(more);
      }
      hide RightThroughout, AllInOrder;
    }
  }

  lemma StartsIndexed()
    ensures RightAfter([])
  {
  }

  lemma InOrderSplit(more: seq<Reg>)
    requires more != []
    ensures var front := more[..|more| - 1];
      AllInOrder([], more) <==> AllInOrder([], front) && InOrder(RegisterAll([], front), more[|more| - 1])
  {
    hide InOrder, RegisterAll;
    var front := more[..|more| - 1];
    assert forall i :: 0 <= i <= |front| ==> more[..i] == front[..i];
    assert front[..|front|] == front;
  }

  // ----- rebuilding -----

  function Rebuild(regs: seq<Reg>): map<Id, Reg> {
    if regs == [] then map[]
    else Rebuild(regs[..|regs| - 1])[regs[|regs| - 1].obj := regs[|regs| - 1]]
  }

  lemma {:induction false} RebuildIndexed(regs: seq<Reg>)
    ensures Indexed(regs, Rebuild(regs))
  {
    if regs != [] { RebuildIndexed(regs[..|regs| - 1]); }
  }

  /** A right index is the rebuilt one. */
  lemma OneIndex(regs: seq<Reg>, index: map<Id, Reg>)
    ensures Indexed(regs, index) <==> index == Rebuild(regs)
  {
    RebuildIndexed(regs);
    hide Rebuild, Scan;
    if Indexed(regs, index) {
      forall o ensures (o in index <==> o in Rebuild(regs)) && (o in index ==> index[o] == Rebuild(regs)[o]) {
        assert Lookup(index, o) == Scan(regs, o) == Lookup(Rebuild(regs), o);
      }
    }
  }
}
