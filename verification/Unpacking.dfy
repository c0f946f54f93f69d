/** Targets that are taken apart by index: a chain of targets, or a tuple of them at any depth,
    with attributes among them. When the statements written for it come to what Python does, and
    a statement for which they do not. */
module Unpacking {
  import opened Options
  import opened Python
  import opened Evaluation
  import opened Rewriter
  import opened Preservation
  import opened RewriterLimits

  // ----- tuples of targets -----

  /** A target of names and of attributes of names, with no empty tuple in it. */
  predicate Named(t: Target)
    decreases t, 1
  {
    match t
    case TName(x) => !Reserved(x)
    case TAttr(o, _) => o.Name? && Readable(o.x)
    case TTup(us) => us != [] && NamedAll(us)
  }

  predicate NamedAll(ts: seq<Target>)
    decreases ts, 0
  {
    ts == [] || (Named(ts[0]) && NamedAll(ts[1..]))
  }

  function ItemsOf(v: Val, heap: seq<Obj>): seq<Val> {
    if v.TupV? then v.items else if IsList(v, heap) then heap[v.r].items else []
  }

  /** What Python does with such a target. */
  function Given(t: Target, v: Val, st: State): ER<Val>
    requires Named(t)
    decreases t, 1
  {
    match t
    case TName(x) => EOk(NoneV, Store(x, v, st))
    case TAttr(o, a) =>
      var r := Load(o.x, map[], st);
      if r.EOk? then WriteAttr(r.v, a, v, st) else r
    case TTup(us) =>
      if !Iterable(v, st.heap) then EExc(TypeError, st)
      else if |ItemsOf(v, st.heap)| != |us| then EExc(ValueError, st)
      else GivenEach(us, ItemsOf(v, st.heap), st)
  }

  function GivenEach(ts: seq<Target>, vs: seq<Val>, st: State): ER<Val>
    requires NamedAll(ts) && |ts| == |vs|
    decreases ts, 0
  {
    if ts == [] then EOk(NoneV, st) else
    var r := Given(ts[0], vs[0], st);
    if r.EOk? then GivenEach(ts[1..], vs[1..], r.st) else r
  }

  function GivenSame(ts: seq<Target>, v: Val, st: State): ER<Val>
    requires NamedAll(ts)
  {
    if ts == [] then EOk(NoneV, st) else
    var r := Given(ts[0], v, st);
    if r.EOk? then GivenSame(ts[1..], v, r.st) else r
  }

  lemma {:induction false} GivenIs(p: Program, n: nat, t: Target, v: Val, st: State)
    requires Named(t)
    ensures AssignTo(p, SOURCE, n, t, v, st) == Given(t, v, st)
    decreases t, 1
  {
    hide Grew, Ran, Load, Store, WriteAttr;
    match t
    case TName(_) =>
    case TAttr(o, _) => NameLoads(p, SOURCE, n, o.x, st);
    case TTup(us) =>
      if Iterable(v, st.heap) && |ItemsOf(v, st.heap)| == |us| { GivenEachIs(p, n, us, ItemsOf(v, st.heap), st); }
  }

  lemma {:induction false} GivenEachIs(p: Program, n: nat, ts: seq<Target>, vs: seq<Val>, st: State)
    requires NamedAll(ts) && |ts| == |vs|
    ensures AssignEach(p, SOURCE, n, ts, vs, st) == GivenEach(ts, vs, st)
    decreases ts, 0
  {
    hide Ran, AssignTo, Given;
    if ts != [] {
      GivenIs(p, n, ts[0], vs[0], st);
      var r := Given(ts[0], vs[0], st);
      if r.EOk? { GivenEachIs(p, n, ts[1..], vs[1..], r.st); }
    }
  }

  lemma {:induction false} GivenSameIs(p: Program, n: nat, ts: seq<Target>, v: Val, st: State)
    requires NamedAll(ts)
    ensures AssignSame(p, SOURCE, n, ts, v, st) == GivenSame(ts, v, st)
  {
    hide Ran, AssignTo, Given;
    if ts != [] {
      GivenIs(p, n, ts[0], v, st);
      var r := Given(ts[0], v, st);
      if r.EOk? { GivenSameIs(p, n, ts[1..], v, r.st); }
    }
  }

  // ----- when unpacking by index comes to the same -----

  /** The first of the names and attributes in a target is a name, or its object is known. */
  predicate Leads(t: Target, st: State)
    requires Named(t)
    decreases t
  {
    match t
    case TName(_) => true
    case TAttr(o, _) => Load(o.x, map[], st).EOk?
    case TTup(us) => assert NamedAll(us); Leads(us[0], st)
  }

  /** Every tuple of targets that is come to meets as many items as it has targets; or a value
      that yields none, and then no unknown name comes before its first item. */
  predicate Unpacks(t: Target, v: Val, st: State)
    requires Named(t)
    decreases t, 1
  {
    match t
    case TTup(us) =>
      if !Iterable(v, st.heap) then Leads(t, st)
      else |ItemsOf(v, st.heap)| == |us| && UnpacksEach(us, ItemsOf(v, st.heap), st)
    case _ => true
  }

  predicate UnpacksEach(ts: seq<Target>, vs: seq<Val>, st: State)
    requires NamedAll(ts) && |ts| == |vs|
    decreases ts, 0
  {
    ts == [] ||
    (Unpacks(ts[0], vs[0], st) &&
     (var r := Given(ts[0], vs[0], st); r.EOk? ==> UnpacksEach(ts[1..], vs[1..], r.st)))
  }

  predicate UnpacksSame(ts: seq<Target>, v: Val, st: State)
    requires NamedAll(ts)
  {
    ts == [] ||
    (Unpacks(ts[0], v, st) && (var r := Given(ts[0], v, st); r.EOk? ==> UnpacksSame(ts[1..], v, r.st)))
  }

  /** A result in a state with the flag set to `f`. */
  function Flagged(r: ER<Val>, f: bool): ER<Val> {
    match r
    case EOk(v, st) => EOk(v, st.(fits := f))
    case EExc(e, st) => EExc(e, st.(fits := f))
    case EDeep(st) => EDeep(st.(fits := f))
  }

  /** The flag is no part of what happens. */
  lemma {:induction false} UnpacksFlag(t: Target, v: Val, st: State, f: bool)
    requires Named(t)
    ensures Unpacks(t, v, st.(fits := f)) == Unpacks(t, v, st)
    ensures Given(t, v, st.(fits := f)) == Flagged(Given(t, v, st), f)
    decreases t, 1
  {
    hide Load, Store, WriteAttr, Leads, Iterable, ItemsOf;
    if t.TTup? {
      LeadsFlag(t, st, f);
      var vs := ItemsOf(v, st.heap);
      if Iterable(v, st.heap) && |vs| == |t.elts| { UnpacksEachFlag(t.elts, vs, st, f); }
    } else {
      LeafFlag(t, v, st, f);
    }
  }

  lemma LeafFlag(t: Target, v: Val, st: State, f: bool)
    requires Named(t) && !t.TTup?
    ensures Given(t, v, st.(fits := f)) == Flagged(Given(t, v, st), f)
  {
    if t.TName? {
      hide Load, WriteAttr;
    } else {
      LoadFlag(t.obj.x, st, f);
      hide Store, Load;
    }
  }

  lemma {:induction false} LeadsFlag(t: Target, st: State, f: bool)
    requires Named(t)
    ensures Leads(t, st.(fits := f)) == Leads(t, st)
    decreases t
  {
    if t.TTup? { LeadsFlag(t.elts[0], st, f); }
  }

  lemma {:induction false} UnpacksEachFlag(ts: seq<Target>, vs: seq<Val>, st: State, f: bool)
    requires NamedAll(ts) && |ts| == |vs|
    ensures UnpacksEach(ts, vs, st.(fits := f)) == UnpacksEach(ts, vs, st)
    ensures GivenEach(ts, vs, st.(fits := f)) == Flagged(GivenEach(ts, vs, st), f)
    decreases ts, 0
  {
    hide Given, Unpacks;
    if ts != [] {
      UnpacksFlag(ts[0], vs[0], st, f);
      var r := Given(ts[0], vs[0], st);
      if r.EOk? { UnpacksEachFlag(ts[1..], vs[1..], r.st, f); }
    }
  }

  lemma {:induction false} UnpacksSameFlag(ts: seq<Target>, v: Val, st: State, f: bool)
    requires NamedAll(ts)
    ensures UnpacksSame(ts, v, st.(fits := f)) == UnpacksSame(ts, v, st)
  {
    hide Given, Unpacks;
    if ts != [] {
      UnpacksFlag(ts[0], v, st, f);
      var r := Given(ts[0], v, st);
      if r.EOk? { UnpacksSameFlag(ts[1..], v, r.st, f); }
    }
  }

  // ----- the paths the rewritten code reads by -----

  /** `tmp[i][j]...` */
  predicate IsPath(from: Expr, x: string) {
    match from
    case Name(y) => y == x
    case Item(f, _) => IsPath(f, x)
    case _ => false
  }

  function PathIn(from: Expr, x: string, v: Val, heap: seq<Obj>): Option<Val> {
    match from
    case Name(y) => if y == x then Some(v) else None
    case Item(f, i) =>
      var w := PathIn(f, x, v, heap);
      if w.Some? && i < |ItemsOf(w.value, heap)| then Some(ItemsOf(w.value, heap)[i]) else None
    case _ => None
  }

  lemma {:induction false} PathRuns(q: Program, cfg: Config, n: nat, from: Expr, x: string, v: Val, st: State)
    requires IsPath(from, x) && Holds(st, x, v)
    ensures var r := Eval(q, cfg, n, from, map[], st);
      && r.st == st && (r.EOk? || (r.EExc? && (r.e == TypeError || r.e == IndexError)))
      && (PathIn(from, x, v, st.heap).Some? ==> r == EOk(PathIn(from, x, v, st.heap).value, st))
    decreases from
  {
    hide Grew, Regular;
    match from
    case Name(_) => NameLoads(q, cfg, n, x, st);
    case Item(f, _) => PathRuns(q, cfg, n, f, x, v, st);
  }

  /** One item further. */
  lemma ItemRuns(q: Program, cfg: Config, n: nat, from: Expr, i: nat, st: State)
    ensures var r := Eval(q, cfg, n, from, map[], st);
      Eval(q, cfg, n, Item(from, i), map[], st) == if r.EOk? then ReadItem(r.v, i, r.st) else r
  {
    hide Grew, ReadItem;
  }

  /** Assigning to names and attributes changes no list. */
  predicate ListsKept(a: seq<Obj>, b: seq<Obj>) {
    |a| == |b| && forall r :: 0 <= r < |a| && (a[r].ListO? || b[r].ListO?) ==> a[r] == b[r]
  }

  lemma ItemsKept(v: Val, a: seq<Obj>, b: seq<Obj>)
    requires ListsKept(a, b)
    ensures Iterable(v, a) == Iterable(v, b) && ItemsOf(v, a) == ItemsOf(v, b)
  {
  }

  lemma {:induction false} PathKept(from: Expr, x: string, v: Val, a: seq<Obj>, b: seq<Obj>)
    requires ListsKept(a, b)
    ensures PathIn(from, x, v, a) == PathIn(from, x, v, b)
    decreases from
  {
    hide ListsKept;
    if from.Item? {
      PathKept(from.of, x, v, a, b);
      var w := PathIn(from.of, x, v, a);
      if w.Some? { ItemsKept(w.value, a, b); }
    }
  }

  // ----- one name or attribute -----

  /** What the statement written for a name or an attribute does with what its path came to. */
  function LeafTarget(t: Target, item: ER<Val>, st: State): SR
    requires Named(t) && !t.TTup?
  {
    if t.TName? then
      if item.EOk? then SNext(Store(t.x, item.v, st)) else Broke(item)
    else
      var o := Load(t.obj.x, map[], st);
      if !o.EOk? then Broke(o)
      else if !item.EOk? then Broke(item)
      else
        var w := WriteAttr(o.v, t.attr, item.v, st);
        if w.EOk? then SNext(w.st) else Broke(w)
  }

  lemma LeafIs(q: Program, cfg: Config, n: nat, t: Target, from: Expr, st: State)
    requires Permits(cfg) && Named(t) && !t.TTup? && Regular(st) && Eval(q, cfg, n, from, map[], st).st == st
    ensures ExecAll(q, cfg, n, Emit(t, from), st) == LeafTarget(t, Eval(q, cfg, n, from, map[], st), st)
  {
    hide Load, Store, WriteAttr, Grew, Ran, Regular, Eval;
    if t.TName? {
      ExecOne(q, cfg, n, Assign([t], from), st);
      StoreName(q, cfg, n, t.x, from, st);
    } else {
      ExecOne(q, cfg, n, ExprS(GSetAttr(t.obj, t.attr, from)), st);
      NameLoads(q, cfg, n, t.obj.x, st);
      NameStays(t.obj.x);
      TargetOther(q, cfg, n, t.attr, t.obj, from, st);
    }
  }

  /** The temporary is still there after it, the lists are as they were, and no `ValueError`
      comes of it. */
  ghost predicate Stays(x: string, v: Val, st: State, r: SR) {
    && (r.SNext? || (r.SExc? && r.e != ValueError))
    && (r.SNext? ==> Holds(r.st, x, v) && ListsKept(st.heap, r.st.heap))
  }

  lemma LeafStays(t: Target, x: string, v: Val, item: ER<Val>, st: State)
    requires Named(t) && !t.TTup? && Holds(st, x, v) && item.st == st
    requires item.EOk? || (item.EExc? && item.e != ValueError)
    ensures Stays(x, v, st, LeafTarget(t, item, st))
  {
    var r := LeafTarget(t, item, st);
    if r.SNext? {
      if t.TName? { HoldsAfterStore(st, t.x, item.v, x, v); } else { HoldsAfter(st, r.st, x, v); }
    }
    hide Holds, Kept;
  }

  /** The rewritten statements tally with the source, whose flag is `f`. */
  ghost predicate Tallies(rs: ER<Val>, rt: SR, f: bool) {
    && !rs.EDeep? && rs.st == Strip(rt.st.(fits := f))
    && (rs.EOk? ==> rt.SNext? && rs.v == NoneV) && (rs.EExc? ==> rt.SExc? && rt.e == rs.e)
  }

  lemma LeafTallies(t: Target, w: Val, st: State, f: bool)
    requires Named(t) && !t.TTup?
    ensures Tallies(Given(t, w, Strip(st.(fits := f))), LeafTarget(t, EOk(w, st), st), f)
  {
    if t.TName? {
      StoreStripped(t.x, w, st.(fits := f));
      assert Store(t.x, w, st.(fits := f)) == Store(t.x, w, st).(fits := f);
      hide Plain, StripFrame, Strip, Store;
    } else {
      var o := Load(t.obj.x, map[], st);
      LoadFlag(t.obj.x, st, f);
      LoadSame(t.obj.x, st.(fits := f));
      if o.EOk? { WriteStripped(o.v, t.attr, w, st.(fits := f)); }
      hide Plain, StripFrame, Load;
    }
  }

  /** The flag is no part of what a name stands for. */
  lemma LoadFlag(x: string, st: State, fits: bool)
    ensures Load(x, map[], st.(fits := fits)) ==
      (var o := Load(x, map[], st); if o.EOk? then EOk(o.v, st.(fits := fits)) else EExc(o.e, st.(fits := fits)))
  {
  }

  // ----- the statements written for a target -----

  /** Unpacking by index never notices a wrong length as Python does, whatever is unpacked. */
  lemma {:induction false} EmitNeverValueError(
    q: Program, cfg: Config, n: nat, t: Target, from: Expr, x: string, v: Val, st: State)
    requires Permits(cfg) && Named(t) && IsPath(from, x) && Holds(st, x, v)
    ensures Stays(x, v, st, ExecAll(q, cfg, n, Emit(t, from), st))
    decreases t, 1
  {
    hide Holds, ExecAll, Eval, LeafTarget, Stays, EmitItems, ListsKept;
    if t.TTup? {
      EmitNeverEach(q, cfg, n, t.elts, from, 0, x, v, st);
    } else {
      HoldsRegular(st, x, v);
      PathRuns(q, cfg, n, from, x, v, st);
      LeafIs(q, cfg, n, t, from, st);
      LeafStays(t, x, v, Eval(q, cfg, n, from, map[], st), st);
    }
  }

  lemma StaysAt(x: string, v: Val, st: State)
    requires Holds(st, x, v)
    ensures Stays(x, v, st, SNext(st))
  {
  }

  lemma StaysThen(x: string, v: Val, st: State, r0: SR, r: SR)
    requires Stays(x, v, st, r0) && (r0.SNext? ==> Stays(x, v, r0.st, r))
    ensures Stays(x, v, st, if r0.SNext? then r else r0)
  {
    hide Holds;
  }

  lemma EmitFirst(q: Program, cfg: Config, n: nat, ts: seq<Target>, from: Expr, i: nat, st: State)
    requires ts != []
    ensures var r0 := ExecAll(q, cfg, n, Emit(ts[0], Item(from, i)), st);
      ExecAll(q, cfg, n, EmitItems(ts, from, i), st) ==
      if r0.SNext? then ExecAll(q, cfg, n, EmitItems(ts[1..], from, i + 1), r0.st) else r0
  {
    hide ExecAll, Emit;
    ExecJoin(q, cfg, n, Emit(ts[0], Item(from, i)), EmitItems(ts[1..], from, i + 1), st);
  }

  lemma NoneRuns(q: Program, cfg: Config, n: nat, st: State)
    ensures ExecAll(q, cfg, n, [], st) == SNext(st)
  {
  }

  lemma {:induction false} EmitNeverEach(
    q: Program, cfg: Config, n: nat, ts: seq<Target>, from: Expr, i: nat, x: string, v: Val, st: State)
    requires Permits(cfg) && NamedAll(ts) && IsPath(from, x) && Holds(st, x, v)
    ensures Stays(x, v, st, ExecAll(q, cfg, n, EmitItems(ts, from, i), st))
    decreases ts, 0
  {
    hide Holds, ExecAll, Emit, Stays, Named;
    if ts == [] {
      NoneRuns(q, cfg, n, st);
      StaysAt(x, v, st);
    } else {
      EmitFirst(q, cfg, n, ts, from, i, st);
      EmitNeverValueError(q, cfg, n, ts[0], Item(from, i), x, v, st);
      var r0 := ExecAll(q, cfg, n, Emit(ts[0], Item(from, i)), st);
      var r := ExecAll(q, cfg, n, EmitItems(ts[1..], from, i + 1), r0.st);
      if r0.SNext? {
        StaysHolds(x, v, st, r0);
        EmitNeverEach(q, cfg, n, ts[1..], from, i + 1, x, v, r0.st);
      }
      StaysThen(x, v, st, r0, r);
    }
  }

  lemma StaysHolds(x: string, v: Val, st: State, r: SR)
    requires Stays(x, v, st, r) && r.SNext?
    ensures Holds(r.st, x, v) && ListsKept(st.heap, r.st.heap)
  {
    hide Holds, ListsKept;
  }

  /** Where the path does not lead on: the first of the names and attributes decides. */
  lemma {:induction false} BadPath(q: Program, cfg: Config, n: nat, t: Target, from: Expr, st: State)
    requires Permits(cfg) && Named(t) && Regular(st) && Eval(q, cfg, n, from, map[], st) == EExc(TypeError, st)
    ensures var r := ExecAll(q, cfg, n, Emit(t, from), st);
      if Leads(t, st) then r == SExc(TypeError, st) else r.SExc? && r.e != TypeError
    decreases t
  {
    hide ExecAll, Eval, Regular;
    if t.TTup? {
      var us := t.elts;
      ItemRuns(q, cfg, n, from, 0, st);
      BadPath(q, cfg, n, us[0], Item(from, 0), st);
      EmitFirst(q, cfg, n, us, from, 0, st);
      hide Emit;
    } else {
      if t.TAttr? { LoadSame(t.obj.x, st); }
      hide Load;
      LeafIs(q, cfg, n, t, from, st);
    }
  }

  lemma {:induction false} LeadsSame(t: Target, st: State, f: bool)
    requires Named(t)
    ensures Leads(t, Strip(st.(fits := f))) == Leads(t, st)
    decreases t
  {
    match t
    case TName(_) =>
    case TAttr(o, _) => LoadFlag(o.x, st, f); LoadSame(o.x, st.(fits := f));
    case TTup(us) => LeadsSame(us[0], st, f);
  }

  /** The source raises, and the rewritten statements do not raise the same. */
  ghost predicate Clashes(rs: ER<Val>, rt: SR) {
    rs.EExc? && (rs.e == ValueError || (rt.SExc? && rt.e != rs.e))
  }

  /** Assigning the value at the end of a path, in the source and as written. */
  lemma {:induction false} EmitExactly(
    q: Program, cfg: Config, n: nat, t: Target, from: Expr, x: string, v: Val, st: State, f: bool)
    requires Permits(cfg) && Named(t) && IsPath(from, x) && Holds(st, x, v) && PathIn(from, x, v, st.heap).Some?
    ensures var w := PathIn(from, x, v, st.heap).value; var s := Strip(st.(fits := f));
      var rt := ExecAll(q, cfg, n, Emit(t, from), st);
      if Unpacks(t, w, s) then Tallies(Given(t, w, s), rt, f) else Clashes(Given(t, w, s), rt)
    decreases t, 1
  {
    hide Holds, Eval, ExecAll, PathIn, Tallies, Clashes, LeafTarget, Load, Store, WriteAttr;
    var w := PathIn(from, x, v, st.heap).value;
    HoldsRegular(st, x, v);
    PathRuns(q, cfg, n, from, x, v, st);
    if t.TTup? {
      EmitTuple(q, cfg, n, t, from, x, v, st, f);
    } else {
      LeafIs(q, cfg, n, t, from, st);
      LeafTallies(t, w, st, f);
    }
  }

  lemma StripHeap(st: State, f: bool)
    ensures Strip(st.(fits := f)).heap == st.heap
  {
  }

  lemma {:induction false} EmitTuple(
    q: Program, cfg: Config, n: nat, t: Target, from: Expr, x: string, v: Val, st: State, f: bool)
    requires Permits(cfg) && Named(t) && t.TTup? && IsPath(from, x) && Holds(st, x, v)
    requires PathIn(from, x, v, st.heap).Some?
    ensures var w := PathIn(from, x, v, st.heap).value; var s := Strip(st.(fits := f));
      var rt := ExecAll(q, cfg, n, Emit(t, from), st);
      if Unpacks(t, w, s) then Tallies(Given(t, w, s), rt, f) else Clashes(Given(t, w, s), rt)
    decreases t, 0
  {
    hide Holds, Eval, ExecAll, PathIn, Tallies, Strip, Leads, Iterable, ItemsOf, EmitItems, Regular;
    var w := PathIn(from, x, v, st.heap).value;
    var us := t.elts;
    HoldsRegular(st, x, v);
    StripHeap(st, f);
    if !Iterable(w, st.heap) {
      NoItemHere(q, cfg, n, t, from, x, v, st, f);
    } else if |ItemsOf(w, st.heap)| == |us| {
      assert ItemsOf(w, st.heap)[0..] == ItemsOf(w, st.heap);
      EmitEach(q, cfg, n, us, from, 0, x, v, st, f);
    }
  }

  lemma NoItemHere(q: Program, cfg: Config, n: nat, t: Target, from: Expr, x: string, v: Val, st: State, f: bool)
    requires Permits(cfg) && Named(t) && t.TTup? && IsPath(from, x) && Holds(st, x, v)
    requires PathIn(from, x, v, st.heap).Some?
    requires !Iterable(PathIn(from, x, v, st.heap).value, st.heap)
    ensures var rs := EExc(TypeError, Strip(st.(fits := f))); var rt := ExecAll(q, cfg, n, Emit(t, from), st);
      if Leads(t, Strip(st.(fits := f))) then Tallies(rs, rt, f) else Clashes(rs, rt)
  {
    hide Holds, Eval, ExecAll, PathIn, Strip, Leads, EmitItems, Regular;
    HoldsRegular(st, x, v);
    PathRuns(q, cfg, n, from, x, v, st);
    ItemRuns(q, cfg, n, from, 0, st);
    BadPath(q, cfg, n, t.elts[0], Item(from, 0), st);
    EmitFirst(q, cfg, n, t.elts, from, 0, st);
    LeadsSame(t, st, f);
    LeadsFirst(t, st);
  }

  lemma LeadsFirst(t: Target, st: State)
    requires Named(t) && t.TTup?
    ensures NamedAll(t.elts) && Named(t.elts[0]) && Leads(t, st) == Leads(t.elts[0], st)
  {
  }

  lemma PathItem(from: Expr, i: nat, x: string, v: Val, heap: seq<Obj>)
    requires PathIn(from, x, v, heap).Some? && i < |ItemsOf(PathIn(from, x, v, heap).value, heap)|
    ensures PathIn(Item(from, i), x, v, heap) == Some(ItemsOf(PathIn(from, x, v, heap).value, heap)[i])
  {
    hide ItemsOf;
  }

  /** The rest of a tuple, from its i-th item on. */
  lemma {:induction false} EmitEach(
    q: Program, cfg: Config, n: nat, ts: seq<Target>, from: Expr, i: nat, x: string, v: Val, st: State, f: bool)
    requires Permits(cfg) && NamedAll(ts) && IsPath(from, x) && Holds(st, x, v) && PathIn(from, x, v, st.heap).Some?
    requires i + |ts| == |ItemsOf(PathIn(from, x, v, st.heap).value, st.heap)|
    ensures var vs := ItemsOf(PathIn(from, x, v, st.heap).value, st.heap)[i..]; var s := Strip(st.(fits := f));
      var rt := ExecAll(q, cfg, n, EmitItems(ts, from, i), st);
      if UnpacksEach(ts, vs, s) then Tallies(GivenEach(ts, vs, s), rt, f) else Clashes(GivenEach(ts, vs, s), rt)
    decreases ts, 0
  {
    hide Holds, ExecAll, Emit, Strip, Given, Unpacks, Named, ListsKept, ItemsOf, PathIn;
    var w := PathIn(from, x, v, st.heap).value;
    var vs := ItemsOf(w, st.heap);
    if ts == [] {
      NoneRuns(q, cfg, n, st);
    } else {
      assert vs[i..][0] == vs[i] && vs[i..][1..] == vs[i + 1..];
      EmitFirst(q, cfg, n, ts, from, i, st);
      PathItem(from, i, x, v, st.heap);
      EmitExactly(q, cfg, n, ts[0], Item(from, i), x, v, st, f);
      EmitNeverValueError(q, cfg, n, ts[0], Item(from, i), x, v, st);
      var r0 := ExecAll(q, cfg, n, Emit(ts[0], Item(from, i)), st);
      if r0.SNext? {
        StaysHolds(x, v, st, r0);
        PathKept(from, x, v, st.heap, r0.st.heap);
        ItemsKept(w, st.heap, r0.st.heap);
        EmitEach(q, cfg, n, ts[1..], from, i + 1, x, v, r0.st, f);
      }
    }
  }

  /** A chain of targets, each given the value of the temporary. */
  lemma {:induction false} EmitSame(
    q: Program, cfg: Config, n: nat, ts: seq<Target>, x: string, v: Val, st: State, f: bool)
    requires Permits(cfg) && NamedAll(ts) && Holds(st, x, v)
    ensures var s := Strip(st.(fits := f)); var rt := ExecAll(q, cfg, n, EmitAll(ts, Name(x)), st);
      && !(rt.SExc? && rt.e == ValueError)
      && if UnpacksSame(ts, v, s) then Tallies(GivenSame(ts, v, s), rt, f) else Clashes(GivenSame(ts, v, s), rt)
  {
    hide Holds, ExecAll, Emit, Strip, Given, Unpacks, Named, ListsKept;
    if ts == [] {
      NoneRuns(q, cfg, n, st);
    } else {
      var e0 := Emit(ts[0], Name(x));
      ExecJoin(q, cfg, n, e0, EmitAll(ts[1..], Name(x)), st);
      EmitExactly(q, cfg, n, ts[0], Name(x), x, v, st, f);
      EmitNeverValueError(q, cfg, n, ts[0], Name(x), x, v, st);
      var r0 := ExecAll(q, cfg, n, e0, st);
      if r0.SNext? {
        StaysHolds(x, v, st, r0);
        EmitSame(q, cfg, n, ts[1..], x, v, r0.st, f);
      }
    }
  }

  // ----- whole statements -----

  lemma ChainTarget(q: Program, cfg: Config, n: nat, s: Stmt, k: nat, t: State)
    requires s.Assign? && HasAttr(s.targets) && NeedsTmp(s.targets)
    ensures var tv := Eval(q, cfg, n, RwE(s.value), map[], t);
      ExecAll(q, cfg, n, RwS(s, k).ss, t) ==
      if tv.EOk? then ExecAll(q, cfg, n, EmitAll(s.targets, Name(Tmp(k))), Store(Tmp(k), tv.v, tv.st)) else Broke(tv)
  {
    hide Exec, ExecAll, RwS, EmitAll, Eval, Tmp, RwE;
    var x := Tmp(k);
    var first := Assign([TName(x)], RwE(s.value));
    ChainWritten(s, k);
    ExecJoin(q, cfg, n, [first], EmitAll(s.targets, Name(x)), t);
    ExecOne(q, cfg, n, first, t);
    StoreName(q, cfg, n, x, RwE(s.value), t);
  }

  lemma StoredFlag(x: string, v: Val, t: State, fits: bool)
    requires Strip(Store(x, v, t)) == Strip(t)
    ensures Strip(Store(x, v, t).(fits := fits)) == Strip(t).(fits := fits)
  {
    hide Plain, StripFrame;
  }

  lemma TallyAgrees(rs: ER<Val>, rt: SR, f: bool)
    requires Tallies(rs, rt, f)
    ensures Agree(Ended(rs), rt)
  {
    hide Plain, StripFrame;
  }

  lemma ClashDiffers(rs: ER<Val>, rt: SR)
    requires Clashes(rs, rt) && !(rt.SExc? && rt.e == ValueError)
    ensures !Agree(Ended(rs), rt)
  {
    hide Strip;
  }

  /** The value is there: the chain in the source, with its flag, and as written. */
  lemma ChainCompare(p: Program, cfg: Config, n: nat, ts: seq<Target>, x: string, v: Val, t: State, f: bool)
    requires Permits(cfg) && NamedAll(ts) && Spare(x) && Regular(t)
    ensures Agree(Ended(AssignSame(p, SOURCE, n, ts, v, Strip(t).(fits := f))),
                  ExecAll(Rewrite(p), cfg, n, EmitAll(ts, Name(x)), Store(x, v, t))) <==>
      UnpacksSame(ts, v, Strip(t))
  {
    hide Rewrite, ExecAll, EmitAll, Store, Strip, Holds, Agree, Tallies, Clashes, AssignSame, GivenSame, UnpacksSame;
    hide NamedAll, Regular, Spare;
    StoreTmp(x, v, t);
    StoredFlag(x, v, t, f);
    var u := Store(x, v, t);
    GivenSameIs(p, n, ts, v, Strip(t).(fits := f));
    UnpacksSameFlag(ts, v, Strip(t), f);
    EmitSame(Rewrite(p), cfg, n, ts, x, v, u, f);
    var rs := GivenSame(ts, v, Strip(t).(fits := f));
    var rt := ExecAll(Rewrite(p), cfg, n, EmitAll(ts, Name(x)), u);
    if UnpacksSame(ts, v, Strip(t)) { TallyAgrees(rs, rt, f); } else { ClashDiffers(rs, rt); }
  }

  /** A chain of targets, or a tuple of them at any depth, with attributes of names among them,
      whatever the value comes to: the rewritten statements agree exactly when evaluating it
      raises, or it unpacks. */
  lemma TupleTargetExactly(p: Program, cfg: Config, n: nat, s: Stmt, k: nat, t: State)
    requires Context(p, t) && Lenient(cfg) && !t.meter.refused
    requires s.Assign? && AcceptsE(s.value) && NamedAll(s.targets) && HasAttr(s.targets) && NeedsTmp(s.targets)
    requires var rv := Eval(p, SOURCE, n, s.value, map[], Strip(t)); !rv.EDeep? && rv.st.fits
    ensures var rv := Eval(p, SOURCE, n, s.value, map[], Strip(t));
      Agree(Exec(p, SOURCE, n, s, Strip(t)), ExecAll(Rewrite(p), cfg, n, RwS(s, k).ss, t)) <==>
      rv.EExc? || UnpacksSame(s.targets, rv.v, rv.st)
  {
    hide HasAttr, NeedsTmp, Eval, Exec, ExecAll, Rewrite, RwE, RwS, NamedAll, UnpacksSame, Context, AcceptsE, Lenient;
    hide Tmp, Regular, Spare, Plain, StripFrame, Store, AssignSame, EmitAll, ShapedBy, Permits;
    var q := Rewrite(p);
    SameE(p, cfg, n, s.value, t);
    ChainIs(p, n, s, Strip(t));
    ChainTarget(q, cfg, n, s, k, t);
    var rv, tv := Eval(p, SOURCE, n, s.value, map[], Strip(t)), Eval(q, cfg, n, RwE(s.value), map[], t);
    TmpSpare(k);
    LenientPermits(cfg);
    if tv.EOk? {
      var f := Clear(rv.st, ShapedBy(s.targets, rv.v)).fits;
      ChainCompare(p, cfg, n, s.targets, Tmp(k), tv.v, tv.st, f);
    }
  }

  /** `x.a, y = (None,)`: Python says the length is wrong, the rewritten code finds no item. */
  const ONE_FOR_TWO: Stmt := Assign([TTup([TAttr(Name("x"), "a"), TName("y")])], Tup([Lit(NoneC)]))

  const ONE_NAME: State := State(map["x" := RefV(0)], Top, [Inst(map[])], [], true, ZERO)

  lemma OneForTwo()
    ensures var ts := ONE_FOR_TWO.targets;
      && NamedAll(ts) && HasAttr(ts) && NeedsTmp(ts) && AcceptsTs(ts) && AcceptsE(ONE_FOR_TWO.value)
      && !UnpacksSame(ts, TupV([NoneV]), ONE_NAME)
  {
    var us := ONE_FOR_TWO.targets[0].elts;
    assert Readable("x") && !Reserved("y") && Writable("y");
    assert us[1..] == [TName("y")] && us[1..][1..] == [] && ONE_FOR_TWO.targets[1..] == [];
    assert AcceptsTs(us[1..]) && AcceptsTs(us) && NamedAll(us[1..]) && NamedAll(us) && HasAttr(us);
    assert ONE_FOR_TWO.value.elts[1..] == [];
    assert |ItemsOf(TupV([NoneV]), ONE_NAME.heap)| == 1;
    assert !Unpacks(ONE_FOR_TWO.targets[0], TupV([NoneV]), ONE_NAME);
  }

  lemma OneYielded(p: Program)
    ensures Eval(p, SOURCE, 0, ONE_FOR_TWO.value, map[], ONE_NAME) == EOk(TupV([NoneV]), ONE_NAME)
  {
    hide Grew, EvalAll;
    assert Eval(p, SOURCE, 0, Lit(NoneC), map[], ONE_NAME) == EOk(NoneV, ONE_NAME);
    EvalOne(p, SOURCE, 0, Lit(NoneC), map[], ONE_NAME);
  }

  lemma WrongLengthDiffers()
    ensures var p := Program([], [ONE_FOR_TWO]);
      !Agree(Exec(p, SOURCE, 0, ONE_FOR_TWO, ONE_NAME),
             ExecAll(Rewrite(p), SOURCE, 0, RwS(ONE_FOR_TWO, 0).ss, WithGates(ONE_NAME)))
  {
    var p := Program([], [ONE_FOR_TWO]);
    StartsRegular(ONE_NAME);
    OneForTwo();
    hide Regular, NamedAll, HasAttr, NeedsTmp, AcceptsTs, AcceptsE, UnpacksSame, Strip;
    assert AcceptsS(ONE_FOR_TWO) && OwnS(ONE_FOR_TWO);
    OneStatement(ONE_FOR_TWO, WithGates(ONE_NAME));
    OneYielded(p);
    SourceLenient();
    hide Eval, Exec, ExecAll, Rewrite, RwS, Agree, Context, Lenient;
    TupleTargetExactly(p, SOURCE, 0, ONE_FOR_TWO, 0, WithGates(ONE_NAME));
  }
}
