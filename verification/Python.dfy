/** A small Python: the part of the language the rewriter's two theorems are about.

    Programs have named functions, `while`, `for`, `try`/`except`/`finally`, list
    comprehensions, attributes, tuple targets and augmented assignment. The same
    language holds what the rewriter writes: the calls of the gates are
    expressions of their own (`GCheckpoint` stands for `__st_checkpoint__()`,
    and so on), and everything else is ordinary Python. A gate is called by its
    name, as any function is, and the name may stand for something else.

    A function's definition is kept in a table, and a `def` statement names its
    entry, as a code object is a constant of the code around it.

    Evaluation takes fuel, spent only by the iterations of a loop and by calls:
    a run that is not `Deep` never ran out, and `MoreFuel` (in the module of that
    name) says such a run is the same with any more of it. */
module Python {
  import opened Options

  // ----- syntax -----

  datatype Const = NoneC | BoolC(b: bool) | IntC(i: int) | StrC(s: string)

  datatype Op = Add | Sub | Less | Equal

  datatype Expr =
    | Lit(c: Const)
    | Name(x: string)
    | Attr(obj: Expr, attr: string)
    | Bin(op: Op, left: Expr, right: Expr)
    | Or(left: Expr, right: Expr)
    | Tup(elts: seq<Expr>)
    | Item(of: Expr, index: nat)
    | New
    | Push(list: Expr, item: Expr)
    | Call(fn: Expr, args: seq<Expr>)
    | Comp(elt: Expr, clauses: seq<Clause>)
    // what the rewriter puts in
    | GCheckpoint
    | GGetAttr(obj: Expr, attr: string)
    | GSetAttr(obj: Expr, attr: string, value: Expr)
    | GCapture(f: Expr)

  /** `for target in iter if ifs[0] if ifs[1] ...` inside a comprehension. */
  datatype Clause = Clause(target: string, iter: Expr, ifs: seq<Expr>)

  datatype Target = TName(x: string) | TAttr(obj: Expr, attr: string) | TTup(elts: seq<Target>)

  /** What an `except` clause names: nothing, `Exception`, or one class of the code's own. */
  datatype Catch = Bare | AnyException | Only(code: int)

  datatype Handler = Handler(catch: Catch, body: seq<Stmt>)

  datatype Stmt =
    | ExprS(e: Expr)
    | Assign(targets: seq<Target>, value: Expr)
    | AugName(x: string, op: Op, value: Expr)
    | AugAttr(obj: Expr, attr: string, op: Op, value: Expr)
    | Def(name: string, id: nat)
    | If(cond: Expr, thn: seq<Stmt>, els: seq<Stmt>)
    | While(cond: Expr, body: seq<Stmt>, orelse: seq<Stmt>)
    | For(x: string, iter: Expr, body: seq<Stmt>, orelse: seq<Stmt>)
    | Try(body: seq<Stmt>, handlers: seq<Handler>, orelse: seq<Stmt>, final: seq<Stmt>)
    | Return(value: Expr)
    | Raise(error: Error)
    | Break
    | Continue

  datatype FunDef = FunDef(params: seq<string>, declared: set<string>, body: seq<Stmt>)

  datatype Program = Program(defs: seq<FunDef>, main: seq<Stmt>)

  // ----- values and states -----

  datatype Val =
    | NoneV | BoolV(b: bool) | IntV(i: int) | StrV(s: string)
    | TupV(items: seq<Val>) | RefV(r: nat) | FunV(id: nat)
    | GateV(gate: Gate)
    | BuiltinV                        // a safe builtin such as `int`: a call of it counts nothing

  datatype Gate = CheckpointGate | GetAttrGate | SetAttrGate | CaptureGate

  /** `StTickLimit`, `StCancelled`, `StTimeout` and `MemoryError` are what a checkpoint
      raises; all of them are `Exception`s. `ExitError` stands for an exception that
      is only a `BaseException`. */
  datatype Error =
    | NameError(x: string) | TypeError | AttributeError | ValueError | IndexError
    | UserError(code: int) | ExitError(code: int)
    | StTickLimit | StCancelled | StTimeout | MemoryError

  datatype Obj = Inst(attrs: map<string, Val>) | ListO(items: seq<Val>)

  /** What the host would see of an attribute: each read and each write, in order. */
  datatype Event = Got(r: nat, attr: string) | Put(r: nat, attr: string, v: Val)

  /** The variables of the running code. In a function, `names` are the names its
      body binds and `declared` those it declares `global`. */
  datatype Frame = Top | Fn(names: set<string>, declared: set<string>, vars: map<string, Val>)

  /** The gates' boxes, and what we keep beside them: `calls` and `passed` count the
      checkpoints reached and the ones that returned; `refused` remembers that one
      raised or the policy refused an attribute, `stopped` the first of these, and `missed`
      that the name of the checkpoint stood for something else. `depth` is the callback
      depth. */
  datatype Meter = Meter(
    ticks: nat, depth: nat, calls: nat, passed: nat, refused: bool, stopped: bool, missed: bool)

  /** `fits` is ours too: whether the run has kept to what the rewriter supports
      (see `Fits` in the clauses below that update it). It never returns to true. */
  datatype State = State(
    globals: map<string, Val>, frame: Frame, heap: seq<Obj>, trace: seq<Event>,
    fits: bool, meter: Meter)

  type Scope = map<string, Val>

  datatype Signal = Quiet | Cancelled | TimedOut | NoMemory

  /** `signal(i)` is what the i-th checkpoint finds of the cancel flag, the clock and the
      memory reading. `wraps` says whether context capture wraps functions, and
      `inExec` whether the execution is still running. Without `metered` there is nothing
      behind a checkpoint: that is how Python runs the source. `mayRead` and `mayWrite` are what
      the policy says of an object and an attribute. */
  datatype Config = Config(
    limit: Option<nat>, signal: nat -> Signal, inExec: bool, wraps: bool, metered: bool,
    mayRead: (nat, string) -> bool, mayWrite: (nat, string) -> bool)

  datatype ER<+T> = EOk(v: T, st: State) | EExc(e: Error, st: State) | EDeep(st: State)

  datatype SR =
    | SNext(st: State) | SBreak(st: State) | SContinue(st: State)
    | SReturn(v: Val, st: State) | SExc(e: Error, st: State) | SDeep(st: State)

  function Fail<T, U>(r: ER<T>): (s: ER<U>)
    requires !r.EOk?
    ensures s.st == r.st && s.EDeep? == r.EDeep? && !s.EOk? && (s.EExc? ==> s.e == r.e)
  {
    match r
    case EExc(e, st) => EExc(e, st)
    case EDeep(st) => EDeep(st)
  }

  function Broke<T>(r: ER<T>): (s: SR)
    requires !r.EOk?
    ensures s.st == r.st && s.SDeep? == r.EDeep? && (s.SExc? || s.SDeep?) && (s.SExc? ==> s.e == r.e)
  {
    match r
    case EExc(e, st) => SExc(e, st)
    case EDeep(st) => SDeep(st)
  }

  function WithState(r: SR, st: State): (s: SR)
    ensures s.st == st && s.SDeep? == r.SDeep?
  {
    match r
    case SNext(_) => SNext(st)
    case SBreak(_) => SBreak(st)
    case SContinue(_) => SContinue(st)
    case SReturn(v, _) => SReturn(v, st)
    case SExc(e, _) => SExc(e, st)
    case SDeep(_) => SDeep(st)
  }

  // ----- names -----

  /** The names the rewriter keeps for itself. */
  predicate Reserved(x: string) { |x| >= 5 && x[..5] == "__st_" }

  function GateName(g: Gate): string {
    match g
    case CheckpointGate => "__st_checkpoint__"
    case GetAttrGate => "__st_getattr__"
    case SetAttrGate => "__st_setattr__"
    case CaptureGate => "__st_capture_context__"
  }

  function ReservedKeys(g: map<string, Val>): set<string> { set x | x in g && Reserved(x) }

  /** The bindings of reserved names, and the others. */
  function Kept(g: map<string, Val>): map<string, Val> { g - (g.Keys - ReservedKeys(g)) }

  function Plain(g: map<string, Val>): map<string, Val> { g - ReservedKeys(g) }

  predicate NoReserved(s: set<string>) { forall x :: x in s ==> !Reserved(x) }

  /** No function of the table declares a reserved name `global`. */
  predicate Tame(p: Program) {
    forall i :: 0 <= i < |p.defs| ==> NoReserved(p.defs[i].declared)
  }

  /** The names a body binds, as the compiler's symbol table lists them. */
  function Bound(ss: seq<Stmt>): set<string>
    decreases ss, 0
  {
    if ss == [] then {} else BoundBy(ss[0]) + Bound(ss[1..])
  }

  function BoundBy(s: Stmt): set<string>
    decreases s, 1
  {
    match s
    case Assign(ts, _) => TargetNames(ts)
    case AugName(x, _, _) => {x}
    case Def(f, _) => {f}
    case If(_, a, b) => Bound(a) + Bound(b)
    case While(_, a, b) => Bound(a) + Bound(b)
    case For(x, _, a, b) => {x} + Bound(a) + Bound(b)
    case Try(a, hs, b, c) => Bound(a) + HandlerNames(hs) + Bound(b) + Bound(c)
    case _ => {}
  }

  function HandlerNames(hs: seq<Handler>): set<string>
    decreases hs, 0
  {
    if hs == [] then {} else Bound(hs[0].body) + HandlerNames(hs[1..])
  }

  function TargetNames(ts: seq<Target>): set<string>
    decreases ts, 0
  {
    if ts == [] then {} else
    (match ts[0]
     case TName(x) => {x}
     case TAttr(_, _) => {}
     case TTup(us) => TargetNames(us)) + TargetNames(ts[1..])
  }

  function Params(ps: seq<string>): set<string> { set x | x in ps }

  function Locals(d: FunDef): set<string> { Params(d.params) + Bound(d.body) - d.declared }

  // ----- the primitive operations -----

  function ConstVal(c: Const): Val {
    match c
    case NoneC => NoneV
    case BoolC(b) => BoolV(b)
    case IntC(i) => IntV(i)
    case StrC(s) => StrV(s)
  }

  function Load(x: string, sc: Scope, st: State): (r: ER<Val>)
    ensures r.st == st && !r.EDeep?
  {
    if x in sc then EOk(sc[x], st)
    else if st.frame.Fn? && x !in st.frame.declared && x in st.frame.vars then EOk(st.frame.vars[x], st)
    else if st.frame.Fn? && x !in st.frame.declared && x in st.frame.names then EExc(NameError(x), st)
    else if x in st.globals then EOk(st.globals[x], st)
    else EExc(NameError(x), st)
  }

  function Store(x: string, v: Val, st: State): (r: State)
    ensures r == st.(globals := r.globals, frame := r.frame)
    ensures r.frame.Fn? == st.frame.Fn?
    ensures st.frame.Fn? ==> r.frame == st.frame.(vars := r.frame.vars)
    ensures st.frame.Fn? && NoReserved(st.frame.declared) ==> Kept(r.globals) == Kept(st.globals)
  {
    if st.frame.Fn? && x !in st.frame.declared
    then st.(frame := st.frame.(vars := st.frame.vars[x := v]))
    else st.(globals := st.globals[x := v])
  }

  predicate IsList(v: Val, heap: seq<Obj>) { v.RefV? && v.r < |heap| && heap[v.r].ListO? }

  predicate IsInst(v: Val, heap: seq<Obj>) { v.RefV? && v.r < |heap| && heap[v.r].Inst? }

  predicate Truthy(v: Val, heap: seq<Obj>) {
    match v
    case NoneV => false
    case BoolV(b) => b
    case IntV(i) => i != 0
    case StrV(s) => s != ""
    case TupV(items) => items != []
    case RefV(_) => IsList(v, heap) ==> heap[v.r].items != []
    case FunV(_) => true
    case GateV(_) => true
    case BuiltinV => true
  }

  /** Only the objects and the record of attribute accesses have changed. */
  predicate OnlyObjects(a: State, b: State) { b == a.(heap := b.heap, trace := b.trace) }

  function Alloc(o: Obj, st: State): (r: ER<Val>)
    ensures r.EOk? && OnlyObjects(st, r.st)
  {
    EOk(RefV(|st.heap|), st.(heap := st.heap + [o]))
  }

  function Binary(op: Op, a: Val, b: Val, st: State): (r: ER<Val>)
    ensures !r.EDeep? && OnlyObjects(st, r.st)
  {
    match op
    case Add =>
      if a.IntV? && b.IntV? then EOk(IntV(a.i + b.i), st)
      else if a.StrV? && b.StrV? then EOk(StrV(a.s + b.s), st)
      else if a.TupV? && b.TupV? then EOk(TupV(a.items + b.items), st)
      else if IsList(a, st.heap) && IsList(b, st.heap) then Alloc(ListO(st.heap[a.r].items + st.heap[b.r].items), st)
      else EExc(TypeError, st)
    case Sub => if a.IntV? && b.IntV? then EOk(IntV(a.i - b.i), st) else EExc(TypeError, st)
    case Less => if a.IntV? && b.IntV? then EOk(BoolV(a.i < b.i), st) else EExc(TypeError, st)
    case Equal => EOk(BoolV(a == b), st)
  }

  /** `a op= b` extends the list `a`, where it stands, by what `b` yields. */
  predicate Extends(op: Op, a: Val, b: Val, heap: seq<Obj>) { op.Add? && IsList(a, heap) && Iterable(b, heap) }

  function InPlace(op: Op, a: Val, b: Val, st: State): (r: ER<Val>)
    ensures !r.EDeep? && OnlyObjects(st, r.st)
  {
    if Extends(op, a, b, st.heap) then
      var more := if b.TupV? then b.items else st.heap[b.r].items;
      EOk(a, st.(heap := st.heap[a.r := ListO(st.heap[a.r].items + more)]))
    else if op.Add? && IsList(a, st.heap) then EExc(TypeError, st)
    else Binary(op, a, b, st)
  }

  function ReadAttr(v: Val, a: string, st: State): (r: ER<Val>)
    ensures !r.EDeep? && OnlyObjects(st, r.st)
  {
    if IsInst(v, st.heap) && a in st.heap[v.r].attrs
    then EOk(st.heap[v.r].attrs[a], st.(trace := st.trace + [Got(v.r, a)]))
    else EExc(AttributeError, st)
  }

  function WriteAttr(v: Val, a: string, x: Val, st: State): (r: ER<Val>)
    ensures !r.EDeep? && (r.EOk? ==> r.v == NoneV) && OnlyObjects(st, r.st)
  {
    if IsInst(v, st.heap)
    then EOk(NoneV, st.(heap := st.heap[v.r := Inst(st.heap[v.r].attrs[a := x])],
                        trace := st.trace + [Put(v.r, a, x)]))
    else EExc(AttributeError, st)
  }

  function ReadItem(v: Val, i: nat, st: State): (r: ER<Val>)
    ensures r.st == st && !r.EDeep?
  {
    var items := if v.TupV? then v.items else if IsList(v, st.heap) then st.heap[v.r].items else [];
    if !v.TupV? && !IsList(v, st.heap) then EExc(TypeError, st)
    else if i < |items| then EOk(items[i], st) else EExc(IndexError, st)
  }

  function AppendItem(l: Val, x: Val, st: State): (r: ER<Val>)
    ensures !r.EDeep? && OnlyObjects(st, r.st)
  {
    if IsList(l, st.heap)
    then EOk(NoneV, st.(heap := st.heap[l.r := ListO(st.heap[l.r].items + [x])]))
    else EExc(TypeError, st)
  }

  predicate Iterable(v: Val, heap: seq<Obj>) { v.TupV? || IsList(v, heap) }

  /** The i-th value an iteration over `v` yields now: a list is read live. */
  function NextItem(v: Val, i: nat, heap: seq<Obj>): Option<Val> {
    if v.TupV? then (if i < |v.items| then Some(v.items[i]) else None)
    else if IsList(v, heap) && i < |heap[v.r].items| then Some(heap[v.r].items[i])
    else None
  }

  /** The values a tuple target takes `v` apart into. */
  function Unpack(v: Val, k: nat, st: State): (r: ER<seq<Val>>)
    ensures r.st == st && !r.EDeep? && (r.EOk? ==> |r.v| == k)
  {
    if !Iterable(v, st.heap) then EExc(TypeError, st)
    else
      var items := if v.TupV? then v.items else st.heap[v.r].items;
      if |items| == k then EOk(items, st) else EExc(ValueError, st)
  }

  predicate Matches(c: Catch, e: Error) {
    match c
    case Bare => true
    case AnyException => !e.ExitError?
    case Only(code) => e == UserError(code)
  }

  // ----- what the rewriter supports -----

  predicate HasAttr(ts: seq<Target>)
    decreases ts, 0
  {
    ts != [] &&
    ((match ts[0]
      case TName(_) => false
      case TAttr(_, _) => true
      case TTup(us) => HasAttr(us)) || HasAttr(ts[1..]))
  }

  /** `v` has the shape of the target: a tuple of the same length, all the way down. */
  predicate Shaped(t: Target, v: Val)
    decreases t, 1
  {
    match t
    case TTup(us) => v.TupV? && |v.items| == |us| && ShapedAll(us, v.items)
    case _ => true
  }

  predicate ShapedAll(ts: seq<Target>, vs: seq<Val>)
    requires |ts| == |vs|
    decreases ts, 0
  {
    ts == [] || (Shaped(ts[0], vs[0]) && ShapedAll(ts[1..], vs[1..]))
  }

  predicate ShapedBy(ts: seq<Target>, v: Val) {
    forall i :: 0 <= i < |ts| ==> Shaped(ts[i], v)
  }

  function Clear(st: State, ok: bool): State { st.(fits := st.fits && ok) }

  // ----- checkpoints -----

  function Left(cfg: Config, m: Meter): nat
    requires cfg.limit.Some?
  {
    if m.ticks < cfg.limit.value then cfg.limit.value - m.ticks else 0
  }

  function CheckpointError(cfg: Config, m: Meter): Option<Error> {
    var sig := cfg.signal(m.calls);
    if sig == Cancelled then Some(StCancelled)
    else if cfg.limit.Some? && m.ticks + 1 > cfg.limit.value then Some(StTickLimit)
    else if sig == TimedOut then Some(StTimeout)
    else if sig == NoMemory then Some(MemoryError)
    else None
  }

  /** `__st_checkpoint__`: a cancelled execution is stopped before it is counted. */
  function DoCheckpoint(cfg: Config, st: State): (r: ER<Val>)
    ensures !r.EDeep? && r.st == st.(meter := r.st.meter) && Metered(cfg, st.meter, r.st.meter)
  {
    var m := st.meter;
    var ticks := if cfg.signal(m.calls) == Cancelled then m.ticks else m.ticks + 1;
    if !cfg.metered then EOk(NoneV, st) else
    match CheckpointError(cfg, m)
    case Some(e) =>
      EExc(e, st.(meter := m.(ticks := ticks, calls := m.calls + 1, refused := true, stopped := true)))
    case None => EOk(NoneV, st.(meter := m.(ticks := ticks, calls := m.calls + 1, passed := m.passed + 1)))
  }

  /** The wrapper of a captured function on its way in. */
  function Entered(cfg: Config, m: Meter): Meter {
    if !cfg.wraps then m
    else (if !cfg.inExec && m.depth == 0 then m.(ticks := 0) else m).(depth := m.depth + 1)
  }

  /** The tick counter is never taken back: the execution is running, or a callback is. */
  predicate Counting(cfg: Config, m: Meter) { cfg.metered && (cfg.inExec || !cfg.wraps || m.depth > 0) }

  /** The counter does not go back, and what passes is paid for by what was left. */
  predicate Ticked(cfg: Config, a: Meter, b: Meter) {
    && b.depth == a.depth
    && a.passed <= b.passed
    && (Counting(cfg, a) ==> a.ticks <= b.ticks)
    && (Counting(cfg, a) && cfg.limit.Some? ==> b.passed + Left(cfg, b) <= a.passed + Left(cfg, a))
  }

  /** No checkpoint finds the execution cancelled, out of time or out of memory. */
  ghost predicate AlwaysQuiet(cfg: Config) { forall i: nat :: cfg.signal(i) == Quiet }

  /** With nothing but the limit to stop the code, a tick is taken off for each checkpoint that is
      passed and for no other, and one raises only when none is left. */
  ghost predicate Spent(cfg: Config, a: Meter, b: Meter) {
    AlwaysQuiet(cfg) && Counting(cfg, a) && cfg.limit.Some? ==>
      && b.passed + Left(cfg, b) == a.passed + Left(cfg, a)
      && (b.stopped ==> a.stopped || Left(cfg, b) == 0)
  }

  /** The policy allows every attribute. */
  ghost predicate Permits(cfg: Config) {
    (forall r: nat, a: string :: cfg.mayRead(r, a)) && (forall r: nat, a: string :: cfg.mayWrite(r, a))
  }

  /** Nothing a gate looks at will ever stop the code. */
  ghost predicate Lenient(cfg: Config) { cfg.limit.None? && AlwaysQuiet(cfg) && Permits(cfg) }

  ghost predicate Metered(cfg: Config, a: Meter, b: Meter) {
    && (a.refused ==> b.refused)
    && (a.stopped ==> b.stopped)
    && (a.missed ==> b.missed)
    && (Lenient(cfg) && b.refused ==> a.refused)
    && Ticked(cfg, a, b) && Spent(cfg, a, b)
  }

  lemma MeteredSame(cfg: Config, a: Meter)
    ensures Metered(cfg, a, a)
  {
  }

  lemma MeteredOn(cfg: Config, a: Meter, b: Meter, c: Meter)
    requires Metered(cfg, a, b)
    ensures Metered(cfg, a, a)
    ensures Metered(cfg, b, c) ==> Metered(cfg, a, c)
  {
    hide Lenient, AlwaysQuiet;
  }

  predicate KeepsReserved(p: Program, a: State, b: State) {
    Tame(p) ==> Kept(b.globals) == Kept(a.globals)
  }

  /** What evaluating an expression may change of the state. */
  ghost predicate Grew(p: Program, cfg: Config, a: State, b: State) {
    && b.frame == a.frame
    && (b.fits ==> a.fits)
    && Metered(cfg, a.meter, b.meter)
    && KeepsReserved(p, a, b)
  }

  /** What running a statement may change. */
  ghost predicate Ran(p: Program, cfg: Config, a: State, b: State) {
    && SameFrame(a, b)
    && (b.fits ==> a.fits)
    && Metered(cfg, a.meter, b.meter)
    && (a.frame.Fn? && NoReserved(a.frame.declared) ==> KeepsReserved(p, a, b))
  }

  predicate SameFrame(a: State, b: State) {
    && b.frame.Fn? == a.frame.Fn?
    && (a.frame.Fn? ==> b.frame.names == a.frame.names && b.frame.declared == a.frame.declared)
  }

  // ----- evaluation -----

  function Eval(p: Program, cfg: Config, n: nat, e: Expr, sc: Scope, st: State): (r: ER<Val>)
    ensures Grew(p, cfg, st, r.st)
    decreases n, 1, e, 1
  {
    hide Truthy, Binary, ReadAttr, WriteAttr, ReadItem, AppendItem, Load, Alloc, DoCheckpoint, ConstVal;
    hide Kept, Tame, Metered;
    MeteredSame(cfg, st.meter);
    match e
    case Lit(c) => EOk(ConstVal(c), st)
    case Name(x) => Load(x, sc, st)
    case Attr(o, a) =>
      var ro := Eval(p, cfg, n, o, sc, st);
      if ro.EOk? then ReadAttr(ro.v, a, ro.st) else ro
    case Bin(op, l, r) =>
      var rl := Eval(p, cfg, n, l, sc, st);
      if !rl.EOk? then rl else
      var rr := Eval(p, cfg, n, r, sc, rl.st);
      MeteredOn(cfg, st.meter, rl.st.meter, rr.st.meter);
      if !rr.EOk? then rr else Binary(op, rl.v, rr.v, rr.st)
    case Or(l, r) =>
      var rl := Eval(p, cfg, n, l, sc, st);
      if !rl.EOk? || Truthy(rl.v, rl.st.heap) then rl else
      var rr := Eval(p, cfg, n, r, sc, rl.st);
      MeteredOn(cfg, st.meter, rl.st.meter, rr.st.meter);
      rr
    case Tup(es) =>
      var rs := EvalAll(p, cfg, n, es, sc, st);
      if rs.EOk? then EOk(TupV(rs.v), rs.st) else Fail(rs)
    case Item(o, i) =>
      var ro := Eval(p, cfg, n, o, sc, st);
      if ro.EOk? then ReadItem(ro.v, i, ro.st) else ro
    case New => Alloc(Inst(map[]), st)
    case Push(l, x) =>
      var rl := Eval(p, cfg, n, l, sc, st);
      if !rl.EOk? then rl else
      var rx := Eval(p, cfg, n, x, sc, rl.st);
      MeteredOn(cfg, st.meter, rl.st.meter, rx.st.meter);
      if !rx.EOk? then rx else AppendItem(rl.v, rx.v, rx.st)
    case Call(_, _) => EvalCall(p, cfg, n, e, sc, st)
    case Comp(elt, cs) =>
      var rs := EvalComp(p, cfg, n, elt, cs, sc, st);
      if rs.EOk? then Alloc(ListO(rs.v), rs.st) else Fail(rs)
    case GCheckpoint => EvalCheckpoint(p, cfg, n, sc, st)
    case GGetAttr(_, _) => EvalGate(p, cfg, n, e, sc, st)
    case GSetAttr(_, _, _) => EvalGate(p, cfg, n, e, sc, st)
    case GCapture(_) => EvalGate(p, cfg, n, e, sc, st)
  }

  /** `__st_checkpoint__()`: whatever the name stands for is called. */
  function EvalCheckpoint(p: Program, cfg: Config, n: nat, sc: Scope, st: State): (r: ER<Val>)
    ensures Grew(p, cfg, st, r.st)
    decreases n, 1, Expr.GCheckpoint, 0
  {
    hide Kept, Tame, Lenient, AlwaysQuiet, Load, DoCheckpoint;
    if Reached(sc, st) then DoCheckpoint(cfg, st)
    else
      var g := Load(GateName(CheckpointGate), sc, st);
      if g.EOk? then CallFn(p, cfg, n, g.v, [], Missed(st)) else EExc(g.e, Missed(st))
  }

  /** The name of the checkpoint stands for the gate. */
  predicate Reached(sc: Scope, st: State) {
    Load(GateName(CheckpointGate), sc, st) == EOk(GateV(CheckpointGate), st)
  }

  function Missed(st: State): State { st.(meter := st.meter.(missed := true)) }

  function GateOf(e: Expr): Gate
    requires e.GGetAttr? || e.GSetAttr? || e.GCapture?
  {
    if e.GGetAttr? then GetAttrGate else if e.GSetAttr? then SetAttrGate else CaptureGate
  }

  /** The other gates: the name, the arguments, and the call. */
  function EvalGate(p: Program, cfg: Config, n: nat, e: Expr, sc: Scope, st: State): (r: ER<Val>)
    requires e.GGetAttr? || e.GSetAttr? || e.GCapture?
    ensures Grew(p, cfg, st, r.st)
    decreases n, 1, e, 0
  {
    hide Kept, Tame, Load, Metered;
    MeteredSame(cfg, st.meter);
    var g := Load(GateName(GateOf(e)), sc, st);
    if !g.EOk? then g else
    var r1 := Eval(p, cfg, n, if e.GCapture? then e.f else e.obj, sc, st);
    if !r1.EOk? then r1
    else if e.GCapture? then
      var r := CallFn(p, cfg, n, g.v, [r1.v], r1.st);
      MeteredOn(cfg, st.meter, r1.st.meter, r.st.meter);
      r
    else if e.GGetAttr? then
      var r := CallFn(p, cfg, n, g.v, [r1.v, StrV(e.attr)], r1.st);
      MeteredOn(cfg, st.meter, r1.st.meter, r.st.meter);
      r
    else
      var r2 := Eval(p, cfg, n, e.value, sc, r1.st);
      MeteredOn(cfg, st.meter, r1.st.meter, r2.st.meter);
      if !r2.EOk? then r2 else
      var r := CallFn(p, cfg, n, g.v, [r1.v, StrV(e.attr), r2.v], r2.st);
      MeteredOn(cfg, st.meter, r2.st.meter, r.st.meter);
      r
  }

  function EvalCall(p: Program, cfg: Config, n: nat, e: Expr, sc: Scope, st: State): (r: ER<Val>)
    requires e.Call?
    ensures Grew(p, cfg, st, r.st)
    decreases n, 1, e, 0
  {
    hide Kept, Tame, Left, Lenient, AlwaysQuiet;
    var rf := Eval(p, cfg, n, e.fn, sc, st);
    if !rf.EOk? then rf else
    var rs := EvalAll(p, cfg, n, e.args, sc, rf.st);
    if !rs.EOk? then Fail(rs) else CallFn(p, cfg, n, rf.v, rs.v, rs.st)
  }

  function EvalAll(p: Program, cfg: Config, n: nat, es: seq<Expr>, sc: Scope, st: State): (r: ER<seq<Val>>)
    ensures Grew(p, cfg, st, r.st)
    ensures r.EOk? ==> |r.v| == |es|
    decreases n, 1, es, 0
  {
    if es == [] then EOk([], st) else
    var r0 := Eval(p, cfg, n, es[0], sc, st);
    if !r0.EOk? then Fail(r0) else
    var rs := EvalAll(p, cfg, n, es[1..], sc, r0.st);
    if rs.EOk? then EOk([r0.v] + rs.v, rs.st) else rs
  }

  /** The policy refuses an attribute. */
  function Refuse(st: State): ER<Val> { EExc(AttributeError, st.(meter := st.meter.(refused := true))) }

  function GateRead(cfg: Config, v: Val, a: string, st: State): (r: ER<Val>)
    ensures !r.EDeep? && r.st == st.(heap := r.st.heap, trace := r.st.trace, meter := r.st.meter)
    ensures Metered(cfg, st.meter, r.st.meter)
  {
    if v.RefV? && !cfg.mayRead(v.r, a) then Refuse(st) else ReadAttr(v, a, st)
  }

  function GateWrite(cfg: Config, v: Val, a: string, x: Val, st: State): (r: ER<Val>)
    ensures !r.EDeep? && r.st == st.(heap := r.st.heap, trace := r.st.trace, meter := r.st.meter)
    ensures Metered(cfg, st.meter, r.st.meter)
  {
    if v.RefV? && !cfg.mayWrite(v.r, a) then Refuse(st) else WriteAttr(v, a, x, st)
  }

  /** What the gates do: `cfg` is the policy's side of them, and captured functions are let
      through. */
  function CallGate(cfg: Config, g: Gate, args: seq<Val>, st: State): (r: ER<Val>)
    ensures !r.EDeep? && r.st == st.(heap := r.st.heap, trace := r.st.trace, meter := r.st.meter)
    ensures Metered(cfg, st.meter, r.st.meter)
  {
    match g
    case CheckpointGate => if args == [] then DoCheckpoint(cfg, st) else EExc(TypeError, st)
    case GetAttrGate =>
      if |args| == 2 && args[1].StrV? then GateRead(cfg, args[0], args[1].s, st) else EExc(TypeError, st)
    case SetAttrGate =>
      if |args| == 3 && args[1].StrV? then GateWrite(cfg, args[0], args[1].s, args[2], st)
      else EExc(TypeError, st)
    case CaptureGate => if |args| == 1 then EOk(args[0], st) else EExc(TypeError, st)
  }

  /** What a call comes to when it enters no function of the program. */
  function CallOther(p: Program, cfg: Config, f: Val, args: seq<Val>, st: State): (r: ER<Val>)
    ensures !r.EDeep? && Grew(p, cfg, st, r.st)
  {
    hide CallGate, Lenient, AlwaysQuiet;
    match f
    case GateV(g) => CallGate(cfg, g, args, st)
    case BuiltinV => if args == [] then EOk(IntV(0), st) else EExc(TypeError, st)
    case _ => EExc(TypeError, st)
  }

  predicate Enters(p: Program, f: Val, args: seq<Val>) {
    f.FunV? && f.id < |p.defs| && |args| == |p.defs[f.id].params|
  }

  /** Call a value. The variables of a function's call are a frame of its own. */
  function CallFn(p: Program, cfg: Config, n: nat, f: Val, args: seq<Val>, st: State): (r: ER<Val>)
    ensures Grew(p, cfg, st, r.st)
    decreases n, 0
  {
    if !Enters(p, f, args) then CallOther(p, cfg, f, args, st)
    else if n == 0 then EDeep(st)
    else
      var d := p.defs[f.id];
      var inner := ExecAll(p, cfg, n - 1, d.body, CallState(cfg, d, args, st));
      CallGrew(p, cfg, d, args, st, inner);
      hide Grew, Ran, CallState, Returned;
      Returned(st, inner)
  }

  /** A call leaves the caller's frame, and a budget no larger. */
  lemma CallGrew(p: Program, cfg: Config, d: FunDef, args: seq<Val>, st: State, inner: SR)
    requires |args| == |d.params| && d in p.defs
    requires Ran(p, cfg, CallState(cfg, d, args, st), inner.st)
    ensures Grew(p, cfg, st, Returned(st, inner).st)
  {
    hide Locals, Bind, Kept, Lenient, AlwaysQuiet;
    assert Tame(p) ==> NoReserved(d.declared);
  }

  function CallState(cfg: Config, d: FunDef, args: seq<Val>, st: State): State
    requires |args| == |d.params|
  {
    st.(frame := Fn(Locals(d), d.declared, Bind(d.params, args)), meter := Entered(cfg, st.meter))
  }

  function Bind(ps: seq<string>, vs: seq<Val>): map<string, Val>
    requires |ps| == |vs|
  {
    if ps == [] then map[] else Bind(ps[..|ps| - 1], vs[..|vs| - 1])[ps[|ps| - 1] := vs[|vs| - 1]]
  }

  /** What the caller gets of a finished body: its own frame and callback depth again. */
  function Returned(caller: State, inner: SR): (r: ER<Val>)
    ensures r.st.frame == caller.frame && r.st.meter.depth == caller.meter.depth
    ensures r.EDeep? == inner.SDeep?
  {
    var st := inner.st.(frame := caller.frame, meter := inner.st.meter.(depth := caller.meter.depth));
    match inner
    case SReturn(v, _) => EOk(v, st)
    case SExc(e, _) => EExc(e, st)
    case SDeep(_) => EDeep(st)
    case _ => EOk(NoneV, st)
  }

  /** The values of a comprehension: the first clause's iterable, in the scope around. */
  function EvalComp(p: Program, cfg: Config, n: nat, elt: Expr, cs: seq<Clause>, sc: Scope, st: State)
    : (r: ER<seq<Val>>)
    ensures Grew(p, cfg, st, r.st)
    decreases n, 1, cs, 1
  {
    if cs == [] then EOk([], st) else
    var ri := Eval(p, cfg, n, cs[0].iter, sc, st);
    if !ri.EOk? then Fail(ri)
    else if !Iterable(ri.v, ri.st.heap) then EExc(TypeError, ri.st)
    else CompLoop(p, cfg, n, elt, cs, sc, ri.v, 0, ri.st)
  }

  function CompLoop(p: Program, cfg: Config, n: nat, elt: Expr, cs: seq<Clause>, sc: Scope,
                    over: Val, i: nat, st: State): (r: ER<seq<Val>>)
    requires cs != []
    ensures Grew(p, cfg, st, r.st)
    decreases n, 0
  {
    var item := NextItem(over, i, st.heap);
    if item.None? then EOk([], st)
    else if n == 0 then EDeep(st)
    else
      var sc' := sc[cs[0].target := item.value];
      var r0 := CompItem(p, cfg, n - 1, elt, cs, sc', st);
      if !r0.EOk? then r0 else
      var rs := CompLoop(p, cfg, n - 1, elt, cs, sc, over, i + 1, r0.st);
      if rs.EOk? then EOk(r0.v + rs.v, rs.st) else rs
  }

  /** What one item of the first clause contributes. */
  function CompItem(p: Program, cfg: Config, n: nat, elt: Expr, cs: seq<Clause>, sc: Scope, st: State)
    : (r: ER<seq<Val>>)
    requires cs != []
    ensures Grew(p, cfg, st, r.st)
    decreases n, 2
  {
    hide Kept, Tame, Metered;
    var rc := Filters(p, cfg, n, cs[0].ifs, sc, st);
    if !rc.EOk? then Fail(rc)
    else if !rc.v then EOk([], rc.st)
    else if |cs| > 1 then
      var rs := EvalComp(p, cfg, n, elt, cs[1..], sc, rc.st);
      MeteredOn(cfg, st.meter, rc.st.meter, rs.st.meter);
      rs
    else
      var rv := Eval(p, cfg, n, elt, sc, rc.st);
      MeteredOn(cfg, st.meter, rc.st.meter, rv.st.meter);
      if rv.EOk? then EOk([rv.v], rv.st) else Fail(rv)
  }

  function Filters(p: Program, cfg: Config, n: nat, ifs: seq<Expr>, sc: Scope, st: State): (r: ER<bool>)
    ensures Grew(p, cfg, st, r.st)
    decreases n, 1, ifs, 0
  {
    if ifs == [] then EOk(true, st) else
    var r0 := Eval(p, cfg, n, ifs[0], sc, st);
    if !r0.EOk? then Fail(r0)
    else if !Truthy(r0.v, r0.st.heap) then EOk(false, r0.st)
    else Filters(p, cfg, n, ifs[1..], sc, r0.st)
  }

  // ----- assignment -----

  function AssignTo(p: Program, cfg: Config, n: nat, t: Target, v: Val, st: State): (r: ER<Val>)
    ensures Ran(p, cfg, st, r.st)
    decreases n, 1, t, 1
  {
    match t
    case TName(x) => EOk(NoneV, Store(x, v, st))
    case TAttr(o, a) =>
      var ro := Eval(p, cfg, n, o, map[], st);
      if ro.EOk? then WriteAttr(ro.v, a, v, ro.st) else ro
    case TTup(us) =>
      var ru := Unpack(v, |us|, st);
      if ru.EOk? then AssignEach(p, cfg, n, us, ru.v, ru.st) else Fail(ru)
  }

  function AssignEach(p: Program, cfg: Config, n: nat, ts: seq<Target>, vs: seq<Val>, st: State): (r: ER<Val>)
    requires |ts| == |vs|
    ensures Ran(p, cfg, st, r.st)
    decreases n, 1, ts, 0
  {
    if ts == [] then EOk(NoneV, st) else
    var r0 := AssignTo(p, cfg, n, ts[0], vs[0], st);
    if r0.EOk? then AssignEach(p, cfg, n, ts[1..], vs[1..], r0.st) else r0
  }

  /** Whether evaluating `o` before `e` comes to the same as Python's order, `e` before `o`. */
  predicate SameEitherWay(vo: ER<Val>, v: ER<Val>, ov: ER<Val>, o: ER<Val>)
  {
    // v, then vo : Python's order.  o, then ov : the other.
    if v.EOk? && vo.EOk? then o.EOk? && ov.EOk? && o.v == vo.v && ov.v == v.v && ov.st == vo.st
    else
      var one := if v.EOk? then vo else v;
      var two := if o.EOk? then ov else o;
      one.EExc? && two.EExc? && one.e == two.e && one.st == two.st
  }

  /** `t0 = t1 = ... = e`, as section 7.2 of the Python Language Reference has it: the value
      once, then each target from left to right. */
  function ExecAssign(p: Program, cfg: Config, n: nat, s: Stmt, st: State): (r: SR)
    requires s.Assign?
    ensures Ran(p, cfg, st, r.st)
    decreases n, 1, s, 2
  {
    hide SameEitherWay, WriteAttr, ShapedBy, HasAttr, Kept, Tame, Left, Lenient, AlwaysQuiet;
    var Assign(ts, e) := s;
    var rv := Eval(p, cfg, n, e, map[], st);
    if |ts| == 1 && ts[0].TAttr? then
      // the rewriter turns the two around here
      var o := ts[0].obj;
      var vo := if rv.EOk? then Eval(p, cfg, n, o, map[], rv.st) else rv;
      var ro := Eval(p, cfg, n, o, map[], st);
      var ov := if ro.EOk? then Eval(p, cfg, n, e, map[], ro.st) else ro;
      if rv.EDeep? || vo.EDeep? || ro.EDeep? || ov.EDeep? then SDeep(st)
      else
        var ok := SameEitherWay(vo, rv, ov, ro);
        if !rv.EOk? then SExc(rv.e, Clear(rv.st, ok))
        else if !vo.EOk? then SExc(vo.e, Clear(vo.st, ok))
        else
          var w := WriteAttr(vo.v, ts[0].attr, rv.v, Clear(vo.st, ok));
          if w.EOk? then SNext(w.st) else Broke(w)
    else if !rv.EOk? then Broke(rv)
    else
      var w := AssignSame(p, cfg, n, ts, rv.v, Clear(rv.st, HasAttr(ts) ==> ShapedBy(ts, rv.v)));
      if w.EOk? then SNext(w.st) else Broke(w)
  }

  /** Every target in turn gets the one value. */
  function AssignSame(p: Program, cfg: Config, n: nat, ts: seq<Target>, v: Val, st: State): (r: ER<Val>)
    ensures Ran(p, cfg, st, r.st)
    decreases n, 1, ts, 0
  {
    if ts == [] then EOk(NoneV, st) else
    var r0 := AssignTo(p, cfg, n, ts[0], v, st);
    if r0.EOk? then AssignSame(p, cfg, n, ts[1..], v, r0.st) else r0
  }

  /** `o.a op= e`: the object once, its attribute, the value, the write. */
  function ExecAugAttr(p: Program, cfg: Config, n: nat, s: Stmt, st: State): (r: SR)
    requires s.AugAttr?
    ensures Ran(p, cfg, st, r.st)
    decreases n, 1, s, 2
  {
    hide Metered, Kept, Tame, ReadAttr, WriteAttr, InPlace, Extends;
    var AugAttr(o, a, op, e) := s;
    var ro := Eval(p, cfg, n, o, map[], st);
    if !ro.EOk? then Broke(ro) else
    var rg := ReadAttr(ro.v, a, ro.st);
    if !rg.EOk? then Broke(rg) else
    var rv := Eval(p, cfg, n, e, map[], rg.st);
    MeteredOn(cfg, st.meter, rg.st.meter, rv.st.meter);
    if !rv.EOk? then Broke(rv) else
    var ri := InPlace(op, rg.v, rv.v, Clear(rv.st, !Extends(op, rg.v, rv.v, rv.st.heap)));
    if !ri.EOk? then Broke(ri) else
    var w := WriteAttr(ro.v, a, ri.v, ri.st);
    if w.EOk? then SNext(w.st) else Broke(w)
  }

  function ExecAugName(p: Program, cfg: Config, n: nat, s: Stmt, st: State): (r: SR)
    requires s.AugName?
    ensures Ran(p, cfg, st, r.st)
    decreases n, 1, s, 2
  {
    var AugName(x, op, e) := s;
    var rx := Load(x, map[], st);
    if !rx.EOk? then Broke(rx) else
    var rv := Eval(p, cfg, n, e, map[], rx.st);
    if !rv.EOk? then Broke(rv) else
    var ri := InPlace(op, rx.v, rv.v, rv.st);
    if ri.EOk? then SNext(Store(x, ri.v, ri.st)) else Broke(ri)
  }

  // ----- statements -----

  function ExecAll(p: Program, cfg: Config, n: nat, ss: seq<Stmt>, st: State): (r: SR)
    ensures Ran(p, cfg, st, r.st)
    decreases n, 1, ss, 0
  {
    if ss == [] then SNext(st) else
    var r0 := Exec(p, cfg, n, ss[0], st);
    if r0.SNext? then ExecAll(p, cfg, n, ss[1..], r0.st) else r0
  }

  function Exec(p: Program, cfg: Config, n: nat, s: Stmt, st: State): (r: SR)
    ensures Ran(p, cfg, st, r.st)
    decreases n, 1, s, 3
  {
    hide Kept, Tame, Metered;
    MeteredSame(cfg, st.meter);
    match s
    case ExprS(e) =>
      var r := Eval(p, cfg, n, e, map[], st);
      if r.EOk? then SNext(r.st) else Broke(r)
    case Assign(_, _) => ExecAssign(p, cfg, n, s, st)
    case AugName(_, _, _) => ExecAugName(p, cfg, n, s, st)
    case AugAttr(_, _, _, _) => ExecAugAttr(p, cfg, n, s, st)
    case Def(f, id) => SNext(Store(f, FunV(id), st))
    case If(c, thn, els) =>
      var rc := Eval(p, cfg, n, c, map[], st);
      if !rc.EOk? then Broke(rc) else
      var rb := ExecAll(p, cfg, n, if Truthy(rc.v, rc.st.heap) then thn else els, rc.st);
      MeteredOn(cfg, st.meter, rc.st.meter, rb.st.meter);
      rb
    case While(_, _, _) => ExecWhile(p, cfg, n, s, st)
    case For(x, it, body, orelse) =>
      var ri := Eval(p, cfg, n, it, map[], st);
      if !ri.EOk? then Broke(ri)
      else if !Iterable(ri.v, ri.st.heap) then SExc(TypeError, ri.st)
      else
        var rl := ForLoop(p, cfg, n, x, body, orelse, ri.v, 0, ri.st);
        MeteredOn(cfg, st.meter, ri.st.meter, rl.st.meter);
        rl
    case Try(_, _, _, _) => ExecTry(p, cfg, n, s, st)
    case Return(e) =>
      var r := Eval(p, cfg, n, e, map[], st);
      if r.EOk? then SReturn(r.v, r.st) else Broke(r)
    case Raise(e) => SExc(e, st)
    case Break => SBreak(st)
    case Continue => SContinue(st)
  }

  function AfterLoop(r: SR): (s: SR)
    ensures s.st == r.st && s.SDeep? == r.SDeep?
  {
    if r.SBreak? then SNext(r.st) else r
  }

  function ExecWhile(p: Program, cfg: Config, n: nat, s: Stmt, st: State): (r: SR)
    requires s.While?
    ensures Ran(p, cfg, st, r.st)
    decreases n, 1, s, 2
  {
    hide Truthy, Kept, Tame, Left, Lenient, AlwaysQuiet;
    var rc := Eval(p, cfg, n, s.cond, map[], st);
    if !rc.EOk? then Broke(rc)
    else if !Truthy(rc.v, rc.st.heap) then ExecAll(p, cfg, n, s.orelse, rc.st)
    else if n == 0 then SDeep(rc.st)
    else
      var rb := ExecAll(p, cfg, n - 1, s.body, rc.st);
      if rb.SNext? || rb.SContinue? then ExecWhile(p, cfg, n - 1, s, rb.st) else AfterLoop(rb)
  }

  function ExecTry(p: Program, cfg: Config, n: nat, s: Stmt, st: State): (r: SR)
    requires s.Try?
    ensures Ran(p, cfg, st, r.st)
    decreases n, 1, s, 2
  {
    hide Metered, Kept, Tame;
    var r0 := ExecAll(p, cfg, n, s.body, st);
    var r1 :=
      if r0.SExc? then Handle(p, cfg, n, s.handlers, r0.e, r0.st)
      else if r0.SNext? then ExecAll(p, cfg, n, s.orelse, r0.st)
      else r0;
    MeteredOn(cfg, st.meter, r0.st.meter, r1.st.meter);
    if r1.SDeep? then r1 else
    var rf := ExecAll(p, cfg, n, s.final, r1.st);
    MeteredOn(cfg, st.meter, r1.st.meter, rf.st.meter);
    if rf.SNext? then WithState(r1, rf.st) else rf
  }

  function ForLoop(p: Program, cfg: Config, n: nat, x: string, body: seq<Stmt>, orelse: seq<Stmt>,
                   over: Val, i: nat, st: State): (r: SR)
    ensures Ran(p, cfg, st, r.st)
    decreases n, 1, orelse, 1
  {
    var item := NextItem(over, i, st.heap);
    if item.None? then ExecAll(p, cfg, n, orelse, st)
    else if n == 0 then SDeep(st)
    else
      var rb := ExecAll(p, cfg, n - 1, body, Store(x, item.value, st));
      if rb.SNext? || rb.SContinue? then ForLoop(p, cfg, n - 1, x, body, orelse, over, i + 1, rb.st)
      else AfterLoop(rb)
  }

  /** The first handler that matches. A bare one fits only what `except Exception` takes. */
  function Handle(p: Program, cfg: Config, n: nat, hs: seq<Handler>, e: Error, st: State): (r: SR)
    ensures Ran(p, cfg, st, r.st)
    decreases n, 1, hs, 0
  {
    if hs == [] then SExc(e, st)
    else if Matches(hs[0].catch, e) then
      ExecAll(p, cfg, n, hs[0].body, Clear(st, hs[0].catch.Bare? ==> !e.ExitError?))
    else Handle(p, cfg, n, hs[1..], e, st)
  }

  function Run(p: Program, cfg: Config, n: nat, st: State): SR {
    ExecAll(p, cfg, n, p.main, st)
  }
}
