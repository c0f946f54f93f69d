/** The worker and its parent: two ends of a connection, with threads in the worker that stop
    and start clocks of this and of earlier executions.

    A step is what one side does between two points where another side may act: everything
    under the send lock is one step, and so is what a clock does under its own lock before and
    after it tells the worker. Requests and calls are numbered here. The real messages carry no
    request number, and no step looks at one: it is what lets the theorems say whose answer or
    whose pause a message is. */
module Protocol {
  import opened Options

  datatype Up =
    | HostTime(req: nat, paused: bool)
    | Call(id: nat)
    | Answer(req: nat, ok: bool)      // a result, or a worker error

  datatype Down =
    | Exec(req: nat)
    | Return(id: nat, ok: bool)       // not ok: the value could not be serialized

  datatype Parent = Free | Waiting(req: nat) | Serving(req: nat, id: nat)

  /** Where the worker is with a request: taken, under `_execution`, or past it. */
  datatype Phase = Got | Busy | Ended

  /** `calls` are the ones it waits for the return of, the innermost last: a finalizer may make a
      call of its own inside another. */
  datatype Worker =
    | Gone                            // no process, no connection
    | Dead                            // died; what it sent can still be read
    | Idle
    | Run(req: nat, phase: Phase, calls: seq<nat>)
    | Late(calls: seq<nat>)           // a finalizer's call, made after the answer was sent

  /** `telling` is what the clock's lock is held for: the observer is about to be told. */
  datatype Ticker = Ticker(scope: Option<nat>, depth: nat, telling: Option<bool>)

  /** `Escaped`: an error that nothing in the wait catches went out of the exec. */
  datatype Outcome = Replied(req: nat, ok: bool) | Lost | Escaped

  /** What the worker's side did, in order, over every worker there was. */
  datatype Entry = Took(req: nat) | Sent(msg: Up) | Died

  datatype State = State(
    parent: Parent, worker: Worker, up: seq<Up>, down: seq<Down>,
    scope: Option<nat>, paused: bool, tickers: seq<Ticker>,
    nextReq: nat, nextCall: nat, taken: nat,
    answers: seq<Outcome>,
    made: seq<nat>, returned: seq<nat>, resumed: seq<nat>,   // this worker's calls
    confused: bool,
    log: seq<Entry>)

  const INIT := State(Free, Gone, [], [], None, false, [], 0, 0, 0, [], [], [], [], false, [])

  datatype Event =
    | SendExec | Read | Serve(ok: bool) | Escape(read: bool) | NoticeDeath | Kill | Reap | Spawn   // the parent
    | Take | Begin | MakeTicker | End | Reply(ok: bool) | Ask | Nest | Resume | LateAsk            // the worker
    | Crash
    | Enter(i: nat) | Exit(i: nat) | Tell(i: nat)                                                  // any thread

  // ----- the steps -----

  predicate Alive(w: Worker) { w.Idle? || w.Run? || w.Late? }

  /** It waits for the return of a call. */
  predicate Calling(w: Worker) { (w.Run? || w.Late?) && w.calls != [] }

  /** The worker puts a message on the connection. */
  function Send(s: State, m: Up): State { s.(up := s.up + [m], log := s.log + [Sent(m)]) }

  /** `_tell_parent`: a clock of any other execution than the present one is passed over. */
  function TellParent(s: State, scope: Option<nat>, paused: bool): State {
    if scope.None? || scope != s.scope then s
    else Send(s.(paused := paused), HostTime(scope.value, paused))
  }

  /** The end of `_execution`, in one step under the send lock. */
  function EndExecution(s: State): State
    requires s.worker.Run?
  {
    var t := s.(scope := None, worker := s.worker.(phase := Ended));
    if t.paused then Send(t.(paused := false), HostTime(s.worker.req, false)) else t
  }

  predicate Can(s: State, e: Event) {
    match e
    case SendExec => s.parent.Free? && Alive(s.worker)
    case Read => s.parent.Waiting? && s.up != []
    case Serve(_) => s.parent.Serving?
    case Escape(read) => (s.parent.Waiting? && (read ==> s.up != [])) || (s.parent.Serving? && !read)
    case NoticeDeath => s.parent.Waiting? && s.worker.Dead? && s.up == []
    case Kill => s.parent.Waiting?
    case Reap => s.parent.Free?
    case Spawn => s.parent.Free? && s.worker.Gone?
    case Take => s.worker.Idle? && s.down != []
    case Begin => s.worker.Run? && s.worker.phase.Got? && s.worker.calls == []
    case MakeTicker =>
      && s.worker.Run? && s.worker.phase.Busy? && s.worker.calls == []
      && (forall k :: 0 <= k < |s.tickers| ==> s.tickers[k].scope != s.scope)
    case End => s.worker.Run? && s.worker.phase.Busy? && s.worker.calls == []
    case Reply(ok) =>
      s.worker.Run? && s.worker.calls == [] && (s.worker.phase.Ended? || (s.worker.phase.Got? && !ok))
    case Ask => s.worker.Run? && s.worker.calls == []
    case Nest => Calling(s.worker)
    case Resume => Calling(s.worker) && s.down != []
    case LateAsk => s.worker.Idle?
    case Crash => Alive(s.worker)
    case Enter(i) => Alive(s.worker) && i < |s.tickers| && s.tickers[i].telling.None?
    case Exit(i) => Alive(s.worker) && i < |s.tickers| && s.tickers[i].telling.None? && s.tickers[i].depth > 0
    case Tell(i) => Alive(s.worker) && i < |s.tickers| && s.tickers[i].telling.Some?
  }

  /** The worker's side of the connection and all it held are gone. */
  function Drop(s: State, w: Worker): State {
    s.(worker := w, scope := None, paused := false, tickers := [],
       log := if Alive(s.worker) then s.log + [Died] else s.log)
  }

  /** `_kill` and `_cleanup`: the connection goes with the worker. */
  function Clean(s: State): State { Drop(s, Gone).(up := [], down := []) }

  function ReadOne(s: State): State
    requires s.parent.Waiting? && s.up != []
  {
    var t := s.(up := s.up[1..]);
    match s.up[0]
    case HostTime(_, _) => t
    case Call(id) => t.(parent := Serving(s.parent.req, id))
    case Answer(r, ok) => t.(parent := Free, answers := s.answers + [Replied(r, ok)])
  }

  /** The wait raises what it does not catch, as it reads a message, between two of them, or as it
      sends the return of a call. The worker and what is on the connection stay as they are. */
  function EscapeOne(s: State, read: bool): State
    requires read ==> s.up != []
  {
    s.(up := if read then s.up[1..] else s.up, parent := Free, answers := s.answers + [Escaped])
  }

  /** The answer to a call: the value, or in its place an error that can be serialized. */
  function ServeOne(s: State, ok: bool): State
    requires s.parent.Serving?
  {
    var t := s.(parent := Waiting(s.parent.req));
    if s.worker.Dead? then t
    else t.(down := s.down + [Return(s.parent.id, ok)], returned := s.returned + [s.parent.id])
  }

  /** The worker's loop takes a message; it passes over any but a request. */
  function TakeOne(s: State): State
    requires s.down != []
  {
    var t := s.(down := s.down[1..]);
    match s.down[0]
    case Exec(r) => t.(worker := Run(r, Got, []), taken := r + 1, log := s.log + [Took(r)])
    case Return(_, _) => t
  }

  /** The innermost `_round_trip` takes a message, which has to be the return of its own call. */
  function ResumeOne(s: State): State
    requires Calling(s.worker) && s.down != []
  {
    var k := |s.worker.calls| - 1;
    var id, rest := s.worker.calls[k], s.worker.calls[..k];
    var t := s.(down := s.down[1..],
                worker := if s.worker.Late? && rest == [] then Idle else s.worker.(calls := rest));
    if s.down[0].Return? && s.down[0].id == id then t.(resumed := s.resumed + [id]) else t.(confused := true)
  }

  function AskOne(s: State, w: Worker): State {
    Send(s, Call(s.nextCall)).(worker := w, nextCall := s.nextCall + 1, made := s.made + [s.nextCall])
  }

  function SetTicker(s: State, i: nat, k: Ticker): State
    requires i < |s.tickers|
  {
    s.(tickers := s.tickers[i := k])
  }

  function EnterOne(k: Ticker): Ticker {
    if k.depth == 0 then k.(telling := Some(true)) else k.(depth := k.depth + 1)
  }

  function ExitOne(k: Ticker): Ticker
    requires k.depth > 0
  {
    k.(depth := k.depth - 1, telling := if k.depth == 1 then Some(false) else None)
  }

  /** What the clock is once the observer has been told. */
  function ToldOne(k: Ticker): Ticker
    requires k.telling.Some?
  {
    k.(depth := if k.telling.value then 1 else 0, telling := None)
  }

  function Next(s: State, e: Event): State
    requires Can(s, e)
  {
    match e
    case SendExec => s.(down := s.down + [Exec(s.nextReq)], parent := Waiting(s.nextReq), nextReq := s.nextReq + 1)
    case Read => ReadOne(s)
    case Serve(ok) => ServeOne(s, ok)
    case Escape(read) => EscapeOne(s, read)
    case NoticeDeath => Clean(s).(parent := Free, answers := s.answers + [Lost])
    case Kill => Clean(s).(parent := Free, answers := s.answers + [Lost])
    case Reap => Clean(s)
    case Spawn => s.(worker := Idle, made := [], returned := [], resumed := [])
    case Take => TakeOne(s)
    case Begin => s.(worker := s.worker.(phase := Busy), scope := Some(s.worker.req))
    case MakeTicker => s.(tickers := s.tickers + [Ticker(s.scope, 0, None)])
    case End => EndExecution(s)
    case Reply(ok) => Send(s, Answer(s.worker.req, ok)).(worker := Idle)
    case Ask => AskOne(s, s.worker.(calls := [s.nextCall]))
    case Nest => AskOne(s, s.worker.(calls := s.worker.calls + [s.nextCall]))
    case Resume => ResumeOne(s)
    case LateAsk => AskOne(s, Late([s.nextCall]))
    case Crash => Drop(s, Dead)
    case Enter(i) => SetTicker(s, i, EnterOne(s.tickers[i]))
    case Exit(i) => SetTicker(s, i, ExitOne(s.tickers[i]))
    case Tell(i) =>
      SetTicker(TellParent(s, s.tickers[i].scope, s.tickers[i].telling.value), i, ToldOne(s.tickers[i]))
  }

  predicate Possible(s: State, es: seq<Event>)
    decreases es
  {
    es == [] || (Can(s, es[0]) && Possible(Next(s, es[0]), es[1..]))
  }

  function Play(s: State, es: seq<Event>): State
    requires Possible(s, es)
    decreases es
  {
    if es == [] then s else Play(Next(s, es[0]), es[1..])
  }

  /** Nothing is under way and nothing is on the connection. */
  predicate Settled(s: State) { s.worker.Idle? && s.up == [] && s.down == [] }

  /** The two steps that spoil the protocol: a call made past the answer, and an error out of
      the wait that leaves a live worker with something under way. */
  predicate Spoils(s: State, e: Event)
    requires Can(s, e)
  {
    e.LateAsk? || (e.Escape? && Alive(s.worker) && !Settled(EscapeOne(s, e.read)))
  }

  /** A possible run with no such step. */
  predicate Unspoilt(s: State, es: seq<Event>)
    requires Possible(s, es)
    decreases es
  {
    es == [] || (!Spoils(s, es[0]) && Unspoilt(Next(s, es[0]), es[1..]))
  }

  // ----- requests, calls and what is on the connection -----

  function Calls(up: seq<Up>): seq<nat> {
    if up == [] then []
    else if up[0].Call? then [up[0].id] + Calls(up[1..]) else Calls(up[1..])
  }

  lemma {:induction false} CallsAdd(up: seq<Up>, m: Up)
    ensures Calls(up + [m]) == Calls(up) + (if m.Call? then [m.id] else [])
  {
    if up == [] {
      assert up + [m] == [m] && [m][1..] == [];
    } else {
      assert (up + [m])[1..] == up[1..] + [m];
      CallsAdd(up[1..], m);
    }
  }

  /** Every message is about request `req`, and an answer has nothing behind it. */
  predicate About(up: seq<Up>, req: nat) {
    && (forall i :: 0 <= i < |up| && !up[i].Call? ==> up[i].req == req)
    && (forall i :: 0 <= i < |up| - 1 ==> !up[i].Answer?)
  }

  predicate Answered(up: seq<Up>) { up != [] && up[|up| - 1].Answer? }

  predicate Returns(down: seq<Down>) { forall i :: 0 <= i < |down| ==> down[i].Return? }

  /** `k` calls are on their way up, being served, or on their way back. */
  predicate Trips(s: State, k: nat) {
    Returns(s.down) && |Calls(s.up)| + (if s.parent.Serving? then 1 else 0) + |s.down| == k
  }

  predicate NoCall(s: State) { s.parent.Waiting? && Calls(s.up) == [] }

  /** Where the two ends can be, together, while the parent waits for request `req`. */
  predicate AtWork(s: State, req: nat) {
    && About(s.up, req)
    && match s.worker
       case Gone => false
       case Late(_) => false
       case Dead => true
       case Idle =>
         NoCall(s) && ((s.down == [Exec(req)] && s.up == [] && s.taken <= req) || (s.down == [] && Answered(s.up)))
       case Run(r, _, calls) => r == req && !Answered(s.up) && s.taken == req + 1 && Trips(s, |calls|)
  }

  predicate AtRest(s: State) {
    && (s.worker.Gone? || s.worker.Dead? || s.worker.Idle?)
    && (!s.worker.Dead? ==> s.up == [] && s.down == [])
    && (s.up != [] ==> s.answers != [] && s.answers[|s.answers| - 1].Escaped?)
  }

  predicate Coupled(s: State) {
    && s.taken <= s.nextReq
    && if s.parent.Free? then AtRest(s) else AtWork(s, s.parent.req)
  }

  /** Outcome by outcome, in the order of the requests, and each answered one with its own. */
  predicate Paired(s: State) {
    && s.nextReq == |s.answers| + (if s.parent.Free? then 0 else 1)
    && (!s.parent.Free? ==> s.parent.req == |s.answers|)
    && (forall i :: 0 <= i < |s.answers| && s.answers[i].Replied? ==> s.answers[i].req == i)
  }

  lemma CoupledParent(s: State, e: Event)
    requires Coupled(s) && Paired(s) && Can(s, e)
    requires e.SendExec? || e.Serve? || e.NoticeDeath? || e.Kill? || e.Reap? || e.Spawn?
    ensures Coupled(Next(s, e)) && Paired(Next(s, e))
  {
  }

  lemma CoupledEscape(s: State, read: bool)
    requires Coupled(s) && Paired(s) && Can(s, Escape(read))
    ensures Paired(Next(s, Escape(read)))
    ensures Coupled(Next(s, Escape(read))) <==> !Spoils(s, Escape(read))
  {
    hide About, Calls, Answered;
  }

  lemma AboutRest(up: seq<Up>, req: nat)
    requires About(up, req) && up != []
    ensures About(up[1..], req)
    ensures up[0].Answer? ==> up[1..] == []
    ensures up[0].Answer? ==> up[0].req == req && Answered(up)
    ensures !up[0].Answer? ==> Answered(up[1..]) == Answered(up)
    ensures Calls(up) == if up[0].Call? then [up[0].id] + Calls(up[1..]) else Calls(up[1..])
  {
    assert forall i :: 0 <= i < |up[1..]| ==> up[1..][i] == up[i + 1];
  }

  lemma CoupledRead(s: State)
    requires Coupled(s) && Paired(s) && Can(s, Read)
    ensures Coupled(Next(s, Read)) && Paired(Next(s, Read))
  {
    AboutRest(s.up, s.parent.req);
    hide About, Answered, Calls, Returns;
  }

  lemma CoupledSend(s: State, m: Up, req: nat)
    requires AtWork(s, req) && s.worker.Run? && !m.Answer? && (m.HostTime? ==> m.req == req)
    ensures About(s.up + [m], req) && !Answered(s.up + [m])
    ensures Calls(s.up + [m]) == Calls(s.up) + (if m.Call? then [m.id] else [])
  {
    CallsAdd(s.up, m);
  }

  lemma CoupledWorker(s: State, e: Event)
    requires Coupled(s) && Paired(s) && Can(s, e)
    requires e.Begin? || e.MakeTicker? || e.Crash? || e.Enter? || e.Exit?
    ensures Coupled(Next(s, e)) && Paired(Next(s, e))
  {
    hide About, Calls, Answered, Returns;
  }

  lemma CoupledTakes(s: State, e: Event)
    requires Coupled(s) && Paired(s) && Can(s, e) && (e.Take? || e.Resume?)
    ensures Coupled(Next(s, e)) && Paired(Next(s, e))
  {
    assert Calls([]) == [];
    ReturnsRest(s.down);
    hide About, Calls, Answered, Returns;
  }

  lemma ReturnsRest(down: seq<Down>)
    ensures Returns([])
    ensures down != [] && Returns(down) ==> Returns(down[1..]) && down[0].Return?
  {
  }

  lemma CoupledReply(s: State, ok: bool)
    requires Coupled(s) && Paired(s) && Can(s, Reply(ok))
    ensures Coupled(Next(s, Reply(ok))) && Paired(Next(s, Reply(ok)))
  {
    CallsAdd(s.up, Answer(s.worker.req, ok));
  }

  lemma CoupledAsk(s: State, e: Event)
    requires Coupled(s) && Paired(s) && Can(s, e) && (e.Ask? || e.Nest?)
    ensures Coupled(Next(s, e)) && Paired(Next(s, e))
  {
    hide Returns;
    CoupledSend(s, Call(s.nextCall), s.worker.req);
  }

  // ----- clocks -----

  /** The requests on the connection are in order, from `low` to below `high`. */
  predicate Queued(down: seq<Down>, low: nat, high: nat) {
    && (forall i :: 0 <= i < |down| && down[i].Exec? ==> low <= down[i].req < high)
    && (forall i, j :: 0 <= i < j < |down| && down[i].Exec? && down[j].Exec? ==> down[i].req < down[j].req)
  }

  lemma QueuedRest(down: seq<Down>, low: nat, high: nat)
    requires Queued(down, low, high) && down != []
    ensures Queued(down[1..], if down[0].Exec? then down[0].req + 1 else low, high)
    ensures Queued(down[1..], low, high)
    ensures down[0].Exec? ==> low <= down[0].req < high
  {
  }

  lemma QueuedAdd(down: seq<Down>, low: nat, high: nat, m: Down)
    requires Queued(down, low, high) && low <= high && (m.Exec? ==> m.req == high)
    ensures Queued(down + [m], low, if m.Exec? then high + 1 else high)
  {
  }

  /** The requests on the connection are in order, and new to the worker. */
  predicate Ordered(s: State) {
    && s.taken <= s.nextReq
    && (s.worker.Run? ==> s.taken == s.worker.req + 1)
    && Queued(s.down, s.taken, s.nextReq)
  }

  lemma OrderedSends(s: State, e: Event)
    requires Ordered(s) && Can(s, e) && (e.SendExec? || e.Serve?)
    ensures Ordered(Next(s, e))
  {
    hide Queued;
    QueuedAdd(s.down, s.taken, s.nextReq, if e.SendExec? then Exec(s.nextReq) else Return(s.parent.id, e.ok));
  }

  lemma OrderedTakes(s: State, e: Event)
    requires Ordered(s) && Can(s, e) && (e.Take? || e.Resume?)
    ensures Ordered(Next(s, e))
  {
    QueuedRest(s.down, s.taken, s.nextReq);
    hide Queued;
  }

  lemma OrderedRest(s: State, e: Event)
    requires Ordered(s) && Can(s, e) && !e.SendExec? && !e.Serve? && !e.Take? && !e.Resume?
    ensures Ordered(Next(s, e))
  {
    assert Queued([], s.taken, s.nextReq);
    hide Queued;
  }

  lemma OrderedStep(s: State, e: Event)
    requires Ordered(s) && Can(s, e)
    ensures Ordered(Next(s, e))
  {
    hide Ordered, Next, Can;
    match e
    case SendExec => OrderedSends(s, e);
    case Serve(_) => OrderedSends(s, e);
    case Take => OrderedTakes(s, e);
    case Resume => OrderedTakes(s, e);
    case _ => OrderedRest(s, e);
  }

  /** What the clock last had the observer told. */
  predicate Said(k: Ticker) { if k.telling.Some? then !k.telling.value else k.depth > 0 }

  /** Every clock belongs to a request below this one. */
  function Newest(s: State): nat {
    if s.worker.Run? && s.worker.phase.Got? then s.worker.req else s.taken
  }

  predicate Sound(newest: nat, scope: Option<nat>, paused: bool, k: Ticker) {
    && (k.telling.Some? ==> k.depth == 0)
    && (k.scope.Some? ==> k.scope.value < newest)
    && (k.scope.Some? && k.scope == scope ==> Said(k) == paused)
  }

  predicate Running(s: State) {
    && s.scope == (if s.worker.Run? && s.worker.phase.Busy? then Some(s.worker.req) else None)
    && (s.scope.None? ==> !s.paused)
  }

  predicate Clocked(s: State) {
    && Running(s)
    && (forall k :: 0 <= k < |s.tickers| ==> Sound(Newest(s), s.scope, s.paused, s.tickers[k]))
    && (forall j, k :: 0 <= j < k < |s.tickers| && s.tickers[j].scope.Some? ==>
          s.tickers[j].scope != s.tickers[k].scope)
    && (s.paused ==> exists k :: 0 <= k < |s.tickers| && s.tickers[k].scope == s.scope)
  }

  lemma ClockedDrop(s: State, e: Event)
    requires Clocked(s) && Can(s, e)
    requires e.NoticeDeath? || e.Kill? || e.Reap? || e.Crash?
    ensures Clocked(Next(s, e))
  {
  }

  lemma ClockedParent(s: State, e: Event)
    requires Clocked(s) && Can(s, e)
    requires e.SendExec? || e.Read? || e.Serve? || e.Escape? || e.Spawn?
    ensures Clocked(Next(s, e))
  {
    hide Sound;
  }

  /** What belongs to one of the requests up to here belongs to one of more of them. */
  lemma SoundUpTo(k: Ticker, newest: nat, more: nat, scope: Option<nat>, paused: bool)
    requires Sound(newest, scope, paused, k) && newest <= more
    ensures Sound(more, scope, paused, k)
  {
  }

  lemma ClockedTake(s: State)
    requires Ordered(s) && Clocked(s) && Can(s, Take)
    ensures Clocked(Next(s, Take))
  {
    var t := Next(s, Take);
    assert Newest(s) <= Newest(t);
    hide Sound, Queued;
    forall k | 0 <= k < |t.tickers| ensures Sound(Newest(t), t.scope, t.paused, t.tickers[k]) {
      SoundUpTo(s.tickers[k], Newest(s), Newest(t), s.scope, s.paused);
    }
  }

  lemma ClockedWorker(s: State, e: Event)
    requires Ordered(s) && Clocked(s) && Can(s, e)
    requires e.Begin? || e.End? || e.Reply?
    ensures Clocked(Next(s, e))
  {
    hide Queued;
  }

  lemma ClockedCall(s: State, e: Event)
    requires Clocked(s) && Can(s, e)
    requires e.Ask? || e.Nest? || e.Resume? || e.LateAsk?
    ensures Clocked(Next(s, e))
  {
    var t := Next(s, e);
    assert t.tickers == s.tickers && t.scope == s.scope && t.paused == s.paused && Newest(t) == Newest(s);
    assert Running(t);
    hide Sound, Next, Can, Newest;
  }

  lemma ClockedMake(s: State)
    requires Ordered(s) && Clocked(s) && Can(s, MakeTicker)
    ensures Clocked(Next(s, MakeTicker))
  {
    assert !s.paused;
  }

  /** One clock changes, and what it said changes only as the worker hears it. */
  lemma ClockedSet(s: State, t: State, i: nat, k: Ticker)
    requires Clocked(s) && i < |s.tickers| && k.scope == s.tickers[i].scope && (k.telling.Some? ==> k.depth == 0)
    requires t.tickers == s.tickers[i := k] && t.worker == s.worker && t.scope == s.scope && t.taken == s.taken
    requires if k.scope.Some? && k.scope == s.scope then t.paused == Said(k) else t.paused == s.paused
    ensures Clocked(t)
  {
    if t.paused {
      if k.scope.Some? && k.scope == s.scope {
        assert t.tickers[i].scope == t.scope;
      } else {
        var j :| 0 <= j < |s.tickers| && s.tickers[j].scope == s.scope;
        assert t.tickers[j].scope == t.scope;
      }
    }
  }

  lemma ClockedThread(s: State, e: Event)
    requires Clocked(s) && Can(s, e) && (e.Enter? || e.Exit? || e.Tell?)
    ensures Clocked(Next(s, e))
  {
    var k := s.tickers[e.i];
    assert Sound(Newest(s), s.scope, s.paused, k);
    ClockedSet(s, Next(s, e), e.i, if e.Enter? then EnterOne(k) else if e.Exit? then ExitOne(k) else ToldOne(k));
  }

  // ----- pauses on the connection -----

  lemma CoupledPause(s: State, t: State, paused: bool)
    requires Coupled(s) && s.worker.Run?
    requires t.up == s.up + [HostTime(s.worker.req, paused)]
    requires t.parent == s.parent && t.down == s.down && t.taken == s.taken && t.nextReq == s.nextReq
    requires t.worker.Run? && t.worker.req == s.worker.req && t.worker.calls == s.worker.calls
    ensures Coupled(t)
  {
    CoupledSend(s, HostTime(s.worker.req, paused), s.worker.req);
    assert Calls(t.up) == Calls(s.up);
    hide About, Calls, Answered;
  }

  lemma CoupledTell(s: State, i: nat)
    requires Coupled(s) && Paired(s) && Running(s) && Can(s, Tell(i))
    ensures Coupled(Next(s, Tell(i))) && Paired(Next(s, Tell(i)))
  {
    var k := s.tickers[i];
    if k.scope.Some? && k.scope == s.scope {
      assert s.worker.Run? && k.scope.value == s.worker.req;
      CoupledPause(s, Next(s, Tell(i)), k.telling.value);
      hide Coupled;
    } else {
      assert Next(s, Tell(i)) == SetTicker(s, i, ToldOne(k));
      hide About, Calls, Answered;
    }
  }

  lemma CoupledEnd(s: State)
    requires Coupled(s) && Paired(s) && Can(s, End)
    ensures Coupled(Next(s, End)) && Paired(Next(s, End))
  {
    if s.paused {
      CoupledPause(s, Next(s, End), false);
      hide Coupled;
    } else {
      hide About, Calls, Answered;
    }
  }

  // ----- calls and returns -----

  predicate Rising(ids: seq<nat>, below: nat) {
    && (forall i :: 0 <= i < |ids| ==> ids[i] < below)
    && (forall i, j :: 0 <= i < j < |ids| ==> ids[i] < ids[j])
  }

  function Held(p: Parent): seq<nat> { if p.Serving? then [p.id] else [] }

  /** The last of the ids returned are the ones on the connection. */
  predicate OnTheWay(returned: seq<nat>, down: seq<Down>) {
    && |down| <= |returned|
    && forall i :: 0 <= i < |down| && down[i].Return? ==> down[i].id == returned[|returned| - |down| + i]
  }

  /** Calls are served and returned in the order they were made, each once. */
  predicate Served(s: State) {
    && Rising(s.made, s.nextCall)
    && s.returned <= s.made
    && (Alive(s.worker) ==> s.made == s.returned + Held(s.parent) + Calls(s.up))
    && (s.worker.Run? ==> OnTheWay(s.returned, s.down))
  }

  lemma ServedParent(s: State, e: Event)
    requires Coupled(s) && Served(s) && Can(s, e) && !Spoils(s, e)
    requires e.SendExec? || e.Escape?
    ensures Served(Next(s, e))
  {
    assert Calls([]) == [];
    hide About, Answered, Rising, OnTheWay, Returns, Calls;
  }

  lemma ServedRead(s: State)
    requires Coupled(s) && Served(s) && Can(s, Read)
    ensures Served(Next(s, Read))
  {
    AboutRest(s.up, s.parent.req);
    assert Calls([]) == [];
    hide About, Answered, Rising, OnTheWay, Returns, Calls;
  }

  /** Each call served gives one return, and it is the call's own. */
  lemma ServedServe(s: State, ok: bool)
    requires Coupled(s) && Served(s) && Can(s, Serve(ok))
    ensures Served(Next(s, Serve(ok)))
    ensures Alive(s.worker) ==> Next(s, Serve(ok)).returned == s.returned + [s.parent.id]
  {
    hide About, Calls, Answered, Rising;
  }

  lemma ServedDrop(s: State, e: Event)
    requires Coupled(s) && Served(s) && Can(s, e)
    requires e.NoticeDeath? || e.Kill? || e.Reap? || e.Spawn? || e.Crash?
    ensures Served(Next(s, e))
  {
    RisingNone(s.nextCall);
    assert Calls([]) == [];
    hide Rising, Calls, About, Answered, OnTheWay;
  }

  lemma ServedTakes(s: State, e: Event)
    requires Coupled(s) && Served(s) && Can(s, e)
    requires e.Take? || e.Resume?
    ensures Served(Next(s, e))
  {
    hide About, Calls, Answered, Rising;
  }

  lemma ServedAsk(s: State, e: Event)
    requires Coupled(s) && Served(s) && Can(s, e) && (e.Ask? || e.Nest?)
    ensures Served(Next(s, e))
  {
    CallsAdd(s.up, Call(s.nextCall));
    RisingMore(s.made, s.nextCall);
    hide About, Calls, Answered, Rising, OnTheWay;
  }

  lemma ServedSends(s: State, e: Event)
    requires Coupled(s) && Served(s) && Can(s, e)
    requires e.Reply? || e.End? || e.Tell?
    ensures Served(Next(s, e))
  {
    hide About, Calls, Answered, Rising, OnTheWay, Coupled;
    NoMoreCalls(s, e);
  }

  lemma NoMoreCalls(s: State, e: Event)
    requires Can(s, e) && (e.Reply? || e.End? || e.Tell?)
    ensures Calls(Next(s, e).up) == Calls(s.up)
  {
    forall m: Up ensures Calls(s.up + [m]) == Calls(s.up) + (if m.Call? then [m.id] else []) { CallsAdd(s.up, m); }
    hide Calls;
  }

  lemma ServedQuiet(s: State, e: Event)
    requires Served(s) && Can(s, e) && (e.Begin? || e.MakeTicker? || e.Enter? || e.Exit?)
    ensures Served(Next(s, e))
  {
    hide Calls, Rising, OnTheWay;
  }

  lemma RisingNone(below: nat)
    ensures Rising([], below)
  {
  }

  lemma RisingMore(ids: seq<nat>, below: nat)
    requires Rising(ids, below)
    ensures Rising(ids + [below], below + 1)
  {
  }

  // ----- calls one at a time -----

  /** With no call inside another, the worker goes on with the return of its own call. */
  predicate Traded(s: State) {
    && !s.confused && s.resumed <= s.returned
    && (s.worker.Idle? ==> s.made == s.resumed)
    && (s.worker.Run? ==> |s.worker.calls| <= 1 && s.made == s.resumed + s.worker.calls)
  }

  lemma TradedParent(s: State, e: Event)
    requires Coupled(s) && Served(s) && Traded(s) && Can(s, e) && !Spoils(s, e)
    requires e.SendExec? || e.Read? || e.Serve? || e.Escape? || e.NoticeDeath? || e.Kill? || e.Reap? || e.Spawn?
    ensures Traded(Next(s, e))
  {
    hide About, Calls, Answered, Rising, OnTheWay, Coupled;
  }

  lemma TradedWorker(s: State, e: Event)
    requires Coupled(s) && Served(s) && Traded(s) && Can(s, e)
    requires e.Take? || e.Begin? || e.MakeTicker? || e.Reply? || e.Ask? || e.Crash?
    ensures Traded(Next(s, e))
  {
    hide About, Calls, Answered, Rising, OnTheWay;
  }

  lemma TradedResume(s: State)
    requires Coupled(s) && Served(s) && Traded(s) && Can(s, Resume)
    ensures Traded(Next(s, Resume))
  {
    hide About, Calls, Answered, Rising;
    assert s.worker.Run? && |s.worker.calls| == 1;
    assert |s.down| == 1 && Calls(s.up) == [] && Held(s.parent) == [];
    assert s.made == s.returned;
  }

  lemma TradedPauses(s: State, e: Event)
    requires Traded(s) && Can(s, e)
    requires e.End? || e.Enter? || e.Exit? || e.Tell?
    ensures Traded(Next(s, e))
  {
  }
}
