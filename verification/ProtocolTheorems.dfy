/** The theorems about the worker and its parent, over every run of the two. */
module ProtocolTheorems {
  import opened Protocol
  import opened Pauses

  /** What every step keeps, the spoiling ones too. */
  ghost predicate Recorded(s: State) { Ordered(s) && Clocked(s) && Logged(s) }

  ghost predicate Good(s: State) { Coupled(s) && Paired(s) && Served(s) && Recorded(s) }

  lemma GoodInit()
    ensures Good(INIT) && Traded(INIT)
  {
  }

  lemma CoupledStep(s: State, e: Event)
    requires Coupled(s) && Paired(s) && Clocked(s) && Can(s, e) && !Spoils(s, e)
    ensures Coupled(Next(s, e)) && Paired(Next(s, e))
  {
    match e
    case Read => CoupledRead(s);
    case Reply(ok) => CoupledReply(s, ok);
    case Ask => CoupledAsk(s, e);
    case Nest => CoupledAsk(s, e);
    case Take => CoupledTakes(s, e);
    case Resume => CoupledTakes(s, e);
    case End => CoupledEnd(s);
    case Tell(i) => CoupledTell(s, i);
    case Escape(read) => CoupledEscape(s, read);
    case SendExec => CoupledParent(s, e);
    case Serve(_) => CoupledParent(s, e);
    case NoticeDeath => CoupledParent(s, e);
    case Kill => CoupledParent(s, e);
    case Reap => CoupledParent(s, e);
    case Spawn => CoupledParent(s, e);
    case _ => CoupledWorker(s, e);
  }

  lemma ClockedStep(s: State, e: Event)
    requires Ordered(s) && Clocked(s) && Can(s, e)
    ensures Clocked(Next(s, e))
  {
    match e
    case NoticeDeath => ClockedDrop(s, e);
    case Kill => ClockedDrop(s, e);
    case Reap => ClockedDrop(s, e);
    case Crash => ClockedDrop(s, e);
    case SendExec => ClockedParent(s, e);
    case Read => ClockedParent(s, e);
    case Serve(_) => ClockedParent(s, e);
    case Escape(_) => ClockedParent(s, e);
    case Spawn => ClockedParent(s, e);
    case Take => ClockedTake(s);
    case MakeTicker => ClockedMake(s);
    case Enter(_) => ClockedThread(s, e);
    case Exit(_) => ClockedThread(s, e);
    case Tell(_) => ClockedThread(s, e);
    case Ask => ClockedCall(s, e);
    case Nest => ClockedCall(s, e);
    case Resume => ClockedCall(s, e);
    case LateAsk => ClockedCall(s, e);
    case _ => ClockedWorker(s, e);
  }

  lemma ServedStep(s: State, e: Event)
    requires Coupled(s) && Served(s) && Can(s, e) && !Spoils(s, e)
    ensures Served(Next(s, e))
  {
    hide Coupled, Served, Next;
    match e
    case SendExec => ServedParent(s, e);
    case Read => ServedRead(s);
    case Escape(_) => ServedParent(s, e);
    case Serve(ok) => ServedServe(s, ok);
    case NoticeDeath => ServedDrop(s, e);
    case Kill => ServedDrop(s, e);
    case Reap => ServedDrop(s, e);
    case Spawn => ServedDrop(s, e);
    case Crash => ServedDrop(s, e);
    case Take => ServedTakes(s, e);
    case Resume => ServedTakes(s, e);
    case Ask => ServedAsk(s, e);
    case Nest => ServedAsk(s, e);
    case Reply(_) => ServedSends(s, e);
    case End => ServedSends(s, e);
    case Tell(_) => ServedSends(s, e);
    case _ => ServedQuiet(s, e);
  }

  lemma TradedStep(s: State, e: Event)
    requires Coupled(s) && Served(s) && Traded(s) && Can(s, e) && !Spoils(s, e) && !e.Nest?
    ensures Traded(Next(s, e))
  {
    hide Coupled, Served, Traded, Next;
    match e
    case Resume => TradedResume(s);
    case Take => TradedWorker(s, e);
    case Begin => TradedWorker(s, e);
    case MakeTicker => TradedWorker(s, e);
    case Reply(_) => TradedWorker(s, e);
    case Ask => TradedWorker(s, e);
    case Crash => TradedWorker(s, e);
    case End => TradedPauses(s, e);
    case Enter(_) => TradedPauses(s, e);
    case Exit(_) => TradedPauses(s, e);
    case Tell(_) => TradedPauses(s, e);
    case _ => TradedParent(s, e);
  }

  lemma LoggedStep(s: State, e: Event)
    requires Ordered(s) && Clocked(s) && Logged(s) && Can(s, e)
    ensures Logged(Next(s, e))
  {
    hide Logged;
    match e
    case Take => LoggedTake(s);
    case Crash => LoggedDeath(s, e);
    case Tell(i) => LoggedTell(s, i);
    case End => LoggedEnd(s);
    case Reply(ok) => LoggedReply(s, ok);
    case Ask => LoggedAsk(s, e);
    case Nest => LoggedAsk(s, e);
    case LateAsk => LoggedAsk(s, e);
    case Begin => LoggedWorker(s, e);
    case MakeTicker => LoggedWorker(s, e);
    case Resume => LoggedWorker(s, e);
    case Enter(_) => LoggedWorker(s, e);
    case Exit(_) => LoggedWorker(s, e);
    case _ => LoggedParent(s, e);
  }

  lemma LoggedWorker(s: State, e: Event)
    requires Clocked(s) && Logged(s) && Can(s, e)
    requires e.Begin? || e.MakeTicker? || e.Resume? || e.Enter? || e.Exit?
    ensures Logged(Next(s, e))
  {
    assert Running(s);
    hide Logged, Clocked;
    QuietWorker(s, e);
    hide Quietly, Next;
    LoggedQuiet(s, Next(s, e));
  }

  lemma LoggedParent(s: State, e: Event)
    requires Ordered(s) && Clocked(s) && Logged(s) && Can(s, e)
    requires e.SendExec? || e.Read? || e.Serve? || e.Escape? || e.NoticeDeath? || e.Kill? || e.Reap? || e.Spawn?
    ensures Logged(Next(s, e))
  {
    assert Running(s);
    hide Logged, Clocked, Ordered;
    if Alive(s.worker) && (e.Kill? || e.Reap?) {
      LoggedDeath(s, e);
    } else {
      QuietParent(s, e);
      hide Quietly, Next;
      LoggedQuiet(s, Next(s, e));
    }
  }

  lemma RecordedStep(s: State, e: Event)
    requires Recorded(s) && Can(s, e)
    ensures Recorded(Next(s, e))
  {
    hide Ordered, Clocked, Logged, Can, Next;
    OrderedStep(s, e);
    ClockedStep(s, e);
    LoggedStep(s, e);
  }

  lemma GoodStep(s: State, e: Event)
    requires Good(s) && Can(s, e) && !Spoils(s, e)
    ensures Good(Next(s, e))
  {
    hide Coupled, Paired, Ordered, Clocked, Served, Logged;
    CoupledStep(s, e);
    ServedStep(s, e);
    RecordedStep(s, e);
  }

  lemma {:induction false} RecordedRun(s: State, es: seq<Event>)
    requires Recorded(s) && Possible(s, es)
    ensures Recorded(Play(s, es))
    decreases es
  {
    hide Recorded, Can, Next;
    if es != [] {
      RecordedStep(s, es[0]);
      RecordedRun(Next(s, es[0]), es[1..]);
    }
  }

  lemma {:induction false} GoodRun(s: State, es: seq<Event>)
    requires Good(s) && Possible(s, es) && Unspoilt(s, es)
    ensures Good(Play(s, es))
    decreases es
  {
    hide Good, Can, Next, Spoils;
    if es != [] {
      GoodStep(s, es[0]);
      GoodRun(Next(s, es[0]), es[1..]);
    }
  }

  // ----- what every run keeps -----

  /** The outcomes are one for each request, in order; a reply is the reply to its own request;
      what the parent has still to read is about the request it waits for; and nothing is left
      on the connection when an exec returns, or after one that raised nothing but what a dead
      worker sent. */
  lemma EachRequestOnce(es: seq<Event>)
    requires Possible(INIT, es) && Unspoilt(INIT, es)
    ensures var s := Play(INIT, es);
      && s.nextReq == |s.answers| + (if s.parent.Free? then 0 else 1)
      && (forall i :: 0 <= i < |s.answers| && s.answers[i].Replied? ==> s.answers[i].req == i)
      && (!s.parent.Free? ==> About(s.up, s.parent.req))
      && (s.parent.Free? ==> !s.worker.Run?)
      && (s.parent.Free? && s.up != [] ==>
            s.worker.Dead? && s.answers != [] && s.answers[|s.answers| - 1].Escaped?)
  {
    GoodInit();
    GoodRun(INIT, es);
  }

  /** The calls of a run are made one inside another nowhere. */
  predicate OneAtATime(es: seq<Event>) { forall i :: 0 <= i < |es| ==> !es[i].Nest? }

  lemma {:induction false} TradedRun(s: State, es: seq<Event>)
    requires Good(s) && Traded(s) && Possible(s, es) && Unspoilt(s, es) && OneAtATime(es)
    ensures Good(Play(s, es)) && Traded(Play(s, es))
    decreases es
  {
    hide Good, Traded, Can, Next, Spoils;
    if es != [] {
      GoodMeans(s);
      GoodStep(s, es[0]);
      TradedStep(s, es[0]);
      TradedRun(Next(s, es[0]), es[1..]);
    }
  }

  lemma GoodMeans(s: State)
    requires Good(s)
    ensures Coupled(s) && Paired(s) && Served(s)
  {
  }

  /** Calls are served once each and returned in the order they were made, also those made inside
      another. */
  lemma ServedInOrder(es: seq<Event>)
    requires Possible(INIT, es) && Unspoilt(INIT, es)
    ensures var s := Play(INIT, es);
      && (forall i, j :: 0 <= i < j < |s.made| ==> s.made[i] < s.made[j])
      && s.returned <= s.made
      && (s.worker.Idle? && s.parent.Free? ==> s.returned == s.made)
  {
    GoodInit();
    GoodRun(INIT, es);
    assert Calls([]) == [];
    hide Clocked, Logged, Calls;
  }

  /** With no call made inside another, every call has exactly one return, with its own number, in
      order; and the worker never meets a message it does not wait for. */
  lemma EachCallOnce(es: seq<Event>)
    requires Possible(INIT, es) && Unspoilt(INIT, es) && OneAtATime(es)
    ensures var s := Play(INIT, es);
      && !s.confused
      && (forall i, j :: 0 <= i < j < |s.made| ==> s.made[i] < s.made[j])
      && s.resumed <= s.returned <= s.made
      && (s.worker.Idle? || (s.worker.Run? && s.worker.calls == []) ==> s.resumed == s.made)
      && (s.worker.Run? ==> |s.worker.calls| <= 1 && s.made == s.resumed + s.worker.calls)
  {
    GoodInit();
    TradedRun(INIT, es);
    hide Coupled, Clocked, Logged, OneAtATime;
  }

  /** Over every run, spoilt or not: the pauses of one execution alternate and are balanced
      before its answer, none is sent for another or between two, an answer is the running
      request's, and no request is taken twice. */
  lemma PausesInOrder(es: seq<Event>)
    requires Possible(INIT, es)
    ensures Orderly(Play(INIT, es).log)
  {
    GoodInit();
    RecordedRun(INIT, es);
    hide Orderly;
  }

  // ----- a request can always be answered -----

  function Stage(s: State): nat {
    match s.worker
    case Idle => if s.down != [] then 5 else 0
    case Run(_, Got, _) => 4
    case Run(_, Busy, _) => 3
    case Run(_, Ended, _) => 2
    case _ => 0
  }

  /** How far a request is from its answer. */
  function Rank(s: State): nat {
    10 * Stage(s) + 2 * |s.up| + (if s.parent.Serving? then 1 else 0)
    + (if s.worker.Run? then |s.worker.calls| else 0)
  }

  /** A step towards it. */
  function Onward(s: State): Event {
    if s.parent.Serving? then Serve(true)
    else if s.up != [] then Read
    else match s.worker
      case Run(_, phase, calls) =>
        if calls != [] then Resume
        else if phase.Got? then Begin else if phase.Busy? then End else Reply(true)
      case _ => Take
  }

  predicate Undisturbed(es: seq<Event>) {
    forall i :: 0 <= i < |es| ==>
      !es[i].Kill? && !es[i].Crash? && !es[i].Reap? && !es[i].LateAsk? && !es[i].Escape? && !es[i].Nest?
  }

  lemma CalmOnward(s: State)
    ensures Undisturbed([Onward(s)]) && !Onward(s).LateAsk? && !Onward(s).Escape?
  {
  }

  lemma CoupledGood(s: State)
    requires Good(s)
    ensures Coupled(s)
  {
  }

  lemma OnwardServes(s: State)
    requires Coupled(s) && s.parent.Serving? && Alive(s.worker)
    ensures var t := Next(s, Serve(true));
      !t.parent.Free? && t.parent.req == s.parent.req && Alive(t.worker) && t.answers == s.answers && Rank(t) < Rank(s)
  {
    hide About, Calls, Answered;
  }

  lemma OwnAnswer(s: State)
    requires Coupled(s) && s.parent.Waiting? && s.up != []
    ensures s.up[0].Answer? ==> s.up[0].req == s.parent.req
  {
    AboutRest(s.up, s.parent.req);
  }

  lemma OnwardReads(s: State)
    requires Coupled(s) && s.parent.Waiting? && Alive(s.worker) && s.up != []
    ensures var t := Next(s, Read);
      if t.parent.Free?
      then s.up[0].Answer? && t.answers == s.answers + [Replied(s.parent.req, s.up[0].ok)]
      else t.parent.req == s.parent.req && Alive(t.worker) && t.answers == s.answers && Rank(t) < Rank(s)
  {
    hide Coupled;
    OwnAnswer(s);
  }

  lemma OnwardWorks(s: State)
    requires Coupled(s) && s.parent.Waiting? && Alive(s.worker) && s.up == []
    ensures Can(s, Onward(s))
    ensures var t := Next(s, Onward(s));
      !t.parent.Free? && t.parent.req == s.parent.req && Alive(t.worker) && t.answers == s.answers && Rank(t) < Rank(s)
  {
    assert Calls([]) == [] && !Answered([]);
    hide About, Calls, Answered;
  }

  lemma OnwardStep(s: State)
    requires Coupled(s) && !s.parent.Free? && Alive(s.worker)
    ensures Can(s, Onward(s))
    ensures var t := Next(s, Onward(s));
      if t.parent.Free?
      then s.up != [] && s.up[0].Answer? && t.answers == s.answers + [Replied(s.parent.req, s.up[0].ok)]
      else t.parent.req == s.parent.req && Alive(t.worker) && t.answers == s.answers && Rank(t) < Rank(s)
  {
    hide Coupled, Rank, Next;
    if s.parent.Serving? { OnwardServes(s); }
    else if s.up != [] { OnwardReads(s); }
    else { OnwardWorks(s); }
  }

  lemma First(s: State, e: Event, rest: seq<Event>)
    requires Can(s, e) && Possible(Next(s, e), rest) && Undisturbed(rest) && Undisturbed([e])
    ensures Possible(s, [e] + rest) && Undisturbed([e] + rest)
    ensures Play(s, [e] + rest) == Play(Next(s, e), rest)
  {
    hide Can, Next;
    assert ([e] + rest)[1..] == rest;
  }

  /** From every state a run can reach in which a worker lives and the parent waits, there is a
      way on that answers the request: the two never wait for each other. */
  lemma {:induction false} Answerable(s: State) returns (es: seq<Event>)
    requires Good(s) && !s.parent.Free? && Alive(s.worker)
    ensures Possible(s, es) && Undisturbed(es)
    ensures Play(s, es).parent.Free?
    ensures exists ok :: Play(s, es).answers == s.answers + [Replied(s.parent.req, ok)]
    decreases Rank(s)
  {
    hide Good, Next, Can, Onward, Rank;
    var e := Onward(s);
    CalmOnward(s);
    CoupledGood(s);
    OnwardStep(s);
    GoodStep(s, e);
    var t := Next(s, e);
    var rest := [];
    if !t.parent.Free? { rest := Answerable(t); }
    First(s, e, rest);
    es := [e] + rest;
  }
}
