/** What the worker's side did, read back as one log over every worker there was: the pauses
    of an execution alternate, are balanced when its answer is sent, and belong to it. */
module Pauses {
  import opened Options
  import opened Protocol

  /** The pause messages sent for request `r`. */
  function PausesOf(log: seq<Entry>, r: nat): seq<bool> {
    if log == [] then []
    else
      var x := log[|log| - 1];
      PausesOf(log[..|log| - 1], r) + (if x.Sent? && x.msg.HostTime? && x.msg.req == r then [x.msg.paused] else [])
  }

  /** The request a worker has taken and not yet answered. */
  function Current(log: seq<Entry>): Option<nat> {
    if log == [] then None
    else
      match log[|log| - 1]
      case Took(r) => Some(r)
      case Died => None
      case Sent(m) => if m.Answer? then None else Current(log[..|log| - 1])
  }

  predicate IsAnswer(x: Entry) { x.Sent? && x.msg.Answer? }

  predicate IsPause(x: Entry) { x.Sent? && x.msg.HostTime? }

  /** Stop, start, stop, start. */
  predicate Alternating(ps: seq<bool>) { forall k :: 0 <= k < |ps| ==> ps[k] == (k % 2 == 0) }

  predicate Balanced(ps: seq<bool>) { |ps| % 2 == 0 }

  /** When an answer is sent, its request is the running one, and its pauses are over. */
  predicate AnswersFit(log: seq<Entry>) {
    forall i :: 0 <= i < |log| && IsAnswer(log[i]) ==>
      && Current(log[..i]) == Some(log[i].msg.req)
      && Balanced(PausesOf(log, log[i].msg.req))
      && PausesOf(log[..i], log[i].msg.req) == PausesOf(log, log[i].msg.req)
  }

  /** A pause is sent for the running request only, and so none between two of them. */
  predicate PausesFit(log: seq<Entry>) {
    forall i :: 0 <= i < |log| && IsPause(log[i]) ==> Current(log[..i]) == Some(log[i].msg.req)
  }

  /** No request is taken twice. */
  predicate TakenOnce(log: seq<Entry>) {
    forall i, j :: 0 <= i < j < |log| && log[i].Took? && log[j].Took? ==> log[i].req < log[j].req
  }

  ghost predicate Orderly(log: seq<Entry>) {
    && (forall r :: Alternating(PausesOf(log, r)))
    && AnswersFit(log) && PausesFit(log) && TakenOnce(log)
  }

  lemma Prefixes(log: seq<Entry>, x: Entry)
    ensures (log + [x])[..|log|] == log
    ensures forall i :: 0 <= i <= |log| ==> (log + [x])[..i] == log[..i]
    ensures forall i :: 0 <= i < |log| ==> (log + [x])[i] == log[i]
  {
    assert forall i :: 0 <= i <= |log| ==> (log + [x])[..i] == log[..i];
    assert log[..|log|] == log;
  }

  lemma PausesAdd(log: seq<Entry>, x: Entry, r: nat)
    ensures PausesOf(log + [x], r) ==
      PausesOf(log, r) + (if x.Sent? && x.msg.HostTime? && x.msg.req == r then [x.msg.paused] else [])
  {
    assert (log + [x])[..|log + [x]| - 1] == log;
  }

  lemma CurrentAdd(log: seq<Entry>, x: Entry)
    ensures Current(log + [x]) ==
      match x { case Took(r) => Some(r) case Died => None case Sent(m) => if m.Answer? then None else Current(log) }
  {
    assert (log + [x])[..|log + [x]| - 1] == log;
  }

  lemma AnswersFitAdd(log: seq<Entry>, x: Entry)
    requires AnswersFit(log)
    requires IsAnswer(x) ==> Current(log) == Some(x.msg.req) && Balanced(PausesOf(log, x.msg.req))
    requires IsPause(x) ==> forall i :: 0 <= i < |log| && IsAnswer(log[i]) ==> log[i].msg.req != x.msg.req
    ensures AnswersFit(log + [x])
  {
    hide Balanced;
    var more := log + [x];
    Prefixes(log, x);
    forall i | 0 <= i < |more| && IsAnswer(more[i])
      ensures
        && Current(more[..i]) == Some(more[i].msg.req)
        && Balanced(PausesOf(more, more[i].msg.req))
        && PausesOf(more[..i], more[i].msg.req) == PausesOf(more, more[i].msg.req)
    {
      PausesAdd(log, x, more[i].msg.req);
      assert !IsPause(x) || x.msg.req != more[i].msg.req;
      assert PausesOf(more, more[i].msg.req) == PausesOf(log, more[i].msg.req);
      hide PausesOf, Current;
      if i < |log| { assert more[i] == log[i] && more[..i] == log[..i]; }
    }
  }

  lemma PausesFitAdd(log: seq<Entry>, x: Entry)
    requires PausesFit(log) && (IsPause(x) ==> Current(log) == Some(x.msg.req))
    ensures PausesFit(log + [x])
  {
    hide Current;
    Prefixes(log, x);
  }

  lemma TakenOnceAdd(log: seq<Entry>, x: Entry)
    requires TakenOnce(log)
    requires x.Took? ==> forall i :: 0 <= i < |log| && log[i].Took? ==> log[i].req < x.req
    ensures TakenOnce(log + [x])
  {
  }

  /** When one more entry keeps the log in order. */
  predicate Fits(log: seq<Entry>, x: Entry) {
    match x
    case Took(r) => forall i :: 0 <= i < |log| && log[i].Took? ==> log[i].req < r
    case Died => true
    case Sent(Call(_)) => true
    case Sent(Answer(r, _)) => Current(log) == Some(r) && Balanced(PausesOf(log, r))
    case Sent(HostTime(r, p)) =>
      && Current(log) == Some(r) && p == Balanced(PausesOf(log, r))
      && forall i :: 0 <= i < |log| && IsAnswer(log[i]) ==> log[i].msg.req != r
  }

  lemma OrderlyAdd(log: seq<Entry>, x: Entry)
    requires Orderly(log) && Fits(log, x)
    ensures Orderly(log + [x])
  {
    AnswersFitAdd(log, x);
    PausesFitAdd(log, x);
    TakenOnceAdd(log, x);
    hide AnswersFit, PausesFit, TakenOnce;
    forall r ensures Alternating(PausesOf(log + [x], r)) {
      PausesAdd(log, x, r);
      assert Alternating(PausesOf(log, r));
      hide PausesOf;
    }
  }

  // ----- the log of a run -----

  /** How far along the pauses of the request at hand are. */
  predicate Level(s: State) {
    s.worker.Run? ==>
      var ps := PausesOf(s.log, s.worker.req);
      match s.worker.phase
      case Got => ps == []
      case Busy => Balanced(ps) == !s.paused
      case Ended => Balanced(ps)
  }

  /** Every request answered is below this one. */
  function Bar(s: State): nat { if s.worker.Run? then s.worker.req else s.taken }

  predicate Past(s: State) {
    && (forall i :: 0 <= i < |s.log| && s.log[i].Took? ==> s.log[i].req < s.taken)
    && (forall i :: 0 <= i < |s.log| && IsAnswer(s.log[i]) ==> s.log[i].msg.req < Bar(s))
  }

  lemma PastAdd(s: State, t: State, x: Entry)
    requires Past(s) && t.log == s.log + [x] && s.taken <= t.taken && Bar(s) <= Bar(t)
    requires (x.Took? ==> x.req < t.taken) && (IsAnswer(x) ==> x.msg.req < Bar(t))
    ensures Past(t)
  {
    hide Bar;
  }

  ghost predicate Logged(s: State) {
    && Orderly(s.log)
    && Current(s.log) == (if s.worker.Run? then Some(s.worker.req) else None)
    && (forall r :: s.taken <= r ==> PausesOf(s.log, r) == [])
    && Level(s) && Past(s)
  }

  /** The worker's side writes nothing. */
  lemma LoggedSame(s: State, t: State)
    requires Logged(s) && t.log == s.log && t.worker.Run? == s.worker.Run? && t.taken == s.taken
    requires t.worker.Run? ==> t.worker.req == s.worker.req
    requires Level(t)
    ensures Logged(t)
  {
    hide Orderly, Level, Current, PausesOf;
  }

  lemma LoggedAdd(s: State, t: State, x: Entry)
    requires Logged(s) && Fits(s.log, x) && t.log == s.log + [x] && s.taken <= t.taken
    requires IsPause(x) ==> x.msg.req < s.taken
    requires Current(t.log) == if t.worker.Run? then Some(t.worker.req) else None
    requires Level(t) && Bar(s) <= Bar(t)
    requires (x.Took? ==> x.req < t.taken) && (IsAnswer(x) ==> x.msg.req < Bar(t))
    ensures Logged(t)
  {
    PastAdd(s, t, x);
    OrderlyAdd(s.log, x);
    hide Orderly, Past, Current, Level, Fits;
    forall r | t.taken <= r ensures PausesOf(t.log, r) == [] { PausesAdd(s.log, x, r); }
  }

  // ----- step by step -----

  /** What a step that logs nothing does to the request at hand. */
  predicate Quietly(s: State, t: State) {
    && t.log == s.log && t.taken == s.taken && t.worker.Run? == s.worker.Run?
    && (s.worker.Run? ==>
          && t.worker.req == s.worker.req
          && (|| (t.worker.phase == s.worker.phase && t.paused == s.paused)
              || (s.worker.phase.Got? && t.worker.phase.Busy? && !t.paused)
              || (s.worker.phase.Busy? && t.worker.phase.Ended? && !s.paused)))
  }

  lemma QuietParent(s: State, e: Event)
    requires Running(s) && Can(s, e) && (Alive(s.worker) ==> !e.Kill? && !e.Reap? && !e.NoticeDeath?)
    requires e.SendExec? || e.Read? || e.Serve? || e.Escape? || e.NoticeDeath? || e.Kill? || e.Reap? || e.Spawn?
    ensures Quietly(s, Next(s, e))
  {
  }

  lemma QuietWorker(s: State, e: Event)
    requires Running(s) && Can(s, e) && (e.End? ==> !s.paused)
    requires e.Begin? || e.MakeTicker? || e.Resume? || e.End? || e.Enter? || e.Exit?
    ensures Quietly(s, Next(s, e))
  {
  }

  lemma QuietTell(s: State, i: nat)
    requires Can(s, Tell(i)) && (s.tickers[i].scope.None? || s.tickers[i].scope != s.scope)
    ensures Quietly(s, Next(s, Tell(i)))
  {
  }

  lemma LoggedQuiet(s: State, t: State)
    requires Logged(s) && Quietly(s, t)
    ensures Logged(t)
  {
    hide Orderly, Current, PausesOf, Past;
    LoggedSame(s, t);
  }

  lemma LoggedTake(s: State)
    requires Ordered(s) && Logged(s) && Can(s, Take)
    ensures Logged(Next(s, Take))
  {
    hide Orderly;
    if s.down[0].Return? {
      hide Logged;
      LoggedQuiet(s, Next(s, Take));
      return;
    }
    var x := Took(s.down[0].req);
    assert s.taken <= x.req;
    CurrentAdd(s.log, x);
    PausesAdd(s.log, x, x.req);
    hide Current, PausesOf, Ordered;
    LoggedAdd(s, Next(s, Take), x);
  }

  lemma LoggedDeath(s: State, e: Event)
    requires Ordered(s) && Logged(s) && Can(s, e) && Alive(s.worker)
    requires e.Kill? || e.Reap? || e.Crash?
    ensures Logged(Next(s, e))
  {
    hide Orderly;
    CurrentAdd(s.log, Died);
    assert s.worker.Run? ==> s.worker.req < s.taken;
    hide Current, PausesOf, Ordered, Past;
    LoggedAdd(s, Next(s, e), Died);
  }

  lemma LoggedPause(s: State, t: State, paused: bool)
    requires Ordered(s) && Logged(s) && s.worker.Run? && s.worker.phase.Busy? && paused != s.paused
    requires t.worker.Run? && t.worker.req == s.worker.req && t.taken == s.taken && t.paused == paused
    requires t.worker.phase.Busy? || (t.worker.phase.Ended? && !paused)
    requires t.log == s.log + [Sent(HostTime(s.worker.req, paused))]
    ensures Logged(t)
  {
    hide Orderly;
    var x := Sent(HostTime(s.worker.req, paused));
    CurrentAdd(s.log, x);
    PausesAdd(s.log, x, s.worker.req);
    hide Current, PausesOf, Ordered;
    LoggedAdd(s, t, x);
  }

  lemma LoggedTell(s: State, i: nat)
    requires Ordered(s) && Clocked(s) && Logged(s) && Can(s, Tell(i))
    ensures Logged(Next(s, Tell(i)))
  {
    var k := s.tickers[i];
    if k.scope.Some? && k.scope == s.scope {
      assert Sound(Newest(s), s.scope, s.paused, k);
      hide Logged, Ordered;
      LoggedPause(s, Next(s, Tell(i)), k.telling.value);
    } else {
      QuietTell(s, i);
      hide Logged, Ordered, Clocked, Quietly, Next;
      LoggedQuiet(s, Next(s, Tell(i)));
    }
  }

  lemma LoggedEnd(s: State)
    requires Ordered(s) && Running(s) && Logged(s) && Can(s, End)
    ensures Logged(Next(s, End))
  {
    hide Logged, Ordered, Quietly;
    if s.paused { LoggedPause(s, Next(s, End), false); }
    else { QuietWorker(s, End); LoggedQuiet(s, Next(s, End)); }
  }

  lemma LoggedReply(s: State, ok: bool)
    requires Ordered(s) && Logged(s) && Can(s, Reply(ok))
    ensures Logged(Next(s, Reply(ok)))
  {
    hide Orderly;
    var x := Sent(Answer(s.worker.req, ok));
    CurrentAdd(s.log, x);
    assert s.taken == s.worker.req + 1;
    hide Current, PausesOf, Ordered;
    LoggedAdd(s, Next(s, Reply(ok)), x);
  }

  lemma LoggedAsk(s: State, e: Event)
    requires Logged(s) && Can(s, e) && (e.Ask? || e.Nest? || e.LateAsk?)
    ensures Logged(Next(s, e))
  {
    hide Orderly, Current, PausesOf, Next, Can;
    var x := Sent(Call(s.nextCall));
    var t := Next(s, e);
    AskIs(s, e);
    CurrentAdd(s.log, x);
    if s.worker.Run? { PausesAdd(s.log, x, s.worker.req); }
    assert Level(t);
    hide Level;
    LoggedAdd(s, t, x);
  }

  /** A call is sent, and nothing else that the log is about changes. */
  lemma AskIs(s: State, e: Event)
    requires Can(s, e) && (e.Ask? || e.Nest? || e.LateAsk?)
    ensures var t := Next(s, e);
      && t.log == s.log + [Sent(Call(s.nextCall))] && t.taken == s.taken && t.paused == s.paused
      && t.worker.Run? == s.worker.Run?
      && (s.worker.Run? ==> t.worker.req == s.worker.req && t.worker.phase == s.worker.phase)
  {
  }
}
