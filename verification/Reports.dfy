/** What the parent is told is what happened: a pause is reported while host calls are under way,
    an outcome is the reply that was sent, and no answer is lost to the worker's death. */
module Reports {
  import opened Options
  import opened Protocol
  import opened Pauses
  import opened ProtocolTheorems

  // ----- pauses -----

  /** The clocks go with the worker. */
  predicate Ends(e: Event) { e.NoticeDeath? || e.Kill? || e.Reap? || e.Crash? }

  predicate Lasting(es: seq<Event>) { forall j :: 0 <= j < |es| ==> !Ends(es[j]) }

  /** The host calls under way on clock `i` after these events, with `n` before them. */
  function Under(es: seq<Event>, i: nat, n: int): int
    decreases es
  {
    if es == [] then n
    else Under(es[1..], i, if es[0] == Enter(i) then n + 1 else if es[0] == Exit(i) then n - 1 else n)
  }

  /** The same, as the clock has it. */
  function Inside(k: Ticker): int { k.depth + (if k.telling == Some(true) then 1 else 0) }

  lemma InsideStep(s: State, e: Event, i: nat)
    requires Can(s, e) && !Ends(e) && i < |s.tickers|
    ensures var t := Next(s, e);
      && i < |t.tickers| && t.tickers[i].scope == s.tickers[i].scope
      && (Clocked(s) ==> Inside(t.tickers[i]) == Under([e], i, Inside(s.tickers[i])))
  {
    assert [e][1..] == [];
    if e.Tell? {
      assert Clocked(s) ==> Sound(Newest(s), s.scope, s.paused, s.tickers[e.i]);
      hide Clocked;
    } else {
      hide Clocked;
      if !e.Enter? && !e.Exit? { TickersStay(s, e); hide Next; }
    }
  }

  lemma TickersStay(s: State, e: Event)
    requires Can(s, e) && !Ends(e) && !e.Enter? && !e.Exit? && !e.Tell?
    ensures s.tickers <= Next(s, e).tickers
  {
  }

  lemma {:induction false} InsideRun(s: State, es: seq<Event>, i: nat)
    requires Recorded(s) && Possible(s, es) && Lasting(es) && i < |s.tickers|
    ensures var t := Play(s, es);
      && i < |t.tickers| && t.tickers[i].scope == s.tickers[i].scope
      && Inside(t.tickers[i]) == Under(es, i, Inside(s.tickers[i]))
    decreases es
  {
    hide Can, Next, Ends, Ordered, Clocked, Logged, Inside;
    if es != [] {
      InsideStep(s, es[0], i);
      RecordedStep(s, es[0]);
      InsideRun(Next(s, es[0]), es[1..], i);
      assert [es[0]][1..] == [];
    }
  }

  /** A clock is made in an execution. Whatever happens then, as long as the execution goes on and
      the clock is not just telling: the parent has been told of a pause that is not over exactly
      when more host calls have begun on the clock than have ended. */
  lemma PauseTold(s: State, es: seq<Event>)
    requires Recorded(s) && Can(s, MakeTicker) && Possible(Next(s, MakeTicker), es) && Lasting(es)
    ensures var t, i, r := Play(Next(s, MakeTicker), es), |s.tickers|, s.worker.req;
      && i < |t.tickers|
      && (t.worker.Run? && t.worker.req == r && t.worker.phase.Busy? && t.tickers[i].telling.None? ==>
            (|PausesOf(t.log, r)| % 2 == 1 <==> Under(es, i, 0) > 0))
  {
    var m, i := Next(s, MakeTicker), |s.tickers|;
    assert Running(s) && m.tickers[i] == Ticker(Some(s.worker.req), 0, None);
    RecordedStep(s, MakeTicker);
    hide Can, Next;
    InsideRun(m, es, i);
    RecordedRun(m, es);
    var t := Play(m, es);
    if t.worker.Run? && t.worker.req == s.worker.req && t.worker.phase.Busy? {
      assert Sound(Newest(t), t.scope, t.paused, t.tickers[i]) && Level(t);
      hide Clocked, Ordered, Orderly, PausesOf, Past, Current;
    }
  }

  /** A host call on an idle clock of the running execution can always begin and end, and each of
      the two is told. */
  lemma CallsAreTold(s: State, i: nat)
    requires s.worker.Run? && s.scope == Some(s.worker.req) && i < |s.tickers| && s.tickers[i].scope == s.scope
    requires s.tickers[i].telling.None? && s.tickers[i].depth == 0
    ensures Possible(s, [Enter(i), Tell(i), Exit(i), Tell(i)])
    ensures var r := s.worker.req;
      Play(s, [Enter(i), Tell(i), Exit(i), Tell(i)]).up == s.up + [HostTime(r, true)] + [HostTime(r, false)]
  {
    var a := Next(s, Enter(i));
    var b := Next(a, Tell(i));
    var c := Next(b, Exit(i));
    var d := Next(c, Tell(i));
    assert b.up == s.up + [HostTime(s.worker.req, true)] && d.up == b.up + [HostTime(s.worker.req, false)];
    var es := [Enter(i), Tell(i), Exit(i), Tell(i)];
    assert es[1..] == [Tell(i), Exit(i), Tell(i)] && es[1..][1..] == [Exit(i), Tell(i)];
    assert es[1..][1..][1..] == [Tell(i)] && es[1..][1..][1..][1..] == [];
    assert Possible(d, []) && Play(d, []) == d;
    assert Possible(c, [Tell(i)]) && Play(c, [Tell(i)]) == d;
    assert Possible(b, [Exit(i), Tell(i)]) && Play(b, [Exit(i), Tell(i)]) == d;
  }

  /** A worker with no call out answers a request it has executed, either way; and one it has not
      begun with an error only. */
  lemma AnswersWhen(s: State)
    requires s.worker.Run? && s.worker.calls == []
    ensures Can(s, Reply(true)) <==> s.worker.phase == Ended
    ensures Can(s, Reply(false)) <==> s.worker.phase == Ended || s.worker.phase == Got
  {
  }

  /** The innermost call takes the message, and the others go on waiting; a late one that was the
      last leaves the worker idle. */
  lemma ResumeExactly(s: State, outer: seq<nat>, id: nat)
    requires Can(s, Resume) && s.worker.calls == outer + [id]
    ensures var t := Next(s, Resume); var own := s.down[0].Return? && s.down[0].id == id;
      && t.worker == (match s.worker
                      case Run(r, phase, _) => Run(r, phase, outer)
                      case _ => if outer == [] then Idle else Late(outer))
      && t.down == s.down[1..] && t.up == s.up && t.parent == s.parent
      && t.resumed == (if own then s.resumed + [id] else s.resumed) && t.confused == (s.confused || !own)
  {
    assert (outer + [id])[..|outer|] == outer;
  }

  // ----- replies -----

  /** The replies on their way and the ones that have come. */
  function Told(s: State): set<(nat, bool)> {
    (set m | m in s.up && m.Answer? :: (m.req, m.ok)) + (set a | a in s.answers && a.Replied? :: (a.req, a.ok))
  }

  /** The replies the worker makes in a run. */
  function Replies(s: State, es: seq<Event>): set<(nat, bool)>
    requires Possible(s, es)
    decreases es
  {
    if es == [] then {}
    else (if es[0].Reply? then {(s.worker.req, es[0].ok)} else {}) + Replies(Next(s, es[0]), es[1..])
  }

  lemma ToldStep(s: State, e: Event)
    requires Can(s, e)
    ensures Told(Next(s, e)) <= Told(s) + (if e.Reply? then {(s.worker.req, e.ok)} else {})
  {
    var t := Next(s, e);
    UpStep(s, e);
    AnswersStep(s, e);
    hide Can, Next;
    forall x | x in Told(t) && x !in Told(s) ensures e.Reply? && x == (s.worker.req, e.ok) {
      if a :| a in t.answers && a.Replied? && x == (a.req, a.ok) {
        assert a in s.answers || (s.up != [] && s.up[0] == Answer(a.req, a.ok));
        assert s.up != [] ==> s.up[0] in s.up;
      }
    }
  }

  lemma UpStep(s: State, e: Event)
    requires Can(s, e)
    ensures forall m :: m in Next(s, e).up && m.Answer? ==>
      m in s.up || (e.Reply? && m.req == s.worker.req && m.ok == e.ok)
  {
  }

  lemma AnswersStep(s: State, e: Event)
    requires Can(s, e)
    ensures forall a :: a in Next(s, e).answers && a.Replied? ==>
      a in s.answers || (s.up != [] && s.up[0] == Answer(a.req, a.ok))
  {
  }

  lemma {:induction false} ToldRun(s: State, es: seq<Event>)
    requires Possible(s, es)
    ensures Told(Play(s, es)) <= Told(s) + Replies(s, es)
    decreases es
  {
    hide Can, Next, Told;
    if es != [] {
      ToldStep(s, es[0]);
      ToldRun(Next(s, es[0]), es[1..]);
    }
  }

  /** Over every run, spoilt or not: an outcome with a reply in it is one the worker made, for that
      request, with that result. */
  lemma RepliesTrue(es: seq<Event>, i: nat)
    requires Possible(INIT, es) && i < |Play(INIT, es).answers| && Play(INIT, es).answers[i].Replied?
    ensures var a := Play(INIT, es).answers[i]; (a.req, a.ok) in Replies(INIT, es)
  {
    var a := Play(INIT, es).answers[i];
    assert (a.req, a.ok) in Told(Play(INIT, es));
    ToldRun(INIT, es);
  }

  // ----- returns -----

  function Back(s: State): set<(nat, bool)> { set m | m in s.down && m.Return? :: (m.id, m.ok) }

  /** The calls the parent serves in a run, and whether the value could be sent. */
  function Serves(s: State, es: seq<Event>): set<(nat, bool)>
    requires Possible(s, es)
    decreases es
  {
    if es == [] then {}
    else (if es[0].Serve? then {(s.parent.id, es[0].ok)} else {}) + Serves(Next(s, es[0]), es[1..])
  }

  lemma BackStep(s: State, e: Event)
    requires Can(s, e)
    ensures Back(Next(s, e)) <= Back(s) + (if e.Serve? then {(s.parent.id, e.ok)} else {})
  {
  }

  /** What comes back for a call is how it was served. */
  lemma {:induction false} ReturnsTrue(s: State, es: seq<Event>)
    requires Possible(s, es)
    ensures Back(Play(s, es)) <= Back(s) + Serves(s, es)
    decreases es
  {
    hide Can, Next, Back;
    if es != [] {
      BackStep(s, es[0]);
      ReturnsTrue(Next(s, es[0]), es[1..]);
    }
  }

  // ----- the worker's death -----

  /** The worker has sent its answer to the request that waits. */
  predicate AnswerSent(s: State) {
    !s.parent.Free? && exists i :: 0 <= i < |s.log| && IsAnswer(s.log[i]) && s.log[i].msg.req == s.parent.req
  }

  /** Such an answer is still to be read. */
  predicate Pending(s: State) { AnswerSent(s) ==> Answered(s.up) }

  /** A running worker has not answered its request. */
  lemma NotYet(s: State)
    requires Coupled(s) && Past(s) && s.worker.Run?
    ensures !AnswerSent(s)
  {
  }

  lemma PendingSend(s: State)
    requires Coupled(s) && Paired(s) && Past(s) && Can(s, SendExec)
    ensures Pending(Next(s, SendExec))
  {
  }

  lemma PendingRead(s: State)
    requires Pending(s) && Can(s, Read)
    ensures Pending(Next(s, Read))
  {
    var t := Next(s, Read);
    assert t.log == s.log;
    if AnswerSent(t) { assert AnswerSent(s); }
  }

  /** Nothing that the parent has to read is taken away, and no answer is added. */
  lemma PendingSame(s: State, t: State)
    requires Pending(s) && t.up == s.up && (!t.parent.Free? ==> !s.parent.Free? && t.parent.req == s.parent.req)
    requires t.log == s.log || exists x :: t.log == s.log + [x] && !IsAnswer(x)
    ensures Pending(t)
  {
  }

  /** A running worker sends something else. */
  lemma PendingSends(s: State, t: State, x: Entry)
    requires !AnswerSent(s) && !s.parent.Free? && t.parent == s.parent && t.log == s.log + [x] && !IsAnswer(x)
    ensures Pending(t)
  {
  }

  lemma PendingStep(s: State, e: Event)
    requires Good(s) && Pending(s) && Can(s, e) && !Spoils(s, e)
    ensures Pending(Next(s, e))
  {
    GoodMeans(s);
    assert Past(s) && Running(s);
    hide Good, Pending, Can, Next, Coupled, Paired, Served, Running;
    match e
    case SendExec => PendingSend(s);
    case Read => PendingRead(s);
    case Kill => PendingFree(s, e);
    case NoticeDeath => PendingFree(s, e);
    case Escape(_) => PendingFree(s, e);
    case Reap => PendingFree(s, e);
    case Spawn => PendingFree(s, e);
    case Reply(ok) => PendingReply(s, ok);
    case Ask => PendingSpeaks(s, e);
    case Nest => PendingSpeaks(s, e);
    case End => PendingSpeaks(s, e);
    case Tell(i) => PendingTell(s, i);
    case _ => PendingQuiet(s, e);
  }

  /** Nothing is sent or read. */
  lemma PendingQuiet(s: State, e: Event)
    requires Pending(s) && Can(s, e)
    requires e.Serve? || e.Take? || e.Begin? || e.MakeTicker? || e.Resume? || e.Crash? || e.Enter? || e.Exit?
    ensures Pending(Next(s, e))
  {
    hide Pending;
    PendingSame(s, Next(s, e));
  }

  lemma PendingSpeaks(s: State, e: Event)
    requires Coupled(s) && Past(s) && Pending(s) && Can(s, e) && (e.Ask? || e.Nest? || e.End?) && !Spoils(s, e)
    ensures Pending(Next(s, e))
  {
    assert s.worker.Run? && !s.parent.Free?;
    NotYet(s);
    hide Pending, AnswerSent, Coupled, Past;
    var t := Next(s, e);
    if e.End? && !s.paused {
      PendingSame(s, t);
    } else {
      PendingSends(s, t, Sent(if e.End? then HostTime(s.worker.req, false) else Call(s.nextCall)));
    }
  }

  lemma PendingFree(s: State, e: Event)
    requires Can(s, e) && (e.Kill? || e.NoticeDeath? || e.Escape? || e.Reap? || e.Spawn?)
    ensures Pending(Next(s, e))
  {
  }

  lemma PendingReply(s: State, ok: bool)
    requires Can(s, Reply(ok))
    ensures Pending(Next(s, Reply(ok)))
  {
  }

  lemma PendingTell(s: State, i: nat)
    requires Coupled(s) && Past(s) && Running(s) && Pending(s) && Can(s, Tell(i))
    ensures Pending(Next(s, Tell(i)))
  {
    var t, k := Next(s, Tell(i)), s.tickers[i];
    if s.worker.Run? { NotYet(s); }
    assert s.worker.Run? ==> !s.parent.Free?;
    hide Pending, AnswerSent, Coupled, Past;
    if k.scope.Some? && k.scope == s.scope {
      PendingSends(s, t, Sent(HostTime(k.scope.value, k.telling.value)));
    } else {
      PendingSame(s, t);
    }
  }

  lemma {:induction false} PendingRun(s: State, es: seq<Event>)
    requires Good(s) && Pending(s) && Possible(s, es) && Unspoilt(s, es)
    ensures Good(Play(s, es)) && Pending(Play(s, es))
    decreases es
  {
    hide Good, Pending, Can, Next, Spoils;
    if es != [] {
      GoodStep(s, es[0]);
      PendingStep(s, es[0]);
      PendingRun(Next(s, es[0]), es[1..]);
    }
  }

  /** A worker's death is noticed only where it has not answered: an answer it sent before it died
      is read first. */
  lemma DeathLosesNothing(es: seq<Event>)
    requires Possible(INIT, es) && Unspoilt(INIT, es)
    ensures var s := Play(INIT, es);
      Can(s, NoticeDeath) ==>
      forall i :: 0 <= i < |s.log| ==>
        s.log[i] != Sent(Answer(s.parent.req, true)) && s.log[i] != Sent(Answer(s.parent.req, false))
  {
    GoodInit();
    PendingRun(INIT, es);
    var s := Play(INIT, es);
    hide Good;
    if Can(s, NoticeDeath) { assert !AnswerSent(s); }
  }
}
