/** When the protocol keeps its word: exactly as long as neither of the two spoiling steps is
    taken. A state is reliable when, whatever else the two sides and the threads then do, every
    reply is its own request's, and a request that waits on a live worker can be answered. */
module Reliability {
  import opened Protocol
  import opened ProtocolTheorems
  import opened LateCalls
  import opened Escapes

  /** Neither late calls nor escapes. */
  predicate Ordinary(es: seq<Event>) { forall i :: 0 <= i < |es| ==> !es[i].LateAsk? && !es[i].Escape? }

  /** There is a way on to the outcome of the request that waits, with nobody's help. */
  ghost predicate CanAnswer(s: State) {
    exists es :: Possible(s, es) && Undisturbed(es) && |Play(s, es).answers| == |s.answers| + 1
  }

  ghost predicate Reliable(s: State) {
    forall es :: Possible(s, es) && Ordinary(es) ==>
      && Paired(Play(s, es))
      && (!Play(s, es).parent.Free? && Alive(Play(s, es).worker) ==> CanAnswer(Play(s, es)))
  }

  lemma {:induction false} OrdinaryUnspoilt(s: State, es: seq<Event>)
    requires Possible(s, es) && Ordinary(es)
    ensures Unspoilt(s, es)
    decreases es
  {
    hide Can, Next;
    if es != [] { OrdinaryUnspoilt(Next(s, es[0]), es[1..]); }
  }

  lemma GoodReliable(s: State)
    requires Good(s)
    ensures Reliable(s)
  {
    forall es | Possible(s, es) && Ordinary(es)
      ensures Paired(Play(s, es))
      ensures !Play(s, es).parent.Free? && Alive(Play(s, es).worker) ==> CanAnswer(Play(s, es))
    {
      OrdinaryUnspoilt(s, es);
      GoodRun(s, es);
      var t := Play(s, es);
      assert Paired(t);
      hide Good, Possible, Play, Paired, Unspoilt, Ordinary;
      if !t.parent.Free? && Alive(t.worker) {
        var more := Answerable(t);
        assert CanAnswer(t);
      }
    }
  }

  // ----- the spoiling steps -----

  lemma EscapeUnreliable(s: State, read: bool)
    requires Good(s) && Can(s, Escape(read)) && Spoils(s, Escape(read))
    ensures !Reliable(Next(s, Escape(read)))
  {
    var t := Next(s, Escape(read));
    var es := EscapeMisleads(s, read);
    hide Good, Can, Next, Spoils;
    assert Ordinary(es);
    assert !Paired(Play(t, es));
  }

  lemma UndisturbedIs(es: seq<Event>)
    requires Undisturbed(es)
    ensures Ordinary(es) && forall i :: 0 <= i < |es| ==> LeftAlone(es[i])
  {
  }

  /** What follows ordinary steps tells on the state before them. */
  lemma UnreliableBack(s: State, es: seq<Event>)
    requires Possible(s, es) && Ordinary(es) && !Reliable(Play(s, es))
    ensures !Reliable(s)
  {
    var t := Play(s, es);
    hide Paired, CanAnswer;
    var more :| Possible(t, more) && Ordinary(more) && !(
      && Paired(Play(t, more))
      && (!Play(t, more).parent.Free? && Alive(Play(t, more).worker) ==> CanAnswer(Play(t, more))));
    PlayOn(s, es, more);
    assert Ordinary(es + more);
  }

  /** A request that waits while the pair is stuck cannot be answered. */
  lemma StuckWaits(s: State, q: nat)
    requires Stuck(s, q) && |s.answers| == q && !s.parent.Free?
    ensures !Reliable(s)
  {
    forall es | Possible(s, es) && Undisturbed(es) ensures |Play(s, es).answers| <= q {
      UndisturbedIs(es);
      hide Stuck, Undisturbed, Ordinary;
      StuckRun(s, es, q);
    }
    assert !CanAnswer(s) && Alive(s.worker);
    assert Possible(s, []) && Ordinary([]) && Play(s, []) == s;
  }

  lemma StuckSends(s: State, q: nat)
    requires Stuck(s, q) && s.parent.Free?
    ensures !Reliable(s)
  {
    StuckBefore(s, SendExec, q);
    var t := Next(s, SendExec);
    assert |t.answers| == q && !t.parent.Free?;
    assert [SendExec][1..] == [] && Possible(t, []) && Play(t, []) == t;
    assert Can(s, SendExec) && Ordinary([SendExec]);
    hide Stuck, Reliable, Next, Can;
    StuckWaits(t, q);
    assert Play(s, [SendExec]) == t;
    UnreliableBack(s, [SendExec]);
  }

  lemma StuckUnreliable(s: State, q: nat)
    requires Stuck(s, q)
    ensures !Reliable(s)
  {
    assert Alive(s.worker) && |s.answers| <= q <= |s.answers| + 1;
    hide Stuck;
    if s.parent.Free? {
      StuckSends(s, q);
    } else if |s.answers| == q {
      StuckWaits(s, q);
    } else if CanAnswer(s) {
      var es :| Possible(s, es) && Undisturbed(es) && |Play(s, es).answers| == |s.answers| + 1;
      UndisturbedIs(es);
      StuckRun(s, es, q);
      var t := Play(s, es);
      hide Reliable, CanAnswer, Possible, Play, Undisturbed;
      if t.parent.Free? { StuckSends(t, q); } else { StuckWaits(t, q); }
      UnreliableBack(s, es);
    } else {
      assert Possible(s, []) && Ordinary([]) && Play(s, []) == s;
    }
  }

  lemma LateUnreliable(s: State)
    requires Good(s) && Can(s, LateAsk)
    ensures !Reliable(Next(s, LateAsk))
  {
    StuckStarts(s);
    hide Good, Can, Next, Stuck, Reliable;
    StuckUnreliable(Next(s, LateAsk), Cost(s));
  }

  // ----- exactly -----

  /** A step from a good state leaves a reliable one exactly when it does not spoil. */
  lemma ReliableExactly(s: State, e: Event)
    requires Good(s) && Can(s, e)
    ensures Reliable(Next(s, e)) <==> !Spoils(s, e)
  {
    hide Good, Reliable;
    if !Spoils(s, e) {
      GoodStep(s, e);
      GoodReliable(Next(s, e));
    } else if e.LateAsk? {
      LateUnreliable(s);
    } else {
      EscapeUnreliable(s, e.read);
    }
  }

  ghost predicate ReliableThroughout(s: State, es: seq<Event>)
    requires Possible(s, es)
    decreases es
  {
    Reliable(s) && (es == [] || ReliableThroughout(Next(s, es[0]), es[1..]))
  }

  lemma {:induction false} ThroughoutFrom(s: State, es: seq<Event>)
    requires Good(s) && Possible(s, es)
    ensures ReliableThroughout(s, es) <==> Unspoilt(s, es)
    decreases es
  {
    hide Good, Reliable, Spoils, Can, Next;
    GoodReliable(s);
    if es != [] {
      ReliableExactly(s, es[0]);
      if !Spoils(s, es[0]) {
        GoodStep(s, es[0]);
        ThroughoutFrom(Next(s, es[0]), es[1..]);
      }
    }
  }

  /** Over every run there can be: the protocol is reliable all the way exactly when no step
      of the run spoils it. */
  lemma ReliableRunsExactly(es: seq<Event>)
    requires Possible(INIT, es)
    ensures ReliableThroughout(INIT, es) <==> Unspoilt(INIT, es)
  {
    GoodInit();
    hide Good;
    ThroughoutFrom(INIT, es);
  }
}
