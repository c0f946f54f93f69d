/** A call made inside another. A finalizer that the collector runs while a call waits for its
    return makes a call of its own. The parent serves the two in order, and the inner one takes the
    return of the outer: both raise. Requests and answers are not touched by it. */
module NestedCalls {
  import opened Protocol
  import opened ProtocolTheorems
  import opened LateCalls
  import opened Reliability

  /** The next return is the one of `c`, and the call that waits for one is another. */
  predicate Crossed(s: State, c: nat) {
    && !s.parent.Free? && s.worker.Run? && s.worker.calls != [] && s.worker.calls[|s.worker.calls| - 1] != c
    && (if s.down != [] then s.down[0].Return? && s.down[0].id == c
        else if s.parent.Serving? then s.parent.id == c
        else Calls(s.up) != [] && Calls(s.up)[0] == c)
  }

  lemma CrossRead(s: State, c: nat)
    requires Coupled(s) && Paired(s) && Crossed(s, c) && s.down == [] && s.parent.Waiting?
    ensures Can(s, Read) && Crossed(Next(s, Read), c)
    ensures Coupled(Next(s, Read)) && Paired(Next(s, Read)) && |Next(s, Read).up| < |s.up|
  {
    assert s.up != [];
    AboutRest(s.up, s.parent.req);
    assert !s.up[0].Answer?;
    CoupledRead(s);
    hide Coupled, Paired, Calls;
  }

  lemma CrossServe(s: State, c: nat)
    requires Coupled(s) && Paired(s) && Crossed(s, c) && s.down == [] && s.parent.Serving?
    ensures Can(s, Serve(true)) && Crossed(Next(s, Serve(true)), c) && Next(s, Serve(true)).down != []
    ensures Coupled(Next(s, Serve(true))) && Paired(Next(s, Serve(true)))
  {
    CoupledParent(s, Serve(true));
    hide Coupled, Paired, Calls;
  }

  lemma CrossResume(s: State, c: nat)
    requires Crossed(s, c) && s.down != []
    ensures Can(s, Resume) && Next(s, Resume).confused
  {
    hide Calls;
  }

  /** Left to itself, the pair comes to where the inner call takes it. */
  lemma {:induction false} CrossRun(s: State, c: nat) returns (es: seq<Event>)
    requires Coupled(s) && Paired(s) && Crossed(s, c)
    ensures Possible(s, es) && Undisturbed(es) && Play(s, es).confused
    decreases if s.down != [] then 0 else if s.parent.Serving? then 1 else 2 + |s.up|
  {
    if s.down != [] {
      CrossResume(s, c);
      hide Crossed, Coupled, Paired, Next, Can;
      var t := Next(s, Resume);
      assert Possible(t, []) && Play(t, []) == t;
      First(s, Resume, []);
      es := [Resume] + [];
    } else {
      var e := if s.parent.Serving? then Serve(true) else Read;
      if s.parent.Serving? { CrossServe(s, c); } else { CrossRead(s, c); }
      hide Crossed, Coupled, Paired, Next, Can;
      var rest := CrossRun(Next(s, e), c);
      First(s, e, rest);
      es := [e] + rest;
    }
  }

  /** A call made inside the one that is out. */
  lemma NestCrosses(s: State)
    requires Coupled(s) && Served(s) && Traded(s) && Can(s, Nest)
    ensures s.worker.Run? && |s.worker.calls| == 1 && Crossed(Next(s, Nest), s.worker.calls[0])
  {
    hide About, Calls, Answered;
    CallsAdd(s.up, Call(s.nextCall));
    CallIsOut(s);
    hide Coupled, Served, Traded, Rising;
  }

  /** Where the one call is. */
  lemma CallIsOut(s: State)
    requires Coupled(s) && Served(s) && Traded(s) && Can(s, Nest)
    ensures s.worker.Run? && |s.worker.calls| == 1 && !s.parent.Free?
    ensures var c := s.worker.calls[0];
      && c < s.nextCall
      && (s.down != [] ==> s.down[0].Return? && s.down[0].id == c)
      && (s.down == [] && s.parent.Serving? ==> s.parent.id == c)
      && (s.down == [] && s.parent.Waiting? ==> Calls(s.up) == [c])
  {
    hide About, Calls, Answered;
    var c := s.worker.calls[0];
    assert s.made[|s.made| - 1] == c;
    assert s.down != [] ==> Calls(s.up) == [] && Held(s.parent) == [];
    assert s.parent.Serving? ==> Calls(s.up) == [] && s.down == [];
  }

  lemma NestConfuses(s: State) returns (es: seq<Event>)
    requires Good(s) && Traded(s) && Can(s, Nest)
    ensures Possible(Next(s, Nest), es) && Undisturbed(es) && Play(Next(s, Nest), es).confused
  {
    GoodMeans(s);
    NestCrosses(s);
    CoupledAsk(s, Nest);
    hide Good, Coupled, Paired, Served, Traded, Crossed, Next;
    es := CrossRun(Next(s, Nest), s.worker.calls[0]);
  }

  // ----- exactly -----

  /** Whatever else the two do, calls one at a time, each goes on with its own return. */
  ghost predicate Trusty(s: State) {
    forall es :: Possible(s, es) && Ordinary(es) && OneAtATime(es) ==> !Play(s, es).confused
  }

  lemma TradedTrusty(s: State)
    requires Good(s) && Traded(s)
    ensures Trusty(s)
  {
    forall es | Possible(s, es) && Ordinary(es) && OneAtATime(es) ensures !Play(s, es).confused {
      OrdinaryUnspoilt(s, es);
      hide Good, OneAtATime, Ordinary, Unspoilt;
      TradedRun(s, es);
    }
  }

  lemma UndisturbedOne(es: seq<Event>)
    requires Undisturbed(es)
    ensures Ordinary(es) && OneAtATime(es)
  {
  }

  /** A step that does not spoil leaves calls to be trusted exactly when it is not a call inside
      another. */
  lemma TrustyExactly(s: State, e: Event)
    requires Good(s) && Traded(s) && Can(s, e) && !Spoils(s, e)
    ensures Trusty(Next(s, e)) <==> !e.Nest?
  {
    hide Good, Coupled, Served, Next;
    GoodMeans(s);
    if e.Nest? {
      hide Traded;
      var es := NestConfuses(s);
      UndisturbedOne(es);
    } else {
      GoodStep(s, e);
      TradedStep(s, e);
      hide Traded;
      TradedTrusty(Next(s, e));
    }
  }

  ghost predicate TrustyThroughout(s: State, es: seq<Event>)
    requires Possible(s, es)
    decreases es
  {
    Trusty(s) && (es == [] || TrustyThroughout(Next(s, es[0]), es[1..]))
  }

  lemma {:induction false} ThroughoutFrom(s: State, es: seq<Event>)
    requires Good(s) && Traded(s) && Possible(s, es) && Unspoilt(s, es)
    ensures TrustyThroughout(s, es) <==> OneAtATime(es)
    decreases es
  {
    hide Good, Traded, Trusty, Spoils, Can, Next;
    TradedTrusty(s);
    if es != [] {
      TrustyExactly(s, es[0]);
      OneFirst(es);
      if !es[0].Nest? {
        GoodMeans(s);
        GoodStep(s, es[0]);
        TradedStep(s, es[0]);
        ThroughoutFrom(Next(s, es[0]), es[1..]);
      }
    }
  }

  lemma OneFirst(es: seq<Event>)
    requires es != []
    ensures OneAtATime(es) <==> !es[0].Nest? && OneAtATime(es[1..])
  {
    if !es[0].Nest? && OneAtATime(es[1..]) {
      assert forall i :: 1 <= i < |es| ==> es[i] == es[1..][i - 1];
    }
  }

  /** Over every run that is not spoilt: calls can be trusted all the way exactly when none of
      them is made inside another. */
  lemma CallsExactly(es: seq<Event>)
    requires Possible(INIT, es) && Unspoilt(INIT, es)
    ensures TrustyThroughout(INIT, es) <==> OneAtATime(es)
  {
    GoodInit();
    hide Good, Traded;
    ThroughoutFrom(INIT, es);
  }

  // ----- a run of it -----

  const INSIDE := BUSY.(worker := Run(0, Busy, [0, 1]), up := [Call(0), Call(1)], nextCall := 2, made := [0, 1],
                        log := [Took(0), Sent(Call(0)), Sent(Call(1))])

  const CROSSED := INSIDE.(worker := Run(0, Busy, []), up := [], returned := [0, 1], confused := true)

  lemma AsksInside()
    ensures Possible(BUSY, [Ask, Nest]) && Play(BUSY, [Ask, Nest]) == INSIDE
  {
    var out := BUSY.(worker := Run(0, Busy, [0]), up := [Call(0)], nextCall := 1, made := [0],
                     log := [Took(0), Sent(Call(0))]);
    AskOut(out);
    assert [0] + [1] == [0, 1] && out.up + [Call(1)] == INSIDE.up;
    assert out.log + [Sent(Call(1))] == INSIDE.log;
    NestIn(out);
    hide Can, Next;
    TwoSteps(BUSY, Ask, Nest);
  }

  lemma AskOut(out: State)
    requires out == BUSY.(worker := Run(0, Busy, [0]), up := [Call(0)], nextCall := 1, made := [0],
                          log := [Took(0), Sent(Call(0))])
    ensures Can(BUSY, Ask) && Next(BUSY, Ask) == out
  {
  }

  lemma NestIn(s: State)
    requires Can(s, Nest)
    ensures Next(s, Nest) == s.(worker := s.worker.(calls := s.worker.calls + [s.nextCall]), nextCall := s.nextCall + 1,
                                up := s.up + [Call(s.nextCall)], made := s.made + [s.nextCall],
                                log := s.log + [Sent(Call(s.nextCall))])
  {
  }

  lemma TwoSteps(s: State, a: Event, b: Event)
    requires Can(s, a) && Can(Next(s, a), b)
    ensures Possible(s, [a, b]) && Play(s, [a, b]) == Next(Next(s, a), b)
  {
    hide Can, Next;
    assert [a, b][1..] == [b] && [b][1..] == [];
    var t := Next(s, a);
    assert Possible(Next(t, b), []) && Play(Next(t, b), []) == Next(t, b);
    assert Possible(t, [b]) && Play(t, [b]) == Next(t, b);
  }

  const HALF := INSIDE.(worker := Run(0, Busy, [0]), up := [Call(1)], returned := [0], confused := true)

  /** The parent reads a call and serves it, and another call takes its return. */
  lemma TakesOther(s: State, id: nat, rest: seq<Up>, calls: seq<nat>, c: nat)
    requires s.parent.Waiting? && s.up == [Call(id)] + rest && s.down == []
    requires s.worker.Run? && s.worker.calls == calls + [c] && c != id
    ensures var es := [Read, Serve(true), Resume];
      && Possible(s, es)
      && Play(s, es) ==
         s.(up := rest, worker := s.worker.(calls := calls), returned := s.returned + [id], confused := true)
  {
    assert s.up[1..] == rest && s.worker.calls[..|s.worker.calls| - 1] == calls;
    var read := s.(up := rest, parent := Serving(s.parent.req, id));
    assert Next(s, Read) == read;
    var sent := s.(up := rest, down := [Return(id, true)], returned := s.returned + [id]);
    assert Next(read, Serve(true)) == sent;
    assert sent.down[1..] == [];
    ThreeSteps(s, Read, Serve(true), Resume);
  }

  lemma InnerTakes()
    ensures var es := [Read, Serve(true), Resume]; Possible(INSIDE, es) && Play(INSIDE, es) == HALF
  {
    hide Possible, Play;
    TakesOther(INSIDE, 0, [Call(1)], [0], 1);
  }

  lemma ThreeSteps(s: State, a: Event, b: Event, c: Event)
    requires Can(s, a) && Can(Next(s, a), b) && Can(Next(Next(s, a), b), c)
    ensures Possible(s, [a, b, c]) && Play(s, [a, b, c]) == Next(Next(Next(s, a), b), c)
  {
    hide Can, Next;
    assert [a, b, c][1..] == [b, c] && [b, c][1..] == [c] && [c][1..] == [];
    var t := Next(Next(s, a), b);
    assert Possible(Next(t, c), []) && Play(Next(t, c), []) == Next(t, c);
    assert Possible(t, [c]) && Play(t, [c]) == Next(t, c);
    assert Possible(Next(s, a), [b, c]) && Play(Next(s, a), [b, c]) == Next(t, c);
  }

  lemma OuterTakes()
    ensures var es := [Read, Serve(true), Resume]; Possible(HALF, es) && Play(HALF, es) == CROSSED
  {
    hide Possible, Play;
    TakesOther(HALF, 1, [], [], 0);
  }

  lemma StillAnswered()
    ensures var es := [End, Reply(true), Read];
      && Possible(CROSSED, es)
      && var s := Play(CROSSED, es);
         s.answers == [Replied(0, true)] && s.confused && s.resumed == [] && s.returned == s.made
  {
    assert [Answer(0, true)][1..] == [];
  }

  /** A reachable case: an execution's call, a finalizer's call inside it, both served, neither
      resumed by its own return; and the request answered by its own reply. */
  lemma NestHappens()
    ensures var es := [Spawn, SendExec, Take, Begin, Ask, Nest, Read, Serve(true), Resume, Read, Serve(true), Resume]
                      + [End, Reply(true), Read];
      && Possible(INIT, es)
      && var s := Play(INIT, es);
         s.answers == [Replied(0, true)] && s.confused && s.resumed == [] && s.returned == s.made
  {
    FirstExecBegins();
    AsksInside();
    InnerTakes();
    OuterTakes();
    StillAnswered();
    hide Possible, Play;
    var begun := [Spawn, SendExec, Take, Begin];
    PlayOn(INIT, begun, [Ask, Nest]);
    PlayOn(INIT, begun + [Ask, Nest], [Read, Serve(true), Resume]);
    PlayOn(INIT, begun + [Ask, Nest] + [Read, Serve(true), Resume], [Read, Serve(true), Resume]);
    var served := begun + [Ask, Nest] + [Read, Serve(true), Resume] + [Read, Serve(true), Resume];
    PlayOn(INIT, served, [End, Reply(true), Read]);
    assert served ==
      [Spawn, SendExec, Take, Begin, Ask, Nest, Read, Serve(true), Resume, Read, Serve(true), Resume];
  }
}
