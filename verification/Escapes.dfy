/** An error that nothing in the parent's wait catches: a message that arrives and cannot be
    read back, or an interrupt, as it waits or as it sends a return. The exec raises and the
    worker goes on with its request. The answer it then sends is read as the answer to the next
    request. */
module Escapes {
  import opened Protocol
  import opened ProtocolTheorems
  import opened LateCalls

  /** Every answer on the connection is the answer to `q`. */
  predicate OnlyFor(up: seq<Up>, q: nat) { forall i :: 0 <= i < |up| && up[i].Answer? ==> up[i].req == q }

  /** There is, or will be, a message for each of `k` calls to take. */
  predicate Fed(s: State, k: nat) { |Calls(s.up)| + |Held(s.parent)| + |s.down| >= k }

  /** The parent waits for a request after `q`, and `q` is what the worker has still to answer,
      or has answered without being heard. */
  predicate Stale(s: State, q: nat) {
    && !s.parent.Free? && s.parent.req > q && OnlyFor(s.up, q)
    && match s.worker
       case Idle => !NoAnswer(s.up) || (s.down != [] && s.down[0] == Exec(q))
       case Run(r, _, calls) => r == q && NoAnswer(s.up) && Fed(s, |calls|)
       case _ => false
  }

  function StaleStage(s: State): nat {
    match s.worker
    case Idle => if NoAnswer(s.up) then 5 else 0
    case Run(_, Got, _) => 4
    case Run(_, Busy, _) => 3
    case Run(_, Ended, _) => 2
    case _ => 0
  }

  /** How far the stale answer is from being read. */
  function StaleRank(s: State): nat {
    10 * StaleStage(s) + 2 * |s.up| + (if s.parent.Serving? then 1 else 0)
    + (if s.worker.Run? then |s.worker.calls| else 0)
  }

  lemma RestAnswers(up: seq<Up>, q: nat)
    requires OnlyFor(up, q) && up != []
    ensures OnlyFor(up[1..], q) && (up[0].Answer? ==> up[0].req == q)
    ensures NoAnswer(up) ==> NoAnswer(up[1..]) && !up[0].Answer?
    ensures !NoAnswer(up) && !up[0].Answer? ==> !NoAnswer(up[1..])
  {
    if !NoAnswer(up) && !up[0].Answer? {
      var i :| 0 <= i < |up| && up[i].Answer?;
      assert up[1..][i - 1].Answer?;
    }
  }

  lemma StaleRead(s: State, q: nat)
    requires Stale(s, q) && s.parent.Waiting? && s.up != []
    ensures var t := Next(s, Read);
      if s.up[0].Answer? then t.parent.Free? && t.answers == s.answers + [Replied(q, s.up[0].ok)]
      else Stale(t, q) && t.parent.req == s.parent.req && t.answers == s.answers && StaleRank(t) < StaleRank(s)
  {
    RestAnswers(s.up, q);
    hide NoAnswer, OnlyFor;
  }

  lemma StaleServe(s: State, q: nat)
    requires Stale(s, q) && s.parent.Serving?
    ensures var t := Next(s, Serve(true));
      Stale(t, q) && t.parent.req == s.parent.req && t.answers == s.answers && StaleRank(t) < StaleRank(s)
  {
    hide NoAnswer, OnlyFor;
  }

  /** What the worker may put on an empty connection. */
  lemma OneMessage(up: seq<Up>, q: nat)
    requires up == []
    ensures NoAnswer(up) && OnlyFor(up, q)
    ensures forall paused :: NoAnswer(up + [HostTime(q, paused)]) && OnlyFor(up + [HostTime(q, paused)], q)
    ensures forall ok :: !NoAnswer(up + [Answer(q, ok)]) && OnlyFor(up + [Answer(q, ok)], q)
  {
    forall ok ensures !NoAnswer(up + [Answer(q, ok)]) { assert (up + [Answer(q, ok)])[0].Answer?; }
  }

  lemma StaleTakes(s: State, q: nat)
    requires Stale(s, q) && s.parent.Waiting? && s.up == [] && s.worker.Idle?
    ensures Can(s, Take)
    ensures var t := Next(s, Take);
      Stale(t, q) && t.parent.req == s.parent.req && t.answers == s.answers && StaleRank(t) < StaleRank(s)
  {
    OneMessage(s.up, q);
    hide NoAnswer, OnlyFor;
  }

  lemma StaleResumes(s: State, q: nat)
    requires Stale(s, q) && s.parent.Waiting? && s.up == [] && s.worker.Run? && s.worker.calls != []
    ensures Can(s, Resume)
    ensures var t := Next(s, Resume);
      Stale(t, q) && t.parent.req == s.parent.req && t.answers == s.answers && StaleRank(t) < StaleRank(s)
  {
    hide NoAnswer, OnlyFor;
  }

  lemma StaleRuns(s: State, q: nat)
    requires Stale(s, q) && s.parent.Waiting? && s.up == [] && s.worker.Run? && s.worker.calls == []
    ensures Can(s, Onward(s))
    ensures var t := Next(s, Onward(s));
      Stale(t, q) && t.parent.req == s.parent.req && t.answers == s.answers && StaleRank(t) < StaleRank(s)
  {
    OneMessage(s.up, q);
    hide NoAnswer, OnlyFor;
  }

  lemma StaleWork(s: State, q: nat)
    requires Stale(s, q) && s.parent.Waiting? && s.up == []
    ensures Can(s, Onward(s))
    ensures var t := Next(s, Onward(s));
      Stale(t, q) && t.parent.req == s.parent.req && t.answers == s.answers && StaleRank(t) < StaleRank(s)
  {
    hide NoAnswer, OnlyFor, StaleRank, Next;
    if s.worker.Idle? { StaleTakes(s, q); }
    else if s.worker.calls != [] { StaleResumes(s, q); }
    else { StaleRuns(s, q); }
  }

  /** Left to itself, the pair comes to a reply that is not the request's own. */
  lemma {:induction false} StaleAnswers(s: State, q: nat) returns (es: seq<Event>)
    requires Stale(s, q)
    ensures Possible(s, es) && Undisturbed(es)
    ensures exists ok :: Play(s, es).answers == s.answers + [Replied(q, ok)]
    decreases StaleRank(s)
  {
    var e := Onward(s);
    if s.parent.Serving? { StaleServe(s, q); }
    else if s.up != [] { StaleRead(s, q); }
    else { StaleWork(s, q); }
    var t := Next(s, e);
    assert !e.Kill? && !e.Crash? && !e.Reap? && !e.LateAsk? && !e.Escape? && !e.Nest?;
    if t.parent.Free? {
      hide Next, Can, Onward, Stale;
      es := [e];
      assert es[1..] == [];
      assert Possible(t, []) && Play(t, []) == t;
      assert Play(s, es) == t;
    } else {
      hide Next, Can, Onward, Stale, StaleRank;
      var rest := StaleAnswers(t, q);
      es := [e] + rest;
      assert es[1..] == rest;
      assert Play(s, es) == Play(t, rest);
    }
  }

  /** After an escape that leaves something under way, the next request is such a one. */
  lemma EscapeLeavesStale(s: State, read: bool)
    requires Coupled(s) && Paired(s) && Can(s, Escape(read)) && Spoils(s, Escape(read))
    ensures var t := Next(s, Escape(read)); Can(t, SendExec) && Stale(Next(t, SendExec), s.parent.req)
  {
    var up := if read then s.up[1..] else s.up;
    assert OnlyFor(up, s.parent.req);
    if s.worker.Idle? && s.down == [] && up != [] {
      assert up[|up| - 1] == s.up[|s.up| - 1];
      assert !NoAnswer(up);
    }
    if s.worker.Run? {
      assert s.up == [] || !s.up[|s.up| - 1].Answer?;
      assert NoAnswer(s.up);
      assert NoAnswer(up);
    }
    hide Calls, About;
  }

  /** A request then gets the reply to the one before. */
  lemma EscapeMisleads(s: State, read: bool) returns (es: seq<Event>)
    requires Coupled(s) && Paired(s) && Can(s, Escape(read)) && Spoils(s, Escape(read))
    ensures var t := Next(s, Escape(read));
      && Possible(t, es) && Undisturbed(es)
      && var q := |t.answers|;
         |Play(t, es).answers| == q + 1 && Play(t, es).answers[q].Replied? && Play(t, es).answers[q].req != q
  {
    EscapeLeavesStale(s, read);
    var t := Next(s, Escape(read));
    assert |t.answers| == s.parent.req + 1;
    var u := Next(t, SendExec);
    assert u.answers == t.answers;
    hide Next, Can, Stale, Coupled, Paired, Spoils;
    var rest := StaleAnswers(u, s.parent.req);
    es := [SendExec] + rest;
    assert es[1..] == rest;
    assert Play(t, es) == Play(u, rest);
  }

  /** The first request is raised out of, and its call is gone. */
  const RAISED := BUSY.(parent := Free, worker := Run(0, Busy, [0]), nextCall := 1, made := [0],
                        answers := [Escaped], log := [Took(0), Sent(Call(0))])

  const MISLED := RAISED.(parent := Waiting(1), worker := Run(0, Busy, []), nextReq := 2, confused := true)

  lemma CallUnread()
    ensures Possible(BUSY, [Ask, Escape(true)]) && Play(BUSY, [Ask, Escape(true)]) == RAISED
  {
    assert [Call(0)][1..] == [];
  }

  lemma TakenForReturn()
    ensures Possible(RAISED, [SendExec, Resume]) && Play(RAISED, [SendExec, Resume]) == MISLED
  {
    assert [Exec(1)][1..] == [] && [0][..0] == [];
  }

  lemma WrongAnswer()
    ensures var es := [End, Reply(true), Read];
      Possible(MISLED, es) && Play(MISLED, es).answers == [Escaped, Replied(0, true)]
  {
    assert [Answer(0, true)][1..] == [];
  }

  /** A reachable case: the first execution's call cannot be read back, the second request is
      taken for its return, and the first execution's result answers the second request. */
  lemma EscapeHappens()
    ensures var es := [Spawn, SendExec, Take, Begin, Ask, Escape(true), SendExec, Resume, End, Reply(true), Read];
      Possible(INIT, es) && Play(INIT, es).answers == [Escaped, Replied(0, true)]
  {
    FirstExecBegins();
    CallUnread();
    TakenForReturn();
    WrongAnswer();
    hide Possible, Play;
    PlayOn(INIT, [Spawn, SendExec, Take, Begin], [Ask, Escape(true)]);
    var begun := [Spawn, SendExec, Take, Begin] + [Ask, Escape(true)];
    PlayOn(INIT, begun, [SendExec, Resume]);
    PlayOn(INIT, begun + [SendExec, Resume], [End, Reply(true), Read]);
    assert begun + [SendExec, Resume] + [End, Reply(true), Read]
        == [Spawn, SendExec, Take, Begin, Ask, Escape(true), SendExec, Resume, End, Reply(true), Read];
  }
}
