/** A call made after the answer was sent.

    A finalizer that runs as the worker clears what an execution left (a remote file that was
    never closed) calls the parent when the parent waits for nothing. The other theorems leave
    such calls out. Here is what one does: the next request is taken for the call's return and
    dropped, and it is never answered while the worker is left alone. */
module LateCalls {
  import opened Options
  import opened Protocol
  import opened ProtocolTheorems

  predicate NoAnswer(up: seq<Up>) { forall i :: 0 <= i < |up| ==> !up[i].Answer? }

  predicate NoExec(down: seq<Down>) { forall i :: 0 <= i < |down| ==> !down[i].Exec? }

  /** The answer is still to be read, and comes before any call. */
  predicate Unread(up: seq<Up>) {
    exists a :: 0 <= a < |up| && up[a].Answer? && (forall i :: 0 <= i < a ==> up[i].HostTime?) && NoAnswer(up[a + 1..])
  }

  /** The request is still to be sent, and the worker waits for the return of its call. */
  predicate Before(s: State, q: nat) {
    && s.nextReq == q && s.worker.Late? && s.down == []
    && (|| (s.parent.Free? && |s.answers| == q && NoAnswer(s.up))
        || (s.parent.Waiting? && |s.answers| + 1 == q && Unread(s.up)))
  }

  /** It is the next thing the worker takes, and the worker does not wait for a request. */
  predicate Offered(s: State, q: nat) {
    && s.nextReq == q + 1 && |s.answers| == q && !s.parent.Free?
    && s.worker.Late? && NoAnswer(s.up)
    && s.down != [] && s.down[0].Exec? && NoExec(s.down[1..])
  }

  /** It is gone, and both sides wait. */
  predicate Missed(s: State, q: nat) {
    && s.nextReq == q + 1 && |s.answers| == q && !s.parent.Free?
    && (s.worker.Late? || s.worker.Idle?) && NoAnswer(s.up) && NoExec(s.down)
  }

  predicate Stuck(s: State, q: nat) {
    s.scope.None? && (Before(s, q) || Offered(s, q) || Missed(s, q))
  }

  predicate LeftAlone(e: Event) { !e.Kill? && !e.Crash? && !e.Reap? && !e.Escape? }

  lemma UnreadRest(up: seq<Up>)
    requires Unread(up)
    ensures up != [] && !up[0].Call?
    ensures up[0].Answer? ==> NoAnswer(up[1..])
    ensures up[0].HostTime? ==> Unread(up[1..])
  {
    var a :| 0 <= a < |up| && up[a].Answer? && (forall i :: 0 <= i < a ==> up[i].HostTime?) && NoAnswer(up[a + 1..]);
    if a > 0 {
      assert up[1..][a - 1].Answer? && up[1..][(a - 1) + 1..] == up[a + 1..];
    }
  }

  lemma UnreadMore(up: seq<Up>, id: nat)
    requires Unread(up)
    ensures Unread(up + [Call(id)])
  {
    var a :| 0 <= a < |up| && up[a].Answer? && (forall i :: 0 <= i < a ==> up[i].HostTime?) && NoAnswer(up[a + 1..]);
    assert (up + [Call(id)])[a].Answer? && (up + [Call(id)])[a + 1..] == up[a + 1..] + [Call(id)];
  }

  lemma StuckBefore(s: State, e: Event, q: nat)
    requires s.scope.None? && Before(s, q) && Can(s, e) && LeftAlone(e)
    ensures Stuck(Next(s, e), q)
  {
    if e.Read? {
      UnreadRest(s.up);
    }
    if e.Nest? && s.parent.Waiting? { UnreadMore(s.up, s.nextCall); }
    hide Unread, Said;
  }

  lemma StuckOffered(s: State, e: Event, q: nat)
    requires s.scope.None? && Offered(s, q) && Can(s, e) && LeftAlone(e)
    ensures Stuck(Next(s, e), q)
  {
    if e.Serve? {
      assert (s.down + [Return(s.parent.id, e.ok)])[1..] == s.down[1..] + [Return(s.parent.id, e.ok)];
    }
    hide Before;
  }

  lemma StuckMissed(s: State, e: Event, q: nat)
    requires s.scope.None? && Missed(s, q) && Can(s, e) && LeftAlone(e)
    ensures Stuck(Next(s, e), q)
  {
    MissedRest(s, e);
    hide Before, Offered, NoAnswer, NoExec;
  }

  /** What is on the connection stays without answers and requests. */
  lemma MissedRest(s: State, e: Event)
    requires NoAnswer(s.up) && NoExec(s.down)
    ensures s.up != [] ==> NoAnswer(s.up[1..]) && !s.up[0].Answer?
    ensures s.down != [] ==> NoExec(s.down[1..]) && !s.down[0].Exec?
    ensures NoAnswer(s.up + [Call(s.nextCall)])
    ensures forall id, ok :: NoExec(s.down + [Return(id, ok)])
  {
  }

  lemma {:induction false} StuckRun(s: State, es: seq<Event>, q: nat)
    requires Stuck(s, q) && Possible(s, es) && (forall i :: 0 <= i < |es| ==> LeftAlone(es[i]))
    ensures Stuck(Play(s, es), q) && |Play(s, es).answers| <= q
    decreases es
  {
    if es != [] {
      assert LeftAlone(es[0]);
      if Before(s, q) { StuckBefore(s, es[0], q); }
      else if Offered(s, q) { StuckOffered(s, es[0], q); }
      else { StuckMissed(s, es[0], q); }
      hide Stuck, Can, Next, LeftAlone;
      StuckRun(Next(s, es[0]), es[1..], q);
    }
  }

  /** The request a late call costs: the one on its way, or the next one. */
  function Cost(s: State): nat { if s.down != [] && s.nextReq > 0 then s.nextReq - 1 else s.nextReq }

  lemma StuckStarts(s: State)
    requires Coupled(s) && Paired(s) && Running(s) && s.worker.Idle?
    ensures Stuck(Next(s, LateAsk), Cost(s))
  {
    var t := Next(s, LateAsk);
    if !s.parent.Free? && s.down == [] {
      var a := |s.up| - 1;
      assert t.up[a].Answer? && t.up[a + 1..] == [Call(s.nextCall)];
      forall i | 0 <= i < a ensures t.up[i].HostTime? { NoCallAt(s.up, i); }
      assert Unread(t.up);
    }
  }

  lemma {:induction false} NoCallAt(up: seq<Up>, i: nat)
    requires Calls(up) == [] && i < |up|
    ensures !up[i].Call?
  {
    if i > 0 { NoCallAt(up[1..], i - 1); }
  }

  /** After a late call no run of the two, however long, answers the request it costs; only
      the worker's end does away with it. */
  lemma LateCallCostsRequest(s: State, es: seq<Event>)
    requires Good(s) && s.worker.Idle?
    requires Possible(Next(s, LateAsk), es) && (forall i :: 0 <= i < |es| ==> LeftAlone(es[i]))
    ensures |Play(Next(s, LateAsk), es).answers| <= Cost(s)
  {
    StuckStarts(s);
    hide Good, Next, Possible, Stuck, LeftAlone;
    StuckRun(Next(s, LateAsk), es, Cost(s));
  }

  lemma {:induction false} PlayOn(s: State, es: seq<Event>, more: seq<Event>)
    requires Possible(s, es) && Possible(Play(s, es), more)
    ensures Possible(s, es + more) && Play(s, es + more) == Play(Play(s, es), more)
    decreases es
  {
    hide Can, Next;
    if es == [] {
      assert es + more == more;
    } else {
      assert (es + more)[1..] == es[1..] + more;
      PlayOn(Next(s, es[0]), es[1..], more);
    }
  }

  const BUSY := INIT.(parent := Waiting(0), worker := Run(0, Busy, []), scope := Some(0),
                      nextReq := 1, taken := 1, log := [Took(0)])

  lemma FirstExecBegins()
    ensures Possible(INIT, [Spawn, SendExec, Take, Begin]) && Play(INIT, [Spawn, SendExec, Take, Begin]) == BUSY
  {
    assert Play(BUSY, []) == BUSY;
  }

  const REPLIED := BUSY.(worker := Idle, scope := None, up := [Answer(0, true)],
                         log := [Took(0), Sent(Answer(0, true))])

  lemma FirstExecReplies()
    ensures Possible(BUSY, [End, Reply(true)]) && Play(BUSY, [End, Reply(true)]) == REPLIED
  {
    assert Play(REPLIED, []) == REPLIED;
  }

  lemma FirstExecCalls()
    ensures var es := [Read, LateAsk];
      && Possible(REPLIED, es)
      && var s := Play(REPLIED, es); s.parent.Free? && s.answers == [Replied(0, true)] && s.up == [Call(0)]
  {
    assert [Answer(0, true)][1..] == [];
  }

  lemma FirstExecReturns()
    ensures var es := [End, Reply(true), Read, LateAsk];
      && Possible(BUSY, es)
      && var s := Play(BUSY, es); s.parent.Free? && s.answers == [Replied(0, true)] && s.up == [Call(0)]
  {
    FirstExecReplies();
    FirstExecCalls();
    hide Possible, Play;
    PlayOn(BUSY, [End, Reply(true)], [Read, LateAsk]);
    assert [End, Reply(true)] + [Read, LateAsk] == [End, Reply(true), Read, LateAsk];
  }

  /** A reachable case: the first exec has returned, and its worker calls. */
  lemma LateCallHappens()
    ensures var es := [Spawn, SendExec, Take, Begin, End, Reply(true), Read, LateAsk];
      && Possible(INIT, es)
      && var s := Play(INIT, es); s.parent.Free? && s.answers == [Replied(0, true)] && s.up == [Call(0)]
  {
    FirstExecBegins();
    FirstExecReturns();
    hide Possible, Play;
    PlayOn(INIT, [Spawn, SendExec, Take, Begin], [End, Reply(true), Read, LateAsk]);
    assert [Spawn, SendExec, Take, Begin] + [End, Reply(true), Read, LateAsk]
        == [Spawn, SendExec, Take, Begin, End, Reply(true), Read, LateAsk];
  }
}
