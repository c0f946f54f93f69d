/** The parent's wait for a result, and the deadline that moves with host time.

    The loop is `_await_result`. What it sees is a sequence of turns: the time it reads at the
    top of the loop, whether the worker lives, what arrived, and the times it reads around a
    message. Against it stands a definition by instants: an instant is host time when the
    worker had last said that its clock was stopped, or while a handler ran for it. */
module Deadline {
  import opened Options
  import opened HostClock

  datatype Got =
    | Nothing            // the poll ended without a message
    | Broken             // the connection is gone
    | Result | WorkerError
    | HostTime(paused: bool)
    | Rpc                // a call, whose handler runs from `at` to `done`
    | Unknown

  datatype Turn = Turn(now: int, alive: bool, got: Got, at: int, done: int)

  datatype Outcome = Unresponsive | Died | Answered | Waiting

  predicate WellTimed(begin: int, turns: seq<Turn>) {
    && (forall i :: 0 <= i < |turns| ==> begin <= turns[i].now <= turns[i].at <= turns[i].done)
    && (forall i, j :: 0 <= i < j < |turns| ==> turns[i].done <= turns[j].now)
  }

  lemma Timed(begin: int, turns: seq<Turn>, n: nat)
    requires WellTimed(begin, turns) && n < |turns|
    ensures turns[n].now <= turns[n].at <= turns[n].done
    ensures n + 1 < |turns| ==> turns[n].done <= turns[n + 1].now
  {
  }

  // ----- host time, instant by instant -----

  /** Whether, at instant `t`, the worker's clock was stopped as far as it had said. */
  predicate Stopped(turns: seq<Turn>, t: int) {
    if turns == [] then false
    else
      var last := turns[|turns| - 1];
      if last.got.HostTime? && last.at <= t then last.got.paused else Stopped(turns[..|turns| - 1], t)
  }

  /** Whether a handler was running at instant `t`. */
  predicate Serving(turns: seq<Turn>, t: int) {
    exists i :: 0 <= i < |turns| && turns[i].got.Rpc? && turns[i].at <= t < turns[i].done
  }

  /** The instants of host time from `a` up to `b`. */
  function Host(turns: seq<Turn>, a: int, b: int): (s: set<int>) {
    set t | t in Span(a, b) && (Stopped(turns, t) || Serving(turns, t))
  }

  /** The time spent waiting that is not host time. */
  function Charged(turns: seq<Turn>, begin: int, now: int): int { now - begin - |Host(turns, begin, now)| }

  // ----- what one more turn does to it -----

  /** Everything that has happened is over by `end`. */
  predicate Over(turns: seq<Turn>, end: int) {
    forall i :: 0 <= i < |turns| ==> turns[i].at <= turns[i].done <= end
  }

  lemma EarlierSame(turns: seq<Turn>, x: Turn, a: int, b: int)
    requires b <= x.at
    ensures Host(turns + [x], a, b) == Host(turns, a, b)
  {
    hide Span;
    var more := turns + [x];
    assert more[..|more| - 1] == turns;
    forall t | t in Span(a, b)
      ensures (Stopped(more, t) || Serving(more, t)) == (Stopped(turns, t) || Serving(turns, t))
    {
      if Serving(turns, t) {
        var i :| 0 <= i < |turns| && turns[i].got.Rpc? && turns[i].at <= t < turns[i].done;
        assert more[i] == turns[i];
      }
    }
  }

  /** Where the deadline stands: `paused` is the time the present pause began, if any. */
  ghost predicate Kept(turns: seq<Turn>, begin: int, moved: int, paused: Option<int>, end: int) {
    && begin <= end && Over(turns, end)
    && (paused.None? ==>
          && (forall t :: end <= t ==> !Stopped(turns, t))
          && (forall b :: end <= b ==> moved == |Host(turns, begin, b)|))
    && (paused.Some? ==>
          && begin <= paused.value <= end
          && (forall t :: paused.value <= t ==> Stopped(turns, t))
          && moved == |Host(turns, begin, paused.value)|)
  }

  lemma KeptStops(turns: seq<Turn>, begin: int, moved: int, end: int, x: Turn)
    requires Kept(turns, begin, moved, None, end) && end <= x.at <= x.done && x.got == HostTime(true)
    ensures Kept(turns + [x], begin, moved, Some(x.at), x.done)
  {
    EarlierSame(turns, x, begin, x.at);
    assert (turns + [x])[..|turns + [x]| - 1] == turns;
  }

  /** The pause ends: exactly its instants are added. */
  lemma KeptStarts(turns: seq<Turn>, begin: int, moved: int, p: int, end: int, x: Turn)
    requires Kept(turns, begin, moved, Some(p), end) && end <= x.at <= x.done && x.got == HostTime(false)
    ensures Kept(turns + [x], begin, moved + (x.at - p), None, x.done)
  {
    hide Span;
    var more := turns + [x];
    assert more[..|more| - 1] == turns;
    forall b | x.done <= b ensures |Host(more, begin, b)| == moved + (x.at - p) {
      EarlierSame(turns, x, begin, p);
      forall t | t in Host(more, begin, b) ensures t in Host(turns, begin, p) + Span(p, x.at) {
        assert t >= x.at ==> !Serving(more, t);
        if t < p { assert t in Host(more, begin, p); }
      }
      forall t | t in Host(turns, begin, p) + Span(p, x.at) ensures t in Host(more, begin, b) {
        if t in Host(turns, begin, p) { assert t in Host(more, begin, p); }
        else { assert Stopped(turns, t) && Stopped(more, t); }
      }
      assert Host(more, begin, b) == Host(turns, begin, p) + Span(p, x.at);
      SpanSize(p, x.at);
      assert Host(turns, begin, p) !! Span(p, x.at);
    }
  }

  /** A call served while nothing is paused: exactly its handler's instants are added. */
  lemma KeptServes(turns: seq<Turn>, begin: int, moved: int, end: int, x: Turn)
    requires Kept(turns, begin, moved, None, end) && end <= x.at <= x.done && x.got == Rpc
    ensures Kept(turns + [x], begin, moved + (x.done - x.at), None, x.done)
  {
    hide Span;
    var more := turns + [x];
    assert more[..|more| - 1] == turns && more[|turns|] == x;
    assert forall t :: Stopped(more, t) == Stopped(turns, t);
    forall b | x.done <= b ensures |Host(more, begin, b)| == moved + (x.done - x.at) {
      EarlierSame(turns, x, begin, x.at);
      forall t | t in Host(more, begin, b) ensures t in Host(turns, begin, x.at) + Span(x.at, x.done) {
        if t < x.at { assert t in Host(more, begin, x.at); }
        else { assert !Stopped(turns, t); }
      }
      forall t | t in Host(turns, begin, x.at) + Span(x.at, x.done) ensures t in Host(more, begin, b) {
        if t in Host(turns, begin, x.at) { assert t in Host(more, begin, x.at); }
        else { assert Serving(more, t); }
      }
      assert Host(more, begin, b) == Host(turns, begin, x.at) + Span(x.at, x.done);
      SpanSize(x.at, x.done);
    }
  }

  /** A call served during a pause adds nothing: its instants are the pause's. */
  lemma KeptServesPaused(turns: seq<Turn>, begin: int, moved: int, p: int, end: int, x: Turn)
    requires Kept(turns, begin, moved, Some(p), end) && end <= x.at <= x.done && x.got == Rpc
    ensures Kept(turns + [x], begin, moved, Some(p), x.done)
  {
    EarlierSame(turns, x, begin, p);
    assert (turns + [x])[..|turns + [x]| - 1] == turns;
  }

  /** Any other turn, and a message that says what was known, adds nothing. */
  lemma KeptOtherwise(turns: seq<Turn>, begin: int, moved: int, paused: Option<int>, end: int, x: Turn)
    requires Kept(turns, begin, moved, paused, end) && end <= x.at <= x.done && !x.got.Rpc?
    requires x.got.HostTime? ==> x.got.paused == paused.Some?
    ensures Kept(turns + [x], begin, moved, paused, x.done)
  {
    hide Span;
    var more := turns + [x];
    assert more[..|more| - 1] == turns;
    if paused.Some? {
      EarlierSame(turns, x, begin, paused.value);
      assert forall t :: paused.value <= t ==> Stopped(turns, t) ==> Stopped(more, t);
    } else {
      assert forall t :: end <= t ==> !Stopped(turns, t) ==> !Stopped(more, t);
      forall b | x.done <= b ensures moved == |Host(more, begin, b)| {
        forall t | t in Span(begin, b) ensures t in Host(more, begin, b) <==> t in Host(turns, begin, b) {
          if Serving(more, t) {
            var i :| 0 <= i < |more| && more[i].got.Rpc? && more[i].at <= t < more[i].done;
            assert i < |turns| && turns[i] == more[i];
          }
          assert Stopped(more, t) == Stopped(turns, t);
          if Serving(turns, t) {
            var i :| 0 <= i < |turns| && turns[i].got.Rpc? && turns[i].at <= t < turns[i].done;
            assert more[i] == turns[i];
          }
        }
        assert Host(more, begin, b) == Host(turns, begin, b);
      }
    }
  }

  /** By how much one message moves the deadline, and where the present pause began after it. */
  function Shift(paused: Option<int>, x: Turn): int {
    if x.got == HostTime(false) && paused.Some? then x.at - paused.value
    else if x.got.Rpc? && paused.None? then x.done - x.at
    else 0
  }

  function Paused(paused: Option<int>, x: Turn): Option<int> {
    if !x.got.HostTime? then paused
    else if !x.got.paused then None
    else if paused.None? then Some(x.at)
    else paused
  }

  lemma KeptTurn(turns: seq<Turn>, begin: int, moved: int, paused: Option<int>, end: int, x: Turn)
    requires Kept(turns, begin, moved, paused, end) && end <= x.at <= x.done
    ensures Kept(turns + [x], begin, moved + Shift(paused, x), Paused(paused, x), x.done)
  {
    hide Kept;
    if x.got.Rpc? {
      if paused.None? { KeptServes(turns, begin, moved, end, x); }
      else { KeptServesPaused(turns, begin, moved, paused.value, end, x); }
    } else if x.got == HostTime(true) && paused.None? {
      KeptStops(turns, begin, moved, end, x);
    } else if x.got == HostTime(false) && paused.Some? {
      KeptStarts(turns, begin, moved, paused.value, end, x);
    } else {
      KeptOtherwise(turns, begin, moved, paused, end, x);
    }
  }

  lemma KeptNext(turns: seq<Turn>, n: nat, begin: int, moved: int, paused: Option<int>, end: int)
    requires n < |turns| && end <= turns[n].at <= turns[n].done
    requires Kept(turns[..n], begin, moved, paused, end)
    ensures Kept(turns[..n + 1], begin, moved + Shift(paused, turns[n]), Paused(paused, turns[n]), turns[n].done)
  {
    hide Kept, Shift, Paused;
    assert turns[..n + 1] == turns[..n] + [turns[n]];
    KeptTurn(turns[..n], begin, moved, paused, end, turns[n]);
  }

  /** What the loop reads off its two variables. */
  lemma KeptMeans(turns: seq<Turn>, begin: int, moved: int, paused: Option<int>, end: int, now: int)
    requires Kept(turns, begin, moved, paused, end) && end <= now
    ensures Stopped(turns, now) == paused.Some?
    ensures paused.None? ==> Charged(turns, begin, now) == now - begin - moved
  {
  }

  /** Whether the time that is not host time is used up, with the clock running, as the
      `j`-th turn begins. */
  predicate Spent(begin: int, limit: int, turns: seq<Turn>, j: nat)
    requires j < |turns|
  {
    !Stopped(turns[..j], turns[j].now) && Charged(turns[..j], begin, turns[j].now) >= limit
  }

  lemma SpentMeans(begin: int, limit: int, turns: seq<Turn>, j: nat, moved: int, paused: Option<int>, end: int)
    requires j < |turns| && Kept(turns[..j], begin, moved, paused, end) && end <= turns[j].now
    ensures Spent(begin, limit, turns, j) <==> paused.None? && turns[j].now >= begin + limit + moved
  {
    hide Kept;
    KeptMeans(turns[..j], begin, moved, paused, end, turns[j].now);
  }

  // ----- the loop -----

  /** What ends the wait in a turn that does not find the time spent. */
  predicate Ends(x: Turn) {
    x.got.Broken? || (x.got.Nothing? && !x.alive) || x.got.Result? || x.got.WorkerError?
  }

  /** A message that does not end the wait. */
  method Take(deadline: int, pausedAt: Option<int>, x: Turn) returns (deadline': int, pausedAt': Option<int>)
    ensures deadline' == deadline + Shift(pausedAt, x) && pausedAt' == Paused(pausedAt, x)
  {
    deadline', pausedAt' := deadline, pausedAt;
    if x.got.HostTime? {
      if x.got.paused {
        if pausedAt.None? { pausedAt' := Some(x.at); }
      } else if pausedAt.Some? {
        deadline' := deadline + (x.at - pausedAt.value);
        pausedAt' := None;
      }
    } else if x.got.Rpc? {
      if pausedAt.None? { deadline' := deadline + (x.done - x.at); }
    }
  }

  /** None of the first `n` turns found the time spent or ended the wait. */
  predicate WentOn(begin: int, limit: int, turns: seq<Turn>, n: nat)
    requires n <= |turns|
  {
    forall j :: 0 <= j < n ==> !Spent(begin, limit, turns, j) && !Ends(turns[j])
  }

  lemma WentOnMeans(begin: int, limit: int, turns: seq<Turn>, n: nat)
    requires n <= |turns| && WentOn(begin, limit, turns, n)
    ensures forall j :: 0 <= j < n && !turns[j].got.HostTime? && !turns[j].got.Rpc? && !turns[j].got.Unknown? ==>
      turns[j].got.Nothing? && turns[j].alive
  {
    hide Spent;
  }

  lemma WentOnTurn(begin: int, limit: int, turns: seq<Turn>, n: nat)
    requires n < |turns| && WentOn(begin, limit, turns, n)
    requires !Spent(begin, limit, turns, n) && !Ends(turns[n])
    ensures WentOn(begin, limit, turns, n + 1)
  {
    hide Spent, Ends;
  }

  /** The wait: `n` turns were taken. It gives up exactly when the time that is not host time
      has reached the timeout and the grace, and no turn before it found that; how many calls
      arrive makes no difference. */
  method AwaitResult(begin: int, timeout: int, grace: int, turns: seq<Turn>) returns (outcome: Outcome, n: nat)
    requires WellTimed(begin, turns)
    ensures n <= |turns|
    ensures WentOn(begin, timeout + grace, turns, n)
    ensures forall j :: 0 <= j < n && !turns[j].got.HostTime? && !turns[j].got.Rpc? && !turns[j].got.Unknown? ==>
      turns[j].got.Nothing? && turns[j].alive
    ensures outcome.Waiting? <==> n == |turns|
    ensures outcome.Unresponsive? <==> n < |turns| && Spent(begin, timeout + grace, turns, n)
    ensures outcome.Answered? ==> turns[n].got.Result? || turns[n].got.WorkerError?
    ensures outcome.Died? ==> turns[n].got.Broken? || (turns[n].got.Nothing? && !turns[n].alive)
  {
    var deadline := begin + timeout + grace;
    var pausedAt: Option<int> := None;
    ghost var end, limit, moved := begin, timeout + grace, 0;
    n := 0;
    assert turns[..0] == [];
    StartsKept(begin);
    assert |turns| > 0 ==> begin <= turns[0].now;
    hide Kept, Spent, WentOn, WellTimed, Shift, Paused;
    while n < |turns|
      invariant n <= |turns| && (n < |turns| ==> end <= turns[n].now)
      invariant deadline == begin + limit + moved
      invariant Kept(turns[..n], begin, moved, pausedAt, end)
      invariant WentOn(begin, limit, turns, n)
    {
      var x := turns[n];
      WentOnMeans(begin, limit, turns, n);
      Timed(begin, turns, n);
      ghost var paused := pausedAt;
      SpentMeans(begin, limit, turns, n, moved, pausedAt, end);
      if pausedAt.None? && x.now >= deadline { return Unresponsive, n; }
      if x.got.Nothing? && !x.alive { return Died, n; }
      if x.got.Broken? { return Died, n; }
      if x.got.Result? || x.got.WorkerError? { return Answered, n; }
      deadline, pausedAt := Take(deadline, pausedAt, x);
      WentOnTurn(begin, limit, turns, n);
      KeptNext(turns, n, begin, moved, paused, end);
      moved := moved + Shift(paused, x);
      end := x.done;
      n := n + 1;
    }
    WentOnMeans(begin, limit, turns, n);
    outcome := Waiting;
  }

  lemma StartsKept(begin: int)
    ensures Kept([], begin, 0, None, begin)
  {
    forall b | begin <= b ensures |Host([], begin, b)| == 0 { assert Host([], begin, b) == {}; }
  }
}
