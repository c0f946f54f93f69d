/** The clock of an execution, which stands still for as long as some call into the host is out.

    Times are whole units of a clock that never goes back. Calls overlap as they please; the
    clock only counts how many are out. What it must come to is said about the instants: the
    start of the clock moves by the number of instants some call covers, so none is refunded
    twice and none is missed. */
module HostClock {
  import opened Options

  /** A finished call covers the instants from `begin`, up to and not including `end`. */
  datatype Interval = Interval(begin: int, end: int)

  /** The instants from `a`, up to and not including `b`. */
  function Span(a: int, b: int): (s: set<int>)
    ensures forall t :: t in s <==> a <= t < b
    decreases b - a
  {
    if a < b then Span(a, b - 1) + {b - 1} else {}
  }

  function Union(calls: seq<Interval>): set<int> {
    if calls == [] then {} else Span(calls[0].begin, calls[0].end) + Union(calls[1..])
  }

  predicate Covers(c: Interval, t: int) { c.begin <= t < c.end }

  lemma {:induction false} UnionMeans(calls: seq<Interval>, t: int)
    ensures t in Union(calls) <==> exists i :: 0 <= i < |calls| && Covers(calls[i], t)
  {
    hide Span;
    if calls != [] {
      UnionMeans(calls[1..], t);
      if t in Span(calls[0].begin, calls[0].end) { assert Covers(calls[0], t); }
      if t in Union(calls[1..]) {
        var i :| 0 <= i < |calls[1..]| && Covers(calls[1..][i], t);
        assert Covers(calls[i + 1], t);
      }
      if i :| 0 <= i < |calls| && Covers(calls[i], t) {
        if i > 0 { assert calls[1..][i - 1] == calls[i]; }
      }
    }
  }

  lemma {:induction false} UnionAdd(calls: seq<Interval>, c: Interval)
    ensures Union(calls + [c]) == Union(calls) + Span(c.begin, c.end)
  {
    hide Span;
    if calls == [] {
      assert calls + [c] == [c] && [c][1..] == [];
    } else {
      assert (calls + [c])[1..] == calls[1..] + [c];
      UnionAdd(calls[1..], c);
    }
  }

  lemma {:induction false} SpanSize(a: int, b: int)
    requires a <= b
    ensures |Span(a, b)| == b - a
    decreases b - a
  {
    if a < b { SpanSize(a, b - 1); }
  }

  // ----- the clock -----

  /** `start` is the shared start box: none when nothing is timed. */
  datatype Clock = Clock(start: Option<int>, depth: nat, entered: int)

  function Enter(c: Clock, now: int): Clock {
    Clock(c.start, c.depth + 1, if c.depth == 0 then now else c.entered)
  }

  function Exit(c: Clock, now: int): Clock
    requires c.depth > 0
  {
    if c.depth == 1 && c.start.Some?
    then Clock(Some(c.start.value + (now - c.entered)), 0, c.entered)
    else Clock(c.start, c.depth - 1, c.entered)
  }

  /** What has happened: where the box started, when each outstanding call came in, the
      calls that are over, and the time of the last event. */
  datatype History = History(began: Option<int>, open: seq<int>, calls: seq<Interval>, last: int)

  function Entering(h: History, now: int): History { h.(open := h.open + [now], last := now) }

  /** The `i`-th outstanding call returns: any of them may. */
  function Exiting(h: History, i: nat, now: int): History
    requires i < |h.open|
  {
    History(h.began, h.open[..i] + h.open[i + 1..], h.calls + [Interval(h.open[i], now)], now)
  }

  /** The instants of finished calls before the present pause. */
  function Before(calls: seq<Interval>, entered: int): set<int> { set t | t in Union(calls) && t < entered }

  ghost predicate Tracks(c: Clock, h: History) {
    && c.depth == |h.open|
    && c.start.Some? == h.began.Some?
    && (forall i :: 0 <= i < |h.open| ==> c.entered <= h.open[i] <= h.last)
    && (forall t :: t in Union(h.calls) ==> t < h.last)
    && (c.depth == 0 ==> (c.start.Some? ==> c.start.value == h.began.value + |Union(h.calls)|))
    && (c.depth > 0 ==>
          && c.entered <= h.last
          && (c.start.Some? ==> c.start.value == h.began.value + |Before(h.calls, c.entered)|)
          // the pause has no holes: an instant of it not in a finished call is in an open one
          && forall t :: c.entered <= t < h.last && t !in Union(h.calls) ==>
               exists i :: 0 <= i < |h.open| && h.open[i] <= t)
  }

  lemma EnterTracks(c: Clock, h: History, now: int)
    requires Tracks(c, h) && h.last <= now
    ensures Tracks(Enter(c, now), Entering(h, now))
  {
    hide Span;
    var c', h' := Enter(c, now), Entering(h, now);
    if c.depth == 0 {
      assert Before(h.calls, now) == Union(h.calls);
      assert h.open == [];
    } else {
      forall t | c'.entered <= t < h'.last && t !in Union(h'.calls)
        ensures exists i :: 0 <= i < |h'.open| && h'.open[i] <= t
      {
        if t < h.last {
          var i :| 0 <= i < |h.open| && h.open[i] <= t;
          assert h'.open[i] == h.open[i];
        } else {
          assert h'.open[0] == h.open[0];
        }
      }
    }
  }

  lemma ExitTracks(c: Clock, h: History, i: nat, now: int)
    requires Tracks(c, h) && h.last <= now && i < |h.open|
    ensures Tracks(Exit(c, now), Exiting(h, i, now))
  {
    hide Span;
    UnionAdd(h.calls, Interval(h.open[i], now));
    assert forall t :: t in Union(Exiting(h, i, now).calls) ==> t < now;
    if c.depth == 1 {
      LastExit(c, h, now);
    } else {
      EarlierExit(c, h, i, now);
    }
  }

  /** The last call out: the pause it ends is exactly the instants not yet refunded. */
  lemma LastExit(c: Clock, h: History, now: int)
    requires Tracks(c, h) && h.last <= now && c.depth == 1
    ensures c.entered <= now
    ensures var u := Union(h.calls) + Span(h.open[0], now);
      |u| == |Before(h.calls, c.entered)| + (now - c.entered)
  {
    hide Span;
    var u := Union(h.calls) + Span(h.open[0], now);
    var b := Before(h.calls, c.entered);
    var p := Span(c.entered, now);
    forall t | t in p ensures t in u {
      if t < h.last && t !in Union(h.calls) { assert h.open[0] <= t; }
    }
    forall t | t in u ensures t in b + p {
      if t in Union(h.calls) && t >= c.entered { assert t < h.last; }
    }
    assert u == b + p && b !! p;
    SpanSize(c.entered, now);
  }

  lemma EarlierExit(c: Clock, h: History, i: nat, now: int)
    requires Tracks(c, h) && h.last <= now && i < |h.open| && c.depth > 1
    requires Union(Exiting(h, i, now).calls) == Union(h.calls) + Span(h.open[i], now)
    ensures Tracks(Exit(c, now), Exiting(h, i, now))
  {
    hide Span;
    var c', h' := Exit(c, now), Exiting(h, i, now);
    assert Before(h'.calls, c.entered) == Before(h.calls, c.entered);
    assert forall j :: 0 <= j < |h'.open| ==> h'.open[j] == if j < i then h.open[j] else h.open[j + 1];
    forall t | c'.entered <= t < h'.last && t !in Union(h'.calls)
      ensures exists j :: 0 <= j < |h'.open| && h'.open[j] <= t
    {
      if t < h.last {
        var j :| 0 <= j < |h.open| && h.open[j] <= t;
        assert j != i;
        var k := if j < i then j else j - 1;
        assert h'.open[k] == h.open[j];
      }
    }
  }

  // ----- every run -----

  datatype Event = In(at: int) | Out(which: nat, at: int)

  datatype Play = Play(clock: Clock, history: History)

  predicate Enabled(s: Play, e: Event) {
    s.history.last <= e.at && (e.Out? ==> e.which < |s.history.open| && s.clock.depth > 0)
  }

  function Step(s: Play, e: Event): Play
    requires Enabled(s, e)
  {
    match e
    case In(at) => Play(Enter(s.clock, at), Entering(s.history, at))
    case Out(i, at) => Play(Exit(s.clock, at), Exiting(s.history, i, at))
  }

  predicate Possible(s: Play, es: seq<Event>)
    decreases es
  {
    es == [] || (Enabled(s, es[0]) && Possible(Step(s, es[0]), es[1..]))
  }

  function Run(s: Play, es: seq<Event>): Play
    requires Possible(s, es)
    decreases es
  {
    if es == [] then s else Run(Step(s, es[0]), es[1..])
  }

  function Fresh(start: Option<int>, now: int): Play {
    Play(Clock(start, 0, 0), History(start, [], [], now))
  }

  /** Over every run of overlapping calls: the clock counts the calls that are out, and with
      none out its start has moved by exactly the instants the calls cover. */
  lemma {:induction false} RefundIsUnion(s: Play, es: seq<Event>)
    requires Tracks(s.clock, s.history) && Possible(s, es)
    ensures Tracks(Run(s, es).clock, Run(s, es).history)
    ensures Run(s, es).history.began == s.history.began
    decreases es
  {
    if es != [] {
      match es[0]
      case In(at) => EnterTracks(s.clock, s.history, at); RefundIsUnion(Step(s, es[0]), es[1..]);
      case Out(i, at) => ExitTracks(s.clock, s.history, i, at); RefundIsUnion(Step(s, es[0]), es[1..]);
    }
  }

  lemma RefundOfRun(start: int, now: int, es: seq<Event>)
    requires Possible(Fresh(Some(start), now), es)
    ensures var r := Run(Fresh(Some(start), now), es);
      r.history.open == [] ==> r.clock.start == Some(start + |Union(r.history.calls)|)
  {
    var s := Fresh(Some(start), now);
    assert Tracks(s.clock, s.history);
    RefundIsUnion(s, es);
  }

  // ----- the object -----

  class HostClockObject {
    var clock: Clock
    ghost var history: History

    ghost predicate Valid()
      reads this
    {
      Tracks(clock, history)
    }

    constructor (start: Option<int>, now: int)
      ensures Valid() && history == History(start, [], [], now) && clock == Clock(start, 0, 0)
    {
      clock := Clock(start, 0, 0);
      history := History(start, [], [], now);
    }

    method EnterCall(now: int)
      requires Valid() && history.last <= now
      modifies this
      ensures Valid() && history == Entering(old(history), now)
    {
      EnterTracks(clock, history, now);
      var entered := if clock.depth == 0 then now else clock.entered;
      clock := Clock(clock.start, clock.depth + 1, entered);
      history := Entering(history, now);
    }

    method ExitCall(now: int, ghost which: nat)
      requires Valid() && history.last <= now && which < |history.open|
      modifies this
      ensures Valid() && history == Exiting(old(history), which, now)
    {
      ExitTracks(clock, history, which, now);
      if clock.depth == 1 && clock.start.Some? {
        clock := Clock(Some(clock.start.value + (now - clock.entered)), 0, clock.entered);
      } else {
        clock := clock.(depth := clock.depth - 1);
      }
      history := Exiting(history, which, now);
    }

    /** The time left: the timeout, less the instants since the start no call covers. */
    method Remaining(timeout: int, now: int) returns (left: Option<int>)
      requires Valid() && history.last <= now
      ensures left.None? <==> history.open != [] || history.began.None?
      ensures left.Some? ==>
        left.value == timeout - (now - history.began.value - |Union(history.calls)|)
    {
      left := if clock.depth > 0 || clock.start.None? then None
              else Some(clock.start.value + timeout - now);
    }
  }
}
