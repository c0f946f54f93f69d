/** Where lost writes go.

    Collectors come and go with executions, in several contexts at once. A report raised out of
    a finalizer reaches the hook in some context; `Losses` is everything the hook ever got, and
    where it went. `Settle` is what an execution then makes of its own. */
module LostWrites {
  import opened Options

  datatype Report = Report(path: string, cause: nat)

  datatype Collector = Collector(open: bool, lost: seq<Report>)

  // ----- routing -----

  datatype Losses = Losses(collectors: seq<Collector>, previous: seq<Report>, all: seq<Report>)

  datatype Event =
    | Begin                                       // an execution opens a collector
    | Unraisable(report: Report, context: Option<nat>)   // a finalizer failed, in the context of a collector or of none
    | End(which: nat)

  predicate Can(s: Losses, e: Event) {
    match e
    case Begin => true
    case Unraisable(_, context) => context.Some? ==> context.value < |s.collectors|
    case End(which) => which < |s.collectors|
  }

  /** `offer`: an open collector takes it. */
  function Offer(c: Collector, r: Report): Collector { if c.open then c.(lost := c.lost + [r]) else c }

  function Next(s: Losses, e: Event): Losses
    requires Can(s, e)
  {
    match e
    case Begin => s.(collectors := s.collectors + [Collector(true, [])])
    case End(k) => s.(collectors := s.collectors[k := s.collectors[k].(open := false)])
    case Unraisable(r, context) =>
      var t := s.(all := s.all + [r]);
      if context.Some? && s.collectors[context.value].open
      then t.(collectors := s.collectors[context.value := Offer(s.collectors[context.value], r)])
      else t.(previous := s.previous + [r])
  }

  predicate Possible(s: Losses, es: seq<Event>)
    decreases es
  {
    es == [] || (Can(s, es[0]) && Possible(Next(s, es[0]), es[1..]))
  }

  function Play(s: Losses, es: seq<Event>): Losses
    requires Possible(s, es)
    decreases es
  {
    if es == [] then s else Play(Next(s, es[0]), es[1..])
  }

  const NONE := Losses([], [], [])

  /** How often a report is among some, and among those the collectors took. */
  function Times(rs: seq<Report>, r: Report): nat {
    if rs == [] then 0 else Times(rs[..|rs| - 1], r) + (if rs[|rs| - 1] == r then 1 else 0)
  }

  function Held(cs: seq<Collector>, r: Report): nat {
    if cs == [] then 0 else Held(cs[..|cs| - 1], r) + Times(cs[|cs| - 1].lost, r)
  }

  lemma TimesAdd(rs: seq<Report>, x: Report, r: Report)
    ensures Times(rs + [x], r) == Times(rs, r) + (if x == r then 1 else 0)
  {
    assert (rs + [x])[..|rs + [x]| - 1] == rs;
  }

  lemma {:induction false} HeldSet(cs: seq<Collector>, k: nat, c: Collector, r: Report)
    requires k < |cs|
    ensures Held(cs[k := c], r) + Times(cs[k].lost, r) == Held(cs, r) + Times(c.lost, r)
  {
    hide Times;
    var n := |cs| - 1;
    if k == n {
      assert cs[k := c][..n] == cs[..n];
    } else {
      assert cs[k := c][..n] == cs[..n][k := c];
      HeldSet(cs[..n], k, c, r);
    }
  }

  lemma HeldAdd(cs: seq<Collector>, r: Report)
    ensures Held(cs + [Collector(true, [])], r) == Held(cs, r)
  {
    var more := cs + [Collector(true, [])];
    assert more[..|more| - 1] == cs;
  }

  ghost predicate Conserved(s: Losses) {
    forall r :: Times(s.all, r) == Held(s.collectors, r) + Times(s.previous, r)
  }

  lemma ConservedStep(s: Losses, e: Event)
    requires Conserved(s) && Can(s, e)
    ensures Conserved(Next(s, e))
  {
    var t := Next(s, e);
    forall r ensures Times(t.all, r) == Held(t.collectors, r) + Times(t.previous, r) {
      assert Times(s.all, r) == Held(s.collectors, r) + Times(s.previous, r);
      hide Conserved, Times, Held;
      match e
      case Begin => HeldAdd(s.collectors, r);
      case End(k) => HeldSet(s.collectors, k, s.collectors[k].(open := false), r);
      case Unraisable(x, context) =>
        TimesAdd(s.all, x, r);
        TimesAdd(s.previous, x, r);
        if context.Some? {
          var c := s.collectors[context.value];
          TimesAdd(c.lost, x, r);
          HeldSet(s.collectors, context.value, Offer(c, x), r);
        }
    }
  }

  /** Every report goes to exactly one place: one collector, once, or the hook before. */
  lemma {:induction false} EveryReportOnce(s: Losses, es: seq<Event>)
    requires Conserved(s) && Possible(s, es)
    ensures Conserved(Play(s, es))
    decreases es
  {
    hide Conserved, Next, Can;
    if es != [] {
      ConservedStep(s, es[0]);
      EveryReportOnce(Next(s, es[0]), es[1..]);
    }
  }

  /** From the start, where nothing has been lost: each report is in one place as often as it
      was made. */
  lemma EveryReportFromStart(es: seq<Event>, r: Report)
    requires Possible(NONE, es)
    ensures var s := Play(NONE, es);
      Times(s.all, r) == Held(s.collectors, r) + Times(s.previous, r) && Times(s.all, r) == Made(es, r)
  {
    assert Conserved(NONE);
    EveryReportOnce(NONE, es);
    AllMade(NONE, es, r);
  }

  /** How often the events make a report. */
  function Made(es: seq<Event>, r: Report): nat {
    if es == [] then 0 else (if es[0].Unraisable? && es[0].report == r then 1 else 0) + Made(es[1..], r)
  }

  lemma {:induction false} AllMade(s: Losses, es: seq<Event>, r: Report)
    requires Possible(s, es)
    ensures Times(Play(s, es).all, r) == Times(s.all, r) + Made(es, r)
    decreases es
  {
    if es != [] {
      if es[0].Unraisable? { TimesAdd(s.all, es[0].report, r); }
      hide Times;
      AllMade(Next(s, es[0]), es[1..], r);
    }
  }

  /** Once an execution has ended, its losses stay as they are, whatever follows. */
  lemma {:induction false} EndedStays(s: Losses, es: seq<Event>, k: nat)
    requires k < |s.collectors| && !s.collectors[k].open && Possible(s, es)
    ensures k < |Play(s, es).collectors| && Play(s, es).collectors[k] == s.collectors[k]
    decreases es
  {
    if es != [] { EndedStays(Next(s, es[0]), es[1..], k); }
  }

  /** The reports of a collector's own context. */
  function Own(es: seq<Event>, k: nat): seq<Report> {
    if es == [] then [] else Mine(es[0], k) + Own(es[1..], k)
  }

  function Mine(e: Event, k: nat): seq<Report> { if e.Unraisable? && e.context == Some(k) then [e.report] else [] }

  lemma OwnStep(s: Losses, e: Event, k: nat)
    requires Can(s, e) && k < |s.collectors| && s.collectors[k].open && e != End(k)
    ensures var t := Next(s, e);
      k < |t.collectors| && t.collectors[k] == Collector(true, s.collectors[k].lost + Mine(e, k))
  {
  }

  /** An open collector has the reports of its own context, in order, and no others. */
  lemma {:induction false} OwnInOrder(s: Losses, es: seq<Event>, k: nat)
    requires k < |s.collectors| && s.collectors[k].open && Possible(s, es)
    requires forall i :: 0 <= i < |es| ==> es[i] != End(k)
    ensures k < |Play(s, es).collectors|
    ensures Play(s, es).collectors[k] == Collector(true, s.collectors[k].lost + Own(es, k))
    decreases es
  {
    if es != [] {
      hide Next, Can;
      assert es[0] != End(k);
      OwnStep(s, es[0], k);
      OwnInOrder(Next(s, es[0]), es[1..], k);
      var lost := s.collectors[k].lost;
      assert (lost + Mine(es[0], k)) + Own(es[1..], k) == lost + (Mine(es[0], k) + Own(es[1..], k));
    }
  }

  /** The reports of a context up to the end of its execution. */
  function OwnWhile(es: seq<Event>, k: nat): seq<Report> {
    if es == [] || es[0] == End(k) then [] else Mine(es[0], k) + OwnWhile(es[1..], k)
  }

  /** A collector as it is when the events begin, or when it is opened among them. */
  function Opening(s: Losses, k: nat): Collector {
    if k < |s.collectors| then s.collectors[k] else Collector(true, [])
  }

  lemma RoutedStep(s: Losses, e: Event, k: nat)
    requires Can(s, e)
    ensures var c, d := Opening(s, k), Opening(Next(s, e), k);
      && d.open == (c.open && e != End(k))
      && d.lost == c.lost + (if c.open then Mine(e, k) else [])
  {
  }

  /** Every execution's collector is open from its beginning to its end, and holds exactly the
      reports made in its context in between, in order. */
  lemma {:induction false} RoutedExactly(s: Losses, es: seq<Event>, k: nat)
    requires Possible(s, es)
    ensures var c, d := Opening(s, k), Opening(Play(s, es), k);
      && d.open == (c.open && End(k) !in es)
      && d.lost == c.lost + (if c.open then OwnWhile(es, k) else [])
    decreases es
  {
    hide Next, Can, Opening;
    if es != [] {
      RoutedStep(s, es[0], k);
      RoutedExactly(Next(s, es[0]), es[1..], k);
      assert es == [es[0]] + es[1..];
      var lost := Opening(s, k).lost;
      assert (lost + Mine(es[0], k)) + OwnWhile(es[1..], k) == lost + (Mine(es[0], k) + OwnWhile(es[1..], k));
    }
  }

  // ----- settling -----

  /** How an error takes a note: shown in its traceback, kept only, or not at all. */
  datatype Taking = Shows | Keeps | Refuses

  datatype Error =
    | Raised(id: nat, taking: Taking, notes: seq<Report>)
    | LostWrite(report: Report, taking: Taking, notes: seq<Report>)

  /** A note for every loss, in order; those that will not be seen go to stderr. */
  method AddNotes(error: Error, lost: seq<Report>) returns (r: Error, stderr: seq<Report>)
    ensures r == error.(notes := error.notes + (if error.taking.Refuses? then [] else lost))
    ensures stderr == if error.taking.Shows? then [] else lost
  {
    r, stderr := error, [];
    var i := 0;
    while i < |lost|
      invariant 0 <= i <= |lost|
      invariant r == error.(notes := error.notes + (if error.taking.Refuses? then [] else lost[..i]))
      invariant stderr == if error.taking.Shows? then [] else lost[..i]
    {
      var shown := false;
      assert lost[..i + 1] == lost[..i] + [lost[i]];
      match r.taking {
        case Shows =>
          r := r.(notes := r.notes + [lost[i]]);
          shown := true;
        case Keeps => r := r.(notes := r.notes + [lost[i]]);
        case Refuses =>
      }
      if !shown { stderr := stderr + [lost[i]]; }
      i := i + 1;
    }
    assert lost[..i] == lost;
  }

  /** The error an execution ends with, and the lines added to its stderr. `plain` is how the
      interpreter's own new errors take notes. */
  method Settle(error: Option<Error>, lost: seq<Report>, plain: Taking) returns (r: Option<Error>, stderr: seq<Report>)
    ensures lost == [] ==> r == error && stderr == []
    ensures lost != [] ==> r.Some?
    ensures lost != [] && error.Some? ==>
      r == Some(error.value.(notes := error.value.notes + (if error.value.taking.Refuses? then [] else lost)))
    ensures lost != [] && error.None? ==>
      r.value.LostWrite? && r.value.report == lost[0] && r.value.notes == if plain.Refuses? then [] else lost[1..]
    ensures lost != [] ==> Accounted(error, r.value, stderr) == lost
    ensures error.Some? ==> stderr == if error.value.taking.Shows? then [] else lost
    ensures error.None? && lost != [] ==> stderr == if plain.Shows? then [] else lost[1..]
  {
    stderr := [];
    if lost == [] { return error, stderr; }
    var rest, e := lost, error;
    if error.None? {
      e := Some(LostWrite(lost[0], plain, []));
      rest := lost[1..];
    }
    var now;
    now, stderr := AddNotes(e.value, rest);
    r := Some(now);
  }

  /** What the execution's result says was lost, in order: its error, if the loss is the error,
      and then each loss once, as a note or else as a line. */
  function Accounted(before: Option<Error>, r: Error, stderr: seq<Report>): seq<Report> {
    var had := if before.Some? then |before.value.notes| else 0;
    (if before.None? && r.LostWrite? then [r.report] else []) +
    (if r.taking.Refuses? then stderr else if had <= |r.notes| then r.notes[had..] else [])
  }

  // ----- the collector -----

  class LostWritesObject {
    var open: bool
    var lost: seq<Report>

    ghost function Now(): Collector
      reads this
    {
      Collector(open, lost)
    }

    constructor ()
      ensures Now() == Collector(true, [])
    {
      open, lost := true, [];
    }

    method TakeOffer(r: Report) returns (taken: bool)
      modifies this
      ensures Now() == Offer(old(Now()), r) && taken == old(open)
    {
      if open { lost := lost + [r]; }
      return open;
    }

    method CloseAll() returns (all: seq<Report>)
      modifies this
      ensures Now() == old(Now()).(open := false) && all == lost
    {
      open := false;
      return lost;
    }
  }
}
