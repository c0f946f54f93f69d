/** One print, rendered within a budget of characters, and the renderings of an execution.

    The renderer is arbitrary: a function of the value's place and of the budget it is given. */
module Prints {
  import opened Text

  datatype Args = Args(count: nat, render: (nat, nat) -> string)

  const MIN_ROOM: nat := 8

  function Marker(left: nat): string { "..." + Decimal(left) + " more" }

  /** What a marker for the values still to come would take, with its separator. */
  function Reserve(left: nat): nat { if left > 0 then 1 + |Marker(left)| else 0 }

  function Share(a: Args, perPrint: nat): nat {
    var even := perPrint / (if a.count > 1 then a.count else 1);
    if even > 40 then even else 40
  }

  function Min(x: nat, y: nat): nat { if x < y then x else y }

  /** The characters left for the `i`-th value. */
  function Room(a: Args, perPrint: nat, i: nat, used: int): int
    requires i < a.count
  {
    perPrint - used - 1 - Reserve(a.count - i - 1)
  }

  function Budget(a: Args, perPrint: nat, room: nat): (b: nat)
    ensures b <= room && b >= Min(40, room)
  {
    Min(Share(a, perPrint), room)
  }

  predicate Full(i: nat, room: int) { room < 1 || (i > 0 && room < MIN_ROOM) }

  /** The values shown from the `i`-th on, `used` characters being taken. */
  function Parts(a: Args, perPrint: nat, i: nat, used: int): (ps: seq<string>)
    ensures i <= a.count ==> i + |ps| <= a.count
    decreases a.count - i
  {
    if i >= a.count then []
    else
      var room := Room(a, perPrint, i, used);
      if Full(i, room) then []
      else
        var text := a.render(i, Budget(a, perPrint, room));
        [text] + Parts(a, perPrint, i + 1, used + 1 + |text|)
  }

  function Shown(a: Args, perPrint: nat): seq<string> { Parts(a, perPrint, 0, -1) }

  function Join(parts: seq<string>): string {
    if parts == [] then ""
    else if |parts| == 1 then parts[0]
    else parts[0] + " " + Join(parts[1..])
  }

  /** The values shown and the marker that counts the others. */
  function Pieces(a: Args, perPrint: nat): seq<string> {
    var ps := Shown(a, perPrint);
    if |ps| < a.count then ps + [Marker(a.count - |ps|)] else ps
  }

  function Cut(s: string, n: nat): string { if |s| <= n then s else s[..n] }

  /** The loop is under way: `parts` are the first of those to be shown. */
  ghost predicate UnderWay(a: Args, perPrint: nat, parts: seq<string>, used: int) {
    |parts| <= a.count && parts + Parts(a, perPrint, |parts|, used) == Shown(a, perPrint)
  }

  lemma OnePart(a: Args, perPrint: nat, used: int, parts: seq<string>, text: string)
    requires UnderWay(a, perPrint, parts, used) && |parts| < a.count
    requires !Full(|parts|, Room(a, perPrint, |parts|, used))
    requires text == a.render(|parts|, Budget(a, perPrint, Room(a, perPrint, |parts|, used)))
    ensures UnderWay(a, perPrint, parts + [text], used + 1 + |text|)
  {
    hide Room, Budget, Full;
  }

  lemma NoPart(a: Args, perPrint: nat, used: int, parts: seq<string>)
    requires UnderWay(a, perPrint, parts, used)
    requires |parts| < a.count ==> Full(|parts|, Room(a, perPrint, |parts|, used))
    ensures parts == Shown(a, perPrint)
  {
    hide Room, Full;
  }

  /** The whole loop: a print makes one call of the renderer for each value shown. */
  method RenderPrint(a: Args, perPrint: nat) returns (text: string, calls: nat)
    requires perPrint >= 1
    ensures text == Cut(Join(Pieces(a, perPrint)), perPrint) && |text| <= perPrint
    ensures text <= Join(Pieces(a, perPrint)) && (|text| < perPrint ==> text == Join(Pieces(a, perPrint)))
    ensures calls == |Shown(a, perPrint)| <= perPrint
  {
    var parts: seq<string> := [];
    var used, i := -1, 0;
    assert UnderWay(a, perPrint, [], -1);
    CallsBounded(a, perPrint, 0, -1);
    assert |Shown(a, perPrint)| <= perPrint;
    hide UnderWay, Room, Budget, Join, Pieces, Cut, Parts, Shown, Reserve, Full;
    while i < a.count
      invariant 0 <= i <= a.count && |parts| == i
      invariant UnderWay(a, perPrint, parts, used)
    {
      var room := Room(a, perPrint, i, used);
      if Full(|parts|, room) { break; }
      var piece := a.render(i, Budget(a, perPrint, room));
      OnePart(a, perPrint, used, parts, piece);
      parts := parts + [piece];
      used := used + 1 + |piece|;
      i := i + 1;
    }
    NoPart(a, perPrint, used, parts);
    calls := |parts|;
    text := Assemble(a, perPrint, parts);
  }

  /** The marker is added where it is due, and the whole cut to the budget. */
  method Assemble(a: Args, perPrint: nat, shown: seq<string>) returns (text: string)
    requires shown == Shown(a, perPrint)
    ensures text == Cut(Join(Pieces(a, perPrint)), perPrint) && |text| <= perPrint
    ensures text <= Join(Pieces(a, perPrint)) && (|text| < perPrint ==> text == Join(Pieces(a, perPrint)))
  {
    hide Join, Marker, Shown;
    var parts, left := shown, a.count - |shown|;
    if left > 0 { parts := parts + [Marker(left)]; }
    text := Cut(Join(parts), perPrint);
  }

  /** However many values there are and whatever the renderer answers. */
  lemma {:induction false} CallsBounded(a: Args, perPrint: nat, i: nat, used: int)
    ensures used <= perPrint - 1 ==> |Parts(a, perPrint, i, used)| <= perPrint - 1 - used
    ensures used > perPrint - 1 ==> Parts(a, perPrint, i, used) == []
    decreases a.count - i
  {
    hide Reserve, Budget;
    if i < a.count && !Full(i, Room(a, perPrint, i, used)) {
      var text := a.render(i, Budget(a, perPrint, Room(a, perPrint, i, used)));
      CallsBounded(a, perPrint, i + 1, used + 1 + |text|);
    }
  }

  // ----- what fits -----

  ghost predicate Respects(a: Args) { forall i, b :: b >= 1 ==> |a.render(i, b)| <= b }

  /** The characters of the parts, each with a separator before it. */
  function Taken(parts: seq<string>): nat { if parts == [] then 0 else 1 + |parts[0]| + Taken(parts[1..]) }

  lemma {:induction false} JoinTakes(parts: seq<string>)
    requires parts != []
    ensures |Join(parts)| == Taken(parts) - 1
  {
    if |parts| > 1 { JoinTakes(parts[1..]); }
  }

  lemma {:induction false} TakenAdd(parts: seq<string>, s: string)
    ensures Taken(parts + [s]) == Taken(parts) + 1 + |s|
  {
    if parts == [] {
      assert parts + [s] == [s] && [s][1..] == [];
    } else {
      assert (parts + [s])[1..] == parts[1..] + [s];
      TakenAdd(parts[1..], s);
    }
  }

  /** What stands behind the first part. */
  lemma Behind(first: string, rest: string, k: nat)
    requires k <= |rest|
    ensures (first + " " + rest)[1 + |first| + k..] == rest[k..]
    ensures (first + " " + rest)[|first| + k] == if k == 0 then ' ' else rest[k - 1]
  {
  }

  lemma TakenFirst(parts: seq<string>, i: nat)
    requires 0 < i <= |parts|
    ensures Taken(parts[..i]) == 1 + |parts[0]| + Taken(parts[1..][..i - 1])
    ensures i == 1 ==> Taken(parts[1..][..i - 1]) == 0
    ensures i > 1 ==> Taken(parts[1..][..i - 1]) > 0
  {
    assert parts[..i][1..] == parts[1..][..i - 1];
  }

  /** The joined text holds each part at its place, in order, with one space between two. */
  lemma {:induction false} JoinAt(parts: seq<string>, i: nat)
    requires i < |parts|
    ensures |Join(parts)| == Taken(parts) - 1
    ensures Taken(parts[..i]) + |parts[i]| <= |Join(parts)|
    ensures Join(parts)[Taken(parts[..i])..][..|parts[i]|] == parts[i]
    ensures i > 0 ==> Taken(parts[..i]) > 0 && Join(parts)[Taken(parts[..i]) - 1] == ' '
  {
    JoinTakes(parts);
    if i > 0 {
      JoinAt(parts[1..], i - 1);
      assert Join(parts) == parts[0] + " " + Join(parts[1..]);
      hide Join, Taken;
      TakenFirst(parts, i);
      Behind(parts[0], Join(parts[1..]), Taken(parts[1..][..i - 1]));
    }
  }

  /** What is left for the value at `i` besides those before it, a separator and a marker for all
      the later ones. */
  ghost function Left(a: Args, perPrint: nat, used: int, before: seq<string>, i: nat): int
    requires i < a.count
  {
    perPrint - used - Taken(before) - 1 - (if i + 1 == a.count then 0 else 1 + |Marker(a.count - i - 1)|)
  }

  lemma {:induction false} PartsAt(a: Args, perPrint: nat, i: nat, used: int, j: nat)
    requires i <= a.count && j <= |Parts(a, perPrint, i, used)|
    ensures var ps := Parts(a, perPrint, i, used);
      && i + |ps| <= a.count
      && (i + j < a.count ==>
            var left := Left(a, perPrint, used, ps[..j], i + j);
            if j == |ps| then Full(i + j, left)
            else !Full(i + j, left) && ps[j] == a.render(i + j, Budget(a, perPrint, left)))
    decreases j
  {
    hide Budget, Full, Marker;
    var ps := Parts(a, perPrint, i, used);
    if j > 0 {
      var next := used + 1 + |ps[0]|;
      PartsAt(a, perPrint, i + 1, next, j - 1);
      var rest := Parts(a, perPrint, i + 1, next);
      assert ps == [ps[0]] + rest;
      assert ps[..j] == [ps[0]] + rest[..j - 1];
      assert ps[..j][1..] == rest[..j - 1];
    }
  }

  /** Each value shown is its own rendering in what is left for it, which is never none and never
      under eight characters after the first; and the first one not shown had less than that. */
  lemma ShownExactly(a: Args, perPrint: nat, i: nat)
    requires i < a.count && i <= |Shown(a, perPrint)|
    ensures var ps := Shown(a, perPrint);
      var left := Left(a, perPrint, -1, ps[..i], i);
      var even := if a.count <= 1 then perPrint else perPrint / a.count;
      if i < |ps| then
        && left >= 1 && (i >= 1 ==> left >= 8)
        && ps[i] == a.render(i, if left <= 40 || left <= even then left else if even <= 40 then 40 else even)
      else left < 1 || (i >= 1 && left < 8)
  {
    hide Left, Parts, Taken;
    PartsAt(a, perPrint, 0, -1, i);
  }

  /** What is shown leaves room for the marker of the rest. */
  lemma {:induction false} PartsFit(a: Args, perPrint: nat, i: nat, used: int)
    requires Respects(a) && i <= a.count
    ensures var ps := Parts(a, perPrint, i, used);
      ps != [] ==> used + Taken(ps) + Reserve(a.count - i - |ps|) <= perPrint
    decreases a.count - i
  {
    hide Reserve, Budget;
    if i < a.count && !Full(i, Room(a, perPrint, i, used)) {
      var text := a.render(i, Budget(a, perPrint, Room(a, perPrint, i, used)));
      assert |text| <= Room(a, perPrint, i, used);
      hide Respects;
      PartsFit(a, perPrint, i + 1, used + 1 + |text|);
      var rest := Parts(a, perPrint, i + 1, used + 1 + |text|);
      assert ([text] + rest)[1..] == rest;
    }
  }

  /** With a renderer that keeps to its budget, the text is the shown values and the exact
      count of the others, uncut, just when a value is shown or the bare marker fits. */
  lemma UncutExactly(a: Args, perPrint: nat)
    requires Respects(a)
    ensures |Join(Pieces(a, perPrint))| <= perPrint <==>
      Shown(a, perPrint) != [] || a.count == 0 || |Marker(a.count)| <= perPrint
  {
    var ps := Shown(a, perPrint);
    if ps != [] {
      PartsFit(a, perPrint, 0, -1);
      TakenAdd(ps, Marker(a.count - |ps|));
      JoinTakes(Pieces(a, perPrint));
    } else if a.count > 0 {
      assert Pieces(a, perPrint) == [Marker(a.count)];
    }
  }

  /** The values shown come first, and where some are left out the text ends by counting them. */
  lemma RestCounted(a: Args, perPrint: nat, i: nat)
    requires i < |Shown(a, perPrint)|
    ensures var ps, text := Shown(a, perPrint), Join(Pieces(a, perPrint));
      && Taken(ps[..i]) + |ps[i]| <= |text| && text[Taken(ps[..i])..][..|ps[i]|] == ps[i]
      && (|ps| < a.count ==>
            var last := Marker(a.count - |ps|);
            |last| < |text| && text[|text| - |last|..] == last && text[|text| - |last| - 1] == ' ')
      && (|ps| == a.count ==> |text| == Taken(ps) - 1)
  {
    var ps, all := Shown(a, perPrint), Pieces(a, perPrint);
    hide Shown, Join, Marker;
    JoinAt(all, i);
    assert all[..i] == ps[..i];
    if |ps| < a.count {
      JoinAt(all, |ps|);
      assert all[..|ps|] == ps;
      TakenAdd(ps, all[|ps|]);
    }
  }

  /** The marker is read back as the number of values left out. */
  lemma MarkerInjective(m: nat, n: nat)
    requires Marker(m) == Marker(n)
    ensures m == n
  {
    assert Marker(m)[3..|Marker(m)| - 5] == Decimal(m);
    assert Marker(n)[3..|Marker(n)| - 5] == Decimal(n);
    DecimalInjective(m, n);
  }

  lemma MarkerText()
    ensures Marker(107) == "...107 more"
  {
    assert Decimal(1) == "1" && Decimal(10) == "10" && Decimal(107) == "107";
  }

  // ----- an execution's prints -----

  class PrintRenderer {
    const perPrint: nat
    const limit: nat
    var rendered: seq<string>
    var count: nat
    ghost var prints: seq<Args>

    ghost predicate Valid()
      reads this
    {
      && perPrint >= 1
      && count == |prints| && |rendered| == Min(limit, count)
      && forall i :: 0 <= i < |rendered| ==> rendered[i] == Cut(Join(Pieces(prints[i], perPrint)), perPrint)
    }

    constructor (perPrint: nat, limit: nat)
      requires perPrint >= 1
      ensures Valid() && prints == [] && this.limit == limit && this.perPrint == perPrint
    {
      this.perPrint, this.limit := perPrint, limit;
      rendered, count := [], 0;
      prints := [];
    }

    /** The first `limit` prints are rendered; all are counted. */
    method Append(a: Args)
      requires Valid()
      modifies this
      ensures Valid() && prints == old(prints) + [a] && old(rendered) <= rendered
    {
      count := count + 1;
      prints := prints + [a];
      if |rendered| >= limit { return; }
      var text, _ := RenderPrint(a, perPrint);
      rendered := rendered + [text];
    }
  }
}
