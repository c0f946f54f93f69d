/** The search behind an import error's suggestion: breadth first, bounded, through directories
    that could be part of a dotted import; and the import it suggests.

    A directory is the sequence of the names on its path. Nothing is asked of the directories:
    a path may lead anywhere, listing one may fail, and there may be no end of them. */
module Search {
  import opened Options

  type Path = seq<string>

  /** `list` is none where listing fails; `isdir` is false where asking fails. */
  datatype Tree = Tree(list: Path -> Option<seq<string>>, isdir: Path -> bool, identifier: string -> bool)

  predicate Dunder(s: string) { |s| >= 2 && s[..2] == "__" && s[|s| - 2..] == "__" }

  predicate Importable(t: Tree, name: string) { t.identifier(name) && !Dunder(name) }

  /** The directories a dotted import could name. */
  predicate Reachable(t: Tree, p: Path) {
    p == [] ||
    var up, leaf := p[..|p| - 1], p[|p| - 1];
    Reachable(t, up) && t.list(up).Some? && leaf in t.list(up).value && Importable(t, leaf) && t.isdir(p)
  }

  /** The directory holds the file, and is not the module root. */
  predicate Match(t: Tree, root: Path, target: string, p: Path) {
    p != root && t.list(p).Some? && target in t.list(p).value
  }

  function Children(t: Tree, d: Path, entries: seq<string>): seq<Path> {
    if entries == [] then []
    else
      var x := entries[|entries| - 1];
      Children(t, d, entries[..|entries| - 1]) + (if Importable(t, x) && t.isdir(d + [x]) then [d + [x]] else [])
  }

  // ----- what the queue stands for -----

  /** `p` waits in the queue, or below something that does. */
  ghost predicate Waits(queue: seq<Path>, p: Path) { exists i :: 0 <= i < |queue| && queue[i] <= p }

  /** Everything reachable has been looked at without a match, or waits. */
  ghost predicate Covered(t: Tree, root: Path, target: string, queue: seq<Path>) {
    forall p :: Reachable(t, p) ==> Waits(queue, p) || !Match(t, root, target, p)
  }

  /** The queue is in order of depth, no two depths apart by more than one. */
  predicate InOrder(queue: seq<Path>) {
    forall i, j :: 0 <= i < j < |queue| ==> |queue[i]| <= |queue[j]| <= |queue[0]| + 1
  }

  /** Nothing that still waits is shallower than the head. */
  ghost predicate Below(t: Tree, root: Path, target: string, depth: nat) {
    forall p :: Reachable(t, p) && |p| < depth ==> !Match(t, root, target, p)
  }

  lemma {:induction false} PrefixReachable(t: Tree, p: Path, k: nat)
    requires Reachable(t, p) && k <= |p|
    ensures Reachable(t, p[..k])
  {
    if k < |p| {
      assert p[..|p| - 1][..k] == p[..k];
      PrefixReachable(t, p[..|p| - 1], k);
    } else {
      assert p[..k] == p;
    }
  }

  /** The `i`-th name of the path is listed, is an identifier, does not both start and end with two
      underscores, and leads to a directory. */
  ghost predicate Link(t: Tree, p: Path, i: nat)
    requires i < |p|
  {
    && t.list(p[..i]).Some? && p[i] in t.list(p[..i]).value
    && t.identifier(p[i]) && t.isdir(p[..i + 1])
    && !("__" <= p[i] && exists front :: p[i] == front + "__")
  }

  /** A directory is reached exactly when every name on the way is of that kind. */
  lemma {:induction false} ReachableExactly(t: Tree, p: Path)
    ensures Reachable(t, p) <==> forall i :: 0 <= i < |p| ==> Link(t, p, i)
  {
    if p != [] {
      var k := |p| - 1;
      ReachableExactly(t, p[..k]);
      EndsSo(p[k]);
      assert p[..k + 1] == p;
      assert Reachable(t, p) <==> Reachable(t, p[..k]) && Link(t, p, k);
      forall i | 0 <= i < k ensures Link(t, p[..k], i) == Link(t, p, i) {
        assert p[..k][..i] == p[..i] && p[..k][..i + 1] == p[..i + 1];
      }
      hide Link, Reachable;
    }
  }

  lemma EndsSo(s: string)
    ensures Dunder(s) <==> "__" <= s && exists front :: s == front + "__"
  {
    if Dunder(s) { assert s == s[..|s| - 2] + "__"; }
    if "__" <= s { assert s[..2] == "__"; }
  }

  lemma {:induction false} ChildrenAre(t: Tree, d: Path, entries: seq<string>, c: Path)
    ensures c in Children(t, d, entries) <==>
      |c| == |d| + 1 && c[..|d|] == d && c[|d|] in entries && Importable(t, c[|d|]) && t.isdir(c)
  {
    if entries != [] {
      var x := entries[|entries| - 1];
      ChildrenAre(t, d, entries[..|entries| - 1], c);
      assert entries == entries[..|entries| - 1] + [x];
      if |c| == |d| + 1 && c[..|d|] == d && c[|d|] == x { assert c == d + [x]; }
    }
  }

  lemma ChildrenReachable(t: Tree, d: Path, c: Path)
    requires Reachable(t, d) && t.list(d).Some? && c in Children(t, d, t.list(d).value)
    ensures Reachable(t, c) && |c| == |d| + 1
  {
    ChildrenAre(t, d, t.list(d).value, c);
    assert c[..|c| - 1] == d;
  }

  /** The head is looked at: it does not match, and its children take its place at the end. */
  lemma CoveredStep(t: Tree, root: Path, target: string, queue: seq<Path>)
    requires queue != [] && Covered(t, root, target, queue) && !Match(t, root, target, queue[0])
    ensures var d := queue[0];
      Covered(t, root, target, queue[1..] + (if t.list(d).Some? then Children(t, d, t.list(d).value) else []))
  {
    var d := queue[0];
    var more := queue[1..] + (if t.list(d).Some? then Children(t, d, t.list(d).value) else []);
    forall p | Reachable(t, p) && Match(t, root, target, p) ensures Waits(more, p) {
      var i :| 0 <= i < |queue| && queue[i] <= p;
      if i > 0 {
        assert more[i - 1] == queue[i];
      } else {
        assert p != d && p[..|d|] == d;
        assert |d| < |p|;
        var c := p[..|d| + 1];
        PrefixReachable(t, p, |d| + 1);
        assert c[..|c| - 1] == d;
        ChildrenAre(t, d, t.list(d).value, c);
        var k :| 0 <= k < |Children(t, d, t.list(d).value)| && Children(t, d, t.list(d).value)[k] == c;
        assert more[|queue| - 1 + k] == c;
      }
    }
  }

  lemma InOrderStep(queue: seq<Path>, more: seq<Path>)
    requires queue != [] && InOrder(queue)
    requires forall i :: 0 <= i < |more| ==> |more[i]| == |queue[0]| + 1
    ensures InOrder(queue[1..] + more)
  {
  }

  /** What waits at or below the head of an ordered queue is no shallower than the head. */
  lemma HeadShallowest(t: Tree, root: Path, target: string, queue: seq<Path>)
    requires queue != [] && InOrder(queue) && Covered(t, root, target, queue)
    ensures Below(t, root, target, |queue[0]|)
  {
    forall p | Reachable(t, p) && |p| < |queue[0]| ensures !Match(t, root, target, p) {
      forall i | 0 <= i < |queue| ensures !(queue[i] <= p) { assert |queue[0]| <= |queue[i]|; }
      assert !Waits(queue, p);
    }
  }

  // ----- the search -----

  /** A found directory is a match, and none that is less deep is one; nothing found with
      directories to spare means there is nothing to find. */
  method FindModuleFile(t: Tree, root: Path, target: string, maxDirs: nat) returns (hit: Option<Path>, visited: nat)
    ensures visited <= maxDirs
    ensures hit.Some? ==>
      Reachable(t, hit.value) && Match(t, root, target, hit.value) && Below(t, root, target, |hit.value|)
    ensures hit.None? && visited < maxDirs ==> forall p :: Reachable(t, p) ==> !Match(t, root, target, p)
  {
    var queue: seq<Path> := [[]];
    visited := 0;
    StartCovered(t, root, target);
    hide Covered, InOrder, Reachable, Below, Waits;
    while queue != [] && visited < maxDirs
      invariant visited <= maxDirs
      invariant forall i :: 0 <= i < |queue| ==> Reachable(t, queue[i])
      invariant InOrder(queue) && Covered(t, root, target, queue)
      decreases maxDirs - visited
    {
      var d := queue[0];
      HeadShallowest(t, root, target, queue);
      var found, more := LookIn(t, root, target, d);
      if found { return Some(d), visited + 1; }
      CoveredStep(t, root, target, queue);
      InOrderStep(queue, more);
      queue := queue[1..] + more;
      visited := visited + 1;
    }
    hit := None;
    if queue == [] { NothingWaits(t, root, target); }
  }

  /** One directory: the file is in it, or these are the directories to look in next. */
  method LookIn(t: Tree, root: Path, target: string, d: Path) returns (found: bool, more: seq<Path>)
    requires Reachable(t, d)
    ensures Match(t, root, target, d) <==> found
    ensures found <==> d != root && t.list(d).Some? && target in t.list(d).value
    ensures !found ==> more == if t.list(d).Some? then Children(t, d, t.list(d).value) else []
    ensures !found ==> forall i :: 0 <= i < |more| ==> Reachable(t, more[i]) && |more[i]| == |d| + 1
  {
    found, more := false, [];
    if t.list(d).None? { return; }
    var entries := t.list(d).value;
    var i := 0;
    assert entries[..0] == [];
    while i < |entries|
      invariant 0 <= i <= |entries|
      invariant forall j :: 0 <= j < i ==> !(entries[j] == target && d != root)
      invariant more == Children(t, d, entries[..i])
    {
      assert entries[..i + 1][..i] == entries[..i];
      if entries[i] == target && d != root { return true, []; }
      if Importable(t, entries[i]) && t.isdir(d + [entries[i]]) { more := more + [d + [entries[i]]]; }
      i := i + 1;
    }
    assert entries[..i] == entries;
    forall k | 0 <= k < |more| ensures Reachable(t, more[k]) && |more[k]| == |d| + 1 {
      ChildrenReachable(t, d, more[k]);
    }
  }

  lemma StartCovered(t: Tree, root: Path, target: string)
    ensures Covered(t, root, target, [[]]) && InOrder([[]]) && Reachable(t, [])
  {
    forall p: Path ensures Waits([[]], p) {
      var queue: seq<Path> := [[]];
      assert queue[0] <= p;
    }
  }

  lemma NothingWaits(t: Tree, root: Path, target: string)
    requires Covered(t, root, target, [])
    ensures forall p :: Reachable(t, p) ==> !Match(t, root, target, p)
  {
    hide Match;
  }

  // ----- the suggested import -----

  /** A path as the code writes it: a slash before every name. */
  function Slashed(p: Path): string { if p == [] then "" else Slashed(p[..|p| - 1]) + "/" + p[|p| - 1] }

  function Replace(s: string, a: char, b: char): (r: string)
    ensures |r| == |s|
    ensures forall i :: 0 <= i < |s| ==> r[i] == if s[i] == a then b else s[i]
  {
    if s == "" then "" else [if s[0] == a then b else s[0]] + Replace(s[1..], a, b)
  }

  /** The file that was found, and the dotted name offered for it: none outside the root. */
  function FileName(d: Path, top: string): string { Slashed(d) + "/" + top + ".py" }

  function Dotted(root: string, file: string): Option<string> {
    if |file| >= |root| + 4 && root + "/" <= file then Some(Replace(file[|root| + 1..|file| - 3], '/', '.')) else None
  }

  /** The resolver's two candidates for a dotted name. */
  function PackageFile(root: string, dotted: string): string { root + "/" + Replace(dotted, '.', '/') + "/__init__.py" }

  function PlainFile(root: string, dotted: string): string { root + "/" + Replace(dotted, '.', '/') + ".py" }

  function ResolvesTo(present: string -> bool, root: string, dotted: string): Option<string> {
    if present(PackageFile(root, dotted)) then Some(PackageFile(root, dotted))
    else if present(PlainFile(root, dotted)) then Some(PlainFile(root, dotted))
    else None
  }

  predicate NameLike(s: string) { s != "" && forall i :: 0 <= i < |s| ==> s[i] != '.' && s[i] != '/' }

  lemma {:induction false} SlashedPlain(p: Path)
    requires forall i :: 0 <= i < |p| ==> NameLike(p[i])
    ensures forall i :: 0 <= i < |Slashed(p)| ==> Slashed(p)[i] != '.'
  {
    if p != [] { SlashedPlain(p[..|p| - 1]); }
  }

  lemma ThereAndBack(s: string)
    requires forall i :: 0 <= i < |s| ==> s[i] != '.'
    ensures Replace(Replace(s, '/', '.'), '.', '/') == s
  {
  }

  /** The name offered for a file under the root leads back to that very file, by way of a
      parent that is not empty; and the resolver takes it there exactly when no package of
      that name stands beside it. */
  lemma SuggestionLeadsBack(t: Tree, present: string -> bool, root: Path, d: Path, top: string)
    requires Reachable(t, d) && (forall n :: t.identifier(n) ==> NameLike(n))
    requires NameLike(top) && Slashed(d) != Slashed(root)
    requires Dotted(Slashed(root), FileName(d, top)).Some? && present(FileName(d, top))
    ensures var dotted := Dotted(Slashed(root), FileName(d, top)).value;
      && PlainFile(Slashed(root), dotted) == FileName(d, top)
      && (exists i :: 0 < i < |dotted| - |top| && dotted[i] == '.')
      && (ResolvesTo(present, Slashed(root), dotted) == Some(FileName(d, top)) <==>
          !present(PackageFile(Slashed(root), dotted)))
  {
    ReachableNames(t, d);
    var r, file := Slashed(root), FileName(d, top);
    var inner := file[|r| + 1..|file| - 3];
    var dotted := Replace(inner, '/', '.');
    NoDots(d, top);
    ThereAndBack(inner);
    Pieces(r, file);
    assert |PackageFile(r, dotted)| == |file| + 9;
    HasParent(r, d, top);
  }

  lemma {:induction false} ReachableNames(t: Tree, p: Path)
    requires Reachable(t, p) && (forall n :: t.identifier(n) ==> NameLike(n))
    ensures forall i :: 0 <= i < |p| ==> NameLike(p[i])
  {
    if p != [] {
      var up := p[..|p| - 1];
      assert Reachable(t, up) && NameLike(p[|p| - 1]);
      ReachableNames(t, up);
      hide NameLike, Reachable;
      forall i | 0 <= i < |p| ensures NameLike(p[i]) {
        if i < |up| { assert p[i] == up[i]; }
      }
    }
  }

  lemma NoDots(d: Path, top: string)
    requires (forall i :: 0 <= i < |d| ==> NameLike(d[i])) && NameLike(top)
    ensures var file := FileName(d, top); forall i :: 0 <= i < |file| - 3 ==> file[i] != '.'
  {
    SlashedPlain(d);
    hide Slashed;
  }

  lemma Pieces(r: string, file: string)
    requires |file| >= |r| + 4 && r + "/" <= file && file[|file| - 3..] == ".py"
    ensures file == r + "/" + file[|r| + 1..|file| - 3] + ".py"
  {
    assert file == file[..|r| + 1] + file[|r| + 1..|file| - 3] + file[|file| - 3..];
  }

  /** A file in another directory than the root has a name with a parent. */
  lemma HasParent(r: string, d: Path, top: string)
    requires (forall i :: 0 <= i < |d| ==> NameLike(d[i])) && NameLike(top)
    requires Slashed(d) != r && Dotted(r, FileName(d, top)).Some?
    ensures var dotted := Dotted(r, FileName(d, top)).value;
      exists i :: 0 < i < |dotted| - |top| && dotted[i] == '.'
  {
    assert d != [] ==> Slashed(d)[|Slashed(d)| - 1] != '/';
    assert d == [] ==> Slashed(d) == "";
    hide Slashed;
    var file, s := FileName(d, top), Slashed(d);
    assert file[|s|] == '/';
    assert file[|r|] == '/';
    assert forall i :: |s| < i < |file| - 3 ==> file[i] != '/';
    assert file[|file| - 3] == '.' && file[|file| - 2] == 'p' && file[|file| - 1] == 'y';
    assert |r| <= |s|;
    assert file[..|r|] == r && file[..|s|] == s;
    assert file[|s| - 1] != '/';
    var inner := file[|r| + 1..|file| - 3];
    assert inner[|s| - |r| - 1] == '/';
  }
}
