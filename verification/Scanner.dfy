/** A stream of bytes looked through for a name, however it is cut into writes.

    Only a write and the end of what came before it are looked at. Against that stands the
    question asked of the whole stream. */
module Scanner {
  type Byte = b: nat | b < 256

  type Bytes = seq<Byte>

  /** `__sandtrap_`, the start of every sandbox module's name. */
  const PREFIX: Bytes := [95, 95, 115, 97, 110, 100, 116, 114, 97, 112, 95]

  const KEEP: nat := 10

  /** The name is at place `i` of the text. */
  predicate HasAt(h: Bytes, i: nat) { i + |PREFIX| <= |h| && h[i..i + |PREFIX|] == PREFIX }

  predicate Contains(h: Bytes) { exists i: nat :: i <= |h| && HasAt(h, i) }

  /** A text contains the name when it can be cut into what comes before it, it, and what comes after. */
  lemma ContainsExactly(h: Bytes)
    ensures Contains(h) <==> exists a: Bytes, b: Bytes :: h == a + PREFIX + b
  {
    if Contains(h) {
      var i: nat :| i <= |h| && HasAt(h, i);
      assert h == h[..i] + PREFIX + h[i + |PREFIX|..];
    }
    if a: Bytes, b: Bytes :| h == a + PREFIX + b {
      assert HasAt(h, |a|);
    }
  }

  /** The last bytes of a text: `KEEP` of them, or all there are. */
  function End(h: Bytes): Bytes { if |h| <= KEEP then h else h[|h| - KEEP..] }

  function Start(v: Bytes): Bytes { if |v| <= KEEP then v else v[..KEEP] }

  lemma HasWithin(h: Bytes, a: Bytes, m: Bytes, b: Bytes, i: nat)
    requires h == a + m + b
    ensures HasAt(m, i) ==> HasAt(h, |a| + i)
    ensures |a| <= i && i + |PREFIX| <= |a| + |m| && HasAt(h, i) ==> HasAt(m, i - |a|)
  {
    if i + |PREFIX| <= |m| {
      assert h[|a| + i..|a| + i + |PREFIX|] == m[i..i + |PREFIX|];
    }
    if |a| <= i && i + |PREFIX| <= |a| + |m| {
      assert h[i..i + |PREFIX|] == m[i - |a|..i - |a| + |PREFIX|];
    }
  }

  lemma ContainsWithin(a: Bytes, m: Bytes, b: Bytes)
    requires Contains(m)
    ensures Contains(a + m + b)
  {
    var i: nat :| i <= |m| && HasAt(m, i);
    HasWithin(a + m + b, a, m, b, i);
    assert HasAt(a + m + b, |a| + i);
  }

  function Front(h: Bytes): Bytes { if |h| <= KEEP then [] else h[..|h| - KEEP] }

  function Rest(v: Bytes): Bytes { if |v| <= KEEP then [] else v[KEEP..] }

  lemma Seam(h: Bytes, v: Bytes)
    ensures h + v == Front(h) + (End(h) + Start(v)) + Rest(v)
    ensures |Front(h)| + |End(h)| == |h| && |Start(v)| + |Rest(v)| == |v|
    ensures |End(h)| == (if |h| <= KEEP then |h| else KEEP) && |Start(v)| == (if |v| <= KEEP then |v| else KEEP)
  {
    Halves(h, v);
    hide End, Start, Front, Rest;
    Regroup(Front(h), End(h), Start(v), Rest(v));
  }

  lemma Halves(h: Bytes, v: Bytes)
    ensures h == Front(h) + End(h) && v == Start(v) + Rest(v)
    ensures |End(h)| == (if |h| <= KEEP then |h| else KEEP) && |Start(v)| == (if |v| <= KEEP then |v| else KEEP)
  {
  }

  lemma Regroup(a: Bytes, b: Bytes, c: Bytes, d: Bytes)
    ensures (a + b) + (c + d) == a + (b + c) + d
  {
  }

  /** The two places the scanner looks are enough, and are not too much. */
  lemma LooksEnough(h: Bytes, v: Bytes)
    ensures Contains(h + v) <==> Contains(h) || Contains(End(h) + Start(v)) || Contains(v)
  {
    hide Contains, HasAt;
    if Contains(h + v) { OneOfThree(h, v); }
    if Contains(h) { ContainsWithin([], h, v); assert [] + h + v == h + v; }
    if Contains(v) { ContainsWithin(h, v, []); assert h + v + [] == h + v; }
    if Contains(End(h) + Start(v)) {
      Seam(h, v);
      ContainsWithin(Front(h), End(h) + Start(v), Rest(v));
    }
  }

  lemma OneOfThree(h: Bytes, v: Bytes)
    requires Contains(h + v)
    ensures Contains(h) || Contains(End(h) + Start(v)) || Contains(v)
  {
    var i: nat :| i <= |h + v| && HasAt(h + v, i);
    hide HasAt;
    assert i + |PREFIX| <= |h + v| by { HasFits(h + v, i); }
    if i + |PREFIX| <= |h| {
      assert h + v == [] + h + v;
      HasWithin(h + v, [], h, v, i);
    } else if |h| <= i {
      assert h + v == h + v + [];
      HasWithin(h + v, h, v, [], i);
    } else {
      Seam(h, v);
      hide End, Start, Front, Rest;
      HasWithin(h + v, Front(h), End(h) + Start(v), Rest(v), i);
    }
  }

  lemma HasFits(h: Bytes, i: nat)
    requires HasAt(h, i)
    ensures i + |PREFIX| <= |h|
  {
  }

  /** What is kept of the end, after one more write. */
  lemma EndAdd(h: Bytes, v: Bytes)
    ensures End(h + v) == if |v| >= KEEP then v[|v| - KEEP..] else End(End(h) + v)
  {
    if |v| >= KEEP {
      Drop(h, v, |v| - KEEP);
    } else if |h| > KEEP {
      EndOfLong(h, v);
    }
  }

  /** What lies further back than `KEEP` is not seen. */
  lemma EndOfLong(h: Bytes, v: Bytes)
    requires |h| > KEEP
    ensures End(h + v) == End(End(h) + v)
  {
    var f, e := Front(h), End(h);
    Halves(h, v);
    Assoc(f, e, v);
    Drop(f, e + v, |v|);
  }

  lemma Assoc(a: Bytes, b: Bytes, c: Bytes)
    ensures (a + b) + c == a + (b + c)
  {
  }

  lemma Drop(a: Bytes, b: Bytes, k: nat)
    requires k <= |b|
    ensures (a + b)[|a| + k..] == b[k..]
  {
  }
}
