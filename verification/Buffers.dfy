/** Captured output, kept within a bound: its end, or both its ends.

    Each buffer is a queue of the chunks written, trimmed from the front. Against it stands
    the whole text that was ever written, and a definition of what reading gives of it. */
module Buffers {
  import opened Options
  import opened Text

  function Concat(chunks: seq<string>): string {
    if chunks == [] then "" else chunks[0] + Concat(chunks[1..])
  }

  lemma {:induction false} ConcatAdd(chunks: seq<string>, s: string)
    ensures Concat(chunks + [s]) == Concat(chunks) + s
  {
    if chunks == [] {
      assert chunks + [s] == [s] && [s][1..] == [];
    } else {
      assert (chunks + [s])[1..] == chunks[1..] + [s];
      ConcatAdd(chunks[1..], s);
    }
  }

  method JoinAll(chunks: seq<string>) returns (s: string)
    ensures s == Concat(chunks)
  {
    s := "";
    var i := 0;
    while i < |chunks|
      invariant 0 <= i <= |chunks|
      invariant s + Concat(chunks[i..]) == Concat(chunks)
    {
      assert chunks[i..][1..] == chunks[i + 1..];
      s := s + chunks[i];
      i := i + 1;
    }
    assert Concat(chunks[i..]) == "";
  }

  predicate NoneEmpty(chunks: seq<string>) { forall i :: 0 <= i < |chunks| ==> chunks[i] != "" }

  const TRUNCATION_MARKER := "... [earlier output truncated]\n"

  /** The last `n` characters. */
  function Last(h: string, n: nat): string
    requires n <= |h|
  {
    h[|h| - n..]
  }

  /** What a tail buffer that keeps `max` characters reads as, all told. */
  function Tail(h: string, max: Option<nat>): string {
    if max.None? || |h| <= max.value then h else TRUNCATION_MARKER + Last(h, max.value)
  }

  function Omitted(n: nat): string { "\n... [" + Decimal(n) + " characters omitted] ...\n" }

  /** What a buffer that keeps both ends reads as. */
  function Ends(h: string, max: Option<nat>): string {
    if max.None? || |h| <= max.value then h
    else h[..max.value / 2] + Omitted(|h| - max.value) + Last(h, max.value - max.value / 2)
  }

  class TailBuffer {
    const max: Option<nat>
    var chunks: seq<string>
    var size: nat
    var dropped: nat
    ghost var history: string
    ghost var writes: nat
    ghost var turns: nat      // of the trimming loop

    ghost predicate Valid()
      reads this
    {
      && NoneEmpty(chunks)
      && size + dropped == |history| && Concat(chunks) == history[dropped..]
      && (max.None? ==> dropped == 0)
      && (max.Some? ==> size <= max.value && (dropped > 0 ==> size == max.value))
      && turns + |chunks| <= 2 * writes
    }

    constructor (max: Option<nat>)
      ensures Valid() && history == "" && this.max == max && writes == 0
    {
      this.max := max;
      chunks, size, dropped := [], 0, 0;
      history, writes, turns := "", 0, 0;
    }

    method Write(text: string)
      requires Valid()
      modifies this
      ensures Valid() && history == old(history) + text
      ensures writes == old(writes) + (if text == "" then 0 else 1) && turns <= 2 * writes
    {
      if text == "" { return; }
      ConcatAdd(chunks, text);
      chunks := chunks + [text];
      size := size + |text|;
      history := history + text;
      writes := writes + 1;
      assert Concat(chunks) == history[dropped..];
      if max.Some? && size > max.value {
        Trim(size - max.value);
      }
    }

    /** Drop `excess` characters from the front. */
    method Trim(excess: nat)
      requires NoneEmpty(chunks) && size + dropped == |history| && Concat(chunks) == history[dropped..]
      requires excess <= size
      modifies this`chunks, this`size, this`dropped, this`turns
      ensures dropped == old(dropped) + excess && size == old(size) - excess
      ensures NoneEmpty(chunks) && Concat(chunks) == history[dropped..]
      ensures turns + |chunks| <= old(turns + |chunks|) + 1
    {
      dropped := dropped + excess;
      size := size - excess;
      var left := excess;
      while left > 0
        invariant dropped == old(dropped) + excess && size == old(size) - excess && dropped + size == |history|
        invariant 0 <= left <= excess && NoneEmpty(chunks)
        invariant Concat(chunks) == history[dropped - left..]
        invariant turns + |chunks| <= old(turns + |chunks|) + (if left == 0 then 1 else 0)
      {
        assert chunks != [];
        var first := chunks[0];
        assert Concat(chunks) == first + Concat(chunks[1..]);
        Skip(first, Concat(chunks[1..]), history[dropped - left..]);
        if |first| <= left {
          chunks := chunks[1..];
          left := left - |first|;
        } else {
          Cut(chunks, left);
          chunks := chunks[0 := first[left..]];
          left := 0;
        }
        turns := turns + 1;
      }
    }

    method GetValue() returns (s: string)
      requires Valid()
      ensures s == Tail(history, max)
    {
      var content := JoinAll(chunks);
      if dropped > 0 { return TRUNCATION_MARKER + content; }
      return content;
    }
  }

  lemma Skip(first: string, rest: string, all: string)
    requires first + rest == all
    ensures rest == all[|first|..]
  {
  }

  lemma Cut(chunks: seq<string>, n: nat)
    requires chunks != [] && n <= |chunks[0]|
    ensures Concat(chunks[0 := chunks[0][n..]]) == Concat(chunks)[n..]
  {
    assert chunks[0 := chunks[0][n..]][1..] == chunks[1..];
  }

  /** A buffer for each end: the first half of the bound for the beginning of the text, and a
      tail buffer with the other half for what comes after. */
  class EndsBuffer {
    const max: Option<nat>
    const tail: TailBuffer
    var head: seq<string>
    var headSize: nat
    ghost var history: string

    ghost predicate Valid()
      reads this, tail
    {
      && tail.Valid()
      && tail.max == (if max.None? then None else Some(max.value - max.value / 2))
      && Concat(head) + tail.history == history && headSize == |Concat(head)|
      && (max.None? ==> head == [])
      && (max.Some? ==> headSize <= max.value / 2 && (headSize < max.value / 2 ==> tail.history == ""))
    }

    constructor (max: Option<nat>)
      ensures Valid() && fresh(tail) && history == "" && this.max == max
    {
      this.max := max;
      this.tail := new TailBuffer(if max.None? then None else Some(max.value - max.value / 2));
      head, headSize := [], 0;
      history := "";
    }

    method Write(text: string)
      requires Valid()
      modifies this, tail
      ensures Valid() && history == old(history) + text
    {
      hide Concat;
      if text == "" { return; }
      var take := "";
      if max.Some? && headSize < max.value / 2 {
        take := Taken(text, max.value / 2 - headSize);
        ConcatAdd(head, take);
        head := head + [take];
        headSize := headSize + |take|;
      }
      var rest := text[|take|..];
      Regroup(old(Concat(head)), take, rest, tail.history, history, text);
      history := history + text;
      if rest != "" { tail.Write(rest); }
    }

    method GetValue() returns (s: string)
      requires Valid()
      ensures s == Ends(history, max)
    {
      var first := JoinAll(head);
      var last := JoinAll(tail.chunks);
      if tail.dropped > 0 { return first + Omitted(tail.dropped) + last; }
      return first + last;
    }
  }

  /** As much of the text as there is room for. */
  function Taken(text: string, room: nat): (take: string)
    ensures |take| <= room && take <= text && (|take| < room ==> take == text)
    ensures take + text[|take|..] == text
  {
    if |text| <= room then text else text[..room]
  }

  lemma Regroup(head: string, take: string, rest: string, tail: string, history: string, text: string)
    requires head + tail == history && take + rest == text && (tail == "" || take == "")
    ensures (head + take) + (tail + rest) == history + text
  {
  }

  // ----- whole runs -----

  /** Any sequence of writes, and then a read. */
  method CaptureTail(max: Option<nat>, texts: seq<string>) returns (s: string)
    ensures s == Tail(Concat(texts), max)
  {
    var b := new TailBuffer(max);
    var i := 0;
    while i < |texts|
      invariant 0 <= i <= |texts|
      invariant b.Valid() && b.max == max && fresh(b) && b.writes <= i && b.turns <= 2 * i
      invariant b.history == Concat(texts[..i])
    {
      ConcatAdd(texts[..i], texts[i]);
      assert texts[..i + 1] == texts[..i] + [texts[i]];
      b.Write(texts[i]);
      i := i + 1;
    }
    assert texts[..i] == texts;
    s := b.GetValue();
  }

  method CaptureEnds(max: Option<nat>, texts: seq<string>) returns (s: string)
    ensures s == Ends(Concat(texts), max)
  {
    var b := new EndsBuffer(max);
    var i := 0;
    while i < |texts|
      invariant 0 <= i <= |texts|
      invariant b.Valid() && b.max == max && fresh(b) && fresh(b.tail)
      invariant b.history == Concat(texts[..i])
    {
      ConcatAdd(texts[..i], texts[i]);
      assert texts[..i + 1] == texts[..i] + [texts[i]];
      b.Write(texts[i]);
      i := i + 1;
    }
    assert texts[..i] == texts;
    s := b.GetValue();
  }

  // ----- what reading gives -----

  /** The marker leads to the number: the text read tells how much was left out. */
  lemma OmittedInjective(m: nat, n: nat)
    requires Omitted(m) == Omitted(n)
    ensures m == n
  {
    var a, b := "\n... [", " characters omitted] ...\n";
    assert Omitted(m)[|a|..|Omitted(m)| - |b|] == Decimal(m);
    assert Omitted(n)[|a|..|Omitted(n)| - |b|] == Decimal(n);
    DecimalInjective(m, n);
  }

  /** Past the bound, what is read and what is left out make up the whole text, and the
      marker counts exactly what is left out. */
  lemma KeptAndOmitted(h: string, max: nat)
    ensures |h| <= max ==> Ends(h, Some(max)) == h && Tail(h, Some(max)) == h
    ensures |h| > max ==>
      var head, left, last := h[..max / 2], h[max / 2..|h| - (max - max / 2)], Last(h, max - max / 2);
      && h == head + left + last && |head| + |last| == max
      && Ends(h, Some(max)) == head + Omitted(|left|) + last
    ensures |h| > max ==>
      exists gone :: gone != "" && h == gone + Last(h, max) && Tail(h, Some(max)) == TRUNCATION_MARKER + Last(h, max)
  {
    if |h| > max {
      assert h == h[..max / 2] + h[max / 2..];
      assert h == h[..|h| - max] + Last(h, max);
    }
  }
}
