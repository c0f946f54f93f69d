/** A file a worker opened in the filesystem of its parent: a buffer that is pushed whole on flush and
    close, and by the finalizer of a file that was never closed.

    Whether the parent takes a push is a parameter of every operation that makes one. Beside
    the object's own fields stand what is true of it: what the parent has, and whether a
    failed save of this very content has been raised to the code. */
module RemoteFile {
  import opened Options

  /** How a push ends; `Interrupted` is an error outside Python's `Exception`. */
  datatype Push = Pushed | Refused | ChannelClosed | Interrupted

  datatype File = File(
    writable: bool,
    buffer: string,
    closed: bool,
    saveRaised: bool,
    saved: Option<string>,     // what the parent has of it
    told: bool,                // a failed save of this content was raised
    stretched: bool,           // and a truncate past its end has come since
    reports: nat,              // lost-write reports
    passed: nat)               // other errors out of the finalizer

  function Opened(writable: bool, initial: string): File {
    File(writable, initial, false, false, None, false, false, 0, 0)
  }

  datatype Op =
    | Write(next: string, n: nat)      // what the buffer holds after `n` characters were written
    | Truncate(size: nat)
    | Flush(push: Push)
    | Close(push: Push)

  predicate Usable(f: File) { f.writable && !f.closed }

  function Save(f: File, p: Push): File {
    if p.Pushed? then f.(saved := Some(f.buffer)) else f.(saveRaised := true, told := true, stretched := false)
  }

  function Do(f: File, op: Op): File {
    if !Usable(f) then (if op.Close? then f.(closed := true) else f)
    else
      match op
      case Write(next, n) => if n == 0 then f else f.(buffer := next, saveRaised := false, told := false)
      case Truncate(size) =>
        if size == |f.buffer| then f
        else if size < |f.buffer| then f.(buffer := f.buffer[..size], saveRaised := false, told := false)
        else f.(saveRaised := false, stretched := true)
      case Flush(p) => Save(f, p)
      case Close(p) => if p.Pushed? then Save(f, p).(closed := true) else Save(f, p)
  }

  function Run(f: File, ops: seq<Op>): File {
    if ops == [] then f else Do(Run(f, ops[..|ops| - 1]), ops[|ops| - 1])
  }

  /** The finalizer; `finalizing` when the interpreter is shutting down. */
  function Finalize(f: File, p: Push, finalizing: bool): File {
    if f.closed then f
    else if !f.writable || f.saveRaised then f.(closed := true)
    else
      match p
      case Pushed => f.(closed := true, saved := Some(f.buffer))
      case Refused => if finalizing then f.(closed := true) else f.(closed := true, reports := f.reports + 1)
      case ChannelClosed => f.(closed := true)
      case Interrupted => f.(closed := true, passed := f.passed + 1)
  }

  /** The worker or its interpreter is going, and nobody would hear of it. */
  predicate ShuttingDown(p: Push, finalizing: bool) { p.ChannelClosed? || (p.Refused? && finalizing) }

  ghost predicate Kept(f: File) {
    && (f.saveRaised <==> f.told && !f.stretched)
    && (f.closed && f.writable ==> f.saved == Some(f.buffer))
    && f.reports == 0 && f.passed == 0
  }

  /** A file as some run of operations left it. */
  function After(writable: bool, initial: string, ops: seq<Op>): File { Run(Opened(writable, initial), ops) }

  lemma {:induction false} KeptRun(writable: bool, initial: string, ops: seq<Op>)
    ensures Kept(After(writable, initial, ops)) && After(writable, initial, ops).writable == writable
  {
    if ops != [] { KeptRun(writable, initial, ops[..|ops| - 1]); }
  }

  // ----- what the history says -----

  /** An explicit save of the file fails here. */
  predicate Fails(f: File, op: Op) { Usable(f) && (op.Flush? || op.Close?) && !op.push.Pushed? }

  /** The content changes here. */
  predicate Changes(f: File, op: Op) {
    Usable(f) && ((op.Write? && op.n > 0) || (op.Truncate? && op.size < |f.buffer|))
  }

  /** The size asked for is past the end: nothing changes. */
  predicate Stretches(f: File, op: Op) { Usable(f) && op.Truncate? && op.size > |f.buffer| }

  /** The last failed save of what the file still holds, if there is one. */
  function LastTold(writable: bool, initial: string, ops: seq<Op>): Option<nat> {
    if ops == [] then None
    else
      var k := |ops| - 1;
      var f := After(writable, initial, ops[..k]);
      if Fails(f, ops[k]) then Some(k)
      else if Changes(f, ops[k]) then None
      else LastTold(writable, initial, ops[..k])
  }

  predicate StretchedSince(writable: bool, initial: string, ops: seq<Op>, k: nat) {
    exists j :: k < j < |ops| && Stretches(After(writable, initial, ops[..j]), ops[j])
  }

  /** What one operation does to what is true of the file. */
  lemma ToldStep(f: File, op: Op)
    ensures Do(f, op).told == (Fails(f, op) || (!Changes(f, op) && f.told))
    ensures Do(f, op).stretched == (!Fails(f, op) && (f.stretched || Stretches(f, op)))
  {
  }

  lemma {:induction false} ToldMeans(writable: bool, initial: string, ops: seq<Op>)
    ensures var f, last := After(writable, initial, ops), LastTold(writable, initial, ops);
      && (f.told <==> last.Some?)
      && (last.Some? ==> last.value < |ops| && (f.stretched <==> StretchedSince(writable, initial, ops, last.value)))
  {
    if ops != [] {
      var k := |ops| - 1;
      var front := ops[..k];
      ToldMeans(writable, initial, front);
      ToldStep(After(writable, initial, front), ops[k]);
      hide Do, Fails, Changes, Stretches, StretchedSince;
      var last := LastTold(writable, initial, ops);
      if last.Some? {
        if last.value < k { SinceStep(writable, initial, ops, last.value); }
        else { NotSince(writable, initial, ops); }
      }
    }
  }

  lemma NotSince(writable: bool, initial: string, ops: seq<Op>)
    requires ops != []
    ensures !StretchedSince(writable, initial, ops, |ops| - 1)
  {
  }

  lemma SinceStep(writable: bool, initial: string, ops: seq<Op>, k: nat)
    requires k + 1 < |ops|
    ensures StretchedSince(writable, initial, ops, k) <==>
      || StretchedSince(writable, initial, ops[..|ops| - 1], k)
      || Stretches(After(writable, initial, ops[..|ops| - 1]), ops[|ops| - 1])
  {
    hide Stretches, After;
    var front := ops[..|ops| - 1];
    assert forall j :: 0 <= j < |front| ==> front[..j] == ops[..j];
    if StretchedSince(writable, initial, front, k) {
      var j :| k < j < |front| && Stretches(After(writable, initial, front[..j]), front[j]);
      assert Stretches(After(writable, initial, ops[..j]), ops[j]);
    }
    if StretchedSince(writable, initial, ops, k) {
      var j :| k < j < |ops| && Stretches(After(writable, initial, ops[..j]), ops[j]);
      if j < |front| { assert Stretches(After(writable, initial, front[..j]), front[j]); }
    }
  }

  /** An explicit save is taken here. */
  predicate Saves(f: File, op: Op) { Usable(f) && (op.Flush? || op.Close?) && op.push.Pushed? }

  /** The last explicit save that was taken. */
  function LastSaved(writable: bool, initial: string, ops: seq<Op>): Option<nat> {
    if ops == [] then None
    else
      var k := |ops| - 1;
      if Saves(After(writable, initial, ops[..k]), ops[k]) then Some(k) else LastSaved(writable, initial, ops[..k])
  }

  /** The last change of the content. */
  function LastChange(writable: bool, initial: string, ops: seq<Op>): Option<nat> {
    if ops == [] then None
    else
      var k := |ops| - 1;
      if Changes(After(writable, initial, ops[..k]), ops[k]) then Some(k) else LastChange(writable, initial, ops[..k])
  }

  /** What one operation does to what the file and the parent hold. */
  lemma HoldsStep(f: File, op: Op)
    ensures Do(f, op).saved == if Saves(f, op) then Some(f.buffer) else f.saved
    ensures !Changes(f, op) ==> Do(f, op).buffer == f.buffer
    ensures Changes(f, op) ==> Do(f, op).buffer == if op.Write? then op.next else f.buffer[..op.size]
    ensures Do(f, op).closed <==> f.closed || (op.Close? && (f.writable ==> op.push.Pushed?))
  {
  }

  /** The parent has what the file held at the last save it took. */
  lemma {:induction false} SavedMeans(writable: bool, initial: string, ops: seq<Op>)
    ensures var f, last := After(writable, initial, ops), LastSaved(writable, initial, ops);
      && (last.None? ==> f.saved.None?)
      && (last.Some? ==>
            && last.value < |ops|
            && f.saved == Some(After(writable, initial, ops[..last.value]).buffer))
  {
    hide Do, Saves;
    if ops != [] {
      var k := |ops| - 1;
      SavedMeans(writable, initial, ops[..k]);
      HoldsStep(After(writable, initial, ops[..k]), ops[k]);
      assert forall j: nat :: j < k ==> ops[..k][..j] == ops[..j];
    }
  }

  /** The file holds what its last change left. */
  lemma {:induction false} ContentMeans(writable: bool, initial: string, ops: seq<Op>)
    ensures var f, last := After(writable, initial, ops), LastChange(writable, initial, ops);
      && (last.None? ==> f.buffer == initial)
      && (last.Some? ==>
            && last.value < |ops|
            && var op, was := ops[last.value], After(writable, initial, ops[..last.value]).buffer;
               if op.Write? then f.buffer == op.next
               else op.Truncate? && op.size < |was| && f.buffer == was[..op.size])
  {
    hide Do;
    if ops != [] {
      var k := |ops| - 1;
      ContentMeans(writable, initial, ops[..k]);
      HoldsStep(After(writable, initial, ops[..k]), ops[k]);
      assert forall j: nat :: j < k ==> ops[..k][..j] == ops[..j];
    }
  }

  /** It is closed once a close has gone through, or any close of a read-only file. */
  lemma {:induction false} ClosedMeans(writable: bool, initial: string, ops: seq<Op>)
    ensures After(writable, initial, ops).closed <==>
      exists j :: 0 <= j < |ops| && ops[j].Close? && (writable ==> ops[j].push.Pushed?)
  {
    hide Do;
    if ops != [] {
      var k := |ops| - 1;
      ClosedMeans(writable, initial, ops[..k]);
      KeptRun(writable, initial, ops[..k]);
      HoldsStep(After(writable, initial, ops[..k]), ops[k]);
    }
  }

  /** The finalizer pushes what an open file holds, unless a failed save of it was raised and no
      truncate past the end has come since; nothing else changes what the parent has. An error
      that is no `Exception` comes out of it exactly when that push raises one. */
  lemma FinalizerExactly(initial: string, ops: seq<Op>, p: Push, finalizing: bool)
    ensures var f, last := After(true, initial, ops), LastTold(true, initial, ops);
      var g := Finalize(f, p, finalizing);
      var pushes := !f.closed && (last.None? || StretchedSince(true, initial, ops, last.value));
      && g.saved == (if pushes && p.Pushed? then Some(f.buffer) else f.saved)
      && (g.passed > 0 <==> pushes && p.Interrupted?)
  {
    KeptRun(true, initial, ops);
    ToldMeans(true, initial, ops);
  }

  // ----- what becomes of a file's content -----

  /** However the file was used and whatever the parent refused: the content it is dropped with
      was pushed, or the failure to save it was raised, or it is reported, once; unless the
      worker is shutting down, or an error that is no `Exception` passes through. */
  lemma DroppedContent(initial: string, ops: seq<Op>, p: Push, finalizing: bool)
    ensures var f := After(true, initial, ops);
      var g := Finalize(f, p, finalizing);
      && g.closed && g.buffer == f.buffer && g.reports <= 1
      && (|| g.saved == Some(f.buffer)
          || LastTold(true, initial, ops).Some?
          || g.reports == 1
          || ShuttingDown(p, finalizing)
          || (p.Interrupted? && g.passed == 1))
  {
    KeptRun(true, initial, ops);
    ToldMeans(true, initial, ops);
  }

  /** A report is made exactly when the file was left open, the last push fails, and what it
      holds has not been raised, or has been and a truncate past the end came after. */
  lemma ReportedExactly(initial: string, ops: seq<Op>, p: Push, finalizing: bool)
    ensures var f := After(true, initial, ops);
      var last := LastTold(true, initial, ops);
      Finalize(f, p, finalizing).reports == 1 <==>
      && !f.closed && p.Refused? && !finalizing
      && (last.None? || StretchedSince(true, initial, ops, last.value))
  {
    KeptRun(true, initial, ops);
    ToldMeans(true, initial, ops);
  }

  /** The case: a flush raises, nothing is written after it, and the drop reports it again. */
  lemma ReportedTwice()
    ensures var ops := [Flush(Refused), Truncate(5)];
      && LastTold(true, "abc", ops) == Some(0)
      && Finalize(After(true, "abc", ops), Refused, false).reports == 1
  {
    var ops := [Flush(Refused), Truncate(5)];
    assert ops[..1] == [Flush(Refused)] && ops[..1][..0] == [];
    assert Run(Opened(true, "abc"), []) == Opened(true, "abc");
    assert Run(Opened(true, "abc"), ops[..1]) == Save(Opened(true, "abc"), Refused);
    assert LastTold(true, "abc", ops[..1]) == Some(0);
  }

  /** A file that is not writable is never pushed and never reported. */
  lemma ReadOnlyQuiet(initial: string, ops: seq<Op>, p: Push, finalizing: bool)
    ensures var g := Finalize(After(false, initial, ops), p, finalizing);
      g.saved.None? && g.reports == 0 && g.passed == 0 && g.buffer == initial
  {
    ReadOnlyRun(initial, ops);
  }

  lemma {:induction false} ReadOnlyRun(initial: string, ops: seq<Op>)
    ensures var f := After(false, initial, ops);
      !f.writable && f.saved.None? && f.reports == 0 && f.passed == 0 && f.buffer == initial
  {
    if ops != [] { ReadOnlyRun(initial, ops[..|ops| - 1]); }
  }

  // ----- the object -----

  /** Whether a call raised. */
  datatype Result = Returned | Raised

  class PushOnClose {
    const writable: bool
    var buffer: string
    var closed: bool
    var saveRaised: bool
    ghost var file: File

    ghost predicate Shows(f: File)
      reads this
    {
      writable == f.writable && buffer == f.buffer && closed == f.closed && saveRaised == f.saveRaised
    }

    constructor (writable: bool, initial: string)
      ensures Shows(Opened(writable, initial)) && file == Opened(writable, initial)
    {
      this.writable := writable;
      buffer, closed, saveRaised := initial, false, false;
      file := Opened(writable, initial);
    }

    method WriteText(next: string, n: nat) returns (r: Result)
      requires Shows(file)
      modifies this
      ensures file == Do(old(file), Write(next, n)) && Shows(file)
      ensures r.Raised? <==> !Usable(old(file))
    {
      if !writable || closed { return Raised; }
      file := Do(file, Write(next, n));
      if n > 0 {
        buffer := next;
        saveRaised := false;
      }
      return Returned;
    }

    method TruncateTo(size: nat) returns (r: Result)
      requires Shows(file)
      modifies this
      ensures file == Do(old(file), Truncate(size)) && Shows(file)
      ensures r.Raised? <==> !Usable(old(file))
    {
      if !writable || closed { return Raised; }
      file := Do(file, Truncate(size));
      var before := |buffer|;
      if size < before { buffer := buffer[..size]; }
      if size != before { saveRaised := false; }
      return Returned;
    }

    /** The push itself is the parent's to take. */
    method SaveNow(p: Push) returns (r: Result)
      requires Shows(file) && Usable(file)
      modifies this
      ensures file == Save(old(file), p) && Shows(file)
      ensures r.Raised? <==> !p.Pushed?
    {
      file := Save(file, p);
      if p.Pushed? { return Returned; }
      saveRaised := true;
      return Raised;
    }

    method FlushNow(p: Push) returns (r: Result)
      requires Shows(file)
      modifies this
      ensures file == Do(old(file), Flush(p)) && Shows(file)
      ensures Usable(old(file)) ==> (r.Raised? <==> !p.Pushed?)
    {
      if writable && !closed { r := SaveNow(p); } else { r := Returned; }
    }

    method CloseNow(p: Push) returns (r: Result)
      requires Shows(file)
      modifies this
      ensures file == Do(old(file), Close(p)) && Shows(file)
      ensures r.Raised? <==> Fails(old(file), Close(p))
    {
      r := Returned;
      if !closed && writable {
        r := SaveNow(p);
        if r.Raised? { return; }
      }
      closed := true;
      file := file.(closed := true);
    }

    /** `__del__`: whether a lost write goes to the hook. */
    method Del(p: Push, finalizing: bool) returns (reported: bool)
      requires Shows(file)
      modifies this
      ensures file == Finalize(old(file), p, finalizing) && Shows(file)
      ensures file.reports == old(file).reports + (if reported then 1 else 0)
    {
      reported := false;
      file := Finalize(file, p, finalizing);
      if closed { return; }
      if writable && !saveRaised { reported := p.Refused? && !finalizing; }
      closed := true;
    }
  }
}
