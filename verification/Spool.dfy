/** Results spooled to files: the writer a value is pickled to, the spooling of a namespace,
    and the namespace the parent reads from.

    Pickling a value is an arbitrary sequence of writes that may raise after any of them, and a
    write to a file may fail, as may closing it. The spool directory is a map from names to
    contents. Loading is a function of the bytes. */
module Spool {
  import opened Options
  import opened Scanner

  const INLINE_LIMIT: nat := 65536

  datatype Entry = Inline(size: nat, data: Bytes) | InFile(size: nat, file: string)

  class Disk {
    var files: map<string, Bytes>

    constructor ()
      ensures files == map[]
    {
      files := map[];
    }
  }

  /** The bytes of a value, as an entry holds them. */
  predicate Holds(files: map<string, Bytes>, e: Entry, b: Bytes) {
    && e.size == |b|
    && (e.Inline? <==> |b| <= INLINE_LIMIT)
    && (e.Inline? ==> e.data == b)
    && (e.InFile? ==> e.file in files && files[e.file] == b)
  }

  /** What a write that fails has made of its file: none, one it could not open, or one with
      `partial` in it. */
  datatype Made = Nothing | Unopened | Open(partial: Bytes)

  /** The sink of one value's pickle. It stays in memory while it is small, and moves to a file of
      its own with the write that makes it too large. */
  class SpoolWriter {
    const disk: Disk
    const token: string                    // the new file's name, should there be one
    var buffer: Bytes
    var spilled: bool
    var shut: bool
    var size: nat
    ghost var history: Bytes
    ghost var orphaned: bool               // there is a file the writer does not know of
    ghost const before: map<string, Bytes>

    ghost predicate Valid()
      reads this, disk
    {
      && token !in before && size == |history| && !shut && !orphaned
      && (spilled <==> size > INLINE_LIMIT)
      && (!spilled ==> buffer == history && disk.files == before)
      && (spilled ==> disk.files == before[token := history])
    }

    /** All that discarding asks for: there is a file exactly when the writer has one, or one
        that it does not know of. */
    ghost predicate Discardable()
      reads this, disk
    {
      && token !in before && !(spilled && orphaned)
      && (if spilled || orphaned then token in disk.files && disk.files - {token} == before
          else disk.files == before)
    }

    constructor (disk: Disk, token: string)
      requires token !in disk.files
      ensures Valid() && history == [] && this.disk == disk && this.token == token && before == disk.files
    {
      this.disk, this.token := disk, token;
      buffer, spilled, shut, size := [], false, false, 0;
      history, orphaned, before := [], false, disk.files;
    }

    method Write(data: Bytes)
      requires Valid()
      modifies this, disk
      ensures Valid() && history == old(history) + data
    {
      history := history + data;
      if !spilled {
        if size + |data| <= INLINE_LIMIT {
          buffer := buffer + data;
          size := size + |data|;
          return;
        }
        spilled := true;
        disk.files := disk.files[token := buffer];
        buffer := [];
      }
      disk.files := disk.files[token := disk.files[token] + data];
      size := size + |data|;
    }

    /** A write that raises: no file could be made; or one was, and is lost to the writer as it
        is opened; or the writer has it, with something in it. */
    method WriteFails(data: Bytes, made: Made)
      requires Valid() && (spilled || size + |data| > INLINE_LIMIT)
      modifies this`spilled, this`orphaned, disk
      ensures Discardable()
      ensures spilled == (old(spilled) || made.Open?) && orphaned == (!old(spilled) && made.Unopened?)
    {
      if spilled || made.Open? {
        spilled := true;
        disk.files := disk.files[token := if made.Open? then made.partial else []];
      } else if made.Unopened? {
        orphaned := true;
        disk.files := disk.files[token := []];
      }
    }

    /** None when closing the file raises. */
    method Finish(closeRaises: bool) returns (e: Option<Entry>)
      requires Valid()
      modifies this`shut
      ensures e.None? <==> closeRaises && spilled
      ensures e.Some? ==> Holds(disk.files, e.value, history) && (e.value.InFile? ==> e.value.file == token)
      ensures Discardable() && shut == spilled
    {
      if !spilled { return Some(Inline(size, buffer)); }
      shut := true;
      if closeRaises { return None; }
      return Some(InFile(size, token));
    }

    /** A value that fails leaves no file behind, unless closing the file raises here, or the file
        cannot be removed, or the writer does not know of it. */
    method Discard(closeRaises: bool, keeps: bool) returns (raised: bool)
      requires Discardable()
      modifies this`buffer, disk
      ensures raised <==> closeRaises && spilled && !shut
      ensures disk.files == if raised || orphaned || (spilled && keeps) then old(disk.files) else before
    {
      if spilled {
        if closeRaises && !shut { return true; }
        if !keeps { disk.files := disk.files - {token}; }
      }
      buffer := [];
      return false;
    }
  }

  /** Passes writes on, and notes whether the bytes hold a sandbox module's name. */
  class Scanning {
    const file: SpoolWriter
    var tail: Bytes
    var found: bool

    ghost predicate Valid()
      reads this, file, file.disk
    {
      file.Valid() && found == Contains(file.history) && (!found ==> tail == End(file.history))
    }

    constructor (file: SpoolWriter)
      requires file.Valid() && file.history == []
      ensures Valid() && this.file == file
    {
      this.file := file;
      tail, found := [], false;
    }

    method Write(data: Bytes)
      requires Valid()
      modifies this, file, file.disk
      ensures Valid() && file.history == old(file.history) + data
    {
      ghost var h := file.history;
      LooksEnough(h, data);
      EndAdd(h, data);
      hide Contains;
      if !found {
        if Contains(tail + Start(data)) || Contains(data) { found := true; }
        tail := if |data| >= KEEP then data[|data| - KEEP..] else End(tail + data);
      }
      file.Write(data);
    }
  }

  // ----- spooling a namespace -----

  /** How pickling ends: done, raised by the pickler, or by a write to the file. */
  datatype Ending = Done | Raises | NoSpace(data: Bytes, made: Made)

  /** A name and what pickling its value does: the writes, how they end, whether the pickler
      that refuses sandbox objects would refuse it, and whether closing its file raises or
      removing it fails. */
  datatype Item = Item(
    name: string, writes: seq<Bytes>, ending: Ending, refused: bool, stuck: bool, keeps: bool)

  function Whole(writes: seq<Bytes>): Bytes {
    if writes == [] then [] else Whole(writes[..|writes| - 1]) + writes[|writes| - 1]
  }

  /** Pickling raises, or what it wrote is refused. */
  predicate Fails(item: Item) { !item.ending.Done? || (item.refused && Contains(Whole(item.writes))) }

  /** The write that fails is the one that begins a file. */
  predicate Begins(item: Item) {
    item.ending.NoSpace? && |Whole(item.writes)| <= INLINE_LIMIT < |Whole(item.writes)| + |item.ending.data|
  }

  /** The writer has a file when it does. */
  predicate Spills(item: Item) {
    |Whole(item.writes)| > INLINE_LIMIT || (Begins(item) && item.ending.made.Open?)
  }

  predicate Unsendable(item: Item) { Fails(item) || (item.stuck && |Whole(item.writes)| > INLINE_LIMIT) }

  /** A value that fails with a file open that does not close: discarding it raises. */
  predicate Strands(item: Item) { Fails(item) && Spills(item) && item.stuck }

  /** A value that is left out leaves its file: the file was made and never opened, or it could
      not be removed. */
  predicate Strays(item: Item) {
    && Unsendable(item) && !Strands(item)
    && ((Begins(item) && item.ending.made.Unopened?) || (Spills(item) && item.keeps))
  }

  /** The cases: the disk is full as the file is begun, and again as it is closed; or there is no
      memory to open the file that was made. */
  lemma StrandsOnFullDisk(name: string)
    ensures Strands(Item(name, [], NoSpace(seq(INLINE_LIMIT + 1, _ => 0), Open([])), false, true, false))
    ensures Strays(Item(name, [], NoSpace(seq(INLINE_LIMIT + 1, _ => 0), Unopened), false, false, false))
  {
    assert Whole([]) == [];
  }

  /** The eager partition, where the files close and take what is written: what would be sent for
      each name, and the names left out. */
  function Sendable(items: seq<Item>): map<string, Bytes> {
    if items == [] then map[]
    else
      var x := items[|items| - 1];
      var rest := Sendable(items[..|items| - 1]);
      if Unsendable(x) then rest else rest[x.name := Whole(x.writes)]
  }

  function Dropped(items: seq<Item>): seq<string> {
    if items == [] then []
    else
      var x := items[|items| - 1];
      Dropped(items[..|items| - 1]) + (if Unsendable(x) then [x.name] else [])
  }

  /** A value is sent exactly when pickling it came to an end, no refusing pickler has the sandbox's
      prefix in what was written, and its file, if it is over the limit, closes. What is sent is
      all that was written; the other names are dropped, in order. */
  lemma {:induction false} SendableExactly(items: seq<Item>)
    ensures forall n :: n in Sendable(items) <==> exists i :: 0 <= i < |items| && items[i].name == n && Goes(items[i])
    ensures forall n :: n in Dropped(items) <==> exists i :: 0 <= i < |items| && items[i].name == n && !Goes(items[i])
    ensures NamesApart(items) ==>
      forall i :: 0 <= i < |items| && Goes(items[i]) ==>
        items[i].name in Sendable(items) && Sendable(items)[items[i].name] == Whole(items[i].writes)
  {
    if items != [] {
      var k := |items| - 1;
      SendableExactly(items[..k]);
      GoesMeans(items[k]);
      hide Goes, Unsendable;
      assert items == items[..k] + [items[k]];
    }
  }

  ghost predicate Goes(x: Item) {
    && x.ending.Done?
    && !(x.refused && exists a: Bytes, b: Bytes :: Whole(x.writes) == a + PREFIX + b)
    && !(x.stuck && |Whole(x.writes)| > 65536)
  }

  lemma GoesMeans(x: Item)
    ensures Goes(x) <==> !Unsendable(x)
  {
    ContainsExactly(Whole(x.writes));
  }

  /** The pickler at work: every write in turn. */
  method Pickle(item: Item, scanning: Scanning)
    requires scanning.Valid() && scanning.file.history == []
    modifies scanning, scanning.file, scanning.file.disk
    ensures scanning.Valid() && scanning.file.history == Whole(item.writes)
  {
    var i := 0;
    assert item.writes[..0] == [];
    while i < |item.writes|
      invariant 0 <= i <= |item.writes|
      invariant scanning.Valid() && scanning.file.history == Whole(item.writes[..i])
    {
      assert item.writes[..i + 1][..i] == item.writes[..i];
      scanning.Write(item.writes[i]);
      i := i + 1;
    }
    assert item.writes[..i] == item.writes;
  }

  /** One value: what was written before it failed is taken back, exactly unless its file is
      open and does not close, or was never opened or cannot be removed. In the first case the
      error goes out, and in all of them the file stays. */
  method SpoolOne(disk: Disk, token: string, item: Item) returns (entry: Option<Entry>, raised: bool)
    requires token !in disk.files
    modifies disk
    ensures (entry.None? <==> Unsendable(item)) && (raised <==> Strands(item))
    ensures entry.None? && !raised && !Strays(item) ==> disk.files == old(disk.files)
    ensures raised || Strays(item) ==> token in disk.files && disk.files - {token} == old(disk.files)
    ensures entry.Some? ==>
      && Holds(disk.files, entry.value, Whole(item.writes)) && (entry.value.InFile? ==> entry.value.file == token)
      && disk.files == if entry.value.InFile? then old(disk.files)[token := Whole(item.writes)] else old(disk.files)
  {
    var writer := new SpoolWriter(disk, token);
    var scanning := new Scanning(writer);
    Pickle(item, scanning);
    if item.ending.NoSpace? && (writer.spilled || writer.size + |item.ending.data| > INLINE_LIMIT) {
      writer.WriteFails(item.ending.data, item.ending.made);
      raised := writer.Discard(item.stuck, item.keeps);
      return None, raised;
    }
    if !item.ending.Done? || (scanning.found && item.refused) {
      raised := writer.Discard(item.stuck, item.keeps);
      return None, raised;
    }
    entry := writer.Finish(item.stuck);
    if entry.None? { raised := writer.Discard(item.stuck, item.keeps); } else { raised := false; }
  }

  ghost predicate EachHolds(files: map<string, Bytes>, entries: map<string, Entry>, sent: map<string, Bytes>) {
    entries.Keys == sent.Keys && forall n :: n in entries ==> Holds(files, entries[n], sent[n])
  }

  /** No two entries have one file. */
  ghost predicate Apart(entries: map<string, Entry>) {
    forall m, n :: m in entries && n in entries && m != n && entries[m].InFile? && entries[n].InFile? ==>
      entries[m].file != entries[n].file
  }

  function FilesOf(entries: map<string, Entry>): set<string> {
    set n | n in entries && entries[n].InFile? :: entries[n].file
  }

  ghost predicate OnlyThese(
    before: map<string, Bytes>, files: map<string, Bytes>, entries: map<string, Entry>, strays: set<string>)
  {
    && (forall f :: f in FilesOf(entries) || f in strays ==> f in files && f !in before)
    && FilesOf(entries) !! strays
    && (forall f :: f in before ==> f in files && files[f] == before[f])
    && (forall f :: f in files ==> f in before || f in FilesOf(entries) || f in strays)
  }

  /** The files in the directory are those that were there, those of the entries, one each, and
      `strays`; and each entry holds what would be sent for its name. */
  ghost predicate Spooled(
    before: map<string, Bytes>, files: map<string, Bytes>, entries: map<string, Entry>, sent: map<string, Bytes>,
    strays: set<string>)
  {
    EachHolds(files, entries, sent) && Apart(entries) && OnlyThese(before, files, entries, strays)
  }

  /** The files left by values that are left out. */
  function Strewn(items: seq<Item>, tokens: seq<string>): set<string>
    requires |items| <= |tokens|
  {
    set i | 0 <= i < |items| && Strays(items[i]) :: tokens[i]
  }

  lemma StrewnAdd(items: seq<Item>, tokens: seq<string>, i: nat)
    requires i < |items| <= |tokens|
    ensures Strewn(items[..i + 1], tokens) ==
      Strewn(items[..i], tokens) + (if Strays(items[i]) then {tokens[i]} else {})
  {
    hide Strays;
    var less, more := items[..i], items[..i + 1];
    forall f | f in Strewn(less, tokens) ensures f in Strewn(more, tokens) {
      var j :| 0 <= j < |less| && Strays(less[j]) && f == tokens[j];
      assert Strays(more[j]);
    }
    forall f | f in Strewn(more, tokens)
      ensures f in Strewn(less, tokens) || (Strays(items[i]) && f == tokens[i])
    {
      var j :| 0 <= j < |more| && Strays(more[j]) && f == tokens[j];
      if j < i { assert Strays(less[j]); }
    }
    if Strays(items[i]) { assert Strays(more[i]) && tokens[i] in Strewn(more, tokens); }
  }

  lemma FilesOfAdd(entries: map<string, Entry>, name: string, e: Entry)
    requires name !in entries
    ensures FilesOf(entries[name := e]) == FilesOf(entries) + (if e.InFile? then {e.file} else {})
  {
    var more := entries[name := e];
    forall f | f in FilesOf(entries) ensures f in FilesOf(more) {
      var n :| n in entries && entries[n].InFile? && entries[n].file == f;
      assert more[n] == entries[n];
    }
    assert more[name] == e;
  }

  lemma FilesHeld(files: map<string, Bytes>, entries: map<string, Entry>, sent: map<string, Bytes>)
    requires EachHolds(files, entries, sent)
    ensures forall f :: f in FilesOf(entries) ==> f in files
    ensures forall n :: n in entries && entries[n].InFile? ==> entries[n].file in files
  {
  }

  lemma SpooledAdd(
    before: map<string, Bytes>, files: map<string, Bytes>, entries: map<string, Entry>, sent: map<string, Bytes>,
    strays: set<string>, now: map<string, Bytes>, name: string, token: string, e: Entry, b: Bytes)
    requires Spooled(before, files, entries, sent, strays) && name !in entries && token !in files
    requires Holds(now, e, b) && (e.InFile? ==> e.file == token)
    requires now == if e.InFile? then files[token := b] else files
    ensures Spooled(before, now, entries[name := e], sent[name := b], strays)
  {
    FilesHeld(files, entries, sent);
    FilesOfAdd(entries, name, e);
    HoldsAdd(files, entries, sent, now, name, e, b);
    ApartAdd(files, entries, name, e);
    hide FilesOf, EachHolds, Holds, Apart;
  }

  /** A file nobody has an entry for is one more stray. */
  lemma StrayAdd(
    before: map<string, Bytes>, files: map<string, Bytes>, entries: map<string, Entry>, sent: map<string, Bytes>,
    strays: set<string>, now: map<string, Bytes>, token: string)
    requires Spooled(before, files, entries, sent, strays) && token !in files
    requires token in now && now - {token} == files
    ensures Spooled(before, now, entries, sent, strays + {token})
  {
    FilesHeld(files, entries, sent);
    assert forall f :: f in files ==> f in now && now[f] == (now - {token})[f];
    hide FilesOf, Apart;
  }

  lemma HoldsAdd(
    files: map<string, Bytes>, entries: map<string, Entry>, sent: map<string, Bytes>,
    now: map<string, Bytes>, name: string, e: Entry, b: Bytes)
    requires EachHolds(files, entries, sent) && name !in entries && Holds(now, e, b)
    requires forall f :: f in files ==> f in now && now[f] == files[f]
    ensures EachHolds(now, entries[name := e], sent[name := b])
  {
  }

  lemma ApartAdd(files: map<string, Bytes>, entries: map<string, Entry>, name: string, e: Entry)
    requires Apart(entries) && name !in entries && (e.InFile? ==> e.file !in files)
    requires forall n :: n in entries && entries[n].InFile? ==> entries[n].file in files
    ensures Apart(entries[name := e])
  {
  }

  lemma {:induction false} SendableNames(items: seq<Item>, name: string)
    requires name in Sendable(items)
    ensures exists i :: 0 <= i < |items| && items[i].name == name
  {
    var x := items[|items| - 1];
    if name in Sendable(items[..|items| - 1]) {
      SendableNames(items[..|items| - 1], name);
      var i :| 0 <= i < |items| - 1 && items[..|items| - 1][i].name == name;
      assert items[i].name == name;
    } else {
      assert items[|items| - 1].name == name;
    }
  }

  /** What the i-th value has done to the directory. */
  ghost predicate Stepped(
    item: Item, token: string, files: map<string, Bytes>, now: map<string, Bytes>, entry: Option<Entry>)
  {
    && (entry.None? <==> Unsendable(item))
    && (entry.None? && !Strays(item) ==> now == files)
    && (Strays(item) ==> token in now && now - {token} == files)
    && (entry.Some? ==>
          && Holds(now, entry.value, Whole(item.writes)) && (entry.value.InFile? ==> entry.value.file == token)
          && now == if entry.value.InFile? then files[token := Whole(item.writes)] else files)
  }

  predicate NamesApart(items: seq<Item>) {
    forall j, k :: 0 <= j < k < |items| ==> items[j].name != items[k].name
  }

  predicate TokensApart(tokens: seq<string>) { forall j, k :: 0 <= j < k < |tokens| ==> tokens[j] != tokens[k] }

  lemma NextItems(items: seq<Item>, i: nat)
    requires i < |items| && NamesApart(items)
    ensures items[..i + 1][..i] == items[..i] && items[i].name !in Sendable(items[..i])
    ensures Sendable(items[..i + 1]) ==
      if Unsendable(items[i]) then Sendable(items[..i])
      else Sendable(items[..i])[items[i].name := Whole(items[i].writes)]
    ensures Dropped(items[..i + 1]) == Dropped(items[..i]) + (if Unsendable(items[i]) then [items[i].name] else [])
  {
    assert items[..i + 1][..i] == items[..i];
    hide Unsendable;
    if items[i].name in Sendable(items[..i]) { SendableNames(items[..i], items[i].name); }
  }

  lemma SpooledKeys(
    before: map<string, Bytes>, files: map<string, Bytes>, entries: map<string, Entry>, sent: map<string, Bytes>,
    strays: set<string>)
    requires Spooled(before, files, entries, sent, strays)
    ensures entries.Keys == sent.Keys
  {
  }

  /** One value more, whatever became of it. */
  lemma SpooledNext(
    before: map<string, Bytes>, files: map<string, Bytes>, entries: map<string, Entry>, items: seq<Item>,
    tokens: seq<string>, i: nat, now: map<string, Bytes>, entry: Option<Entry>)
    requires i < |items| == |tokens| && NamesApart(items)
    requires Spooled(before, files, entries, Sendable(items[..i]), Strewn(items[..i], tokens)) && tokens[i] !in files
    requires Stepped(items[i], tokens[i], files, now, entry)
    ensures Spooled(before, now, if entry.Some? then entries[items[i].name := entry.value] else entries,
                    Sendable(items[..i + 1]), Strewn(items[..i + 1], tokens))
  {
    hide Sendable, Strewn, Spooled, Unsendable, Strays, Holds, NamesApart, Dropped, Whole;
    NextItems(items, i);
    StrewnAdd(items, tokens, i);
    StrandsStray(items[i]);
    var sent, strays := Sendable(items[..i]), Strewn(items[..i], tokens);
    SpooledKeys(before, files, entries, sent, strays);
    assert !Strays(items[i]) ==> Strewn(items[..i + 1], tokens) == strays;
    match entry
    case Some(e) =>
      SpooledAdd(before, files, entries, sent, strays, now, items[i].name, tokens[i], e, Whole(items[i].writes));
    case None =>
      if Strays(items[i]) { StrayAdd(before, files, entries, sent, strays, now, tokens[i]); }
  }

  /** The whole namespace: every name that can be sent has an entry with its bytes, the others
      are named in order, and no file is left of them but the strays; exactly unless discarding
      one raises. */
  method SpoolNamespace(disk: Disk, items: seq<Item>, tokens: seq<string>)
    returns (entries: map<string, Entry>, dropped: seq<string>, raised: bool)
    requires NamesApart(items) && TokensApart(tokens)
    requires |tokens| == |items| && (forall i :: 0 <= i < |tokens| ==> tokens[i] !in disk.files)
    modifies disk
    ensures raised <==> exists i :: 0 <= i < |items| && Strands(items[i])
    ensures !raised ==>
      && Spooled(old(disk.files), disk.files, entries, Sendable(items), Strewn(items, tokens))
      && dropped == Dropped(items)
    ensures raised ==> exists i :: 0 <= i < |items| && Strands(items[i]) && tokens[i] in disk.files
  {
    entries, dropped, raised := map[], [], false;
    NoItems(disk.files, items, tokens);
    hide Spooled, Strands, Strays, Unsendable, Holds, Strewn, Sendable, Dropped, Whole, NamesApart, TokensApart;
    var i := 0;
    while i < |items|
      invariant 0 <= i <= |items| && !raised
      invariant forall j :: 0 <= j < i ==> !Strands(items[j])
      invariant Spooled(old(disk.files), disk.files, entries, Sendable(items[..i]), Strewn(items[..i], tokens))
      invariant dropped == Dropped(items[..i])
      invariant forall j :: i <= j < |tokens| ==> tokens[j] !in disk.files
    {
      ghost var files := disk.files;
      var entry;
      entry, raised := SpoolOne(disk, tokens[i], items[i]);
      if raised { return; }
      StrandsStray(items[i]);
      assert Stepped(items[i], tokens[i], files, disk.files, entry);
      SpooledOneMore(old(disk.files), files, entries, items, tokens, i, disk.files, entry);
      hide Stepped;
      match entry {
        case Some(e) => entries := entries[items[i].name := e];
        case None => dropped := dropped + [items[i].name];
      }
      i := i + 1;
    }
    assert items[..i] == items;
  }

  /** What the loop keeps, one value on. */
  lemma SpooledOneMore(
    before: map<string, Bytes>, files: map<string, Bytes>, entries: map<string, Entry>, items: seq<Item>,
    tokens: seq<string>, i: nat, now: map<string, Bytes>, entry: Option<Entry>)
    requires i < |items| == |tokens| && NamesApart(items) && TokensApart(tokens)
    requires Spooled(before, files, entries, Sendable(items[..i]), Strewn(items[..i], tokens))
    requires forall j :: i <= j < |tokens| ==> tokens[j] !in files
    requires Stepped(items[i], tokens[i], files, now, entry)
    ensures Spooled(before, now, if entry.Some? then entries[items[i].name := entry.value] else entries,
                    Sendable(items[..i + 1]), Strewn(items[..i + 1], tokens))
    ensures Dropped(items[..i + 1]) == Dropped(items[..i]) + (if entry.None? then [items[i].name] else [])
    ensures forall j :: i + 1 <= j < |tokens| ==> tokens[j] !in now
  {
    NextItems(items, i);
    SpooledNext(before, files, entries, items, tokens, i, now, entry);
    OthersFree(files, now, items[i], tokens, i, entry);
    hide Spooled, Strays, Unsendable, Holds, Strewn, Sendable, Dropped, Whole, NamesApart, TokensApart;
  }

  lemma StrandsStray(item: Item)
    ensures Strays(item) ==> Unsendable(item) && !Strands(item)
  {
    hide Unsendable, Strands, Spills, Begins;
  }

  lemma NoItems(files: map<string, Bytes>, items: seq<Item>, tokens: seq<string>)
    requires |items| == |tokens|
    ensures Spooled(files, files, map[], Sendable(items[..0]), Strewn(items[..0], tokens))
    ensures Dropped(items[..0]) == []
  {
    assert items[..0] == [];
  }

  /** The names of later files are still free. */
  lemma OthersFree(
    files: map<string, Bytes>, now: map<string, Bytes>, item: Item, tokens: seq<string>, i: nat, entry: Option<Entry>)
    requires i < |tokens| && Stepped(item, tokens[i], files, now, entry) && TokensApart(tokens)
    requires forall j :: i <= j < |tokens| ==> tokens[j] !in files
    ensures forall j :: i + 1 <= j < |tokens| ==> tokens[j] !in now
  {
    hide Unsendable, Strays, Holds, Whole;
    assert forall f :: f in now && f != tokens[i] ==> f in now - {tokens[i]};
  }

  // ----- reading -----

  datatype Read<V> = KeyError | Closed | Unloadable | Value(value: V)

  /** What reading a name from the namespace gives while its files are there: what loading the
      bytes sent for it would have given. */
  function Eager<V>(load: Bytes -> Option<V>, sent: map<string, Bytes>, name: string): Read<V> {
    if name !in sent then KeyError
    else if load(sent[name]).None? then Unloadable
    else Value(load(sent[name]).value)
  }

  function UnreadOf(entries: map<string, Entry>, read: set<string>): set<string> {
    set n | n in entries && entries[n].InFile? && n !in read :: entries[n].file
  }

  /** Reading one entry takes its file out, if it has one, and no other. */
  lemma UnreadLess(entries: map<string, Entry>, read: set<string>, name: string)
    requires Apart(entries) && name in entries && name !in read
    ensures UnreadOf(entries, read + {name}) ==
      UnreadOf(entries, read) - (if entries[name].InFile? then {entries[name].file} else {})
  {
    var rest := UnreadOf(entries, read) - (if entries[name].InFile? then {entries[name].file} else {});
    forall f | f in rest ensures f in UnreadOf(entries, read + {name}) {
      var n :| n in entries && entries[n].InFile? && n !in read && entries[n].file == f;
      assert n != name;
    }
  }

  /** What holds of a spooled namespace between any two uses. */
  ghost predicate Consistent<V>(
    entries: map<string, Entry>, sent: map<string, Bytes>, load: Bytes -> Option<V>,
    values: map<string, V>, files: set<string>, open: bool, onDisk: map<string, Bytes>)
  {
    && entries.Keys == sent.Keys && Apart(entries)
    && (forall n :: n in entries ==>
          entries[n].size == |sent[n]| && (entries[n].Inline? ==> entries[n].data == sent[n]))
    && (forall n :: n in values ==> n in entries && load(sent[n]) == Some(values[n]))
    && files <= FilesOf(entries) && (open ==> files == UnreadOf(entries, values.Keys))
    && (forall n :: n in entries && entries[n].InFile? ==>
          (entries[n].file in onDisk <==> open && n !in values))
    && (open ==> forall n :: n in entries && entries[n].InFile? && n !in values ==>
          onDisk[entries[n].file] == sent[n])
  }

  lemma InlineRead<V>(
    entries: map<string, Entry>, sent: map<string, Bytes>, load: Bytes -> Option<V>,
    values: map<string, V>, files: set<string>, open: bool, onDisk: map<string, Bytes>, name: string, v: V)
    requires Consistent(entries, sent, load, values, files, open, onDisk)
    requires name in entries && name !in values && entries[name].Inline? && load(sent[name]) == Some(v)
    ensures Consistent(entries, sent, load, values[name := v], files, open, onDisk)
  {
    UnreadLess(entries, values.Keys, name);
    assert values[name := v].Keys == values.Keys + {name};
    hide UnreadOf, Apart, FilesOf;
  }

  lemma FileRead<V>(
    entries: map<string, Entry>, sent: map<string, Bytes>, load: Bytes -> Option<V>,
    values: map<string, V>, files: set<string>, onDisk: map<string, Bytes>, name: string, v: V)
    requires Consistent(entries, sent, load, values, files, true, onDisk)
    requires name in entries && name !in values && entries[name].InFile? && load(sent[name]) == Some(v)
    ensures var file := entries[name].file;
      Consistent(entries, sent, load, values[name := v], files - {file}, true, onDisk - {file})
  {
    UnreadLess(entries, values.Keys, name);
    assert values[name := v].Keys == values.Keys + {name};
    assert forall n :: n in entries && entries[n].InFile? && n != name ==> entries[n].file != entries[name].file;
    hide UnreadOf, Apart, FilesOf;
  }

  class SpooledNamespace<V> {
    const disk: Disk
    const entries: map<string, Entry>
    const load: Bytes -> Option<V>
    var values: map<string, V>
    var files: set<string>
    ghost const sent: map<string, Bytes>
    ghost var open: bool                   // the directory is still there

    ghost predicate Valid()
      reads this, disk
    {
      Consistent(entries, sent, load, values, files, open, disk.files)
    }

    constructor (disk: Disk, entries: map<string, Entry>, load: Bytes -> Option<V>,
                 ghost before: map<string, Bytes>, ghost sent: map<string, Bytes>, ghost strays: set<string>)
      requires Spooled(before, disk.files, entries, sent, strays)
      ensures Valid() && open && this.disk == disk && this.entries == entries && this.sent == sent && this.load == load
      ensures values == map[]
    {
      this.disk, this.entries, this.load := disk, entries, load;
      values, files := map[], FilesOf(entries);
      this.sent, open := sent, true;
    }

    /** Sizes and names are known without reading anything. */
    method SizeOf(name: string) returns (size: Option<nat>)
      requires Valid()
      ensures size == if name in sent then Some(|sent[name]|) else None
    {
      if name in entries { return Some(entries[name].size); }
      return None;
    }

    method Has(name: string) returns (b: bool)
      requires Valid()
      ensures b <==> name in sent
    {
      return name in entries;
    }

    method GetItem(name: string) returns (r: Read<V>)
      requires Valid()
      modifies this`values, this`files, disk
      ensures Valid()
      ensures r == if name in entries && entries[name].InFile? && name !in old(values) && !open then Closed
                   else Eager(load, sent, name)
      ensures r.Value? ==> values == old(values)[name := r.value]
      ensures !r.Value? ==> values == old(values)
      ensures forall f :: f in disk.files <==>
        f in old(disk.files) && !(r.Value? && entries[name].InFile? && f == entries[name].file)
    {
      if name in values { return Value(values[name]); }
      if name !in entries { return KeyError; }
      if entries[name].InFile? {
        if entries[name].file !in disk.files { return Closed; }
        r := ReadFile(name);
      } else {
        r := ReadInline(name);
      }
    }

    method ReadInline(name: string) returns (r: Read<V>)
      requires Valid() && name in entries && name !in values && entries[name].Inline?
      modifies this`values
      ensures Valid() && r == Eager(load, sent, name)
      ensures values == if r.Value? then old(values)[name := r.value] else old(values)
    {
      var v := load(entries[name].data);
      if v.None? { return Unloadable; }
      InlineRead(entries, sent, load, values, files, open, disk.files, name, v.value);
      values := values[name := v.value];
      return Value(v.value);
    }

    /** A value that loads takes its file with it. */
    method ReadFile(name: string) returns (r: Read<V>)
      requires Valid() && open && name in entries && name !in values && entries[name].InFile?
      modifies this`values, this`files, disk
      ensures Valid() && r == Eager(load, sent, name)
      ensures values == if r.Value? then old(values)[name := r.value] else old(values)
      ensures disk.files == if r.Value? then old(disk.files) - {entries[name].file} else old(disk.files)
    {
      var file := entries[name].file;
      var v := load(disk.files[file]);
      if v.None? { return Unloadable; }
      FileRead(entries, sent, load, values, files, disk.files, name, v.value);
      files := files - {file};
      disk.files := disk.files - {file};
      values := values[name := v.value];
      return Value(v.value);
    }

    /** The files of values never read go with the namespace. */
    method Finalize()
      requires Valid()
      modifies this`files, this`open, disk
      ensures Valid() && !open
      ensures forall f :: f in disk.files <==> f in old(disk.files) && f !in FilesOf(entries)
      ensures forall f :: f in disk.files ==> disk.files[f] == old(disk.files)[f]
    {
      ghost var mine := files;
      assert forall f :: f in disk.files ==> (f in mine <==> f in FilesOf(entries));
      while files != {}
        invariant files <= mine
        invariant forall f :: f in disk.files <==> f in old(disk.files) && (f in mine ==> f in files)
        invariant forall f :: f in disk.files ==> disk.files[f] == old(disk.files)[f]
        decreases files
      {
        var f :| f in files;
        disk.files := disk.files - {f};
        files := files - {f};
      }
      open := false;
    }

    /** The sandbox closes, and its directory goes. */
    method DirectoryRemoved()
      requires Valid()
      modifies this`open, disk
      ensures Valid() && !open && disk.files == map[]
    {
      disk.files := map[];
      open := false;
    }

    /** Any names, in any order, any number of times. */
    method ReadAll(names: seq<string>) returns (rs: seq<Read<V>>)
      requires Valid() && open
      modifies this`values, this`files, disk
      ensures Valid()
      ensures |rs| == |names| && forall i :: 0 <= i < |rs| ==> rs[i] == Eager(load, sent, names[i])
    {
      rs := [];
      while |rs| < |names|
        invariant Valid() && |rs| <= |names|
        invariant forall i :: 0 <= i < |rs| ==> rs[i] == Eager(load, sent, names[i])
      {
        var r := GetItem(names[|rs|]);
        rs := rs + [r];
      }
    }
  }
}
