/** Writer, pruning, exporter and sink as one state machine, under crashes, lost acknowledgements,
    refused batches and an unreadable cursor file: nothing appended is lost uncounted, and what the
    sink first receives is in the order of the spool. Exporting is on. */
module ExportProtocol {
  import opened Spool
  import opened Exporter
  import opened Options

  /** Record ids in the order the sink first received them, each with the place of its line in
      the spool's history. The sink ignores an id it has seen. */
  datatype Sink = Sink(ids: seq<Id>, places: seq<nat>)

  function Arrive(sink: Sink, entries: seq<Entry>, place: nat, kind: Reader): Sink
    decreases |entries|
  {
    if entries == [] then sink
    else Arrive(ArriveOne(sink, kind(entries[0].line), place), entries[1..], place + 1, kind)
  }

  function ArriveOne(sink: Sink, k: Kind, place: nat): Sink {
    if k.Record? && k.id !in sink.ids then Sink(sink.ids + [k.id], sink.places + [place]) else sink
  }

  /** A batch read and not yet committed: the lines from `place` on, of which `consumed` travel. */
  datatype Batch = Batch(place: nat, entries: seq<Entry>, consumed: nat, acknowledged: bool)

  type Flight = b: Batch | 0 < b.consumed <= |b.entries| witness Batch(0, [Entry([], START)], 1, false)

  /** The spool's files and persisted cursor, the exporter, the sink, and what a bystander knows:
      every line that ever was complete in the spool (`history`, the first `gone` of them pruned),
      how far the cursor is and ever was, which segments were counted as pruned unexported by any
      process and by this one, which were removed by a process that died before it counted them, and
      the ids whose append returned. */
  datatype State = State(
    files: seq<File>, cursor: Cursor, isOpen: bool, prunedUnexported: nat,
    limit: nat, flight: Option<Flight>,
    sink: Sink,
    history: seq<Entry>, gone: nat, past: nat, mark: nat, counted: set<nat>, now: set<nat>, uncounted: set<nat>,
    appended: set<Id>)

  datatype Limits = Limits(maxBytes: int, maxSegments: nat)

  datatype Step =
    | Append(lines: seq<seq<byte>>)
      /** The process dies while appending: any part of the bytes is written. */
    | TornAppend(lines: seq<seq<byte>>, written: nat)
      /** It dies while pruning: some segments are removed, the last of them counted or not. */
    | TornPrune(lines: seq<seq<byte>>, removed: nat, last: bool)
    | Restart
    | LoseCursor
    | Read
      /** The sink takes a leading part of the batch; its answer may still be lost. */
    | Deliver(count: nat)
    | Acknowledge
      /** Refused, unreachable, or the acknowledgement lost. */
    | Fail(tooLarge: bool)
    | Commit

  ghost predicate Writable(lines: seq<seq<byte>>, kind: Reader) {
    forall l <- lines :: IsLine(l) && |l| < READ_BYTES && kind(l).Record?
  }

  ghost predicate Enabled(s: State, step: Step, kind: Reader) {
    match step
    case Append(lines) => Writable(lines, kind)
    case TornAppend(lines, n) => n <= |Join(lines)|
    case TornPrune(lines, _, _) => Writable(lines, kind)
    case Read => s.flight.None?
    case Deliver(n) => s.flight.Some? && n <= s.flight.value.consumed
    case Acknowledge => s.flight.Some?
    case Fail(_) => s.flight.Some?
    case Commit => s.flight.Some? && s.flight.value.acknowledged
    case _ => true
  }

  function Ids(lines: seq<seq<byte>>, kind: Reader): set<Id> {
    set l | l in lines && kind(l).Record? :: kind(l).id
  }

  function Numbers(files: seq<File>, from: nat): set<nat> {
    set f | f in files && f.number >= from :: f.number
  }

  /** The lines a write completed. */
  function Completed(before: seq<File>, after: seq<File>): seq<Entry> {
    if |All(before)| <= |All(after)| then All(after)[|All(before)|..] else []
  }

  function Grown(s: State, files: seq<File>): State {
    s.(files := files, history := s.history + Completed(s.files, files))
  }

  /** The oldest `n` segments removed: all counted, or all but the last. */
  function Removed(s: State, n: nat, last: bool): State
    requires n <= |s.files|
  {
    var told := s.files[..if last || n == 0 then n else n - 1];
    var more := Numbers(told, s.cursor.segment);
    s.(files := s.files[n..],
       gone := s.gone + |All(s.files[..n])|,
       counted := s.counted + more, now := s.now + more,
       uncounted := s.uncounted + (Numbers(s.files[..n], s.cursor.segment) - more),
       prunedUnexported := s.prunedUnexported + Unexported(told, s.cursor.segment))
  }

  function Pruned(s: State, maxSegments: nat): State {
    Removed(s, Excess(s.files, maxSegments), true)
  }

  /** A process that starts counts from nothing. */
  function Died(s: State): State {
    s.(isOpen := false, flight := None, now := {}, prunedUnexported := 0)
  }

  function Min(a: nat, b: nat): nat { if a <= b then a else b }

  function Max(a: nat, b: nat): nat { if a >= b then a else b }

  function Next(s: State, step: Step, kind: Reader, limits: Limits): State
    requires Enabled(s, step, kind)
  {
    match step
    case Append(lines) =>
      var grown := Grown(s, Appended(s.files, s.isOpen, lines, limits.maxBytes));
      Pruned(grown, limits.maxSegments).(isOpen := true, appended := s.appended + Ids(lines, kind))
    case TornAppend(lines, n) =>
      Died(Grown(s, Written(if s.isOpen then s.files else Repaired(s.files), Join(lines)[..n], limits.maxBytes)))
    case TornPrune(lines, n, last) =>
      var grown := Grown(s, Appended(s.files, s.isOpen, lines, limits.maxBytes));
      Died(Removed(grown, Min(n, Excess(grown.files, limits.maxSegments)), last))
    case Restart => Died(s)
    case LoseCursor => s.(cursor := START, past := 0)
    case Read =>
      var entries := Prefix(Pending(s.files, s.cursor), s.limit);
      var n := Run(entries, kind, None);
      if n == 0 then s
      else s.(flight := Some(Batch(Max(s.gone, s.past), entries, n, Records(entries[..n], kind) == [])))
    case Deliver(n) =>
      var f := s.flight.value;
      s.(sink := Arrive(s.sink, f.entries[..n], f.place, kind))
    case Acknowledge =>
      var f := s.flight.value;
      s.(sink := Arrive(s.sink, f.entries[..f.consumed], f.place, kind),
         flight := Some(f.(acknowledged := true)))
    case Fail(tooLarge) =>
      s.(flight := None, limit := if tooLarge && s.limit > 1 then s.limit / 2 else s.limit)
    case Commit =>
      var f := s.flight.value;
      s.(cursor := f.entries[f.consumed - 1].next, past := f.place + f.consumed,
         mark := Max(s.mark, f.place + f.consumed), flight := None)
  }

  // ---- what every step keeps ----

  /** The record at a place of the history reached the sink, or was in a segment that was removed,
      counted or not. */
  ghost predicate Safe(s: State, place: nat, kind: Reader)
    requires place < |s.history|
  {
    var k := kind(s.history[place].line);
    k.Record? ==> k.id in s.sink.ids || s.history[place].next.segment in s.counted + s.uncounted
  }

  ghost predicate AllSafe(s: State, n: nat, kind: Reader) {
    n <= |s.history| && forall i :: 0 <= i < n ==> Safe(s, i, kind)
  }

  /** Only the last segment can end in a torn line, and none does once the spool is open. */
  ghost predicate Clean(files: seq<File>, isOpen: bool) {
    && Sorted(files)
    && (forall i :: 0 <= i < |files| ==> files[i].number > 0)
    && (forall i :: 0 <= i < |files| && (isOpen || i < |files| - 1) ==> Torn(files[i].data) == [])
  }

  ghost predicate Recorded(s: State) {
    && Ordered(s.history)
    && s.gone <= |s.history|
    && s.history[s.gone..] == All(s.files)
    && (forall i :: 0 <= i < s.gone ==> s.files != [] && s.history[i].next.segment < s.files[0].number)
  }

  ghost predicate Placed(s: State) {
    && s.past <= s.mark <= |s.history|
    && s.cursor == if s.past == 0 then START else s.history[s.past - 1].next
  }

  ghost predicate Counted(s: State) {
    && s.prunedUnexported == |s.now| && s.now <= s.counted && s.counted !! s.uncounted
    && (forall n <- s.counted + s.uncounted :: s.files != [] && n < s.files[0].number)
  }

  /** The place after the furthest first arrival. */
  function Reached(sink: Sink): nat {
    if sink.places == [] then 0 else sink.places[|sink.places| - 1] + 1
  }

  /** First arrivals are in the order of the spool, and nothing before the furthest was skipped
      but what was counted. */
  ghost predicate InOrder(s: State, kind: Reader) {
    && |s.sink.ids| == |s.sink.places|
    && (forall i, j :: 0 <= i < j < |s.sink.places| ==> s.sink.places[i] < s.sink.places[j])
    && (forall i :: 0 <= i < |s.sink.places| ==>
          && s.sink.places[i] < |s.history|
          && kind(s.history[s.sink.places[i]].line).Record?
          && kind(s.history[s.sink.places[i]].line).id == s.sink.ids[i])
    && AllSafe(s, Reached(s.sink), kind)
  }

  ghost predicate Flying(s: State, kind: Reader) {
    s.flight.Some? ==>
      var f := s.flight.value;
      && f.place + |f.entries| <= |s.history|
      && f.entries == s.history[f.place..f.place + |f.entries|]
      && s.past <= f.place
      && AllSafe(s, f.place, kind)
      && (f.acknowledged ==> Got(s.sink, f.entries[..f.consumed], kind))
      && (forall i :: 0 <= i < f.consumed && f.place + i < Reached(s.sink) && kind(f.entries[i].line).Record?
            ==> kind(f.entries[i].line).id in s.sink.ids)
  }

  ghost predicate Got(sink: Sink, entries: seq<Entry>, kind: Reader) {
    forall i :: 0 <= i < |entries| && kind(entries[i].line).Record? ==> kind(entries[i].line).id in sink.ids
  }

  ghost predicate Remembered(s: State, kind: Reader) {
    forall id <- s.appended :: InHistory(s, id, kind)
  }

  ghost predicate InHistory(s: State, id: Id, kind: Reader) {
    exists i :: 0 <= i < |s.history| && kind(s.history[i].line).Record? && kind(s.history[i].line).id == id
  }

  ghost predicate Inv(s: State, kind: Reader) {
    && Clean(s.files, s.isOpen) && Recorded(s) && Placed(s) && Counted(s)
    && AllSafe(s, s.gone, kind) && AllSafe(s, s.mark, kind)
    && InOrder(s, kind) && Flying(s, kind) && Remembered(s, kind)
    && s.limit > 0
  }

  // ---- what a write leaves ----

  lemma {:induction false} AllConcat(a: seq<File>, b: seq<File>)
    ensures All(a + b) == All(a) + All(b)
  {
    if a == [] {
      assert a + b == b;
    } else {
      assert (a + b)[1..] == a[1..] + b;
      AllConcat(a[1..], b);
      hide All, Entries;
      AllStep(a);
      AllStep(a + b);
      Assoc(Entries(a[0].number, 0, a[0].data), All(a[1..]), All(b));
    }
  }

  lemma AllStep(files: seq<File>)
    requires files != []
    ensures All(files) == Entries(files[0].number, 0, files[0].data) + All(files[1..])
  {
  }

  lemma AllOne(f: File)
    ensures All([f]) == Entries(f.number, 0, f.data)
  {
  }

  /** Bytes added to the last segment complete lines after all there were. */
  lemma AllGrow(files: seq<File>, x: seq<byte>) returns (extra: seq<Entry>)
    requires files != []
    ensures var f := files[|files| - 1];
      extra == Entries(f.number, Whole(f.data), Torn(f.data) + x)
      && All(files[..|files| - 1] + [f.(data := f.data + x)]) == All(files) + extra
  {
    hide All, Entries, Whole, Torn;
    var init, f := files[..|files| - 1], files[|files| - 1];
    var g := f.(data := f.data + x);
    extra := Entries(f.number, 0 + Whole(f.data), Torn(f.data) + x);
    assert files == init + [f];
    AllConcat(init, [f]);
    AllConcat(init, [g]);
    AllOne(f);
    AllOne(g);
    EntriesGrow(f.number, 0, f.data, x);
    Assoc(All(init), All([f]), extra);
  }

  lemma AllNew(files: seq<File>, g: File)
    ensures All(files + [g]) == All(files) + Entries(g.number, 0, g.data)
  {
    AllConcat(files, [g]);
    AllOne(g);
  }

  lemma EndsWhole(d: seq<byte>)
    ensures Torn(d) == [] <==> (d == [] || d[|d| - 1] == NEWLINE)
    ensures Torn([]) == []
  {
  }

  lemma CleanLast(files: seq<File>, g: File, isOpen: bool)
    requires Clean(files, false) && files != [] && g.number == files[|files| - 1].number
    requires isOpen ==> Torn(g.data) == []
    ensures Clean(files[..|files| - 1] + [g], isOpen)
  {
    hide Torn;
    var w := files[..|files| - 1] + [g];
    assert forall i :: 0 <= i < |w| ==> w[i].number == files[i].number;
  }

  lemma CleanNew(files: seq<File>, g: File, isOpen: bool)
    requires Clean(files, true) && g.number > 0
    requires files != [] ==> g.number > files[|files| - 1].number
    requires isOpen ==> Torn(g.data) == []
    ensures Clean(files + [g], isOpen)
  {
    hide Torn;
    assert files != [] ==> forall i :: 0 <= i < |files| ==> files[i].number <= files[|files| - 1].number;
  }

  lemma CleanWeaker(files: seq<File>)
    requires Clean(files, true)
    ensures Clean(files, false)
    ensures files != [] ==> files[|files| - 1].number > 0 && Torn(files[|files| - 1].data) == []
  {
  }

  lemma RepairClean(files: seq<File>) returns (extra: seq<Entry>)
    requires Clean(files, false)
    ensures Clean(Repaired(files), true)
    ensures All(Repaired(files)) == All(files) + extra
    ensures |Repaired(files)| == |files| && (files != [] ==> Repaired(files)[0].number == files[0].number)
  {
    hide All, Whole, Torn, Clean, Entries;
    extra := [];
    if files == [] {
      NoFilesClean(files);
    } else {
      var f := files[|files| - 1];
      EndsWhole(f.data);
      EndsWhole(f.data + [NEWLINE]);
      if f.data != [] && f.data[|f.data| - 1] != NEWLINE {
        extra := AllGrow(files, [NEWLINE]);
        CleanLast(files, f.(data := f.data + [NEWLINE]), true);
      } else {
        CleanLast(files, f, true);
        assert files[..|files| - 1] + [f] == files;
      }
    }
  }

  lemma NoFilesClean(files: seq<File>)
    requires files == []
    ensures Clean(files, true)
  {
  }

  lemma WriteClean(files: seq<File>, bytes: seq<byte>, maxBytes: int) returns (extra: seq<Entry>)
    requires Clean(files, true)
    ensures var w := Written(files, bytes, maxBytes);
      && Clean(w, false)
      && (Torn(bytes) == [] ==> Clean(w, true))
      && All(w) == All(files) + extra
      && w != [] && (files != [] ==> w[0].number == files[0].number)
  {
    hide All, Whole, Torn, Entries, Clean;
    CleanWeaker(files);
    if files == [] {
      AllOne(File(1, bytes));
      AllNone();
      assert files + [File(1, bytes)] == [File(1, bytes)];
      CleanNew(files, File(1, bytes), false);
      if Torn(bytes) == [] { CleanNew(files, File(1, bytes), true); }
      extra := Entries(1, 0, bytes);
    } else {
      var f := files[|files| - 1];
      if |f.data| >= maxBytes {
        var g := File(f.number + 1, bytes);
        AllNew(files, g);
        CleanNew(files, g, false);
        if Torn(bytes) == [] { CleanNew(files, g, true); }
        extra := Entries(f.number + 1, 0, bytes);
      } else {
        var g := f.(data := f.data + bytes);
        extra := AllGrow(files, bytes);
        CleanLast(files, g, false);
        EndsWhole(bytes);
        EndsWhole(f.data);
        EndsWhole(g.data);
        if Torn(bytes) == [] { CleanLast(files, g, true); }
      }
    }
  }

  lemma AllNone()
    ensures All([]) == []
  {
  }

  /** Every appended line reads back, after all the lines there were. */
  lemma WriteReads(files: seq<File>, lines: seq<seq<byte>>, maxBytes: int, extra: seq<Entry>)
    requires Clean(files, true)
    requires forall l <- lines :: IsLine(l) && |l| < READ_BYTES
    requires All(Written(files, Join(lines), maxBytes)) == All(files) + extra
    ensures Lines(extra) == lines
  {
    hide All, Whole, Torn, Entries, Join, Map;
    var bytes, w := Join(lines), Written(files, Join(lines), maxBytes);
    ShortLines(lines);
    if files == [] {
      AllNone();
      AllOne(File(1, bytes));
      EntriesJoin(1, 0, lines);
    } else {
      var f := files[|files| - 1];
      if |f.data| >= maxBytes {
        AllNew(files, File(f.number + 1, bytes));
        EntriesJoin(f.number + 1, 0, lines);
        SameTail(All(files), extra, Entries(f.number + 1, 0, bytes));
      } else {
        var more := AllGrow(files, bytes);
        assert Torn(f.data) + bytes == bytes;
        EntriesJoin(f.number, Whole(f.data), lines);
        SameTail(All(files), extra, more);
      }
    }
  }

  lemma SameTail<T>(a: seq<T>, b: seq<T>, c: seq<T>)
    requires a + b == a + c
    ensures b == c
  {
    assert b == (a + b)[|a|..];
    assert c == (a + c)[|a|..];
  }

  /** What an append or a torn one writes, before pruning. */
  lemma GrowClean(files: seq<File>, isOpen: bool, bytes: seq<byte>, maxBytes: int) returns (extra: seq<Entry>)
    requires Clean(files, isOpen)
    ensures var w := Written(if isOpen then files else Repaired(files), bytes, maxBytes);
      && Clean(w, false)
      && (Torn(bytes) == [] ==> Clean(w, true))
      && All(w) == All(files) + extra
      && w != [] && (files != [] ==> w[0].number == files[0].number)
  {
    hide All, Whole, Torn, Entries, Repaired, Written;
    var r := if isOpen then files else Repaired(files);
    var a: seq<Entry> := [];
    if !isOpen { a := RepairClean(files); }
    assert All(r) == All(files) + a;
    var b := WriteClean(r, bytes, maxBytes);
    extra := a + b;
    Assoc(All(files), a, b);
    assert |r| == |files|;
  }

  // ---- each step keeps the invariant ----

  lemma GrownRecorded(s: State, w: seq<File>, extra: seq<Entry>)
    requires Recorded(s) && Sorted(w) && w != []
    requires All(w) == All(s.files) + extra
    requires s.files != [] ==> w[0].number == s.files[0].number
    ensures Recorded(Grown(s, w)) && Grown(s, w).history == s.history + extra
  {
    hide All, Sorted, Entries;
    AllOrdered(w);
    var h := s.history + extra;
    assert Completed(s.files, w) == extra;
    assert h[s.gone..] == All(w) by { DropLeft(s.history, extra, s.gone); }
    forall j | s.gone <= j < |h| ensures h[j] == All(w)[j - s.gone] && w[0].number <= h[j].next.segment {
      assert h[j] == h[s.gone..][j - s.gone];
      FirstIsLeast(w, h[j].next);
    }
    OrderedOn(h, s.gone, if s.files != [] then w[0].number else 0);
  }

  lemma FirstIsLeast(w: seq<File>, c: Cursor)
    requires Sorted(w) && w != [] && Within(w, c)
    ensures w[0].number <= c.segment
  {
  }

  /** An ordered start in earlier segments, then an ordered rest. */
  lemma OrderedOn(h: seq<Entry>, n: nat, segment: nat)
    requires n <= |h| && Ordered(h[n..])
    requires forall i, j :: 0 <= i < j < n ==> Before(h[i].next, h[j].next)
    requires forall i :: 0 <= i < n ==> h[i].next.segment < segment
    requires n > 0 ==> forall j :: n <= j < |h| ==> segment <= h[j].next.segment
    ensures Ordered(h)
  {
    forall i, j | 0 <= i < j < |h| ensures Before(h[i].next, h[j].next) {
      if n <= i { assert h[i] == h[n..][i - n] && h[j] == h[n..][j - n]; }
    }
  }

  /** More complete lines change nothing that was said about the earlier ones. */
  lemma GrownInv(s: State, w: seq<File>, isOpen: bool, extra: seq<Entry>, kind: Reader)
    requires Inv(s, kind) && Clean(w, isOpen) && w != []
    requires All(w) == All(s.files) + extra
    requires s.files != [] ==> w[0].number == s.files[0].number
    ensures Inv(Grown(s, w).(isOpen := isOpen), kind)
    ensures Grown(s, w).history == s.history + extra
  {
    GrownRecorded(s, w, extra);
    hide All, Completed, Recorded, Clean, Counted, Placed, InOrder, Flying, Remembered, AllSafe;
    var t := Grown(s, w).(isOpen := isOpen);
    SameRecorded(Grown(s, w), t);
    GrownCounted(s, t);
    SafeGrows(s, t, s.gone, kind);
    Carries(s, t, kind);
    FlyingGrows(s, t, kind);
    RememberedGrows(s, t, kind);
  }

  /** t knows at least what s does, and the cursor and the sink are where they were. */
  ghost predicate Extends(s: State, t: State) {
    && |s.history| <= |t.history|
    && (forall i :: 0 <= i < |s.history| ==> t.history[i] == s.history[i])
    && s.counted <= t.counted && s.uncounted <= t.uncounted
    && t.sink == s.sink
    && t.cursor == s.cursor && t.past == s.past && t.mark == s.mark
  }

  lemma Carries(s: State, t: State, kind: Reader)
    requires Placed(s) && InOrder(s, kind) && AllSafe(s, s.mark, kind)
    requires Extends(s, t)
    ensures Placed(t) && InOrder(t, kind) && AllSafe(t, t.mark, kind)
  {
    SafeGrows(s, t, s.mark, kind);
    SafeGrows(s, t, Reached(s.sink), kind);
  }

  lemma FlyingGrows(s: State, t: State, kind: Reader)
    requires Flying(s, kind) && Extends(s, t) && t.flight == s.flight
    ensures Flying(t, kind)
  {
    if s.flight.Some? {
      var f := s.flight.value;
      SafeGrows(s, t, f.place, kind);
      assert t.history[f.place..f.place + |f.entries|] == s.history[f.place..f.place + |f.entries|];
    }
  }

  lemma SameRecorded(s: State, t: State)
    requires Recorded(s) && t.history == s.history && t.gone == s.gone && t.files == s.files
    ensures Recorded(t)
  {
  }

  predicate SameCounters(s: State, t: State) {
    t.counted == s.counted && t.uncounted == s.uncounted && t.now == s.now && t.prunedUnexported == s.prunedUnexported
  }

  lemma GrownCounted(s: State, t: State)
    requires Counted(s) && SameCounters(s, t)
    requires t.files != [] && (s.files != [] ==> t.files[0].number == s.files[0].number)
    ensures Counted(t)
  {
  }

  lemma SafeGrows(s: State, t: State, n: nat, kind: Reader)
    requires AllSafe(s, n, kind) && n <= |s.history| <= |t.history|
    requires forall i :: 0 <= i < |s.history| ==> t.history[i] == s.history[i]
    requires forall id <- s.sink.ids :: id in t.sink.ids
    requires s.counted <= t.counted && s.uncounted <= t.uncounted
    ensures AllSafe(t, n, kind)
  {
    forall i | 0 <= i < n ensures Safe(t, i, kind) {
      assert Safe(s, i, kind);
    }
  }

  lemma RememberedGrows(s: State, t: State, kind: Reader)
    requires Remembered(s, kind) && |s.history| <= |t.history| && t.appended == s.appended
    requires forall i :: 0 <= i < |s.history| ==> t.history[i] == s.history[i]
    ensures Remembered(t, kind)
  {
    forall id | id in t.appended ensures InHistory(t, id, kind) {
      assert InHistory(s, id, kind);
      var i :| 0 <= i < |s.history| && kind(s.history[i].line).Record? && kind(s.history[i].line).id == id;
      assert t.history[i] == s.history[i];
    }
  }

  // ---- pruning ----

  lemma {:induction false} CountNumbers(files: seq<File>, through: nat)
    requires Sorted(files)
    ensures Unexported(files, through) == |Numbers(files, through)|
  {
    hide Numbers, Unexported, Sorted;
    NoneUnexported(through);
    if files != [] {
      NumbersStep(files, through);
      UnexportedStep(files, through);
      FirstNotAmong(files, through);
      SortedRest(files);
      CountNumbers(files[1..], through);
    }
  }

  lemma NoneUnexported(through: nat)
    ensures Numbers([], through) == {} && Unexported([], through) == 0
  {
  }

  lemma UnexportedStep(files: seq<File>, through: nat)
    requires files != []
    ensures Unexported(files, through) == (if files[0].number >= through then 1 else 0) + Unexported(files[1..], through)
  {
  }

  lemma FirstNotAmong(files: seq<File>, through: nat)
    requires Sorted(files) && files != []
    ensures files[0].number !in Numbers(files[1..], through)
  {
    forall g <- files[1..] ensures g.number != files[0].number {
      var i :| 0 <= i < |files[1..]| && files[1..][i] == g;
      assert files[i + 1] == g;
    }
  }

  lemma SortedRest(files: seq<File>)
    requires Sorted(files) && files != []
    ensures Sorted(files[1..])
  {
  }

  lemma NumbersStep(files: seq<File>, through: nat)
    requires files != []
    ensures Numbers(files, through) ==
      (if files[0].number >= through then {files[0].number} else {}) + Numbers(files[1..], through)
  {
    assert files == [files[0]] + files[1..];
  }

  /** What removing the oldest segments takes and what it leaves. */
  lemma PruneSplit(files: seq<File>, n: nat)
    requires Sorted(files) && n < |files|
    ensures var d, k := files[..n], files[n..];
      && files == d + k && k != [] && Sorted(d) && Sorted(k)
      && All(files) == All(d) + All(k)
      && (forall f <- d :: f.number < k[0].number)
      && (forall f <- d :: files[0].number <= f.number)
      && files[0].number <= k[0].number
  {
    hide All, Sorted;
    var d, k := files[..n], files[n..];
    AllConcat(d, k);
    SplitSorted(files, n);
  }

  lemma SplitSorted(files: seq<File>, n: nat)
    requires Sorted(files) && n < |files|
    ensures Sorted(files[..n]) && Sorted(files[n..])
    ensures files[0].number <= files[n].number
    ensures forall f <- files[..n] :: files[0].number <= f.number < files[n].number
  {
  }

  lemma PrunedRecorded(s: State, n: nat, last: bool)
    requires Recorded(s) && Sorted(s.files) && n < |s.files|
    ensures Recorded(Removed(s, n, last))
  {
    hide All, Numbers, Unexported;
    PruneSplit(s.files, n);
    var t, d := Removed(s, n, last), s.files[..n];
    AllOrdered(d);
    DropDrop(s.history, s.gone, t.gone);
    DropRight(All(d), All(t.files), |All(d)|);
    forall i | 0 <= i < t.gone ensures t.history[i].next.segment < t.files[0].number {
      if i >= s.gone {
        assert t.history[i] == All(s.files)[i - s.gone] == All(d)[i - s.gone];
        assert Within(d, t.history[i].next);
      }
    }
  }

  /** The lines of a segment removed before the cursor passed it are in it, counted or not; those of
      one behind the cursor were already accounted for. */
  lemma PrunedSafe(s: State, n: nat, last: bool, kind: Reader)
    requires Inv(s, kind) && n < |s.files|
    ensures AllSafe(Removed(s, n, last), Removed(s, n, last).gone, kind)
  {
    hide All, Unexported, Numbers, Clean, Counted, InOrder, Flying, Remembered, Entries;
    InvClean(s, kind);
    CleanSorted(s.files, s.isOpen);
    PruneSplit(s.files, n);
    var t, d := Removed(s, n, last), s.files[..n];
    AllOrdered(d);
    forall i | 0 <= i < t.gone ensures Safe(t, i, kind) {
      if i < s.gone || i < s.mark {
        assert Safe(s, i, kind);
      } else {
        var e := t.history[i];
        assert e == All(s.files)[i - s.gone] == All(d)[i - s.gone];
        assert Within(d, e.next);
        var k :| 0 <= k < |d| && d[k].number == e.next.segment;
        assert d[k].number >= s.cursor.segment by {
          if s.past > 0 { assert Before(s.history[s.past - 1].next, s.history[i].next); }
        }
        NumbersHas(d, k, s.cursor.segment);
      }
    }
  }

  lemma NumbersHas(files: seq<File>, k: nat, from: nat)
    requires k < |files| && files[k].number >= from
    ensures files[k].number in Numbers(files, from)
  {
  }

  lemma PrunedInv(s: State, n: nat, last: bool, kind: Reader)
    requires Inv(s, kind) && n < |s.files|
    ensures Inv(Removed(s, n, last), kind)
  {
    PrunedRecorded(s, n, last);
    PrunedSafe(s, n, last, kind);
    PrunedClean(s.files, n, s.isOpen);
    var t := Removed(s, n, last);
    hide All, Numbers, Unexported, Recorded, Clean, Counted, Placed, InOrder, Flying, Remembered, AllSafe;
    PrunedCounted(s, n, last, kind);
    Carries(s, t, kind);
    FlyingGrows(s, t, kind);
    RememberedGrows(s, t, kind);
  }

  lemma PrunedClean(files: seq<File>, n: nat, isOpen: bool)
    requires Clean(files, isOpen) && n <= |files|
    ensures Clean(files[n..], isOpen)
  {
    hide Torn;
    var k := files[n..];
    assert forall i :: 0 <= i < |k| ==> k[i] == files[i + n];
  }

  lemma PrunedCounted(s: State, n: nat, last: bool, kind: Reader)
    requires Inv(s, kind) && n < |s.files|
    ensures Counted(Removed(s, n, last))
  {
    hide All, Unexported, Recorded, Placed, InOrder, Flying, Remembered, AllSafe, Numbers, Clean, Sorted;
    InvClean(s, kind);
    CleanSorted(s.files, s.isOpen);
    var d, told := s.files[..n], s.files[..if last || n == 0 then n else n - 1];
    var all, more := Numbers(d, s.cursor.segment), Numbers(told, s.cursor.segment);
    SplitSorted(s.files, n);
    SplitSorted(s.files, |told|);
    CountNumbers(told, s.cursor.segment);
    NumbersWithin(s.files, n, s.cursor.segment);
    assert told == d[..|told|];
    NumbersPrefix(d, |told|, s.cursor.segment);
    assert s.prunedUnexported == |s.now| && s.now <= s.counted && s.counted !! s.uncounted;
    CountersKept(s.now, s.counted, s.uncounted, more, all, s.files[0].number, s.files[n].number);
    var t := Removed(s, n, last);
    assert t.files != [] && t.files[0] == s.files[n];
  }

  /** Counting some of what was removed, apart from all that was before. */
  lemma CountersKept(now: set<nat>, counted: set<nat>, uncounted: set<nat>, more: set<nat>, all: set<nat>, low: nat, high: nat)
    requires now <= counted && counted !! uncounted && more <= all && low <= high
    requires (forall n <- counted + uncounted :: n < low) && forall n <- all :: low <= n < high
    ensures |now + more| == |now| + |more| && now + more <= counted + more
    ensures (counted + more) !! (uncounted + (all - more))
    ensures forall n <- (counted + more) + (uncounted + (all - more)) :: n < high
  {
    forall n <- all ensures n !in counted && n !in uncounted {
      assert n in counted || n in uncounted ==> n in counted + uncounted;
    }
    Apart(now, more);
    forall n <- (counted + more) + (uncounted + (all - more)) ensures n < high {
      assert n in counted + uncounted || n in all;
    }
  }

  lemma Apart(a: set<nat>, b: set<nat>)
    requires a !! b
    ensures |a + b| == |a| + |b|
  {
  }

  lemma NumbersWithin(files: seq<File>, n: nat, from: nat)
    requires Sorted(files) && n < |files|
    ensures forall k <- Numbers(files[..n], from) :: files[0].number <= k < files[n].number
  {
    hide Sorted;
    SplitSorted(files, n);
  }

  lemma NumbersPrefix(files: seq<File>, n: nat, from: nat)
    requires n <= |files|
    ensures Numbers(files[..n], from) <= Numbers(files, from)
  {
  }

  // ---- appending ----

  lemma AppendClean(files: seq<File>, isOpen: bool, lines: seq<seq<byte>>, maxBytes: int, kind: Reader)
    returns (extra: seq<Entry>)
    requires Clean(files, isOpen) && Writable(lines, kind)
    ensures var w := Appended(files, isOpen, lines, maxBytes);
      && Clean(w, true) && w != []
      && All(w) == All(files) + extra
      && (files != [] ==> w[0].number == files[0].number)
    ensures forall l <- lines :: exists i :: 0 <= i < |extra| && extra[i].line == l
  {
    hide All, Whole, Torn, Entries, Repaired, Written, Join;
    var r := if isOpen then files else Repaired(files);
    var a: seq<Entry> := [];
    if !isOpen { a := RepairClean(files); }
    assert All(r) == All(files) + a;
    JoinUntorn(lines);
    assert Torn(Join(lines)) == [] by { TornWhole(Join(lines)); }
    var b := WriteClean(r, Join(lines), maxBytes);
    extra := a + b;
    Assoc(All(files), a, b);
    assert |r| == |files|;
    WriteReads(r, lines, maxBytes, b);
    forall l | l in lines ensures exists i :: 0 <= i < |extra| && extra[i].line == l {
      var k :| 0 <= k < |lines| && lines[k] == l;
      assert Lines(b)[k] == l;
      assert extra[|a| + k].line == l;
    }
  }

  lemma TornWhole(d: seq<byte>)
    requires Whole(d) == |d|
    ensures Torn(d) == []
  {
  }

  lemma AppendInv(s: State, lines: seq<seq<byte>>, kind: Reader, limits: Limits)
    requires Inv(s, kind) && Writable(lines, kind)
    ensures Inv(Next(s, Append(lines), kind, limits), kind)
  {
    hide Appended, Clean, All, Pruned, Inv, Ids;
    assert Clean(s.files, s.isOpen) by { InvClean(s, kind); }
    var w := Appended(s.files, s.isOpen, lines, limits.maxBytes);
    var extra := AppendClean(s.files, s.isOpen, lines, limits.maxBytes, kind);
    GrownInv(s, w, true, extra, kind);
    var g := Grown(s, w).(isOpen := true);
    PrunedInv(g, Excess(g.files, limits.maxSegments), true, kind);
    PrunedIs(g, limits.maxSegments);
    var p := Pruned(g, limits.maxSegments);
    PrunedOpen(Grown(s, w), limits.maxSegments);
    AppendedKept(s, p, extra, lines, kind);
    AppendedMore(p, p.(appended := s.appended + Ids(lines, kind)), kind);
  }

  lemma InvClean(s: State, kind: Reader)
    requires Inv(s, kind)
    ensures Clean(s.files, s.isOpen)
  {
  }

  lemma PrunedIs(s: State, maxSegments: nat)
    ensures Pruned(s, maxSegments) == Removed(s, Excess(s.files, maxSegments), true)
  {
  }

  lemma PrunedOpen(s: State, maxSegments: nat)
    ensures Pruned(s.(isOpen := true), maxSegments) == Pruned(s, maxSegments).(isOpen := true)
    ensures Pruned(s, maxSegments).history == s.history && Pruned(s, maxSegments).appended == s.appended
  {
  }

  lemma AppendedKept(s: State, p: State, extra: seq<Entry>, lines: seq<seq<byte>>, kind: Reader)
    requires p.history == s.history + extra
    requires forall l <- lines :: exists i :: 0 <= i < |extra| && extra[i].line == l
    ensures forall id <- Ids(lines, kind) :: InHistory(p, id, kind)
  {
    forall id | id in Ids(lines, kind) ensures InHistory(p, id, kind) {
      var l :| l in lines && kind(l).Record? && kind(l).id == id;
      var i :| 0 <= i < |extra| && extra[i].line == l;
      assert p.history[|s.history| + i] == extra[i];
    }
  }

  lemma AppendedMore(s: State, t: State, kind: Reader)
    requires Inv(s, kind) && t == s.(appended := t.appended)
    requires forall id <- t.appended :: id in s.appended || InHistory(s, id, kind)
    ensures Inv(t, kind)
  {
    assert Remembered(t, kind) by {
      assert forall id <- t.appended :: InHistory(s, id, kind) && (InHistory(s, id, kind) ==> InHistory(t, id, kind));
    }
    SafeGrows(s, t, s.gone, kind);
    hide Clean, Recorded, Counted, Placed, InOrder, Flying, Remembered, AllSafe;
    Carries(s, t, kind);
    FlyingGrows(s, t, kind);
    SameRecorded(s, t);
    SameCounted(s, t);
  }

  lemma SameCounted(s: State, t: State)
    requires Counted(s) && t.counted == s.counted && t.uncounted == s.uncounted && t.files == s.files
    requires (t.now, t.prunedUnexported) == (s.now, s.prunedUnexported) || (t.now, t.prunedUnexported) == ({}, 0)
    ensures Counted(t)
  {
  }

  // ---- the exporter ----

  /** What is pending is the tail of the history past the cursor. */
  lemma PendingIsTail(s: State, kind: Reader)
    requires Inv(s, kind)
    ensures Max(s.gone, s.past) <= |s.history|
    ensures Pending(s.files, s.cursor) == s.history[Max(s.gone, s.past)..]
  {
    hide All, Pending, Clean, Counted, InOrder, Flying, Remembered, AllSafe, Ordered, Sorted;
    InvClean(s, kind);
    CleanSorted(s.files, s.isOpen);
    PendingAll(s.files, START);
    if s.past > s.gone {
      var i := s.past - 1 - s.gone;
      ResumeAt(s.files, i);
      assert All(s.files)[i] == s.history[s.past - 1];
      DropDrop(s.history, s.gone, s.past);
    } else if s.past > 0 {
      assert s.history[s.past - 1].next.segment < s.files[0].number;
      PendingBehind(s.files, s.cursor);
    }
  }

  lemma ResumeAt(files: seq<File>, i: nat)
    requires Sorted(files) && i < |All(files)| && Pending(files, START) == All(files)
    ensures Pending(files, All(files)[i].next) == All(files)[i + 1..]
  {
    hide All, Pending;
    var e := Resume(files, START, i);
  }

  lemma PendingBehind(files: seq<File>, c: Cursor)
    requires Sorted(files) && files != [] && c.segment < files[0].number
    ensures Pending(files, c) == All(files)
  {
    hide All, Pending;
    assert forall i :: 0 <= i < |files| ==> files[0].number <= files[i].number;
    PendingAll(files, c);
  }

  lemma CleanSorted(files: seq<File>, isOpen: bool)
    requires Clean(files, isOpen)
    ensures Sorted(files) && forall i :: 0 <= i < |files| ==> files[i].number > 0
  {
  }

  /** A line still in the spool is in no removed segment. */
  lemma PresentUncounted(s: State, i: nat, kind: Reader)
    requires Inv(s, kind) && s.gone <= i < |s.history|
    ensures s.history[i].next.segment !in s.counted + s.uncounted
  {
    AllOrdered(s.files);
    assert s.history[i] == All(s.files)[i - s.gone];
    assert Within(s.files, s.history[i].next);
  }

  lemma {:induction false} NoRecords(entries: seq<Entry>, kind: Reader, sink: Sink)
    requires Records(entries, kind) == []
    ensures Got(sink, entries, kind)
  {
    if entries != [] {
      NoRecords(entries[1..], kind, sink);
      assert entries == [entries[0]] + entries[1..];
    }
  }

  lemma ReadInv(s: State, kind: Reader, limits: Limits)
    requires Inv(s, kind) && s.flight.None?
    ensures Inv(Next(s, Read, kind, limits), kind)
  {
    hide Clean, Recorded, Counted, Placed, Remembered, Pending, Run, Records, InOrder, Flying, AllSafe;
    var t := Next(s, Read, kind, limits);
    PendingIsTail(s, kind);
    if t.flight.Some? {
      ReadFlying(s, t, kind);
      SameBut(s, t, kind);
    }
  }

  lemma PrefixIsSlice<T>(h: seq<T>, m: nat, limit: nat)
    requires m <= |h|
    ensures var p := Prefix(h[m..], limit);
      m + |p| <= |h| && p == h[m..m + |p|]
  {
  }

  lemma ReadFlying(s: State, t: State, kind: Reader)
    requires Inv(s, kind) && t == s.(flight := t.flight) && t.flight.Some?
    requires var f, m := t.flight.value, Max(s.gone, s.past);
      && f.place == m <= |s.history|
      && f.entries == Prefix(s.history[m..], s.limit)
      && f.acknowledged == (Records(f.entries[..f.consumed], kind) == [])
    ensures Flying(t, kind)
  {
    hide Clean, Recorded, Counted, Remembered, Safe, Records;
    var f := t.flight.value;
    PrefixIsSlice(s.history, f.place, s.limit);
    if f.acknowledged { NoRecords(f.entries[..f.consumed], kind, t.sink); }
    forall i | 0 <= i < f.consumed && f.place + i < Reached(t.sink) && kind(f.entries[i].line).Record?
      ensures kind(f.entries[i].line).id in t.sink.ids
    {
      ReachedThere(s, f.place + i, kind);
    }
    assert AllSafe(s, f.place, kind);
    SafeGrows(s, t, f.place, kind);
    assert s.past <= f.place;
  }

  lemma ReachedThere(s: State, i: nat, kind: Reader)
    requires Inv(s, kind) && s.gone <= i < Reached(s.sink) && i < |s.history| && kind(s.history[i].line).Record?
    ensures kind(s.history[i].line).id in s.sink.ids
  {
    PresentUncounted(s, i, kind);
    assert Safe(s, i, kind);
  }

  /** A step that leaves files, history, cursor and sink alone only has its flight to answer for. */
  lemma SameBut(s: State, t: State, kind: Reader)
    requires Inv(s, kind)
    requires t == s.(flight := t.flight, limit := t.limit, isOpen := t.isOpen, now := t.now, prunedUnexported := t.prunedUnexported)
    requires (t.now, t.prunedUnexported) == (s.now, s.prunedUnexported) || (t.now, t.prunedUnexported) == ({}, 0)
    requires t.limit > 0 && (t.isOpen ==> s.isOpen) && Flying(t, kind)
    ensures Inv(t, kind)
  {
    SafeGrows(s, t, s.gone, kind);
    assert Clean(t.files, t.isOpen);
    hide Clean, Recorded, Counted, Placed, InOrder, Flying, Remembered, AllSafe;
    Carries(s, t, kind);
    SameRecorded(s, t);
    SameCounted(s, t);
    RememberedGrows(s, t, kind);
  }

  lemma ArriveSnoc(sink: Sink, entries: seq<Entry>, n: nat, place: nat, kind: Reader)
    requires n < |entries|
    ensures Arrive(sink, entries[..n + 1], place, kind)
         == ArriveOne(Arrive(sink, entries[..n], place, kind), kind(entries[n].line), place + n)
  {
    ArriveConcat(sink, entries[..n], [entries[n]], place, kind);
    assert entries[..n + 1] == entries[..n] + [entries[n]];
    var mid := Arrive(sink, entries[..n], place, kind);
    assert [entries[n]][1..] == [];
    assert Arrive(mid, [entries[n]], place + n, kind)
        == Arrive(ArriveOne(mid, kind(entries[n].line), place + n), [entries[n]][1..], place + n + 1, kind);
  }

  lemma {:induction false} ArriveConcat(sink: Sink, a: seq<Entry>, b: seq<Entry>, place: nat, kind: Reader)
    ensures Arrive(sink, a + b, place, kind) == Arrive(Arrive(sink, a, place, kind), b, place + |a|, kind)
    decreases |a|
  {
    if a == [] {
      assert a + b == b;
    } else {
      assert (a + b)[1..] == a[1..] + b;
      ArriveConcat(ArriveOne(sink, kind(a[0].line), place), a[1..], b, place + 1, kind);
    }
  }

  /** One more line of the batch reaches the sink. */
  lemma ArriveOneInv(s: State, i: nat, kind: Reader)
    requires Inv(s, kind) && s.flight.Some? && i < s.flight.value.consumed
    requires Got(s.sink, s.flight.value.entries[..i], kind)
    ensures var f := s.flight.value;
      var t := s.(sink := ArriveOne(s.sink, kind(f.entries[i].line), f.place + i));
      Inv(t, kind) && Got(t.sink, f.entries[..i + 1], kind)
  {
    var f := s.flight.value;
    var t := s.(sink := ArriveOne(s.sink, kind(f.entries[i].line), f.place + i));
    ArriveOneGot(s.sink, f.entries, i, f.place + i, kind);
    SafeGrows(s, t, s.gone, kind);
    SafeGrows(s, t, s.mark, kind);
    ArriveOneOrder(s, t, i, kind);
    hide Clean, Recorded, Counted, InOrder, Flying, Remembered, AllSafe, ArriveOne;
    SameRecorded(s, t);
    SameCounted(s, t);
    RememberedGrows(s, t, kind);
  }

  lemma ArriveOneGot(sink: Sink, entries: seq<Entry>, i: nat, place: nat, kind: Reader)
    requires i < |entries| && Got(sink, entries[..i], kind)
    ensures Got(ArriveOne(sink, kind(entries[i].line), place), entries[..i + 1], kind)
  {
    assert forall j :: 0 <= j < i ==> entries[..i + 1][j] == entries[..i][j];
  }

  lemma ArriveOneOrder(s: State, t: State, i: nat, kind: Reader)
    requires InOrder(s, kind) && Flying(s, kind) && s.flight.Some? && i < s.flight.value.consumed
    requires var f := s.flight.value;
      && t == s.(sink := ArriveOne(s.sink, kind(f.entries[i].line), f.place + i))
      && Got(t.sink, f.entries[..i + 1], kind)
    ensures InOrder(t, kind) && Flying(t, kind)
  {
    hide Safe, AllSafe;
    var f := s.flight.value;
    SafeGrows(s, t, f.place, kind);
    if t.sink == s.sink {
      SafeGrows(s, t, Reached(s.sink), kind);
    } else {
      ReachesOn(t, f, i, kind);
      FlyingOn(t, f, i, kind);
    }
  }

  /** All before a new first arrival is accounted for. */
  lemma ReachesOn(t: State, f: Flight, i: nat, kind: Reader)
    requires AllSafe(t, f.place, kind) && f.place + |f.entries| <= |t.history|
    requires f.entries == t.history[f.place..f.place + |f.entries|]
    requires i < f.consumed && Got(t.sink, f.entries[..i + 1], kind)
    ensures AllSafe(t, f.place + i + 1, kind)
  {
    hide Safe;
    forall j | 0 <= j < f.place + i + 1 ensures Safe(t, j, kind) {
      if j >= f.place { DeliveredSafe(t, f, i + 1, j, kind); }
    }
  }

  lemma FlyingOn(t: State, f: Flight, i: nat, kind: Reader)
    requires i < f.consumed && Reached(t.sink) == f.place + i + 1 && Got(t.sink, f.entries[..i + 1], kind)
    ensures forall j :: 0 <= j < f.consumed && f.place + j < Reached(t.sink) && kind(f.entries[j].line).Record? ==>
      kind(f.entries[j].line).id in t.sink.ids
  {
    forall j | 0 <= j < f.consumed && f.place + j < Reached(t.sink) && kind(f.entries[j].line).Record?
      ensures kind(f.entries[j].line).id in t.sink.ids
    {
      assert f.entries[j] == f.entries[..i + 1][j];
    }
  }

  lemma DeliveredSafe(t: State, f: Flight, n: nat, j: nat, kind: Reader)
    requires f.place + |f.entries| <= |t.history|
    requires f.entries == t.history[f.place..f.place + |f.entries|]
    requires n <= |f.entries| && f.place <= j < f.place + n && Got(t.sink, f.entries[..n], kind)
    ensures Safe(t, j, kind)
  {
    assert t.history[j] == f.entries[j - f.place] == f.entries[..n][j - f.place];
  }

  lemma {:induction false} ArriveInv(s: State, n: nat, kind: Reader)
    requires Inv(s, kind) && s.flight.Some? && n <= s.flight.value.consumed
    ensures var f := s.flight.value;
      var t := s.(sink := Arrive(s.sink, f.entries[..n], f.place, kind));
      Inv(t, kind) && Got(t.sink, f.entries[..n], kind)
  {
    hide Inv, Got;
    var f := s.flight.value;
    if n == 0 {
      GotNone(s.sink, kind);
      assert f.entries[..0] == [];
    } else {
      ArriveInv(s, n - 1, kind);
      ArriveSnoc(s.sink, f.entries, n - 1, f.place, kind);
      ArriveOneInv(s.(sink := Arrive(s.sink, f.entries[..n - 1], f.place, kind)), n - 1, kind);
    }
  }

  lemma GotNone(sink: Sink, kind: Reader)
    ensures Got(sink, [], kind)
  {
  }

  lemma AcknowledgeInv(s: State, kind: Reader, limits: Limits)
    requires Inv(s, kind) && s.flight.Some?
    ensures Inv(Next(s, Acknowledge, kind, limits), kind)
  {
    ArriveInv(s, s.flight.value.consumed, kind);
    hide Clean, Recorded, Counted, Placed, InOrder, Remembered, AllSafe, Arrive, Got;
    var f := s.flight.value;
    var t := s.(sink := Arrive(s.sink, f.entries[..f.consumed], f.place, kind));
    var u := t.(flight := Some(f.(acknowledged := true)));
    SafeGrows(t, u, f.place, kind);
    SameBut(t, u, kind);
  }

  lemma CommitInv(s: State, kind: Reader, limits: Limits)
    requires Inv(s, kind) && Enabled(s, Commit, kind)
    ensures Inv(Next(s, Commit, kind, limits), kind)
  {
    var f, t := s.flight.value, Next(s, Commit, kind, limits);
    hide Safe, AllSafe, Clean, Recorded, Counted, Remembered, Got;
    assert f.entries[f.consumed - 1] == s.history[f.place + f.consumed - 1];
    SafeGrows(s, t, s.gone, kind);
    SafeGrows(s, t, s.mark, kind);
    SafeGrows(s, t, f.place, kind);
    SafeGrows(s, t, Reached(s.sink), kind);
    CommittedSafe(t, f, kind);
    SameRecorded(s, t);
    SameCounted(s, t);
    RememberedGrows(s, t, kind);
  }

  /** What was acknowledged is accounted for. */
  lemma CommittedSafe(t: State, f: Flight, kind: Reader)
    requires AllSafe(t, f.place, kind) && f.place + |f.entries| <= |t.history|
    requires f.entries == t.history[f.place..f.place + |f.entries|] && Got(t.sink, f.entries[..f.consumed], kind)
    ensures AllSafe(t, f.place + f.consumed, kind)
  {
    hide Safe, Got;
    forall i | 0 <= i < f.place + f.consumed ensures Safe(t, i, kind) {
      if i >= f.place { DeliveredSafe(t, f, f.consumed, i, kind); }
    }
  }

  lemma LoseCursorInv(s: State, kind: Reader, limits: Limits)
    requires Inv(s, kind)
    ensures Inv(Next(s, LoseCursor, kind, limits), kind)
  {
    var t := Next(s, LoseCursor, kind, limits);
    SafeGrows(s, t, s.gone, kind);
    SafeGrows(s, t, s.mark, kind);
    SafeGrows(s, t, Reached(s.sink), kind);
    if s.flight.Some? { SafeGrows(s, t, s.flight.value.place, kind); }
    SameRecorded(s, t);
    SameCounted(s, t);
    RememberedGrows(s, t, kind);
  }

  lemma TornInv(s: State, lines: seq<seq<byte>>, written: nat, kind: Reader, limits: Limits)
    requires Inv(s, kind) && written <= |Join(lines)|
    ensures Inv(Next(s, TornAppend(lines, written), kind, limits), kind)
  {
    var bytes := Join(lines)[..written];
    hide Written, Repaired, Clean, All, Join;
    InvClean(s, kind);
    var extra := GrowClean(s.files, s.isOpen, bytes, limits.maxBytes);
    var w := Written(if s.isOpen then s.files else Repaired(s.files), bytes, limits.maxBytes);
    GrownInv(s, w, false, extra, kind);
    var t := Grown(s, w).(isOpen := false);
    SameBut(t, Died(t), kind);
  }

  lemma TornPruneInv(s: State, lines: seq<seq<byte>>, removed: nat, last: bool, kind: Reader, limits: Limits)
    requires Inv(s, kind) && Writable(lines, kind)
    ensures Inv(Next(s, TornPrune(lines, removed, last), kind, limits), kind)
  {
    hide Appended, Clean, All, Inv, Ids, Numbers, Unexported;
    InvClean(s, kind);
    var w := Appended(s.files, s.isOpen, lines, limits.maxBytes);
    var extra := AppendClean(s.files, s.isOpen, lines, limits.maxBytes, kind);
    GrownInv(s, w, true, extra, kind);
    var g := Grown(s, w).(isOpen := true);
    var n := Min(removed, Excess(w, limits.maxSegments));
    PrunedInv(g, n, last, kind);
    var t := Removed(g, n, last);
    InvClean(t, kind);
    DiedInv(t, kind);
  }

  lemma DiedInv(s: State, kind: Reader)
    requires Inv(s, kind)
    ensures Inv(Died(s), kind)
  {
    RestartClean(s, kind);
    SameBut(s, Died(s), kind);
  }

  /** Every step keeps the invariant. */
  lemma StepInv(s: State, step: Step, kind: Reader, limits: Limits)
    requires Inv(s, kind) && Enabled(s, step, kind)
    ensures Inv(Next(s, step, kind, limits), kind)
  {
    match step {
      case Append(lines) => AppendInv(s, lines, kind, limits);
      case TornAppend(lines, n) => TornInv(s, lines, n, kind, limits);
      case TornPrune(lines, n, last) => TornPruneInv(s, lines, n, last, kind, limits);
      case Restart => DiedInv(s, kind);
      case LoseCursor => LoseCursorInv(s, kind, limits);
      case Read => ReadInv(s, kind, limits);
      case Deliver(n) => ArriveInv(s, n, kind);
      case Acknowledge => AcknowledgeInv(s, kind, limits);
      case Fail(tooLarge) => SameBut(s, Next(s, step, kind, limits), kind);
      case Commit => CommitInv(s, kind, limits);
    }
  }

  lemma RestartClean(s: State, kind: Reader)
    requires Inv(s, kind)
    ensures Clean(s.files, false)
  {
  }

  // ---- whole runs ----

  /** A spool directory that does not exist yet. */
  function Fresh(limit: nat): State {
    State([], START, false, 0, limit, None, Sink([], []), [], 0, 0, 0, {}, {}, {}, {})
  }

  ghost predicate Runs(s: State, steps: seq<Step>, t: State, kind: Reader, limits: Limits)
    decreases |steps|
  {
    if steps == [] then t == s
    else Enabled(s, steps[0], kind) && Runs(Next(s, steps[0], kind, limits), steps[1..], t, kind, limits)
  }

  lemma {:induction false} RunInv(s: State, steps: seq<Step>, t: State, kind: Reader, limits: Limits)
    requires Inv(s, kind) && Runs(s, steps, t, kind, limits)
    ensures Inv(t, kind)
    decreases |steps|
  {
    if steps != [] {
      StepInv(s, steps[0], kind, limits);
      RunInv(Next(s, steps[0], kind, limits), steps[1..], t, kind, limits);
    }
  }

  /** A state some run of at most `limit` lines a batch reaches. */
  ghost predicate Reachable(t: State, kind: Reader, limits: Limits) {
    exists limit: nat, steps :: limit > 0 && Runs(Fresh(limit), steps, t, kind, limits)
  }

  lemma ReachableInv(t: State, kind: Reader, limits: Limits)
    requires Reachable(t, kind, limits)
    ensures Inv(t, kind)
  {
    var limit: nat, steps :| limit > 0 && Runs(Fresh(limit), steps, t, kind, limits);
    RunInv(Fresh(limit), steps, t, kind, limits);
  }

  /** No silent loss: over every run, a record whose append returned is still pending, or reached
      the sink, or lay in a segment that some process counted when it removed it, or in one that a
      process removed and died before it counted. The counter is of this process alone. */
  lemma NoSilentLoss(t: State, kind: Reader, limits: Limits, id: Id)
    requires Reachable(t, kind, limits) && id in t.appended
    ensures || id in t.sink.ids
            || (exists e <- Pending(t.files, t.cursor) :: kind(e.line).Record? && kind(e.line).id == id)
            || (exists e <- t.history ::
                  kind(e.line).Record? && kind(e.line).id == id && e.next.segment in t.counted + t.uncounted)
    ensures |t.now| == t.prunedUnexported && t.now <= t.counted
  {
    hide Clean, Recorded, InOrder, Flying, Reachable, Pending;
    ReachableInv(t, kind, limits);
    PendingIsTail(t, kind);
    assert InHistory(t, id, kind);
    var i :| 0 <= i < |t.history| && kind(t.history[i].line).Record? && kind(t.history[i].line).id == id;
    if i < t.gone || i < t.past {
      assert Safe(t, i, kind);
    } else {
      var e := Pending(t.files, t.cursor)[i - Max(t.gone, t.past)];
      assert e == t.history[i];
    }
  }

  /** The record at a place of the history is nowhere any more: not pending, not received, and in no
      segment a process counted. */
  ghost predicate LostUncounted(t: State, i: nat, kind: Reader)
    requires i < |t.history| && kind(t.history[i].line).Record?
  {
    && kind(t.history[i].line).id !in t.sink.ids
    && t.history[i] !in Pending(t.files, t.cursor)
    && t.history[i].next.segment !in t.counted
  }

  /** Exactly the records lost uncounted: those the sink did not receive of a segment that a process
      removed and died before it counted. */
  lemma LostExactly(t: State, kind: Reader, limits: Limits, i: nat)
    requires Reachable(t, kind, limits) && i < |t.history| && kind(t.history[i].line).Record?
    ensures LostUncounted(t, i, kind)
      <==> kind(t.history[i].line).id !in t.sink.ids && t.history[i].next.segment in t.uncounted
  {
    hide Clean, Flying, Reachable, Pending, Remembered;
    ReachableInv(t, kind, limits);
    PendingIsTail(t, kind);
    var m := Max(t.gone, t.past);
    if i < t.gone || i < t.past {
      assert Safe(t, i, kind);
      forall e <- t.history[m..] ensures Before(t.history[i].next, e.next) {
        var j :| 0 <= j < |t.history[m..]| && t.history[m..][j] == e;
        assert t.history[m + j] == e;
      }
      assert !Before(t.history[i].next, t.history[i].next);
    } else {
      assert t.history[m..][i - m] == t.history[i];
      PresentUncounted(t, i, kind);
    }
  }

  /** Only such a death adds to them: when it removed a last segment the cursor had not passed. */
  lemma UncountedExactly(s: State, step: Step, kind: Reader, limits: Limits)
    requires Enabled(s, step, kind)
    ensures Next(s, step, kind, limits).uncounted ==
      s.uncounted +
        if !step.TornPrune? || step.last then {}
        else
          var w := Appended(s.files, s.isOpen, step.lines, limits.maxBytes);
          var n := Min(step.removed, Excess(w, limits.maxSegments));
          Numbers(w[..n], s.cursor.segment) - Numbers(w[..if n == 0 then 0 else n - 1], s.cursor.segment)
  {
    hide Numbers, All, Appended, Pending, Run, Arrive, Records, Unexported;
    if step.Append? {
      var w := Appended(s.files, s.isOpen, step.lines, limits.maxBytes);
      var c := Numbers(w[..Excess(w, limits.maxSegments)], s.cursor.segment);
      assert c - c == {};
    }
  }

  /** A record appended, then lost with no count anywhere: the next append fills the spool's one segment,
      and the process dies between removing it and counting it. */
  lemma DiedBeforeCounting(first: seq<byte>, second: seq<byte>, kind: Reader)
    requires Writable([first], kind) && Writable([second], kind)
    ensures var limits := Limits(1, 1);
      var s := Next(Fresh(1), Append([first]), kind, limits);
      var t := Next(s, TornPrune([second], 1, false), kind, limits);
      && Reachable(t, kind, limits) && kind(first).id in t.appended
      && |t.history| > 0 && t.history[0].line == first && kind(first).Record? && LostUncounted(t, 0, kind)
      && t.counted == {} && t.prunedUnexported == 0
  {
    hide Reachable, LostUncounted, Numbers, Unexported, Entries, All, Next, Enabled;
    var limits := Limits(1, 1);
    var f, g := File(1, first + [NEWLINE]), File(2, second + [NEWLINE]);
    var a, b := Append([first]), TornPrune([second], 1, false);
    assert first in [first] && second in [second];
    assert Enabled(Fresh(1), a, kind) by { CanAppend(Fresh(1), [first], kind); }
    var s := Next(Fresh(1), a, kind, limits);
    FirstAppend(first, f, kind);
    assert Enabled(s, b, kind) by { CanAppend(s, [second], kind); }
    var t := Next(s, b, kind, limits);
    ThenDies(s, second, f, g, kind);
    RunsTwo(Fresh(1), a, b, kind, limits);
    LostExactly(t, kind, limits, 0);
  }

  lemma CanAppend(s: State, lines: seq<seq<byte>>, kind: Reader)
    requires Writable(lines, kind)
    ensures Enabled(s, Append(lines), kind) && Enabled(s, TornPrune(lines, 1, false), kind)
  {
  }

  lemma FirstAppend(first: seq<byte>, f: File, kind: Reader)
    requires Writable([first], kind) && f == File(1, first + [NEWLINE])
    ensures var s := Next(Fresh(1), Append([first]), kind, Limits(1, 1));
      && s == Fresh(1).(files := [f], history := All([f]), isOpen := true, appended := Ids([first], kind))
      && |All([f])| == 1 && All([f])[0].line == first && All([f])[0].next.segment == 1
      && kind(first).Record? && kind(first).id in s.appended
  {
    hide Numbers, Unexported, Entries;
    assert first in [first];
    JoinOne(first);
    OneLine(f, first);
    assert Appended([], false, [first], 1) == [f];
    assert Completed([], [f]) == All([f]);
    var none: seq<Entry> := [];
    assert [f][..0] == [] && [f][0..] == [f] && none + All([f]) == All([f]);
    NoneUnexported(0);
    assert kind(first).id in Ids([first], kind);
  }

  lemma ThenDies(s: State, second: seq<byte>, f: File, g: File, kind: Reader)
    requires Writable([second], kind) && g == File(2, second + [NEWLINE]) && f.number == 1 && f.data != []
    requires s.files == [f] && s.isOpen && s.history == All([f]) && All([f]) != [] && s.cursor == START
    requires s.counted == {} && s.uncounted == {} && s.now == {} && s.prunedUnexported == 0
    requires Enabled(s, TornPrune([second], 1, false), kind)
    ensures var t := Next(s, TornPrune([second], 1, false), kind, Limits(1, 1));
      && t.history != [] && t.history[0] == All([f])[0] && t.sink == s.sink && t.appended == s.appended
      && 1 in t.uncounted && t.counted == {} && t.prunedUnexported == 0
  {
    hide Numbers, Unexported, Entries, All, Enabled;
    JoinOne(second);
    assert Appended([f], true, [second], 1) == [f, g];
    AllFirst(f, g);
    assert [f, g][..1] == [f] && [f, g][..0] == [];
    NumbersHas([f], 0, 0);
    NoneUnexported(0);
  }

  lemma RunsTwo(s: State, a: Step, b: Step, kind: Reader, limits: Limits)
    requires s == Fresh(1) && Enabled(s, a, kind) && Enabled(Next(s, a, kind, limits), b, kind)
    ensures Reachable(Next(Next(s, a, kind, limits), b, kind, limits), kind, limits)
  {
    hide Next, Enabled;
    var t := Next(Next(s, a, kind, limits), b, kind, limits);
    assert [a, b][1..] == [b] && [b][1..] == [];
    assert Runs(t, [], t, kind, limits);
    assert Runs(Next(s, a, kind, limits), [b], t, kind, limits);
    assert Runs(s, [a, b], t, kind, limits);
    var limit: nat := 1;
    assert Runs(Fresh(limit), [a, b], t, kind, limits);
  }

  lemma JoinOne(line: seq<byte>)
    ensures Join([line]) == line + [NEWLINE]
  {
    assert [line][1..] == [];
    assert Join([]) == [];
  }

  lemma LineEndIs(line: seq<byte>)
    requires IsLine(line)
    ensures LineEnd(line + [NEWLINE]) == |line|
  {
    var d := line + [NEWLINE];
    assert d[|line|] == NEWLINE && forall k :: 0 <= k < |line| ==> d[k] != NEWLINE;
  }

  lemma OneLine(f: File, line: seq<byte>)
    requires IsLine(line) && |line| < READ_BYTES && f.data == line + [NEWLINE]
    ensures |All([f])| == 1 && All([f])[0].line == line && All([f])[0].next.segment == f.number
  {
    assert [f][1..] == [];
    LineEndIs(line);
    var n, first, rest := EntriesStep(f.number, 0, f.data);
    assert f.data[..|line|] == line && f.data[|line| + 1..] == [];
  }

  lemma AllFirst(f: File, g: File)
    requires All([f]) != []
    ensures |All([f, g])| >= |All([f])| && All([f, g])[..|All([f])|] == All([f])
  {
    AllConcat([f], [g]);
    assert [f] + [g] == [f, g];
  }

  /** First arrivals follow the order of the spool, and before the furthest no record is missing
      but those in a removed segment. */
  lemma ArrivalsInOrder(t: State, kind: Reader, limits: Limits)
    requires Reachable(t, kind, limits)
    ensures |t.sink.ids| == |t.sink.places|
    ensures Ordered(t.history)
    ensures forall i, j :: 0 <= i < j < |t.sink.places| ==> t.sink.places[i] < t.sink.places[j] < |t.history|
    ensures forall i :: 0 <= i < |t.sink.places| ==> t.sink.places[i] < |t.history|
    ensures forall i :: 0 <= i < |t.sink.places| && t.sink.places[i] < |t.history| ==>
      (var k := kind(t.history[t.sink.places[i]].line); k.Record? && k.id == t.sink.ids[i])
    ensures forall p :: 0 <= p < Reached(t.sink) && p < |t.history| ==> Safe(t, p, kind)
  {
    hide Clean, Counted, Placed, Flying, Remembered, Reachable, Safe;
    ReachableInv(t, kind, limits);
  }

  /** The persisted cursor never moves back, unless the cursor file is lost. */
  lemma CursorAdvances(s: State, step: Step, kind: Reader, limits: Limits)
    requires Reachable(s, kind, limits) && Enabled(s, step, kind) && !step.LoseCursor?
    ensures var t := Next(s, step, kind, limits); t.cursor == s.cursor || Before(s.cursor, t.cursor)
  {
    hide Clean, Counted, Remembered, InOrder, AllSafe, Reachable, Pending, All, Arrive;
    ReachableInv(s, kind, limits);
    if step.Commit? {
      var f := s.flight.value;
      var e := s.history[f.place + f.consumed - 1];
      assert f.entries[f.consumed - 1] == e;
      if s.past > 0 { assert Before(s.history[s.past - 1].next, e.next); }
    }
  }

  /** Halving after a refusal never stops the export: at least one line always travels. */
  lemma BatchesNeverEmpty(s: State, kind: Reader, limits: Limits)
    requires Reachable(s, kind, limits) && s.flight.None? && Pending(s.files, s.cursor) != []
    ensures Next(s, Read, kind, limits).flight.Some?
  {
    hide Clean, Recorded, Placed, Counted, InOrder, Flying, Remembered, AllSafe, Reachable, Pending, Records;
    ReachableInv(s, kind, limits);
  }

  // ---- how much the spool keeps ----

  /** Every segment but the newest is full. */
  ghost predicate Full(files: seq<File>, maxBytes: int) {
    forall i :: 0 <= i < |files| - 1 ==> |files[i].data| >= maxBytes
  }

  /** Once a segment was removed before it was exported, at least as many as fit are there. */
  ghost predicate Crowded(s: State, maxSegments: nat) {
    s.counted + s.uncounted != {} ==> |s.files| >= AtLeastOne(maxSegments)
  }

  lemma WriteFull(files: seq<File>, w: seq<File>, bytes: seq<byte>, maxBytes: int)
    requires Full(files, maxBytes) && Ends(files, bytes, maxBytes, w)
    ensures Full(w, maxBytes) && |w| >= |files| && w != []
  {
    forall i | 0 <= i < |w| - 1 ensures |w[i].data| >= maxBytes {
      if files != [] && |files[|files| - 1].data| < maxBytes {
        assert w[i] == w[..|files| - 1][i] == files[i];
      } else {
        assert w[i] == w[..|files|][i] == files[i];
      }
    }
  }

  lemma RepairFull(files: seq<File>, maxBytes: int)
    requires Full(files, maxBytes)
    ensures Full(Repaired(files), maxBytes) && |Repaired(files)| == |files|
  {
  }

  /** What an append or a torn one leaves before it prunes. */
  lemma GrownFull(s: State, bytes: seq<byte>, limits: Limits)
    requires Full(s.files, limits.maxBytes) && Crowded(s, limits.maxSegments)
    ensures var w := Written(if s.isOpen then s.files else Repaired(s.files), bytes, limits.maxBytes);
      Full(w, limits.maxBytes) && Crowded(Grown(s, w), limits.maxSegments) && w != []
  {
    hide Full, Ends, Written, Repaired;
    var r := if s.isOpen then s.files else Repaired(s.files);
    RepairFull(s.files, limits.maxBytes);
    WriteEnds(r, bytes, limits.maxBytes);
    WriteFull(r, Written(r, bytes, limits.maxBytes), bytes, limits.maxBytes);
  }

  lemma RemovedFull(s: State, n: nat, last: bool, limits: Limits)
    requires Full(s.files, limits.maxBytes) && Crowded(s, limits.maxSegments) && s.files != []
    requires n <= Excess(s.files, limits.maxSegments)
    ensures var t := Removed(s, n, last); Full(t.files, limits.maxBytes) && Crowded(t, limits.maxSegments)
  {
    hide Numbers, Unexported, All, Excess;
    KeptEnough(s.files, limits.maxSegments);
    if n == 0 {
      NoneUnexported(s.cursor.segment);
      assert s.files[..0] == [];
    }
  }

  lemma KeptEnough(files: seq<File>, maxSegments: nat)
    requires files != []
    ensures Excess(files, maxSegments) < |files|
    ensures Excess(files, maxSegments) > 0 ==> |files| - Excess(files, maxSegments) == AtLeastOne(maxSegments)
  {
  }

  lemma StepFull(s: State, step: Step, kind: Reader, limits: Limits)
    requires Enabled(s, step, kind) && Full(s.files, limits.maxBytes) && Crowded(s, limits.maxSegments)
    ensures var t := Next(s, step, kind, limits); Full(t.files, limits.maxBytes) && Crowded(t, limits.maxSegments)
  {
    hide Full, Written, Repaired, Removed, Completed, Ids, Pending, Run, Records, Arrive, Prefix, Excess, Join;
    match step {
      case Append(lines) =>
        GrownFull(s, Join(lines), limits);
        var g := Grown(s, Appended(s.files, s.isOpen, lines, limits.maxBytes));
        RemovedFull(g, Excess(g.files, limits.maxSegments), true, limits);
      case TornAppend(lines, n) => GrownFull(s, Join(lines)[..n], limits);
      case TornPrune(lines, n, last) =>
        GrownFull(s, Join(lines), limits);
        var g := Grown(s, Appended(s.files, s.isOpen, lines, limits.maxBytes));
        RemovedFull(g, Min(n, Excess(g.files, limits.maxSegments)), last, limits);
      case _ =>
    }
  }

  lemma {:induction false} RunFull(s: State, steps: seq<Step>, t: State, kind: Reader, limits: Limits)
    requires Runs(s, steps, t, kind, limits) && Full(s.files, limits.maxBytes) && Crowded(s, limits.maxSegments)
    ensures Full(t.files, limits.maxBytes) && Crowded(t, limits.maxSegments)
    decreases |steps|
  {
    hide Full, Crowded, Next, Enabled;
    if steps != [] {
      StepFull(s, steps[0], kind, limits);
      RunFull(Next(s, steps[0], kind, limits), steps[1..], t, kind, limits);
    }
  }

  lemma ReachableFull(t: State, kind: Reader, limits: Limits)
    requires Reachable(t, kind, limits)
    ensures Full(t.files, limits.maxBytes) && Crowded(t, limits.maxSegments)
  {
    var limit: nat, steps :| limit > 0 && Runs(Fresh(limit), steps, t, kind, limits);
    RunFull(Fresh(limit), steps, t, kind, limits);
  }

  function Bytes(files: seq<File>): nat {
    if files == [] then 0 else |files[0].data| + Bytes(files[1..])
  }

  lemma {:induction false} FullBytes(files: seq<File>, maxBytes: int)
    requires Full(files, maxBytes) && files != []
    ensures Bytes(files) >= (|files| - 1) * maxBytes
  {
    if |files| > 1 { FullBytes(files[1..], maxBytes); }
  }

  /** Over every run under the same limits, all but the newest segment are full; and a segment that was
      removed before it was exported, counted or not, has at least as many newer ones as the bound keeps: so
      nothing is lost while the spool holds fewer bytes than the full ones among them. */
  lemma RemovedOnlyWhenFull(t: State, kind: Reader, limits: Limits, n: nat)
    requires Reachable(t, kind, limits)
    ensures Sorted(t.files) && forall i :: 0 <= i < |t.files| - 1 ==> |t.files[i].data| >= limits.maxBytes
    ensures n in t.counted + t.uncounted ==>
      && |t.files| >= AtLeastOne(limits.maxSegments)
      && (forall f <- t.files :: n < f.number)
      && (limits.maxBytes >= 0 ==> Bytes(t.files) >= (AtLeastOne(limits.maxSegments) - 1) * limits.maxBytes)
  {
    hide Reachable, Recorded, Placed, InOrder, Flying, Remembered, AllSafe, Bytes;
    ReachableInv(t, kind, limits);
    CleanSorted(t.files, t.isOpen);
    ReachableFull(t, kind, limits);
    if n in t.counted + t.uncounted {
      assert forall i :: 0 <= i < |t.files| ==> t.files[0].number <= t.files[i].number;
      FullBytes(t.files, limits.maxBytes);
      if limits.maxBytes >= 0 { Times(AtLeastOne(limits.maxSegments) - 1, |t.files| - 1, limits.maxBytes); }
    }
  }

  lemma Times(a: nat, b: nat, c: int)
    requires a <= b && c >= 0
    ensures a * c <= b * c
  {
  }

  /** An append, told without the functions it is made of; and a full segment only ever gets the newline
      that ends a torn line. */
  lemma AppendIs(s: State, lines: seq<seq<byte>>, kind: Reader, limits: Limits)
    requires Reachable(s, kind, limits) && Enabled(s, Append(lines), kind)
    ensures var t := Next(s, Append(lines), kind, limits);
      && AppendLeaves(s.files, s.isOpen, Join(lines), limits.maxBytes, limits.maxSegments, t.files)
      && (forall f <- s.files, g <- t.files :: f.number == g.number && |f.data| >= limits.maxBytes
            ==> g.data == f.data || g.data == f.data + [NEWLINE])
  {
    hide Reachable, Inv, AppendLeaves, Ids, Numbers, Unexported, All, Join, Written, Repaired, Sorted;
    ReachableInv(s, kind, limits);
    InvClean(s, kind);
    CleanSorted(s.files, s.isOpen);
    AppendKeepsNewest(s.files, s.isOpen, lines, limits.maxBytes, limits.maxSegments);
    var r := if s.isOpen then s.files else Repaired(s.files);
    var w := Written(r, Join(lines), limits.maxBytes);
    RepairEnds(s.files);
    WriteEnds(r, Join(lines), limits.maxBytes);
    var t := Next(s, Append(lines), kind, limits);
    forall f, g | f in s.files && g in t.files && f.number == g.number && |f.data| >= limits.maxBytes
      ensures g.data == f.data || g.data == f.data + [NEWLINE]
    {
      assert g in w;
      ClosedStays(s.files, r, w, Join(lines), limits.maxBytes, f, g);
    }
  }

  lemma ClosedStays(was: seq<File>, r: seq<File>, w: seq<File>, bytes: seq<byte>, maxBytes: int, f: File, g: File)
    requires Sorted(was) && (r == was || EndsItsLine(was, r)) && Ends(r, bytes, maxBytes, w)
    requires f in was && g in w && f.number == g.number && |f.data| >= maxBytes
    ensures g.data == f.data || g.data == f.data + [NEWLINE]
  {
    var i :| 0 <= i < |was| && was[i] == f;
    var j :| 0 <= j < |w| && w[j] == g;
    assert forall k :: 0 <= k < |was| ==> r[k].number == was[k].number;
    assert j < |r| ==> w[j].number == was[j].number by {
      if j < |r| - 1 { assert w[j] == w[..|r| - 1][j]; }
      if j == |r| - 1 && |w| == |r| + 1 { assert w[j] == w[..|r|][j]; }
    }
    assert i == j;
    if |w| == |r| + 1 {
      assert w[j] == w[..|r|][j];
    } else if j < |r| - 1 {
      assert w[j] == w[..|r| - 1][j];
    }
  }

  /** A batch that failed is read again from the same place: the same batch, or of one refused for its size at most
      half as many lines as might travel before, and at least one. */
  lemma FailedBatchIsRetried(s: State, tooLarge: bool, kind: Reader, limits: Limits)
    requires Reachable(s, kind, limits) && s.flight.None? && Next(s, Read, kind, limits).flight.Some?
    ensures var a := Next(s, Read, kind, limits);
      var b := Next(a, Fail(tooLarge), kind, limits);
      var c := Next(b, Read, kind, limits);
      && b == s.(limit := b.limit) && c.flight.Some?
      && c.flight.value.place == a.flight.value.place
      && c.flight.value.entries <= a.flight.value.entries
      && (if tooLarge && s.limit > 1 then 1 <= b.limit && 2 * b.limit <= s.limit <= 2 * b.limit + 1 else c == a)
      && |c.flight.value.entries| <= b.limit
  {
    hide Clean, Recorded, Placed, Counted, InOrder, Flying, Remembered, AllSafe, Reachable, Pending, Records, Run;
    ReachableInv(s, kind, limits);
    var pending := Pending(s.files, s.cursor);
    var b := Next(Next(s, Read, kind, limits), Fail(tooLarge), kind, limits);
    PrefixShorter(pending, b.limit, s.limit);
    RunsSome(Prefix(pending, s.limit), kind);
    RunsSome(Prefix(pending, b.limit), kind);
  }

  lemma PrefixShorter<T>(s: seq<T>, a: nat, b: nat)
    requires 0 < a <= b
    ensures Prefix(s, a) <= Prefix(s, b) && |Prefix(s, a)| <= a
    ensures Prefix(s, a) == [] <==> s == []
    ensures Prefix(s, b) == [] <==> s == []
  {
  }

  lemma RunsSome(entries: seq<Entry>, kind: Reader)
    ensures Run(entries, kind, None) == 0 <==> entries == []
  {
  }
}
