/** Moving old request rows to an archive behind a mark that reports read by, one chunk for each day of
    a batch. */
module Retention {
  import opened Options

  /** Seconds since the epoch, UTC. */
  type Time = int

  type Day = int

  const DAY := 86400
  const BATCH: nat := 5000
  const MAX_BATCHES: nat := 20

  datatype Row = Row(id: string, at: Time)

  datatype Chunk = Chunk(day: Day, count: nat, records: seq<Row>)

  function DayOf(at: Time): Day {
    at / DAY
  }

  function Midnight(day: Day): Time {
    day * DAY
  }

  /** The first day kept in detail; none keeps all. */
  function CutoffDay(now: Time, retentionDays: int): Option<Day> {
    if retentionDays <= 0 then None else Some(DayOf(now) - retentionDays)
  }

  lemma BeforeMidnight(at: Time, day: Day)
    ensures at < Midnight(day) <==> DayOf(at) < day
  {
  }

  // ---- rows in start order ----

  predicate IdBefore(a: string, b: string)
    decreases |a|
  {
    if b == "" then false
    else if a == "" then true
    else a[0] < b[0] || (a[0] == b[0] && IdBefore(a[1..], b[1..]))
  }

  predicate RowBefore(a: Row, b: Row) {
    a.at < b.at || (a.at == b.at && IdBefore(a.id, b.id))
  }

  /** By when they started. */
  predicate InOrder(rows: seq<Row>) {
    forall i, j :: 0 <= i < j < |rows| ==> rows[i].at <= rows[j].at
  }

  function Inserted(rows: seq<Row>, r: Row): seq<Row> {
    if rows == [] then [r]
    else if RowBefore(r, rows[0]) then [r] + rows
    else [rows[0]] + Inserted(rows[1..], r)
  }

  /** How many of the rows started before the cutoff: they come first. */
  function Due(rows: seq<Row>, cutoff: Day): (n: nat)
    ensures n <= |rows|
  {
    if rows == [] || rows[0].at >= Midnight(cutoff) then 0 else 1 + Due(rows[1..], cutoff)
  }

  lemma {:induction false} DueIsBefore(rows: seq<Row>, cutoff: Day)
    requires InOrder(rows)
    ensures forall i :: 0 <= i < |rows| ==> (i < Due(rows, cutoff) <==> DayOf(rows[i].at) < cutoff)
  {
    if rows != [] {
      BeforeMidnight(rows[0].at, cutoff);
      if rows[0].at < Midnight(cutoff) {
        DueIsBefore(rows[1..], cutoff);
        forall i | 1 <= i < |rows| ensures i < Due(rows, cutoff) <==> DayOf(rows[i].at) < cutoff {
          assert rows[i] == rows[1..][i - 1];
        }
      } else {
        forall i | 0 <= i < |rows| ensures !(DayOf(rows[i].at) < cutoff) {
          BeforeMidnight(rows[i].at, cutoff);
        }
      }
    }
  }

  // ---- chunks ----

  /** One more row, in the last chunk if it is that day's. */
  function Grouped(chunks: seq<Chunk>, r: Row): seq<Chunk> {
    var n := |chunks|;
    if n > 0 && chunks[n - 1].day == DayOf(r.at) then
      chunks[n - 1 := Chunk(chunks[n - 1].day, chunks[n - 1].count + 1, chunks[n - 1].records + [r])]
    else chunks + [Chunk(DayOf(r.at), 1, [r])]
  }

  function ByDay(rows: seq<Row>): seq<Chunk> {
    if rows == [] then [] else Grouped(ByDay(rows[..|rows| - 1]), rows[|rows| - 1])
  }

  function Flat(chunks: seq<Chunk>): seq<Row> {
    if chunks == [] then [] else Flat(chunks[..|chunks| - 1]) + chunks[|chunks| - 1].records
  }

  /** A chunk of one day's rows, counted. */
  predicate Sealed(c: Chunk) {
    c.records != [] && c.count == |c.records| && forall r <- c.records :: DayOf(r.at) == c.day
  }

  predicate AllSealed(chunks: seq<Chunk>) {
    forall c <- chunks :: Sealed(c)
  }

  /** No two chunks are of one day, and days ascend. */
  predicate Ascending(chunks: seq<Chunk>) {
    forall i, j :: 0 <= i < j < |chunks| ==> chunks[i].day < chunks[j].day
  }

  lemma FlatSnoc(chunks: seq<Chunk>, c: Chunk)
    ensures Flat(chunks + [c]) == Flat(chunks) + c.records
  {
    assert (chunks + [c])[..|chunks|] == chunks;
  }

  lemma GroupedKeeps(chunks: seq<Chunk>, r: Row)
    requires AllSealed(chunks) && Ascending(chunks)
    requires chunks != [] ==> chunks[|chunks| - 1].day <= DayOf(r.at)
    ensures AllSealed(Grouped(chunks, r)) && Ascending(Grouped(chunks, r))
    ensures Flat(Grouped(chunks, r)) == Flat(chunks) + [r]
    ensures Grouped(chunks, r) != [] && Grouped(chunks, r)[|Grouped(chunks, r)| - 1].day == DayOf(r.at)
  {
    hide Flat;
    var n := |chunks|;
    if n > 0 && chunks[n - 1].day == DayOf(r.at) {
      var init, last := chunks[..n - 1], chunks[n - 1];
      var grown := Chunk(last.day, last.count + 1, last.records + [r]);
      assert chunks == init + [last] && Grouped(chunks, r) == init + [grown];
      FlatSnoc(init, last);
      FlatSnoc(init, grown);
      assert Flat(init) + last.records + [r] == Flat(init) + (last.records + [r]);
      assert last in chunks && Sealed(grown);
    } else {
      FlatSnoc(chunks, Chunk(DayOf(r.at), 1, [r]));
    }
  }

  /** A batch's chunks hold its rows, each in its own day's one chunk, and count them. */
  lemma {:induction false} ByDayHolds(rows: seq<Row>)
    requires InOrder(rows)
    ensures Flat(ByDay(rows)) == rows && AllSealed(ByDay(rows)) && Ascending(ByDay(rows))
    ensures rows != [] ==> ByDay(rows) != [] && ByDay(rows)[|ByDay(rows)| - 1].day == DayOf(rows[|rows| - 1].at)
    ensures |ByDay(rows)| <= |rows|
  {
    hide Flat, Grouped, AllSealed, Ascending, InOrder;
    if rows == [] {
      NoChunks();
    } else {
      var init, last := rows[..|rows| - 1], rows[|rows| - 1];
      PrefixInOrder(rows, |rows| - 1);
      ByDayHolds(init);
      LastTwo(rows);
      GroupedKeeps(ByDay(init), last);
      GroupedLength(ByDay(init), last);
      assert rows == init + [last];
    }
  }

  lemma GroupedLength(chunks: seq<Chunk>, r: Row)
    ensures |Grouped(chunks, r)| <= |chunks| + 1
  {
  }

  lemma LastTwo(rows: seq<Row>)
    requires InOrder(rows) && rows != []
    ensures |rows| > 1 ==> DayOf(rows[|rows| - 2].at) <= DayOf(rows[|rows| - 1].at)
  {
  }

  lemma NoChunks()
    ensures Flat([]) == [] && AllSealed([]) && Ascending([])
  {
  }

  // ---- tables ----

  /** The detailed rows in start order, the archive, and the first day reports read in detail. */
  datatype Tables = Tables(hot: seq<Row>, archive: seq<Chunk>, mark: Option<Day>)

  function Advanced(t: Tables, cutoff: Day): Tables {
    t.(mark := Some(if t.mark.Some? && t.mark.value > cutoff then t.mark.value else cutoff))
  }

  function Min(a: nat, b: nat): nat {
    if a < b then a else b
  }

  function Moved(t: Tables, cutoff: Day, batch: nat): nat {
    Min(Due(t.hot, cutoff), batch)
  }

  function Archived(t: Tables, cutoff: Day, batch: nat): Tables {
    var n := Moved(t, cutoff, batch);
    t.(hot := t.hot[n..], archive := t.archive + ByDay(t.hot[..n]))
  }

  function Arrived(t: Tables, r: Row): Tables {
    t.(hot := Inserted(t.hot, r))
  }

  class Database {
    var tables: Tables

    constructor ()
      ensures tables == Tables([], [], None)
    {
      tables := Tables([], [], None);
    }

    /** Raises the mark to the cutoff, or leaves it. */
    method AdvanceArchivedBefore(cutoff: Day)
      modifies this
      ensures tables == Advanced(old(tables), cutoff)
    {
      tables := tables.(mark := Some(if tables.mark.Some? && tables.mark.value > cutoff then tables.mark.value else cutoff));
    }

    /** Archives a batch of the oldest due rows. */
    method ArchiveBatch(cutoff: Day, batch: nat) returns (moved: nat, written: nat)
      modifies this
      ensures tables == Archived(old(tables), cutoff, batch)
      ensures moved == Moved(old(tables), cutoff, batch) && written == |ByDay(old(tables).hot[..moved])|
    {
      var n := Moved(tables, cutoff, batch);
      var chunks := Chunks(tables.hot[..n]);
      tables := tables.(hot := tables.hot[n..], archive := tables.archive + chunks);
      moved, written := n, |chunks|;
    }

    /** One sweep: `locks` says at which transactions this replica gets the lock. Unless it lost the lock or
        ran out of batches, it leaves no row from before the cutoff. */
    method Sweep(cutoff: Day, locks: seq<bool>) returns (archived: nat)
      requires |locks| == MAX_BATCHES + 1 && InOrder(tables.hot)
      modifies this
      ensures !locks[0] ==> tables == old(tables) && archived == 0
      ensures locks[0] ==>
        && tables.mark == Advanced(old(tables), cutoff).mark
        && archived <= Due(old(tables).hot, cutoff)
        && tables.hot == old(tables).hot[archived..]
        && Every(tables) == Every(old(tables))
      ensures (forall i :: 0 <= i <= MAX_BATCHES ==> locks[i]) ==>
        archived == Min(Due(old(tables).hot, cutoff), MAX_BATCHES * BATCH)
    {
      hide Archived, Due, Moved, InOrder, Every, Advanced, ByDay, Min, Sweeping;
      archived := 0;
      if !locks[0] { return; }
      EveryAdvanced(tables, cutoff);
      AdvanceArchivedBefore(cutoff);
      ghost var start := tables;
      SweepBegins(start, cutoff);
      var i := 0;
      while i < MAX_BATCHES
        invariant 0 <= i <= MAX_BATCHES && Sweeping(start, tables, archived, i, cutoff)
      {
        SweepIs(start, tables, archived, i, cutoff);
        if !locks[i + 1] { return; }
        SweepGoesOn(start, tables, archived, i, cutoff);
        var moved, _ := ArchiveBatch(cutoff, BATCH);
        archived := archived + moved;
        i := i + 1;
        if moved < BATCH { break; }
      }
      SweepIs(start, tables, archived, i, cutoff);
    }
  }

  /** What a sweep has moved after some batches. */
  ghost predicate Sweeping(start: Tables, t: Tables, archived: nat, i: nat, cutoff: Day) {
    && (archived == Min(Due(start.hot, cutoff), i * BATCH))
    && t.mark == start.mark && Every(t) == Every(start)
    && archived <= |start.hot| && t.hot == start.hot[archived..] && Due(t.hot, cutoff) == Due(start.hot, cutoff) - archived
    && InOrder(t.hot)
  }

  lemma SweepBegins(start: Tables, cutoff: Day)
    requires InOrder(start.hot)
    ensures Sweeping(start, start, 0, 0, cutoff)
  {
    hide Due, InOrder, Every;
    assert start.hot[0..] == start.hot;
  }

  lemma SweepIs(start: Tables, t: Tables, archived: nat, i: nat, cutoff: Day)
    requires Sweeping(start, t, archived, i, cutoff)
    ensures t.mark == start.mark && Every(t) == Every(start) && InOrder(t.hot)
    ensures archived <= Due(start.hot, cutoff) && archived <= |start.hot| && t.hot == start.hot[archived..]
    ensures i == MAX_BATCHES ==> archived == Min(Due(start.hot, cutoff), MAX_BATCHES * BATCH)
  {
    hide Due, InOrder, Every;
  }

  /** One more batch; one that is not full is the last. */
  lemma SweepGoesOn(start: Tables, t: Tables, archived: nat, i: nat, cutoff: Day)
    requires Sweeping(start, t, archived, i, cutoff) && i < MAX_BATCHES
    ensures var n := Moved(t, cutoff, BATCH);
      && Sweeping(start, Archived(t, cutoff, BATCH), archived + n, i + 1, cutoff)
      && (n < BATCH ==> archived + n == Min(Due(start.hot, cutoff), MAX_BATCHES * BATCH))
  {
    hide Archived, Due, Moved, InOrder, Every;
    BatchIs(start, t, archived, cutoff);
  }

  lemma EveryAdvanced(t: Tables, cutoff: Day)
    ensures Every(Advanced(t, cutoff)) == Every(t) && Advanced(t, cutoff).hot == t.hot
  {
  }

  lemma DropDrop<T>(s: seq<T>, n: nat, m: nat)
    requires n + m <= |s|
    ensures s[n..][m..] == s[n + m..]
  {
  }

  /** One more batch of a sweep. */
  lemma BatchIs(start: Tables, t: Tables, archived: nat, cutoff: Day)
    requires InOrder(t.hot) && archived <= |start.hot| && t.hot == start.hot[archived..]
    ensures var n, after := Moved(t, cutoff, BATCH), Archived(t, cutoff, BATCH);
      && n == Min(Due(t.hot, cutoff), BATCH)
      && archived + n <= |start.hot| && after.hot == start.hot[archived + n..]
      && after.mark == t.mark && Every(after) == Every(t) && InOrder(after.hot)
      && Due(after.hot, cutoff) == Due(t.hot, cutoff) - n
  {
    hide Archived, Due, Moved, InOrder, Every;
    ArchivedIs(t, cutoff, BATCH);
    ArchivedKeepsEvery(t, cutoff, BATCH);
    DropDrop(start.hot, archived, Moved(t, cutoff, BATCH));
  }

  lemma ArchivedIs(t: Tables, cutoff: Day, batch: nat)
    ensures var n, after := Moved(t, cutoff, batch), Archived(t, cutoff, batch);
      && n == Min(Due(t.hot, cutoff), batch) && n <= |t.hot|
      && after.hot == t.hot[n..] && after.mark == t.mark
      && Due(after.hot, cutoff) == Due(t.hot, cutoff) - n
      && (InOrder(t.hot) ==> InOrder(after.hot))
  {
    hide Due, ByDay;
    DueRest(t.hot, cutoff, Moved(t, cutoff, batch));
  }

  lemma {:induction false} DueRest(rows: seq<Row>, cutoff: Day, n: nat)
    requires n <= Due(rows, cutoff)
    ensures Due(rows[n..], cutoff) == Due(rows, cutoff) - n
  {
    if n > 0 {
      assert rows[n..] == rows[1..][n - 1..];
      DueRest(rows[1..], cutoff, n - 1);
    } else {
      assert rows[0..] == rows;
    }
  }

  method Chunks(rows: seq<Row>) returns (chunks: seq<Chunk>)
    ensures chunks == ByDay(rows)
  {
    chunks := [];
    var i := 0;
    while i < |rows|
      invariant 0 <= i <= |rows| && chunks == ByDay(rows[..i])
    {
      assert rows[..i + 1][..i] == rows[..i];
      chunks := Grouped(chunks, rows[i]);
      i := i + 1;
    }
    assert rows[..i] == rows;
  }

  // ---- whole runs ----

  type Replica = nat

  /** The tables, every row that ever arrived, and the cutoff each replica is sweeping to. */
  datatype State = State(tables: Tables, arrived: seq<Row>, sweeping: map<Replica, Day>)

  datatype Event =
    | Arrives(row: Row)
    | Sweeps(replica: Replica, now: Time, retentionDays: int)
    | Moves(replica: Replica, batch: nat)

  function Next(st: State, e: Event): State {
    match e
    case Arrives(r) => st.(tables := Arrived(st.tables, r), arrived := st.arrived + [r])
    case Sweeps(replica, now, days) =>
      var cutoff := CutoffDay(now, days);
      if cutoff.None? then st
      else st.(tables := Advanced(st.tables, cutoff.value), sweeping := st.sweeping[replica := cutoff.value])
    case Moves(replica, batch) =>
      if replica in st.sweeping then st.(tables := Archived(st.tables, st.sweeping[replica], batch)) else st
  }

  function Run(events: seq<Event>): State {
    if events == [] then State(Tables([], [], None), [], map[])
    else Next(Run(events[..|events| - 1]), events[|events| - 1])
  }

  /** How many of the rows a report would count. */
  function Count(rows: seq<Row>, counts: Row -> bool): nat {
    if rows == [] then 0 else Count(rows[..|rows| - 1], counts) + (if counts(rows[|rows| - 1]) then 1 else 0)
  }

  /** The same rows, each as often. */
  ghost predicate Same(a: seq<Row>, b: seq<Row>) {
    forall counts: Row -> bool :: Count(a, counts) == Count(b, counts)
  }

  function Every(t: Tables): seq<Row> {
    Flat(t.archive) + t.hot
  }

  ghost predicate Inv(st: State) {
    && InOrder(st.tables.hot) && AllSealed(st.tables.archive)
    && Same(Every(st.tables), st.arrived)
    && (st.sweeping != map[] ==> st.tables.mark.Some?)
    && (forall r <- st.sweeping :: st.tables.mark.Some? && st.sweeping[r] <= st.tables.mark.value)
    && (forall c <- st.tables.archive :: st.tables.mark.Some? && c.day < st.tables.mark.value)
  }

  lemma {:induction false} CountConcat(a: seq<Row>, b: seq<Row>, counts: Row -> bool)
    ensures Count(a + b, counts) == Count(a, counts) + Count(b, counts)
  {
    if b == [] {
      assert a + b == a;
    } else {
      assert (a + b)[..|a + b| - 1] == a + b[..|b| - 1];
      CountConcat(a, b[..|b| - 1], counts);
    }
  }

  lemma {:induction false} FlatConcat(a: seq<Chunk>, b: seq<Chunk>)
    ensures Flat(a + b) == Flat(a) + Flat(b)
  {
    if b == [] {
      assert a + b == a;
    } else {
      assert (a + b)[..|a + b| - 1] == a + b[..|b| - 1];
      FlatConcat(a, b[..|b| - 1]);
    }
  }

  lemma {:induction false} InsertedIs(rows: seq<Row>, r: Row)
    ensures forall counts: Row -> bool :: Count(Inserted(rows, r), counts) == Count(rows, counts) + (if counts(r) then 1 else 0)
    ensures InOrder(rows) ==> InOrder(Inserted(rows, r))
    ensures forall x <- Inserted(rows, r) :: x == r || x in rows
  {
    var all := Inserted(rows, r);
    if rows == [] {
      assert [r][..0] == [];
    } else if RowBefore(r, rows[0]) {
      forall counts: Row -> bool ensures Count(all, counts) == Count(rows, counts) + (if counts(r) then 1 else 0) {
        CountConcat([r], rows, counts);
        CountOne(r, counts);
      }
    } else {
      InsertedIs(rows[1..], r);
      forall counts: Row -> bool ensures Count(all, counts) == Count(rows, counts) + (if counts(r) then 1 else 0) {
        assert rows == [rows[0]] + rows[1..];
        CountConcat([rows[0]], rows[1..], counts);
        CountConcat([rows[0]], Inserted(rows[1..], r), counts);
      }
      if InOrder(rows) { ConsInOrder(rows[0], Inserted(rows[1..], r)); }
    }
  }

  lemma CountOne(r: Row, counts: Row -> bool)
    ensures Count([r], counts) == if counts(r) then 1 else 0
  {
    assert [r][..0] == [];
  }

  lemma ConsInOrder(first: Row, rest: seq<Row>)
    requires InOrder(rest) && forall x <- rest :: first.at <= x.at
    ensures InOrder([first] + rest)
  {
  }

  /** Moving a batch moves its rows and touches no other. */
  lemma ArchivedKeepsEvery(t: Tables, cutoff: Day, batch: nat)
    requires InOrder(t.hot)
    ensures Every(Archived(t, cutoff, batch)) == Every(t)
  {
    hide Flat, ByDay, Due, InOrder, AllSealed, Ascending;
    var n := Moved(t, cutoff, batch);
    PrefixInOrder(t.hot, n);
    ByDayHolds(t.hot[..n]);
    FlatConcat(t.archive, ByDay(t.hot[..n]));
    Rejoin(Flat(t.archive), t.hot, n);
  }

  lemma PrefixInOrder(rows: seq<Row>, n: nat)
    requires InOrder(rows) && n <= |rows|
    ensures InOrder(rows[..n])
  {
  }

  lemma Rejoin<T>(a: seq<T>, s: seq<T>, n: nat)
    requires n <= |s|
    ensures a + s[..n] + s[n..] == a + s
  {
    assert s == s[..n] + s[n..];
  }

  /** A batch writes chunks of days before its cutoff only. */
  lemma ChunksAreDue(t: Tables, cutoff: Day, batch: nat)
    requires InOrder(t.hot)
    ensures forall c <- ByDay(t.hot[..Moved(t, cutoff, batch)]) :: Sealed(c) && c.day < cutoff
  {
    var n := Moved(t, cutoff, batch);
    var rows := t.hot[..n];
    ByDayHolds(rows);
    DueIsBefore(t.hot, cutoff);
    var chunks := ByDay(rows);
    forall c <- chunks ensures Sealed(c) && c.day < cutoff {
      var i :| 0 <= i < |chunks| && chunks[i] == c;
      if i < |chunks| - 1 { assert c.day < chunks[|chunks| - 1].day; }
      assert DayOf(rows[n - 1].at) < cutoff;
    }
  }

  lemma ArriveKeeps(st: State, r: Row)
    requires Inv(st)
    ensures Inv(Next(st, Arrives(r)))
  {
    hide Flat, Inserted, AllSealed, InOrder;
    var t := st.tables;
    InsertedIs(t.hot, r);
    forall counts: Row -> bool ensures Count(Every(Arrived(t, r)), counts) == Count(st.arrived + [r], counts) {
      CountConcat(Flat(t.archive), t.hot, counts);
      CountConcat(Flat(t.archive), Inserted(t.hot, r), counts);
      CountConcat(st.arrived, [r], counts);
      CountOne(r, counts);
      assert Count(Every(t), counts) == Count(st.arrived, counts);
    }
  }

  lemma MoveKeeps(st: State, replica: Replica, batch: nat)
    requires Inv(st)
    ensures Inv(Next(st, Moves(replica, batch)))
  {
    hide Flat, Count, ByDay, Sealed;
    if replica in st.sweeping {
      var t, cutoff := st.tables, st.sweeping[replica];
      ArchivedKeepsEvery(t, cutoff, batch);
      ChunksAreDue(t, cutoff, batch);
    }
  }

  lemma SweepKeeps(st: State, replica: Replica, now: Time, days: int)
    requires Inv(st)
    ensures Inv(Next(st, Sweeps(replica, now, days)))
  {
    hide Flat, Count, Sealed;
  }

  /** Over any run of arrivals and of sweeps by replicas with differing retention periods, interleaved
      batch by batch: every row that arrived is detailed or archived, once; each chunk is one day's rows,
      counted; and every archived row started before the mark. */
  lemma {:induction false} RunKeeps(events: seq<Event>)
    ensures Inv(Run(events))
  {
    hide Inv, Next;
    if events == [] {
      NothingYet();
    } else {
      var st, e := Run(events[..|events| - 1]), events[|events| - 1];
      RunKeeps(events[..|events| - 1]);
      match e
      case Arrives(r) => ArriveKeeps(st, r);
      case Sweeps(replica, now, days) => SweepKeeps(st, replica, now, days);
      case Moves(replica, batch) => MoveKeeps(st, replica, batch);
    }
  }

  lemma NothingYet()
    ensures Inv(Run([]))
  {
  }

  /** The mark never moves back. */
  lemma MarkNeverBack(st: State, e: Event)
    ensures st.tables.mark.Some? ==> Next(st, e).tables.mark.Some? && st.tables.mark.value <= Next(st, e).tables.mark.value
  {
  }

  /** Rows that arrived, read from the aggregates for days before the mark and from the detailed rows for
      the rest: a report over any rows counts each once, whatever was archived and however late it came. */
  lemma ReportsCountOnce(events: seq<Event>, counts: Row -> bool)
    ensures var st := Run(events);
      var archived := (r: Row) => counts(r) && st.tables.mark.Some? && DayOf(r.at) < st.tables.mark.value;
      var detailed := (r: Row) => counts(r) && !(st.tables.mark.Some? && DayOf(r.at) < st.tables.mark.value);
      Count(st.arrived, archived) + Count(st.tables.hot, detailed) == Count(st.arrived, counts)
  {
    hide Run, Flat;
    var st := Run(events);
    RunKeeps(events);
    var archived := (r: Row) => counts(r) && st.tables.mark.Some? && DayOf(r.at) < st.tables.mark.value;
    var detailed := (r: Row) => counts(r) && !(st.tables.mark.Some? && DayOf(r.at) < st.tables.mark.value);
    CountSplit(st.arrived, counts, archived, detailed);
    CountConcat(Flat(st.tables.archive), st.tables.hot, detailed);
    NoneArchived(st.tables.archive, detailed, st.tables.mark);
    assert Count(Every(st.tables), detailed) == Count(st.arrived, detailed);
  }

  lemma {:induction false} CountSplit(rows: seq<Row>, all: Row -> bool, a: Row -> bool, b: Row -> bool)
    requires forall r :: all(r) == (a(r) || b(r)) && !(a(r) && b(r))
    ensures Count(rows, all) == Count(rows, a) + Count(rows, b)
  {
    if rows != [] { CountSplit(rows[..|rows| - 1], all, a, b); }
  }

  lemma {:induction false} NoneCounted(rows: seq<Row>, counts: Row -> bool)
    requires forall r <- rows :: !counts(r)
    ensures Count(rows, counts) == 0
  {
    if rows != [] { NoneCounted(rows[..|rows| - 1], counts); }
  }

  lemma {:induction false} NoneArchived(chunks: seq<Chunk>, counts: Row -> bool, mark: Option<Day>)
    requires AllSealed(chunks) && forall c <- chunks :: mark.Some? && c.day < mark.value
    requires forall r :: counts(r) ==> !(mark.Some? && DayOf(r.at) < mark.value)
    ensures Count(Flat(chunks), counts) == 0
  {
    hide Count;
    if chunks == [] {
      NoneCounted(Flat(chunks), counts);
    } else {
      var init, last := chunks[..|chunks| - 1], chunks[|chunks| - 1];
      NoneArchived(init, counts, mark);
      CountConcat(Flat(init), last.records, counts);
      assert last in chunks && Sealed(last);
      NoneCounted(last.records, counts);
    }
  }

  // ---- which rows are archived ----

  /** A sweep of the run, of a retention period, that such a day was over for. */
  ghost predicate SweptOut(events: seq<Event>, day: Day) {
    exists e <- events :: e.Sweeps? && e.retentionDays > 0 && day < e.now / DAY - e.retentionDays
  }

  /** A cutoff some sweep of the run set. */
  ghost predicate CutBySome(events: seq<Event>, cutoff: Day) {
    exists e <- events :: e.Sweeps? && e.retentionDays > 0 && cutoff == e.now / DAY - e.retentionDays
  }

  lemma {:induction false} ArchiveIsSweptOut(events: seq<Event>)
    ensures forall r <- Run(events).sweeping :: CutBySome(events, Run(events).sweeping[r])
    ensures forall c <- Run(events).tables.archive :: SweptOut(events, c.day)
  {
    hide Run, ByDay, InOrder;
    if events == [] {
      NothingArchived();
    } else {
      var init, e := events[..|events| - 1], events[|events| - 1];
      var st := Run(init);
      RunSnoc(init, e);
      assert events == init + [e];
      ArchiveIsSweptOut(init);
      SweptLater(init, e);
      RunKeeps(init);
      assert e in events;
      if e.Moves? && e.replica in st.sweeping {
        var cutoff := st.sweeping[e.replica];
        InvInOrder(st);
        ChunksAreDue(st.tables, cutoff, e.batch);
        assert CutBySome(events, cutoff);
      }
    }
  }

  lemma NothingArchived()
    ensures Run([]).tables.archive == [] && Run([]).sweeping == map[]
  {
  }

  lemma RunSnoc(events: seq<Event>, e: Event)
    ensures Run(events + [e]) == Next(Run(events), e)
  {
    assert (events + [e])[..|events|] == events;
  }

  lemma InvInOrder(st: State)
    requires Inv(st)
    ensures InOrder(st.tables.hot)
  {
  }

  lemma SweptLater(events: seq<Event>, e: Event)
    ensures forall day :: SweptOut(events, day) ==> SweptOut(events + [e], day)
    ensures forall day :: CutBySome(events, day) ==> CutBySome(events + [e], day)
  {
    forall x <- events ensures x in events + [e] { }
  }

  /** A row is only ever archived by a sweep whose retention period it had outlived: it started before the first
      midnight of that period, so more than all its days ago. */
  lemma ArchivedAreOld(events: seq<Event>, r: Row)
    requires r in Flat(Run(events).tables.archive)
    ensures exists e <- events ::
      e.Sweeps? && e.retentionDays > 0 && DayOf(r.at) < DayOf(e.now) - e.retentionDays && r.at + e.retentionDays * DAY < e.now
  {
    hide Run, Flat, Inv;
    ArchiveIsSweptOut(events);
    RunKeeps(events);
    InvSealed(Run(events));
    var c := InSome(Run(events).tables.archive, r);
    assert Sealed(c) && DayOf(r.at) == c.day;
    var e :| e in events && e.Sweeps? && e.retentionDays > 0 && c.day < e.now / DAY - e.retentionDays;
    OlderThan(r.at, e.now, e.retentionDays);
  }

  lemma InvSealed(st: State)
    requires Inv(st)
    ensures AllSealed(st.tables.archive)
  {
  }

  lemma {:induction false} InSome(chunks: seq<Chunk>, r: Row) returns (c: Chunk)
    requires r in Flat(chunks)
    ensures c in chunks && r in c.records
  {
    var last := chunks[|chunks| - 1];
    if r in last.records { c := last; } else { c := InSome(chunks[..|chunks| - 1], r); }
  }

  /** Whole days apart, and seconds apart. */
  lemma OlderThan(at: Time, now: Time, days: int)
    ensures DayOf(at) < DayOf(now) - days ==> at + days * DAY < now
    ensures at + (days + 1) * DAY <= now ==> DayOf(at) < DayOf(now) - days
  {
  }

  /** A sweep that moves all it may keeps exactly the rows of the retention days and of its own day: what is as old
      as those and one more goes. A period of no days archives nothing. */
  lemma OldAreArchived(st: State, replica: Replica, now: Time, days: int, batch: nat)
    requires InOrder(st.tables.hot) && batch >= |st.tables.hot|
    ensures days <= 0 ==> Next(st, Sweeps(replica, now, days)) == st
    ensures days > 0 ==>
      var left := Next(Next(st, Sweeps(replica, now, days)), Moves(replica, batch)).tables.hot;
      && (forall r <- st.tables.hot :: r in left <==> DayOf(now) - DayOf(r.at) <= days)
      && (forall r <- left :: r in st.tables.hot && now < r.at + (days + 1) * DAY)
  {
    hide DayOf, Midnight, Due, ByDay;
    if days > 0 {
      var hot, cutoff := st.tables.hot, DayOf(now) - days;
      var n := Due(hot, cutoff);
      DueIsBefore(hot, cutoff);
      var left := Next(Next(st, Sweeps(replica, now, days)), Moves(replica, batch)).tables.hot;
      assert left == hot[n..];
      forall r <- hot ensures r in left <==> DayOf(now) - DayOf(r.at) <= days {
        var i :| 0 <= i < |hot| && hot[i] == r;
        if i >= n { assert left[i - n] == r; }
        if r in left {
          var j :| 0 <= j < |left| && left[j] == r;
          assert hot[n + j] == r;
        }
      }
      forall r <- left ensures r in hot && now < r.at + (days + 1) * DAY {
        var j :| 0 <= j < |left| && left[j] == r;
        assert hot[n + j] == r;
        OlderThan(r.at, now, days);
      }
    }
  }
}
