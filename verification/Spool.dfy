/** The segment directory of the request log: numbered files of newline-terminated lines, written
    at the end, pruned at the front, and read from a persisted cursor in bounded windows. */
module Spool {

  type byte = x: int | 0 <= x < 256

  const NEWLINE: byte := 10
  /** The window in which a segment is read. */
  const READ_BYTES: nat := 0x10_0000

  /** Where reading continues; segment numbers start at 1, so segment 0 comes before all. */
  datatype Cursor = Cursor(segment: nat, offset: nat)

  const START := Cursor(0, 0)

  predicate Before(a: Cursor, b: Cursor) {
    a.segment < b.segment || (a.segment == b.segment && a.offset < b.offset)
  }

  /** What the cursor file holds; anything but a saved cursor reads as the start. */
  datatype CursorFile = Absent | Unreadable | Saved(at: Cursor)

  function Position(f: CursorFile): Cursor {
    if f.Saved? then f.at else START
  }

  /** A line that was read, and where the next one starts. */
  datatype Entry = Entry(line: seq<byte>, next: Cursor)

  datatype File = File(number: nat, data: seq<byte>)

  /** The directory listing: file numbers strictly ascending. */
  ghost predicate Sorted(files: seq<File>) {
    forall i, j :: 0 <= i < j < |files| ==> files[i].number < files[j].number
  }

  // ---- lines and entries ----

  function LineEnd(d: seq<byte>): (n: nat)
    ensures n <= |d|
    ensures n < |d| ==> d[n] == NEWLINE
    ensures forall k :: 0 <= k < n ==> d[k] != NEWLINE
  {
    if d == [] || d[0] == NEWLINE then 0 else 1 + LineEnd(d[1..])
  }

  /** The part of a line a read hands over: whole windows without a newline are skipped, so only
      a line of `READ_BYTES` or more loses its front. */
  function Readable(line: seq<byte>): seq<byte> {
    if |line| < READ_BYTES then line else Readable(line[READ_BYTES..])
  }

  /** The complete lines of `d`, which starts at offset `at` of a segment; a tail without a newline
      is not a line. */
  function Entries(segment: nat, at: nat, d: seq<byte>): seq<Entry>
    decreases |d|
  {
    var n := LineEnd(d);
    if n == |d| then []
    else [Entry(Readable(d[..n]), Cursor(segment, at + n + 1))] + Entries(segment, at + n + 1, d[n + 1..])
  }

  function Rest(d: seq<byte>, offset: nat): seq<byte> {
    if offset <= |d| then d[offset..] else []
  }

  function PendingIn(f: File, c: Cursor): seq<Entry> {
    if f.number < c.segment then []
    else if f.number == c.segment then Entries(f.number, c.offset, Rest(f.data, c.offset))
    else Entries(f.number, 0, f.data)
  }

  /** Every complete line past `c`, in order: what is waiting to be exported. */
  function Pending(files: seq<File>, c: Cursor): seq<Entry> {
    if files == [] then [] else PendingIn(files[0], c) + Pending(files[1..], c)
  }

  function All(files: seq<File>): seq<Entry> {
    if files == [] then [] else Entries(files[0].number, 0, files[0].data) + All(files[1..])
  }

  function Prefix<T>(s: seq<T>, limit: int): seq<T> {
    if limit <= 0 then [] else if limit <= |s| then s[..limit] else s
  }

  lemma LineEndWithin(d: seq<byte>, n: nat)
    requires n < |d| && d[n] == NEWLINE && forall k :: 0 <= k < n ==> d[k] != NEWLINE
    ensures LineEnd(d) == n
  {
  }

  lemma NoLine(segment: nat, at: nat, d: seq<byte>)
    requires forall k :: 0 <= k < |d| ==> d[k] != NEWLINE
    ensures Entries(segment, at, d) == []
  {
  }

  /** Skipping a whole window that holds no newline leaves what is read unchanged. */
  lemma SkipWindow(segment: nat, at: nat, d: seq<byte>)
    requires READ_BYTES <= |d|
    requires forall k :: 0 <= k < READ_BYTES ==> d[k] != NEWLINE
    ensures Entries(segment, at, d) == Entries(segment, at + READ_BYTES, d[READ_BYTES..])
  {
    hide Entries, Readable, LineEnd;
    var rest := d[READ_BYTES..];
    var n, m := LineEnd(d), LineEnd(rest);
    if n < |d| {
      LineEndWithin(rest, n - READ_BYTES);
      FirstIs(segment, at, d);
      FirstIs(segment, at + READ_BYTES, rest);
      assert d[n + 1..] == rest[m + 1..];
      assert d[..n][READ_BYTES..] == rest[..m];
      ReadableSkips(d[..n]);
    } else {
      assert forall k :: 0 <= k < |rest| ==> rest[k] == d[k + READ_BYTES];
      NoLine(segment, at, d);
      NoLine(segment, at + READ_BYTES, rest);
    }
  }

  lemma FirstIs(segment: nat, at: nat, d: seq<byte>)
    requires LineEnd(d) < |d|
    ensures var n := LineEnd(d);
      Entries(segment, at, d)
      == [Entry(Readable(d[..n]), Cursor(segment, at + n + 1))] + Entries(segment, at + n + 1, d[n + 1..])
  {
  }

  lemma ReadableSkips(line: seq<byte>)
    requires |line| >= READ_BYTES
    ensures Readable(line) == Readable(line[READ_BYTES..])
  {
  }

  // ---- the pending lines of a directory ----

  lemma PendingAll(files: seq<File>, c: Cursor)
    requires forall i :: 0 <= i < |files| ==> c.segment < files[i].number
    ensures Pending(files, c) == All(files)
  {
  }

  /** The pending lines split at the file the cursor is in. */
  lemma {:induction false} PendingSplit(files: seq<File>, c: Cursor, i: nat)
    requires Sorted(files) && i < |files| && files[i].number == c.segment
    ensures Pending(files, c)
         == Entries(c.segment, c.offset, Rest(files[i].data, c.offset)) + All(files[i + 1..])
  {
    if i == 0 {
      PendingAll(files[1..], c);
    } else {
      PendingSplit(files[1..], c, i - 1);
      assert files[1..][i..] == files[i + 1..];
    }
  }

  /** How many files a later segment number leaves. */
  function Later(files: seq<File>, segment: nat): (k: nat)
    ensures k <= |files|
    ensures k < |files| ==> segment < files[k].number
    ensures forall i :: 0 <= i < k ==> files[i].number <= segment
  {
    if files == [] || segment < files[0].number then 0 else 1 + Later(files[1..], segment)
  }

  function Find(files: seq<File>, segment: nat): (k: nat)
    ensures k <= |files|
    ensures k < |files| ==> files[k].number == segment
    ensures forall i :: 0 <= i < k ==> files[i].number != segment
  {
    if files == [] || files[0].number == segment then 0 else 1 + Find(files[1..], segment)
  }

  /** The segment a cursor is in has no complete line left past it. */
  ghost predicate Finished(files: seq<File>, c: Cursor) {
    var k := Find(files, c.segment);
    k < |files| ==> Entries(c.segment, c.offset, Rest(files[k].data, c.offset)) == []
  }

  /** Moving from a segment with nothing left to the next one changes nothing. */
  lemma {:induction false} NextSegment(files: seq<File>, c: Cursor)
    requires Sorted(files) && Finished(files, c)
    ensures var l := Later(files, c.segment);
            Pending(files, c) == if l == |files| then [] else Pending(files, Cursor(files[l].number, 0))
    decreases |files|
  {
    if files != [] {
      var l := Later(files, c.segment);
      if l == 0 {
        PendingAll(files, c);
        PendingSplit(files, Cursor(files[0].number, 0), 0);
        assert Rest(files[0].data, 0) == files[0].data;
      } else {
        assert files[0].number <= c.segment;
        if files[0].number == c.segment {
          forall i | 0 <= i < |files[1..]| ensures files[1..][i].number != c.segment {
            assert files[1..][i] == files[i + 1];
          }
        } else {
          assert Find(files, c.segment) == 1 + Find(files[1..], c.segment);
        }
        NextSegment(files[1..], c);
      }
    }
  }

  // ---- resuming ----

  lemma DropDrop<T>(s: seq<T>, n: nat, k: nat)
    requires n <= k <= |s|
    ensures s[n..][k - n..] == s[k..]
  {
  }

  lemma DropRight<T>(a: seq<T>, b: seq<T>, i: nat)
    requires |a| <= i <= |a| + |b|
    ensures (a + b)[i..] == b[i - |a|..]
  {
  }

  lemma DropLeft<T>(a: seq<T>, b: seq<T>, i: nat)
    requires i <= |a|
    ensures (a + b)[i..] == a[i..] + b
  {
  }

  lemma Assoc<T>(a: seq<T>, b: seq<T>, c: seq<T>)
    ensures (a + b) + c == a + (b + c)
  {
  }

  /** The first entry, and the entries of what follows it. */
  lemma EntriesStep(segment: nat, at: nat, d: seq<byte>) returns (n: nat, first: Entry, rest: seq<Entry>)
    requires LineEnd(d) < |d|
    ensures n == LineEnd(d) + 1 <= |d|
    ensures first == Entry(Readable(d[..n - 1]), Cursor(segment, at + n))
    ensures rest == Entries(segment, at + n, d[n..])
    ensures Entries(segment, at, d) == [first] + rest
  {
    n := LineEnd(d) + 1;
    first := Entry(Readable(d[..n - 1]), Cursor(segment, at + n));
    rest := Entries(segment, at + n, d[n..]);
  }

  lemma HasLine(segment: nat, at: nat, d: seq<byte>)
    ensures Entries(segment, at, d) != [] <==> LineEnd(d) < |d|
    ensures LineEnd(d) == |d| ==> Whole(d) == 0 && Torn(d) == d
  {
  }

  lemma {:induction false} ResumeEntries(segment: nat, at: nat, d: seq<byte>, i: nat) returns (e: Cursor)
    requires i < |Entries(segment, at, d)|
    ensures e == Entries(segment, at, d)[i].next
    ensures e.segment == segment && at < e.offset <= at + |d|
    ensures Entries(segment, e.offset, d[e.offset - at..]) == Entries(segment, at, d)[i + 1..]
    decreases |d|
  {
    HasLine(segment, at, d);
    hide Entries, LineEnd;
    var n, first, rest := EntriesStep(segment, at, d);
    DropRight([first], rest, i + 1);
    if i == 0 {
      e := first.next;
    } else {
      e := ResumeEntries(segment, at + n, d[n..], i - 1);
      DropDrop(d, n, e.offset - at);
    }
  }

  lemma PendingStep(files: seq<File>, c: Cursor)
    ensures files == [] ==> Pending(files, c) == []
    ensures files != [] ==> Pending(files, c) == PendingIn(files[0], c) + Pending(files[1..], c)
    ensures files != [] && files[0].number < c.segment ==> Pending(files, c) == Pending(files[1..], c)
  {
  }

  lemma ResumeFile(f: File, c: Cursor, i: nat) returns (e: Cursor)
    requires i < |PendingIn(f, c)|
    ensures e == PendingIn(f, c)[i].next
    ensures e.segment == f.number && e.offset <= |f.data|
    ensures Entries(f.number, e.offset, Rest(f.data, e.offset)) == PendingIn(f, c)[i + 1..]
  {
    hide Entries;
    var at := if f.number == c.segment then c.offset else 0;
    var d := Rest(f.data, at);
    assert f.data[0..] == f.data;
    e := ResumeEntries(f.number, at, d, i);
    PastOffset(f.data, at, e.offset - at);
  }

  /** Committing any returned cursor makes the next read continue with the very next line. */
  lemma {:induction false} Resume(files: seq<File>, c: Cursor, i: nat) returns (e: Cursor)
    requires Sorted(files) && i < |Pending(files, c)|
    ensures e == Pending(files, c)[i].next
    ensures Pending(files, e) == Pending(files, c)[i + 1..]
    ensures exists k :: 0 <= k < |files| && files[k].number == e.segment
    decreases |files|
  {
    PendingStep(files, c);
    hide Pending, PendingIn, Entries, Rest, All;
    var f, own, others := files[0], PendingIn(files[0], c), Pending(files[1..], c);
    if i < |own| {
      e := ResumeFile(f, c, i);
      PendingSplit(files, e, 0);
      PendingAll(files[1..], c);
      DropLeft(own, others, i + 1);
    } else {
      e := Resume(files[1..], c, i - |own|);
      DropRight(own, others, i + 1);
      var k :| 0 <= k < |files[1..]| && files[1..][k].number == e.segment;
      assert files[k + 1].number == e.segment;
      PendingStep(files, e);
    }
  }

  // ---- order ----

  ghost predicate Ordered(es: seq<Entry>) {
    forall i, j :: 0 <= i < j < |es| ==> Before(es[i].next, es[j].next)
  }

  lemma {:induction false} EntriesOrdered(segment: nat, at: nat, d: seq<byte>)
    ensures Ordered(Entries(segment, at, d))
    ensures forall e <- Entries(segment, at, d) :: e.next.segment == segment && at < e.next.offset <= at + |d|
    decreases |d|
  {
    var n := LineEnd(d);
    if n < |d| {
      EntriesOrdered(segment, at + n + 1, d[n + 1..]);
    }
  }

  /** Where an entry lies in the directory. */
  ghost predicate Within(files: seq<File>, c: Cursor) {
    exists k :: 0 <= k < |files| && files[k].number == c.segment && 0 < c.offset <= |files[k].data|
  }

  lemma {:induction false} AllOrdered(files: seq<File>)
    requires Sorted(files)
    ensures Ordered(All(files))
    ensures forall e <- All(files) :: Within(files, e.next)
  {
    if files != [] {
      var f, rest := files[0], All(files[1..]);
      EntriesOrdered(f.number, 0, f.data);
      AllOrdered(files[1..]);
      forall e | e in rest ensures Within(files, e.next) && f.number < e.next.segment {
        var k :| 0 <= k < |files[1..]| && files[1..][k].number == e.next.segment
                 && 0 < e.next.offset <= |files[1..][k].data|;
        assert files[k + 1] == files[1..][k];
      }
      forall e | e in Entries(f.number, 0, f.data) ensures Within(files, e.next) {
        assert files[0].number == e.next.segment;
      }
    }
  }

  // ---- growing a segment ----

  /** The length of `d` up to and including its last newline. */
  function Whole(d: seq<byte>): (n: nat)
    ensures n <= |d|
    ensures n > 0 ==> d[n - 1] == NEWLINE
    ensures forall k :: n <= k < |d| ==> d[k] != NEWLINE
  {
    if d == [] then 0 else if d[|d| - 1] == NEWLINE then |d| else Whole(d[..|d| - 1])
  }

  /** The tail after the last newline. */
  function Torn(d: seq<byte>): seq<byte> {
    d[Whole(d)..]
  }

  lemma WholeSplit(d: seq<byte>, n: nat)
    requires 0 < n <= |d| && d[n - 1] == NEWLINE
    ensures Whole(d) == n + Whole(d[n..])
    ensures Torn(d) == Torn(d[n..])
  {
    var w, v := Whole(d), Whole(d[n..]);
    assert v > 0 ==> d[n + v - 1] == d[n..][v - 1];
    assert w > n ==> d[w - 1] == d[n..][w - 1 - n];
  }

  lemma {:induction false} EntriesGrow(segment: nat, at: nat, d: seq<byte>, x: seq<byte>)
    ensures Entries(segment, at, d + x)
         == Entries(segment, at, d) + Entries(segment, at + Whole(d), Torn(d) + x)
    decreases |d|
  {
    HasLine(segment, at, d);
    hide Entries, LineEnd, Whole, Torn;
    if LineEnd(d) < |d| {
      var n, first, rest := EntriesStep(segment, at, d);
      LineEndWithin(d + x, n - 1);
      var n', first', rest' := EntriesStep(segment, at, d + x);
      DropLeft(d, x, n);
      assert (d + x)[..n - 1] == d[..n - 1];
      EntriesGrow(segment, at + n, d[n..], x);
      WholeSplit(d, n);
      var more := Entries(segment, at + Whole(d), Torn(d) + x);
      Assoc([first], rest, more);
    }
  }

  /** Lines as the writer joins them. */
  function Join(lines: seq<seq<byte>>): seq<byte> {
    if lines == [] then [] else lines[0] + [NEWLINE] + Join(lines[1..])
  }

  predicate IsLine(line: seq<byte>) {
    forall k :: 0 <= k < |line| ==> line[k] != NEWLINE
  }

  function Lines(es: seq<Entry>): (r: seq<seq<byte>>)
    ensures |r| == |es| && forall i :: 0 <= i < |r| ==> r[i] == es[i].line
  {
    seq(|es|, i requires 0 <= i < |es| => es[i].line)
  }

  lemma {:induction false} EntriesJoin(segment: nat, at: nat, lines: seq<seq<byte>>)
    requires forall l <- lines :: IsLine(l)
    ensures Lines(Entries(segment, at, Join(lines))) == Map(lines)
    decreases |lines|
  {
    hide Entries, LineEnd, Lines, Readable, Join;
    if lines == [] {
      JoinNone(segment, at);
    } else {
      var d, m := Join(lines), |lines[0]|;
      assert lines[0] in lines;
      JoinStep(lines);
      var n, first, rest := EntriesStep(segment, at, d);
      EntriesJoin(segment, at + n, lines[1..]);
      LinesConcat([first], rest);
      LinesOne(first);
    }
  }

  lemma JoinNone(segment: nat, at: nat)
    ensures Join([]) == [] && Lines(Entries(segment, at, Join([]))) == []
  {
  }

  lemma JoinStep(lines: seq<seq<byte>>)
    requires lines != [] && IsLine(lines[0])
    ensures var d, m := Join(lines), |lines[0]|;
      LineEnd(d) == m < |d| && d[..m] == lines[0] && d[m + 1..] == Join(lines[1..])
  {
    var d, m := Join(lines), |lines[0]|;
    assert d[m] == NEWLINE;
    assert forall k :: 0 <= k < m ==> d[k] == lines[0][k];
    LineEndWithin(d, m);
  }

  lemma LinesOne(e: Entry)
    ensures Lines([e]) == [e.line]
  {
  }

  /** The lines as a read hands them over. */
  function Map(lines: seq<seq<byte>>): (r: seq<seq<byte>>)
    ensures |r| == |lines| && forall i :: 0 <= i < |r| ==> r[i] == Readable(lines[i])
  {
    if lines == [] then [] else [Readable(lines[0])] + Map(lines[1..])
  }

  lemma ShortLines(lines: seq<seq<byte>>)
    requires forall l <- lines :: |l| < READ_BYTES
    ensures Map(lines) == lines
  {
    forall i | 0 <= i < |lines| ensures Map(lines)[i] == lines[i] {
      assert lines[i] in lines;
    }
  }

  lemma JoinUntorn(lines: seq<seq<byte>>)
    ensures Whole(Join(lines)) == |Join(lines)|
  {
    if lines != [] {
      JoinUntorn(lines[1..]);
      var d, r := Join(lines), Join(lines[1..]);
      if r == [] { assert d[|d| - 1] == NEWLINE; } else { assert d[|d| - 1] == r[|r| - 1]; }
    }
  }

  lemma TornIsLine(d: seq<byte>)
    ensures IsLine(Torn(d))
  {
  }

  lemma LinesConcat(a: seq<Entry>, b: seq<Entry>)
    ensures Lines(a + b) == Lines(a) + Lines(b)
  {
  }

  /** What an append reads back as: the lines there already, then the appended ones, the first of
      them glued to whatever torn line the segment ended in. */
  lemma AppendGlues(segment: nat, d: seq<byte>, lines: seq<seq<byte>>)
    requires lines != [] && forall l <- lines :: IsLine(l)
    ensures Lines(Entries(segment, 0, d + Join(lines)))
         == Lines(Entries(segment, 0, d)) + [Readable(Torn(d) + lines[0])] + Map(lines[1..])
  {
    hide Entries, LineEnd, Whole, Torn, Readable, Join, Lines, Map;
    var glued := [Torn(d) + lines[0]] + lines[1..];
    TornIsLine(d);
    GluedLines(Torn(d), lines);
    EntriesGrow(segment, 0, d, Join(lines));
    EntriesJoin(segment, 0 + Whole(d), glued);
    LinesConcat(Entries(segment, 0, d), Entries(segment, 0 + Whole(d), Join(glued)));
    Assoc(Lines(Entries(segment, 0, d)), [Readable(glued[0])], Map(lines[1..]));
  }

  lemma JoinHead(lines: seq<seq<byte>>)
    requires lines != []
    ensures Join(lines) == lines[0] + [NEWLINE] + Join(lines[1..])
    ensures Map(lines) == [Readable(lines[0])] + Map(lines[1..])
  {
  }

  lemma GluedLines(torn: seq<byte>, lines: seq<seq<byte>>)
    requires lines != [] && IsLine(torn) && forall l <- lines :: IsLine(l)
    ensures var glued := [torn + lines[0]] + lines[1..];
      && (forall l <- glued :: IsLine(l))
      && Join(glued) == torn + Join(lines)
      && Map(glued) == [Readable(glued[0])] + Map(lines[1..])
  {
    hide Join, Map, Readable;
    var glued := [torn + lines[0]] + lines[1..];
    assert glued[1..] == lines[1..];
    JoinHead(lines);
    JoinHead(glued);
    Assoc(torn, lines[0], [NEWLINE]);
    Assoc(torn, lines[0] + [NEWLINE], Join(lines[1..]));
    GluedAreLines(torn, lines);
  }

  lemma GluedAreLines(torn: seq<byte>, lines: seq<seq<byte>>)
    requires lines != [] && IsLine(torn) && forall l <- lines :: IsLine(l)
    ensures forall l <- [torn + lines[0]] + lines[1..] :: IsLine(l)
  {
    assert lines[0] in lines;
    assert IsLine(torn + lines[0]);
    forall l | l in lines[1..] ensures IsLine(l) { assert l in lines; }
  }

  /** The exact condition for an append to keep its lines apart from what is there: the segment
      must not end in a torn line. Only opening the spool repairs one, so a write that failed
      half-way without a restart glues two records together. */
  lemma AppendKeepsLines(segment: nat, d: seq<byte>, lines: seq<seq<byte>>)
    requires lines != [] && forall l <- lines :: IsLine(l) && |l| < READ_BYTES
    requires |Torn(d)| < READ_BYTES
    ensures Lines(Entries(segment, 0, d + Join(lines))) == Lines(Entries(segment, 0, d)) + lines
        <==> Torn(d) == []
  {
    hide Entries, LineEnd, Whole, Map, Lines, Readable, Join;
    AppendGlues(segment, d, lines);
    var before, g := Lines(Entries(segment, 0, d)), Torn(d) + lines[0];
    assert lines[0] in lines;
    ShortLines(lines[1..]);
    assert lines == [lines[0]] + lines[1..];
    if Torn(d) != [] {
      GluedIsNot(Torn(d), lines[0]);
      assert (before + [Readable(g)] + Map(lines[1..]))[|before|] == Readable(g);
      assert (before + lines)[|before|] == lines[0];
    } else {
      assert g == lines[0];
      assert [lines[0]] == Map([lines[0]]) by { ShortLines([lines[0]]); }
      Assoc(before, [lines[0]], lines[1..]);
    }
  }

  lemma GluedIsNot(torn: seq<byte>, line: seq<byte>)
    requires torn != [] && |torn| < READ_BYTES && |line| < READ_BYTES
    ensures Readable(torn + line) != line
  {
  }

  // ---- the files an append leaves ----

  /** The last segment with its torn tail ended. */
  function Repaired(files: seq<File>): seq<File> {
    if files == [] then files
    else
      var f := files[|files| - 1];
      if f.data != [] && f.data[|f.data| - 1] != NEWLINE
      then files[..|files| - 1] + [f.(data := f.data + [NEWLINE])] else files
  }

  /** Bytes added at the end: to the current segment, or to a new one once that is full. */
  function Written(files: seq<File>, bytes: seq<byte>, maxBytes: int): seq<File> {
    if files == [] then [File(1, bytes)]
    else
      var f := files[|files| - 1];
      if |f.data| >= maxBytes then files + [File(f.number + 1, bytes)]
      else files[..|files| - 1] + [f.(data := f.data + bytes)]
  }

  /** How many of the oldest segments a prune removes; never the current one. */
  function Excess(files: seq<File>, maxSegments: nat): (n: nat)
    ensures n <= |files|
    ensures files != [] ==> n < |files|
  {
    if |files| <= maxSegments then 0
    else if maxSegments == 0 then |files| - 1 else |files| - maxSegments
  }

  function Kept(files: seq<File>, maxSegments: nat): seq<File> {
    files[Excess(files, maxSegments)..]
  }

  function Dropped(files: seq<File>, maxSegments: nat): seq<File> {
    files[..Excess(files, maxSegments)]
  }

  // ---- the same, told from what was there ----

  function AtLeastOne(n: nat): nat {
    if n == 0 then 1 else n
  }

  /** `now` is `was` with its last line ended, if that was torn. */
  ghost predicate EndsItsLine(was: seq<File>, now: seq<File>) {
    && |now| == |was|
    && (forall i :: 0 <= i < |was| ==> now[i].number == was[i].number)
    && (forall i :: 0 <= i < |was| - 1 ==> now[i].data == was[i].data)
    && (was != [] ==>
          var d := was[|was| - 1].data;
          now[|was| - 1].data == if d == [] || d[|d| - 1] == NEWLINE then d else d + [NEWLINE])
  }

  /** `now` is `was` with `bytes` at the end: in the newest segment while that holds fewer than `maxBytes`
      bytes, else in a segment of the next number, the first being 1. */
  ghost predicate Ends(was: seq<File>, bytes: seq<byte>, maxBytes: int, now: seq<File>) {
    if was != [] && |was[|was| - 1].data| < maxBytes then
      && |now| == |was|
      && now[..|was| - 1] == was[..|was| - 1]
      && now[|was| - 1].number == was[|was| - 1].number
      && now[|was| - 1].data == was[|was| - 1].data + bytes
    else
      && |now| == |was| + 1
      && now[..|was|] == was
      && now[|was|].number == (if was == [] then 1 else was[|was| - 1].number + 1)
      && now[|was|].data == bytes
  }

  /** `now` is the newest `maxSegments` of `was`, or the newest one where that is 0; all of it if there
      are no more. */
  ghost predicate KeepsNewest(was: seq<File>, maxSegments: nat, now: seq<File>) {
    var n := AtLeastOne(maxSegments);
    if |was| <= n then now == was else now == was[|was| - n..]
  }

  /** An append: the torn line ended by the first of a process, the bytes written, the newest kept. */
  ghost predicate AppendLeaves(was: seq<File>, isOpen: bool, bytes: seq<byte>, maxBytes: int, maxSegments: nat,
                               now: seq<File>)
  {
    exists ended, written ::
      && (if isOpen then ended == was else EndsItsLine(was, ended))
      && Ends(ended, bytes, maxBytes, written)
      && KeepsNewest(written, maxSegments, now)
  }

  lemma RepairEnds(files: seq<File>)
    ensures EndsItsLine(files, Repaired(files))
  {
  }

  lemma WriteEnds(files: seq<File>, bytes: seq<byte>, maxBytes: int)
    ensures Ends(files, bytes, maxBytes, Written(files, bytes, maxBytes))
  {
  }

  lemma PruneKeepsNewest(files: seq<File>, maxSegments: nat)
    ensures KeepsNewest(files, maxSegments, Kept(files, maxSegments))
  {
  }

  /** What an append leaves is told by what was there: no segment goes unless more than the bound are there. */
  lemma AppendKeepsNewest(files: seq<File>, isOpen: bool, lines: seq<seq<byte>>, maxBytes: int, maxSegments: nat)
    ensures AppendLeaves(files, isOpen, Join(lines), maxBytes, maxSegments,
                         Kept(Appended(files, isOpen, lines, maxBytes), maxSegments))
  {
    hide Repaired, Written, Kept, EndsItsLine, Ends, KeepsNewest, Join;
    var ended := if isOpen then files else Repaired(files);
    var written := Written(ended, Join(lines), maxBytes);
    RepairEnds(files);
    WriteEnds(ended, Join(lines), maxBytes);
    PruneKeepsNewest(written, maxSegments);
  }

  /** The files an append leaves before pruning. */
  function Appended(files: seq<File>, isOpen: bool, lines: seq<seq<byte>>, maxBytes: int): seq<File> {
    Written(if isOpen then files else Repaired(files), Join(lines), maxBytes)
  }

  /** How many of `files` the exporter had not reached. */
  function Unexported(files: seq<File>, through: nat): nat {
    if files == [] then 0
    else (if files[0].number >= through then 1 else 0) + Unexported(files[1..], through)
  }

  class Spool {
    const maxBytes: int
    const maxSegments: nat
    const exporting: bool
    var files: seq<File>
    var saved: CursorFile
    var isOpen: bool
    var prunedUnexported: nat

    ghost predicate Valid()
      reads this
    {
      Sorted(files)
    }

    /** A process starting on whatever an earlier one left. */
    constructor (found: seq<File>, cursor: CursorFile, maxBytes: int, maxSegments: nat, exporting: bool)
      requires Sorted(found)
      ensures Valid() && files == found && saved == cursor && !isOpen && prunedUnexported == 0
      ensures this.maxBytes == maxBytes && this.maxSegments == maxSegments && this.exporting == exporting
    {
      files, saved, isOpen, prunedUnexported := found, cursor, false, 0;
      this.maxBytes, this.maxSegments, this.exporting := maxBytes, maxSegments, exporting;
    }

    method Open()
      requires Valid()
      modifies this`files, this`isOpen
      ensures Valid() && isOpen
      ensures files == if old(isOpen) then old(files) else Repaired(old(files))
      ensures if old(isOpen) then files == old(files) else EndsItsLine(old(files), files)
    {
      if isOpen { return; }
      if files != [] {
        var f := files[|files| - 1];
        if |f.data| != 0 && f.data[|f.data| - 1] != NEWLINE {
          files := files[..|files| - 1] + [File(f.number, f.data + [NEWLINE])];
        }
      }
      isOpen := true;
    }

    method Append(lines: seq<seq<byte>>)
      requires Valid()
      modifies this`files, this`isOpen, this`prunedUnexported
      ensures Valid() && isOpen
      ensures files == Kept(Appended(old(files), old(isOpen), lines, maxBytes), maxSegments)
      ensures AppendLeaves(old(files), old(isOpen), Join(lines), maxBytes, maxSegments, files)
      ensures prunedUnexported == old(prunedUnexported)
        + if exporting
          then Unexported(Dropped(Appended(old(files), old(isOpen), lines, maxBytes), maxSegments), Position(saved).segment)
          else 0
    {
      hide Join, Unexported, Excess, AppendLeaves, KeepsNewest, Ends, EndsItsLine, Sorted, Written, Repaired;
      AppendKeepsNewest(files, isOpen, lines, maxBytes, maxSegments);
      Open();
      var current := Write(Join(lines));
      Prune(current);
    }

    method Write(bytes: seq<byte>) returns (current: nat)
      requires Valid()
      modifies this`files
      ensures Valid() && files != [] && files[|files| - 1].number == current
      ensures files == Written(old(files), bytes, maxBytes)
      ensures Ends(old(files), bytes, maxBytes, files)
    {
      current := if files != [] then files[|files| - 1].number else 1;
      if files == [] {
        files := [File(current, bytes)];
      } else if |files[|files| - 1].data| >= maxBytes {
        current := current + 1;
        files := files + [File(current, bytes)];
      } else {
        files := files[..|files| - 1] + [File(current, files[|files| - 1].data + bytes)];
      }
    }

    method Prune(current: nat)
      requires Valid() && files != [] && files[|files| - 1].number == current
      modifies this`files, this`prunedUnexported
      ensures Valid() && files == Kept(old(files), maxSegments)
      ensures KeepsNewest(old(files), maxSegments, files)
      ensures prunedUnexported == old(prunedUnexported)
        + if exporting then Unexported(Dropped(old(files), maxSegments), Position(saved).segment) else 0
    {
      hide Unexported, KeepsNewest;
      PruneKeepsNewest(files, maxSegments);
      UnexportedNone(Position(saved).segment);
      var excess := if |files| > maxSegments then |files| - maxSegments else 0;
      var through := Position(saved).segment;
      ghost var was, counted := files, prunedUnexported;
      var i := 0;
      while i < excess && files[0].number != current
        invariant i <= excess && i < |was| && files == was[i..]
        invariant prunedUnexported == counted + (if exporting then Unexported(was[..i], through) else 0)
      {
        var number := files[0].number;
        files := files[1..];
        if exporting && number >= through { prunedUnexported := prunedUnexported + 1; }
        UnexportedSnoc(was[..i], was[i], through);
        assert was[..i + 1] == was[..i] + [was[i]];
        i := i + 1;
      }
    }

    method Commit(cursor: Cursor)
      modifies this`saved
      ensures saved == Saved(cursor)
    {
      saved := Saved(cursor);
    }

    /** How many lines wait to be exported. */
    method Backlog() returns (count: nat)
      requires Valid()
      ensures count == |Pending(files, Position(saved))|
    {
      var cursor := Position(saved);
      count := 0;
      var i := 0;
      while i < |files|
        invariant i <= |files|
        invariant |Pending(files, cursor)| == count + |Pending(files[i..], cursor)|
      {
        var f := files[i];
        assert files[i..][1..] == files[i + 1..];
        PendingStep(files[i..], cursor);
        if f.number >= cursor.segment {
          var at := if f.number == cursor.segment then cursor.offset else 0;
          var rest := Rest(f.data, at);
          assert PendingIn(f, cursor) == Entries(f.number, at, rest) by { assert f.data[0..] == f.data; }
          CountEntries(f.number, at, rest);
          ghost var base := count;
          while rest != []
            invariant count + Newlines(rest) == base + |PendingIn(f, cursor)|
            decreases |rest|
          {
            var w := if |rest| < READ_BYTES then |rest| else READ_BYTES;
            NewlinesSplit(rest, w);
            count := count + Newlines(rest[..w]);
            rest := rest[w..];
          }
        }
        i := i + 1;
      }
    }

    /** The first `limit` of the pending lines, or all of them. */
    method Read(limit: int) returns (lines: seq<Entry>)
      requires Valid()
      ensures lines == Prefix(Pending(files, Position(saved)), limit)
    {
      lines := ReadFrom(files, Position(saved), limit);
    }
  }

  /** The read itself, one window of one segment at a time; where a segment ends in a torn tail and a later
      one follows, reading goes on there. */
  method ReadFrom(segments: seq<File>, start: Cursor, limit: int) returns (lines: seq<Entry>)
    requires Sorted(segments)
    ensures lines == Prefix(Pending(segments, start), limit)
  {
    hide Pending, Entries, Find, Later, Whole, Rest, Left, Window, Sorted, Taken, Prefix, Finished;
    var cursor := start;
    ghost var pending := Pending(segments, cursor);
    lines := [];
    TakenNone(pending, limit);
    while |lines| < limit
      invariant |lines| <= limit || lines == []
      invariant Taken(lines, Pending(segments, cursor), pending)
      decreases |segments| - Later(segments, cursor.segment), Left(segments, cursor)
    {
      var k, later := Find(segments, cursor.segment), Later(segments, cursor.segment);
      if k == |segments| {
        NotThere(segments, cursor);
      } else {
        var rest := Rest(segments[k].data, cursor.offset);
        if Whole(Window(rest)) == 0 && |rest| >= READ_BYTES {
          // A window with no newline in it holds part of an over-long line.
          NoLineIn(cursor.segment, cursor.offset, rest);
          ReadPast(segments, cursor, k, rest, READ_BYTES, [], lines, pending);
          cursor := Cursor(cursor.segment, cursor.offset + READ_BYTES);
          continue;
        }
        var more, offset := TakeLines(cursor.segment, cursor.offset, rest, limit - |lines|);
        ReadPast(segments, cursor, k, rest, offset - cursor.offset, more, lines, pending);
        cursor := Cursor(cursor.segment, offset);
        lines := lines + more;
        if |lines| >= limit || |rest| >= READ_BYTES { continue; }
      }
      Advance(segments, cursor, lines, pending);
      if later == |segments| {
        TakenAll(lines, pending, limit);
        return;
      }
      cursor := Cursor(segments[later].number, 0);
    }
    TakenLimit(lines, Pending(segments, cursor), pending, limit);
  }

  lemma NotThere(files: seq<File>, c: Cursor)
    requires Find(files, c.segment) == |files|
    ensures Finished(files, c)
  {
  }

  lemma Advance(files: seq<File>, c: Cursor, lines: seq<Entry>, pending: seq<Entry>)
    requires Sorted(files) && Finished(files, c) && Taken(lines, Pending(files, c), pending)
    ensures var l := Later(files, c.segment);
      if l == |files| then Taken(lines, [], pending)
      else Taken(lines, Pending(files, Cursor(files[l].number, 0)), pending) && Later(files, files[l].number) > l
  {
    hide Pending, Taken, Finished;
    NextSegment(files, c);
    var l := Later(files, c.segment);
    if l < |files| { LaterGrows(files, l); }
  }

  /** The complete lines of one window, at most `limit` of them, and the offset past the last. */
  method TakeLines(segment: nat, at: nat, rest: seq<byte>, limit: int) returns (lines: seq<Entry>, offset: nat)
    requires limit > 0
    ensures at <= offset <= at + |rest|
    ensures |lines| <= limit
    ensures Entries(segment, at, rest) == lines + Entries(segment, offset, rest[offset - at..])
    ensures Whole(Window(rest)) > 0 ==> offset > at
    ensures |lines| < limit && |rest| < READ_BYTES ==> Entries(segment, offset, rest[offset - at..]) == []
  {
    hide Entries, Whole, Readable;
    lines, offset := [], at;
    var end := at + Whole(Window(rest));
    while offset < end && |lines| < limit
      invariant at <= offset <= end
      invariant |lines| <= limit
      invariant offset == at ==> lines == []
      invariant Entries(segment, at, rest) == lines + Entries(segment, offset, rest[offset - at..])
    {
      var d := rest[offset - at..];
      var m := LineEnd(d);
      TakeLine(segment, at, rest, offset);
      DropDrop(rest, offset - at, offset - at + m + 1);
      var first := Entry(d[..m], Cursor(segment, offset + m + 1));
      Assoc(lines, [first], Entries(segment, offset + m + 1, d[m + 1..]));
      lines := lines + [first];
      offset := offset + m + 1;
    }
    if |lines| < limit && |rest| < READ_BYTES {
      NoLine(segment, offset, rest[offset - at..]);
    }
  }

  /** What one read takes. */
  function Window(rest: seq<byte>): seq<byte> {
    if |rest| < READ_BYTES then rest else rest[..READ_BYTES]
  }

  lemma LineInWindow(rest: seq<byte>, i: nat)
    requires i < Whole(Window(rest))
    ensures i < |rest| && LineEnd(rest[i..]) < |rest[i..]|
    ensures i + LineEnd(rest[i..]) < Whole(Window(rest)) <= READ_BYTES
  {
    var e := Whole(Window(rest)) - 1;
    assert rest[i..][e - i] == Window(rest)[e] == NEWLINE;
  }

  /** A line that ends within the window is read whole. */
  lemma TakeLine(segment: nat, at: nat, rest: seq<byte>, offset: nat)
    requires at <= offset < at + Whole(Window(rest))
    ensures LineEnd(rest[offset - at..]) < |rest[offset - at..]|
    ensures offset + LineEnd(rest[offset - at..]) < at + Whole(Window(rest))
    ensures var d, m := rest[offset - at..], LineEnd(rest[offset - at..]);
      Entries(segment, offset, d)
      == [Entry(d[..m], Cursor(segment, offset + m + 1))] + Entries(segment, offset + m + 1, d[m + 1..])
  {
    hide Whole, Window, Entries, LineEnd, Readable;
    LineInWindow(rest, offset - at);
    var d := rest[offset - at..];
    var n, first, tail := EntriesStep(segment, offset, d);
    ShortLine(d[..n - 1]);
  }

  lemma ShortLine(line: seq<byte>)
    requires |line| < READ_BYTES
    ensures Readable(line) == line
  {
  }

  /** Reading past `taken` leaves the pending lines after it. */
  lemma ReadPast(files: seq<File>, c: Cursor, k: nat, rest: seq<byte>, n: nat, taken: seq<Entry>,
                 lines: seq<Entry>, pending: seq<Entry>)
    requires Sorted(files) && k < |files| && k == Find(files, c.segment)
    requires rest == Rest(files[k].data, c.offset) && n <= |rest|
    requires Entries(c.segment, c.offset, rest) == taken + Entries(c.segment, c.offset + n, rest[n..])
    requires Taken(lines, Pending(files, c), pending)
    ensures Taken(lines + taken, Pending(files, Cursor(c.segment, c.offset + n)), pending)
    ensures taken == [] ==> Taken(lines, Pending(files, Cursor(c.segment, c.offset + n)), pending)
    ensures Entries(c.segment, c.offset + n, rest[n..]) == [] ==> Finished(files, Cursor(c.segment, c.offset + n))
    ensures n > 0 ==> Left(files, Cursor(c.segment, c.offset + n)) < Left(files, c)
  {
    hide Entries, Rest, Pending, All, Find, Taken, Left;
    AppendNone(lines);
    PastOffset(files[k].data, c.offset, n);
    LeftIs(files, c, k);
    var c' := Cursor(c.segment, c.offset + n);
    LeftIs(files, c', k);
    PendingSplit(files, c, k);
    PendingSplit(files, c', k);
    Assoc(taken, Entries(c.segment, c.offset + n, rest[n..]), All(files[k + 1..]));
    TakeMore(lines, taken, Pending(files, c'), pending);
  }

  lemma LeftIs(files: seq<File>, c: Cursor, k: nat)
    requires k < |files| && k == Find(files, c.segment)
    ensures Left(files, c) == |Rest(files[k].data, c.offset)|
  {
  }

  /** What was read and what is still pending are all that was. */
  ghost predicate Taken(lines: seq<Entry>, left: seq<Entry>, all: seq<Entry>) {
    lines + left == all
  }

  lemma TakenNone(all: seq<Entry>, limit: int)
    ensures Taken([], all, all)
    ensures limit <= 0 ==> Prefix(all, limit) == []
  {
    assert [] + all == all;
  }

  lemma TakeMore(lines: seq<Entry>, more: seq<Entry>, left: seq<Entry>, all: seq<Entry>)
    requires Taken(lines, more + left, all)
    ensures Taken(lines + more, left, all)
  {
    assert (lines + more) + left == lines + (more + left);
  }

  lemma AppendNone(lines: seq<Entry>)
    ensures lines + [] == lines
  {
  }

  lemma TakenAll(lines: seq<Entry>, all: seq<Entry>, limit: int)
    requires Taken(lines, [], all) && (|lines| <= limit || lines == [])
    ensures lines == Prefix(all, limit)
  {
    assert lines + [] == lines;
  }

  lemma TakenLimit(lines: seq<Entry>, left: seq<Entry>, all: seq<Entry>, limit: int)
    requires Taken(lines, left, all) && |lines| >= limit && (|lines| <= limit || lines == [])
    ensures lines == Prefix(all, limit)
  {
    assert all[..|lines|] == lines;
  }

  lemma NoLineIn(segment: nat, at: nat, rest: seq<byte>)
    requires Whole(Window(rest)) == 0 && |rest| >= READ_BYTES
    ensures Entries(segment, at, rest) == [] + Entries(segment, at + READ_BYTES, rest[READ_BYTES..])
  {
    assert forall i :: 0 <= i < READ_BYTES ==> rest[i] == Window(rest)[i];
    hide Entries;
    SkipWindow(segment, at, rest);
  }

  lemma PastOffset(d: seq<byte>, offset: nat, n: nat)
    requires n <= |Rest(d, offset)|
    ensures Rest(d, offset + n) == Rest(d, offset)[n..]
  {
  }

  lemma UnexportedNone(through: nat)
    ensures Unexported([], through) == 0
  {
  }

  lemma UnexportedSnoc(files: seq<File>, f: File, through: nat)
    ensures Unexported(files + [f], through) == Unexported(files, through) + (if f.number >= through then 1 else 0)
  {
    if files != [] {
      assert (files + [f])[1..] == files[1..] + [f];
    }
  }

  function Newlines(d: seq<byte>): nat {
    if d == [] then 0 else (if d[0] == NEWLINE then 1 else 0) + Newlines(d[1..])
  }

  lemma NewlinesSplit(d: seq<byte>, n: nat)
    requires n <= |d|
    ensures Newlines(d) == Newlines(d[..n]) + Newlines(d[n..])
  {
    if n > 0 {
      NewlinesSplit(d[1..], n - 1);
      assert d[..n][1..] == d[1..][..n - 1] && d[1..][n - 1..] == d[n..];
    } else {
      assert d[n..] == d;
    }
  }

  lemma {:induction false} CountEntries(segment: nat, at: nat, d: seq<byte>)
    ensures |Entries(segment, at, d)| == Newlines(d)
    decreases |d|
  {
    hide Entries, LineEnd, Newlines;
    HasLine(segment, at, d);
    if LineEnd(d) == |d| {
      NoNewlines(d);
    } else {
      var n, first, rest := EntriesStep(segment, at, d);
      CountEntries(segment, at + n, d[n..]);
      NewlinesSplit(d, n);
      NewlinesSplit(d[..n], n - 1);
      assert d[..n][..n - 1] == d[..n - 1] && d[..n][n - 1..] == [NEWLINE];
      NoNewlines(d[..n - 1]);
      OneNewline();
    }
  }

  lemma OneNewline()
    ensures Newlines([NEWLINE]) == 1
  {
  }

  lemma NoNewlines(d: seq<byte>)
    requires IsLine(d)
    ensures Newlines(d) == 0
  {
  }

  /** What is left of the segment a cursor is in. */
  ghost function Left(files: seq<File>, c: Cursor): nat {
    var k := Find(files, c.segment);
    if k == |files| then 0 else |Rest(files[k].data, c.offset)|
  }

  lemma LaterGrows(files: seq<File>, k: nat)
    requires Sorted(files) && k < |files|
    ensures Later(files, files[k].number) == k + 1
  {
  }
}
