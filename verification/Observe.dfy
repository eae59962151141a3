/** Reading a copy of a response as it is relayed: server-sent events cut out of a byte stream
    whatever the chunks, and what a message's events tell that its JSON body would. */
module Observe {
  import W = Writer
  import opened Options

  type byte = x: int | 0 <= x < 256

  const CR: byte := 13
  const LF: byte := 10

  /** How much may wait for the end of an event. */
  const MAX_PENDING_EVENT: nat := 0x10_0000

  // ---- line ends ----

  /** Every CR LF as one LF. */
  function Norm(s: seq<byte>): seq<byte>
    decreases |s|
  {
    if s == [] then []
    else if |s| >= 2 && s[0] == CR && s[1] == LF then [LF] + Norm(s[2..])
    else [s[0]] + Norm(s[1..])
  }

  /** A CR before a CR LF is itself read as half a line end, or not, as the chunks fall. */
  predicate NoDoubleCr(s: seq<byte>) {
    forall i :: 0 <= i < |s| - 2 ==> !(s[i] == CR && s[i + 1] == CR && s[i + 2] == LF)
  }

  // ---- events ----

  /** Where an empty line begins, or the length if there is none. */
  function Boundary(s: seq<byte>): (n: nat)
    ensures n <= |s|
    ensures n < |s| ==> n + 1 < |s| && s[n] == LF && s[n + 1] == LF
    ensures forall i :: 0 <= i < n && i + 1 < |s| ==> !(s[i] == LF && s[i + 1] == LF)
  {
    if |s| < 2 then |s|
    else if s[0] == LF && s[1] == LF then 0
    else
      var n := Boundary(s[1..]);
      assert forall i :: 1 <= i < |s| ==> s[1..][i - 1] == s[i];
      n + 1
  }

  /** What is seen after an event, in part when it could not be read. */
  datatype Outcome<+S> = Outcome(seen: S, ok: bool)

  type Handler<!S> = (S, seq<byte>) -> Outcome<S>

  /** The events drained off the front: what is seen, what is left, and whether one failed. */
  datatype Drained<S> = Drained(seen: S, rest: seq<byte>, failed: bool)

  function Drain<S>(p: seq<byte>, seen: S, handle: Handler<S>): Drained<S>
    decreases |p|
  {
    var n := Boundary(p);
    if n == |p| then Drained(seen, p, false)
    else
      var next := handle(seen, p[..n]);
      if next.ok then Drain(p[n + 2..], next.seen, handle) else Drained(next.seen, p[n + 2..], true)
  }

  function DrainRest<S>(p: seq<byte>, next: Outcome<S>, handle: Handler<S>): Drained<S>
    requires Boundary(p) < |p|
  {
    var rest := p[Boundary(p) + 2..];
    if next.ok then Drain(rest, next.seen, handle) else Drained(next.seen, rest, true)
  }

  lemma DrainStep<S>(p: seq<byte>, seen: S, handle: Handler<S>)
    ensures Boundary(p) == |p| ==> Drain(p, seen, handle) == Drained(seen, p, false)
    ensures Boundary(p) < |p| ==> Boundary(p) + 2 <= |p| && p[Boundary(p)] == LF && p[Boundary(p) + 1] == LF
    ensures Boundary(p) < |p| ==> Drain(p, seen, handle) == DrainRest(p, handle(seen, p[..Boundary(p)]), handle)
  {
  }

  datatype Failure = Parse | EventTooLarge

  datatype State<S> = State(seen: S, pending: seq<byte>, failed: Option<Failure>)

  function Feed<S>(s: State<S>, chunk: seq<byte>, handle: Handler<S>): State<S> {
    if s.failed.Some? then s
    else
      var d := Drain(Norm(s.pending + chunk), s.seen, handle);
      if d.failed then State(d.seen, d.rest, Some(Parse))
      else if |d.rest| > MAX_PENDING_EVENT then State(d.seen, [], Some(EventTooLarge))
      else State(d.seen, d.rest, None)
  }

  function FeedAll<S>(s: State<S>, chunks: seq<seq<byte>>, handle: Handler<S>): State<S>
    decreases |chunks|
  {
    if chunks == [] then s else FeedAll(Feed(s, chunks[0], handle), chunks[1..], handle)
  }

  function Join(chunks: seq<seq<byte>>): seq<byte> {
    if chunks == [] then [] else chunks[0] + Join(chunks[1..])
  }

  class Observer<S> {
    const handle: Handler<S>
    var seen: S
    var pending: seq<byte>
    var failed: Option<Failure>

    ghost function Now(): State<S>
      reads this
    {
      State(seen, pending, failed)
    }

    constructor (seen: S, handle: Handler<S>)
      ensures this.handle == handle && Now() == State(seen, [], None)
    {
      this.seen, this.handle, pending, failed := seen, handle, [], None;
    }

    /** Never raises: an event that cannot be read marks the observer failed, and it stops. */
    method FeedChunk(chunk: seq<byte>)
      modifies this
      ensures Now() == Feed(old(Now()), chunk, handle)
    {
      if failed.Some? { return; }
      var d := DrainLoop(Norm(pending + chunk), seen, handle);
      seen, pending := d.seen, d.rest;
      if d.failed {
        failed := Some(Parse);
      } else if |d.rest| > MAX_PENDING_EVENT {
        failed, pending := Some(EventTooLarge), [];
      }
    }
  }

  method DrainLoop<S>(start: seq<byte>, before: S, handle: Handler<S>) returns (d: Drained<S>)
    ensures d == Drain(start, before, handle)
  {
    hide Boundary, Drain;
    var p, seen := start, before;
    var end := Boundary(p);
    while end < |p|
      invariant end == Boundary(p) <= |p|
      invariant Drain(start, before, handle) == Drain(p, seen, handle)
      decreases |p|
    {
      DrainStep(p, seen, handle);
      var next := handle(seen, p[..end]);
      p, seen := p[end + 2..], next.seen;
      if !next.ok { return Drained(seen, p, true); }
      end := Boundary(p);
    }
    DrainStep(p, seen, handle);
    return Drained(seen, p, false);
  }

  // ---- chunks do not matter ----

  lemma NormStep(s: seq<byte>)
    ensures s == [] ==> Norm(s) == []
    ensures |s| >= 2 && s[0] == CR && s[1] == LF ==> Norm(s) == [LF] + Norm(s[2..])
    ensures s != [] && !(|s| >= 2 && s[0] == CR && s[1] == LF) ==> Norm(s) == [s[0]] + Norm(s[1..])
  {
  }

  /** What normalised text begins with. */
  lemma NormFirst(s: seq<byte>)
    ensures Norm(s) == [] <==> s == []
    ensures s != [] ==> Norm(s)[0] == if |s| >= 2 && s[0] == CR && s[1] == LF then LF else s[0]
  {
  }

  lemma NoDoubleDrop(s: seq<byte>, n: nat)
    requires NoDoubleCr(s) && n <= |s|
    ensures NoDoubleCr(s[n..])
  {
  }

  lemma NormCons(c: byte, s: seq<byte>)
    requires !(c == CR && s != [] && s[0] == LF)
    ensures Norm([c] + s) == [c] + Norm(s)
  {
    assert ([c] + s)[1..] == s;
  }

  /** A CR and LF split across chunks normalise once both halves are here. */
  lemma {:induction false} NormTwice(a: seq<byte>, b: seq<byte>)
    requires NoDoubleCr(a + b)
    ensures Norm(Norm(a) + b) == Norm(a + b)
    decreases |a|
  {
    hide Norm;
    NormStep(a);
    NormStep(a + b);
    if a == [] {
    } else if |a| >= 2 && a[0] == CR && a[1] == LF {
      assert (a + b)[2..] == a[2..] + b;
      NoDoubleDrop(a + b, 2);
      NormTwice(a[2..], b);
      assert Norm(a) + b == [LF] + (Norm(a[2..]) + b);
      NormCons(LF, Norm(a[2..]) + b);
    } else if |a| == 1 {
      NormStep([]);
      assert Norm(a) == a by { assert a[1..] == []; }
    } else {
      assert (a + b)[1..] == a[1..] + b;
      NoDoubleDrop(a + b, 1);
      NormTwice(a[1..], b);
      NormFirst(a[1..]);
      assert (a + b)[0] == a[0] && (a + b)[1] == a[1] && (|a| > 2 ==> (a + b)[2] == a[2]);
      assert Norm(a) + b == [a[0]] + (Norm(a[1..]) + b);
      NormCons(a[0], Norm(a[1..]) + b);
    }
  }

  /** Text that ends in an LF and has no CR LF left is not touched by what follows. */
  predicate Settled(d: seq<byte>) {
    && (d != [] ==> d[|d| - 1] == LF)
    && (forall i :: 0 <= i < |d| - 1 ==> !(d[i] == CR && d[i + 1] == LF))
  }

  lemma {:induction false} NormSettled(d: seq<byte>, y: seq<byte>)
    requires Settled(d)
    ensures Norm(d + y) == d + Norm(y)
    decreases |d|
  {
    hide Norm;
    if d == [] {
      assert d + y == y && d + Norm(y) == Norm(y);
    } else {
      assert d + y == [d[0]] + (d[1..] + y);
      assert |d| > 1 ==> (d[1..] + y)[0] == d[1];
      NormSettled(d[1..], y);
      NormCons(d[0], d[1..] + y);
    }
  }

  lemma {:induction false} NormHasNoPair(s: seq<byte>)
    requires NoDoubleCr(s)
    ensures forall i :: 0 <= i < |Norm(s)| - 1 ==> !(Norm(s)[i] == CR && Norm(s)[i + 1] == LF)
    decreases |s|
  {
    hide Norm;
    NormStep(s);
    if s != [] {
      var k := if |s| >= 2 && s[0] == CR && s[1] == LF then 2 else 1;
      NoDoubleDrop(s, k);
      NormHasNoPair(s[k..]);
      NormFirst(s[k..]);
      var n, r := Norm(s), Norm(s[k..]);
      forall i | 0 <= i < |n| - 1 ensures !(n[i] == CR && n[i + 1] == LF) {
        if i > 0 { assert n[i] == r[i - 1] && n[i + 1] == r[i]; }
      }
    }
  }

  /** The part of `p` that was drained, and that draining it again leads to the same place whatever
      comes after. */
  lemma {:induction false} DrainPrefix<S>(p: seq<byte>, seen: S, handle: Handler<S>) returns (d: seq<byte>)
    ensures var r := Drain(p, seen, handle);
      && p == d + r.rest
      && (d != [] ==> d[|d| - 1] == LF)
      && (forall z: seq<byte> ::
            Drain(d + z, seen, handle) == if r.failed then Drained(r.seen, z, true) else Drain(z, r.seen, handle))
    decreases |p|
  {
    hide Boundary, Drain;
    var n := Boundary(p);
    DrainStep(p, seen, handle);
    var r := Drain(p, seen, handle);
    if n == |p| {
      d := [];
      forall z: seq<byte> ensures Drain(d + z, seen, handle) == Drain(z, seen, handle) { assert d + z == z; }
    } else {
      var e, next := p[..n + 2], handle(seen, p[..n]);
      var d': seq<byte> := [];
      if next.ok { d' := DrainPrefix(p[n + 2..], next.seen, handle); }
      d := e + d';
      Rejoin(p, n + 2, d', r.rest);
      forall z: seq<byte> ensures Drain(d + z, seen, handle)
          == if r.failed then Drained(r.seen, z, true) else Drain(z, r.seen, handle) {
        DrainFirst(p, n, d' + z, seen, handle);
        assert d + z == e + (d' + z);
        assert !next.ok ==> d' + z == z;
      }
    }
  }

  lemma Rejoin(p: seq<byte>, n: nat, d: seq<byte>, rest: seq<byte>)
    requires n <= |p| && p[n..] == d + rest
    ensures p == p[..n] + d + rest
  {
    assert p == p[..n] + p[n..];
  }

  lemma DrainFirst<S>(p: seq<byte>, n: nat, z: seq<byte>, seen: S, handle: Handler<S>)
    requires n == Boundary(p) && n + 2 <= |p|
    ensures var next := handle(seen, p[..n]);
      Drain(p[..n + 2] + z, seen, handle)
      == if next.ok then Drain(z, next.seen, handle) else Drained(next.seen, z, true)
  {
    hide Boundary, Drain;
    BoundaryMore(p, n, z);
    DrainStep(p[..n + 2] + z, seen, handle);
  }

  /** A boundary is found where it was, whatever follows it. */
  lemma BoundaryMore(p: seq<byte>, n: nat, z: seq<byte>)
    requires n == Boundary(p) && n + 2 <= |p|
    ensures Boundary(p[..n + 2] + z) == n
    ensures (p[..n + 2] + z)[..n] == p[..n] && (p[..n + 2] + z)[n + 2..] == z
  {
    var q := p[..n + 2] + z;
    assert forall i :: 0 <= i < n + 2 ==> q[i] == p[i];
  }

  /** Every event and what is left keep within the limit, a half-read line end included. */
  ghost predicate Short<S>(s: seq<byte>, seen: S, handle: Handler<S>) {
    forall k :: 0 <= k <= |s| ==> ShortUpTo(s, k, seen, handle)
  }

  predicate ShortUpTo<S>(s: seq<byte>, k: nat, seen: S, handle: Handler<S>)
    requires k <= |s|
  {
    var d := Drain(Norm(s[..k]), seen, handle);
    d.failed || |d.rest| <= MAX_PENDING_EVENT
  }

  /** The state after a prefix of the stream, however it was chunked. */
  ghost predicate At<S>(s: State<S>, prefix: seq<byte>, seen: S, handle: Handler<S>) {
    var d := Drain(Norm(prefix), seen, handle);
    s.seen == d.seen && (if d.failed then s.failed == Some(Parse) else s.failed.None? && s.pending == d.rest)
  }

  lemma FeedStep<S>(s: State<S>, prefix: seq<byte>, chunk: seq<byte>, seen: S, handle: Handler<S>)
    requires At(s, prefix, seen, handle) && NoDoubleCr(prefix + chunk)
    requires var d := Drain(Norm(prefix + chunk), seen, handle); d.failed || |d.rest| <= MAX_PENDING_EVENT
    ensures At(Feed(s, chunk, handle), prefix + chunk, seen, handle)
  {
    hide Norm, Drain, NoDoubleCr;
    NoDoublePrefix(prefix, chunk);
    NormHasNoPair(prefix);
    NormTwice(prefix, chunk);
    var n := Norm(prefix);
    var d := DrainPrefix(n, seen, handle);
    var r := Drain(n, seen, handle);
    assert forall i :: 0 <= i < |d| ==> d[i] == n[i];
    NormSettled(d, r.rest + chunk);
    assert n + chunk == d + (r.rest + chunk);
    assert Norm(prefix + chunk) == d + Norm(r.rest + chunk);
  }

  lemma NoDoublePrefix(a: seq<byte>, b: seq<byte>)
    requires NoDoubleCr(a + b)
    ensures NoDoubleCr(a)
  {
    forall i | 0 <= i < |a| - 2 ensures !(a[i] == CR && a[i + 1] == CR && a[i + 2] == LF) {
      assert a[i] == (a + b)[i] && a[i + 1] == (a + b)[i + 1] && a[i + 2] == (a + b)[i + 2];
    }
  }

  lemma {:induction false} FeedAllAt<S>(s: State<S>, done: nat, chunks: seq<seq<byte>>, all: seq<byte>, seen: S, handle: Handler<S>)
    requires done <= |all| && all[done..] == Join(chunks)
    requires At(s, all[..done], seen, handle) && NoDoubleCr(all) && Short(all, seen, handle)
    ensures At(FeedAll(s, chunks, handle), all, seen, handle)
    decreases |chunks|
  {
    hide At, Feed, NoDoubleCr, Norm, Drain;
    if chunks == [] {
      assert all[..done] == all;
    } else {
      var c, next := chunks[0], done + |chunks[0]|;
      assert all[done..][..|c|] == c;
      assert all[..next] == all[..done] + c;
      assert all[next..] == all[done..][|c|..] == Join(chunks[1..]);
      assert all == all[..next] + all[next..];
      NoDoublePrefix(all[..next], all[next..]);
      assert ShortUpTo(all, next, seen, handle);
      FeedStep(s, all[..done], c, seen, handle);
      FeedAllAt(Feed(s, c, handle), next, chunks[1..], all, seen, handle);
    }
  }

  /** For a stream without CR CR LF whose events keep within the limit, every chunking sees the same
      events as one feed, including where parsing first fails, and leaves the same rest. */
  lemma ChunksDoNotMatter<S>(chunks: seq<seq<byte>>, seen: S, handle: Handler<S>)
    requires NoDoubleCr(Join(chunks)) && Short(Join(chunks), seen, handle)
    ensures var many, one := FeedAll(State(seen, [], None), chunks, handle), Feed(State(seen, [], None), Join(chunks), handle);
      many.seen == one.seen && many.failed == one.failed && (one.failed.None? ==> many.pending == one.pending)
  {
    hide Norm, Drain, NoDoubleCr;
    var all, start := Join(chunks), State(seen, [], None);
    assert all[..0] == [] && all[0..] == all && [] + all == all;
    NormStep([]);
    DrainNone(seen, handle);
    FeedAllAt(start, 0, chunks, all, seen, handle);
    assert all[..|all|] == all;
    assert ShortUpTo(all, |all|, seen, handle);
  }

  lemma DrainNone<S>(seen: S, handle: Handler<S>)
    ensures Drain([], seen, handle) == Drained(seen, [], false)
  {
  }

  // ---- where the chunks do matter ----

  /** A CR LF across the cut is the only thing that normalising two parts apart misses. */
  lemma {:induction false} NormSplit(a: seq<byte>, b: seq<byte>)
    requires a != [] && b != [] ==> !(a[|a| - 1] == CR && b[0] == LF)
    ensures Norm(a + b) == Norm(a) + Norm(b)
    decreases |a|
  {
    hide Norm;
    NormStep(a);
    NormStep(a + b);
    if a == [] {
      assert a + b == b && Norm(a) + Norm(b) == Norm(b);
    } else {
      var k := if |a| >= 2 && a[0] == CR && a[1] == LF then 2 else 1;
      assert (a + b)[k..] == a[k..] + b && (a + b)[0] == a[0];
      assert |a| >= 2 ==> (a + b)[1] == a[1];
      assert |a| == 1 && b != [] ==> (a + b)[1] == b[0];
      NormSplit(a[k..], b);
    }
  }

  lemma NormCrLf(a: seq<byte>)
    ensures Norm(a + [CR, LF]) == Norm(a) + [LF]
    ensures Norm(a + [CR, CR, LF]) == Norm(a) + [CR, LF]
  {
    hide Norm;
    NormSplit(a, [CR, LF]);
    NormSplit(a, [CR, CR, LF]);
    NormStep([CR, LF]);
    NormStep([CR, CR, LF]);
    NormStep([]);
    assert [CR, LF][2..] == [] && [CR, CR, LF][1..] == [CR, LF];
    assert [LF] + [] == [LF];
  }

  /** A handler that reads every event and keeps it. */
  function Recorder(): Handler<seq<seq<byte>>> {
    (seen, event) => Outcome(seen + [event], true)
  }

  /** The text of events with their empty lines. */
  function Flat(events: seq<seq<byte>>): seq<byte> {
    if events == [] then [] else Flat(events[..|events| - 1]) + (events[|events| - 1] + [LF, LF])
  }

  lemma FlatSnoc(events: seq<seq<byte>>, e: seq<byte>)
    ensures Flat(events + [e]) == Flat(events) + (e + [LF, LF])
  {
    assert (events + [e])[..|events|] == events;
  }

  lemma FlatEnds(events: seq<seq<byte>>)
    ensures var f := Flat(events); f != [] ==> |f| >= 2 && f[|f| - 2] == LF && f[|f| - 1] == LF
  {
  }

  /** Recording loses nothing. */
  lemma {:induction false} RecorderKeepsAll(p: seq<byte>, seen: seq<seq<byte>>)
    ensures var d := Drain(p, seen, Recorder()); !d.failed && Flat(d.seen) + d.rest == Flat(seen) + p
    decreases |p|
  {
    hide Boundary, Drain, Flat;
    var n := Boundary(p);
    DrainStep(p, seen, Recorder());
    if n < |p| {
      var next := seen + [p[..n]];
      RecorderKeepsAll(p[n + 2..], next);
      FlatSnoc(seen, p[..n]);
      assert p == (p[..n] + [LF, LF]) + p[n + 2..];
      Assoc(Flat(seen), p[..n] + [LF, LF], p[n + 2..]);
    }
  }

  lemma Assoc(a: seq<byte>, b: seq<byte>, c: seq<byte>)
    ensures (a + b) + c == a + (b + c)
  {
  }

  /** Of a text that ends in a CR LF, a CR before it, the end is not yet drained; once more text comes,
      normalising it again makes it shorter. */
  lemma ShorterAgain(a: seq<byte>, events: seq<seq<byte>>, rest: seq<byte>, b: seq<byte>)
    requires Flat(events) + rest == Norm(a + [CR, CR, LF])
    ensures |Norm(rest + b)| < |rest| + |Norm(b)|
  {
    hide Norm, Flat;
    var x := EndsInCrLf(a, events, rest);
    NormCrLf(x);
    NormShrinks(x);
    NormSplit(rest, b);
  }

  /** Without the condition that no CR CR LF occurs it does matter: for every text that holds one, and
      that one feed takes without meeting the limit, cutting after it leaves another state. */
  lemma DoubleCrDepends(s: seq<byte>)
    requires !NoDoubleCr(s) && Feed(State([], [], None), s, Recorder()).failed.None?
    ensures exists two: seq<seq<byte>> ::
      Join(two) == s && FeedAll(State([], [], None), two, Recorder()) != FeedAll(State([], [], None), [s], Recorder())
  {
    hide Norm, Drain, Flat, Recorder, Feed, FeedAll, Join;
    var i :| 0 <= i < |s| - 2 && s[i] == CR && s[i + 1] == CR && s[i + 2] == LF;
    var a, b := s[..i + 3], s[i + 3..];
    assert a == s[..i] + [CR, CR, LF] && s == a + b;
    JoinTwo(a, b);
    CutMatters(s[..i], b);
    assert Join([a, b]) == s;
  }

  lemma CutMatters(x: seq<byte>, b: seq<byte>)
    requires Feed(State([], [], None), x + [CR, CR, LF] + b, Recorder()).failed.None?
    ensures var a, start := x + [CR, CR, LF], State([], [], None);
      FeedAll(start, [a, b], Recorder()) != FeedAll(start, [a + b], Recorder())
  {
    hide Norm, Drain, Flat, Recorder, FeedAll;
    var a := x + [CR, CR, LF];
    var start: State<seq<seq<byte>>> := State([], [], None);
    FeedIs(start, a + b, Recorder());
    FeedTwo(start, a, b);
    var none: seq<byte> := [];
    assert none + (a + b) == a + b && none + a == a;
    CutShortens(x, b);
  }

  /** Cut after it, the events and what is left are shorter in all. */
  lemma CutShortens(x: seq<byte>, b: seq<byte>)
    ensures var a := x + [CR, CR, LF];
      var mid, one := Drain(Norm(a), [], Recorder()), Drain(Norm(a + b), [], Recorder());
      var last := Drain(Norm(mid.rest + b), mid.seen, Recorder());
      && !mid.failed && !last.failed && !one.failed
      && |Flat(last.seen)| + |last.rest| < |Flat(one.seen)| + |one.rest|
  {
    hide Norm, Drain, Flat, Recorder;
    var a := x + [CR, CR, LF];
    var mid := Drain(Norm(a), [], Recorder());
    RecordsAll(Norm(a));
    RecordsAll(Norm(a + b));
    NormSplit(a, b);
    ShorterAgain(x, mid.seen, mid.rest, b);
    RecorderKeepsAll(Norm(mid.rest + b), mid.seen);
  }

  lemma RecordsAll(p: seq<byte>)
    ensures var d := Drain(p, [], Recorder()); !d.failed && Flat(d.seen) + d.rest == p
  {
    hide Drain, Recorder;
    RecorderKeepsAll(p, []);
    assert Flat([]) + p == p;
  }

  /** And of the events themselves: cutting there changes them exactly when the second part completes one;
      until then only what waits in the buffer differs. */
  lemma CutChangesEvents(x: seq<byte>, b: seq<byte>)
    requires Feed(State([], [], None), x + [CR, CR, LF], Recorder()).failed.None?
    ensures var a, start := x + [CR, CR, LF], State([], [], None);
      var cut := FeedAll(start, [a, b], Recorder());
      cut.seen != FeedAll(start, [a + b], Recorder()).seen <==> cut.seen != FeedAll(start, [a], Recorder()).seen
  {
    hide Norm, Drain, Flat, Recorder, FeedAll;
    var a := x + [CR, CR, LF];
    var start: State<seq<seq<byte>>> := State([], [], None);
    FeedIs(start, a, Recorder());
    FeedIs(start, a + b, Recorder());
    FeedTwo(start, a, b);
    var none: seq<byte> := [];
    assert none + (a + b) == a + b && none + a == a;
    CutDrains(x, b);
  }

  lemma CutDrains(x: seq<byte>, b: seq<byte>)
    ensures var a := x + [CR, CR, LF];
      var mid, one := Drain(Norm(a), [], Recorder()), Drain(Norm(a + b), [], Recorder());
      var last := Drain(Norm(mid.rest + b), mid.seen, Recorder());
      && !mid.failed && !last.failed && !one.failed
      && (last.seen != one.seen <==> last.seen != mid.seen)
  {
    hide Norm, Drain, Flat, Recorder, Boundary;
    var a := x + [CR, CR, LF];
    var mid := Drain(Norm(a), [], Recorder());
    RecordsAll(Norm(a));
    RecordsAll(Norm(a + b));
    RecorderKeepsAll(Norm(mid.rest + b), mid.seen);
    var d := DrainPrefix(Norm(a), [], Recorder());
    NormSplit(a, b);
    Assoc(d, mid.rest, Norm(b));
    assert Norm(a + b) == d + (mid.rest + Norm(b));
    var y := EndsInCrLf(x, mid.seen, mid.rest);
    NormSplit(mid.rest, b);
    NormCrLf(y);
    NormShrinks(y);
    DrainLeavesNone(Norm(a), [], Recorder());
    EarlierBoundary(y, Norm(y), Norm(b));
    RecorderFirst(mid.rest + Norm(b), mid.seen);
    RecorderFirst(Norm(mid.rest) + Norm(b), mid.seen);
  }

  /** What is left to drain ends in the CR LF. */
  lemma EndsInCrLf(x: seq<byte>, events: seq<seq<byte>>, rest: seq<byte>) returns (y: seq<byte>)
    requires Flat(events) + rest == Norm(x + [CR, CR, LF])
    ensures rest == y + [CR, LF]
  {
    hide Norm, Flat;
    NormCrLf(x);
    FlatEnds(events);
    var f, n := Flat(events), Norm(x) + [CR, LF];
    assert n == f + rest && n[|n| - 2] == CR && n[|n| - 1] == LF;
    assert |rest| >= 2;
    y := rest[..|rest| - 2];
    assert rest[|rest| - 2] == n[|n| - 2] && rest[|rest| - 1] == n[|n| - 1];
  }

  lemma {:induction false} DrainLeavesNone<S>(p: seq<byte>, seen: S, handle: Handler<S>)
    ensures var d := Drain(p, seen, handle); !d.failed ==> Boundary(d.rest) == |d.rest|
    decreases |p|
  {
    hide Boundary, Drain;
    DrainStep(p, seen, handle);
    var n := Boundary(p);
    if n < |p| {
      var next := handle(seen, p[..n]);
      if next.ok { DrainLeavesNone(p[n + 2..], next.seen, handle); }
    }
  }

  /** With the CR gone an empty line comes earlier, if there is one. */
  lemma EarlierBoundary(y: seq<byte>, z: seq<byte>, b: seq<byte>)
    requires |z| <= |y| && Boundary(y + [CR, LF]) == |y| + 2
    ensures var p, q := (y + [CR, LF]) + b, (z + [LF]) + b;
      Boundary(p) < |p| ==> Boundary(q) < |q| && Boundary(q) < Boundary(p)
  {
    var r, p, q := y + [CR, LF], (y + [CR, LF]) + b, (z + [LF]) + b;
    hide Boundary;
    BoundaryIs(p);
    BoundaryIs(q);
    BoundaryIs(r);
    var n, shift := Boundary(p), |y| + 1 - |z|;
    if n < |p| {
      assert forall i :: 0 <= i < |r| ==> p[i] == r[i];
      assert n >= |y| + 1;
      assert forall i :: |y| + 1 <= i < |p| ==> q[i - shift] == p[i];
      assert q[n - shift] == p[n] && q[n + 1 - shift] == p[n + 1];
    }
  }

  lemma BoundaryIs(s: seq<byte>)
    ensures Boundary(s) <= |s|
    ensures Boundary(s) < |s| ==> Boundary(s) + 1 < |s| && s[Boundary(s)] == LF && s[Boundary(s) + 1] == LF
    ensures forall i :: 0 <= i < Boundary(s) && i + 1 < |s| ==> !(s[i] == LF && s[i + 1] == LF)
  {
  }

  /** The first event recorded, if there is one. */
  lemma RecorderFirst(p: seq<byte>, seen: seq<seq<byte>>)
    ensures var d := Drain(p, seen, Recorder());
      if Boundary(p) == |p| then d.seen == seen
      else |d.seen| > |seen| && d.seen[|seen|] == p[..Boundary(p)]
  {
    hide Boundary, Drain;
    BoundaryIs(p);
    DrainStep(p, seen, Recorder());
    if Boundary(p) < |p| {
      var next := seen + [p[..Boundary(p)]];
      RecorderGrows(p[Boundary(p) + 2..], next);
    }
  }

  lemma {:induction false} RecorderGrows(p: seq<byte>, seen: seq<seq<byte>>)
    ensures seen <= Drain(p, seen, Recorder()).seen
    decreases |p|
  {
    hide Boundary, Drain;
    DrainStep(p, seen, Recorder());
    var n := Boundary(p);
    BoundaryIs(p);
    if n < |p| { RecorderGrows(p[n + 2..], seen + [p[..n]]); }
  }

  lemma JoinTwo(a: seq<byte>, b: seq<byte>)
    ensures Join([a, b]) == a + b
  {
    var chunks := [a, b];
    assert chunks[1..] == [b] && [b][1..] == chunks[2..];
    assert Join(chunks[2..]) == [] && Join([b]) == b + Join(chunks[2..]);
  }

  lemma FeedIs<S>(start: State<S>, s: seq<byte>, handle: Handler<S>)
    ensures FeedAll(start, [s], handle) == Feed(start, s, handle)
  {
    hide Feed;
    var chunks := [s];
    assert chunks[1..] == [];
  }

  lemma FeedTwo(start: State<seq<seq<byte>>>, a: seq<byte>, b: seq<byte>)
    ensures FeedAll(start, [a, b], Recorder()) == Feed(Feed(start, a, Recorder()), b, Recorder())
  {
    hide Feed;
    var chunks := [a, b];
    assert chunks[1..] == [b];
    FeedIs(Feed(start, a, Recorder()), b, Recorder());
  }

  // ---- the buffer ----

  lemma {:induction false} DrainShrinks<S>(p: seq<byte>, seen: S, handle: Handler<S>)
    ensures var d := Drain(p, seen, handle); |d.rest| <= |p| && (d.failed ==> |d.rest| + 2 <= |p|)
    decreases |p|
  {
    hide Boundary, Drain;
    var n := Boundary(p);
    DrainStep(p, seen, handle);
    if n < |p| {
      var next := handle(seen, p[..n]);
      if next.ok { DrainShrinks(p[n + 2..], next.seen, handle); }
    }
  }

  lemma NormShrinks(s: seq<byte>)
    ensures |Norm(s)| <= |s|
    decreases |s|
  {
  }

  /** The state before the feed of a chunk, and what that feed drains. */
  function Before<S>(chunks: seq<seq<byte>>, k: nat, seen: S, handle: Handler<S>): State<S>
    requires k <= |chunks|
  {
    FeedAll(State(seen, [], None), chunks[..k], handle)
  }

  /** The feed of chunk `k` meets the first event that cannot be read; what follows it in that feed. */
  predicate Meets<S>(chunks: seq<seq<byte>>, k: nat, rest: seq<byte>, seen: S, handle: Handler<S>)
    requires k < |chunks|
  {
    var before := Before(chunks, k, seen, handle);
    before.failed.None? && Drain(Norm(before.pending + chunks[k]), before.seen, handle).failed
    && Drain(Norm(before.pending + chunks[k]), before.seen, handle).rest == rest
  }

  lemma {:induction false} FeedAllSnoc<S>(s: State<S>, chunks: seq<seq<byte>>, c: seq<byte>, handle: Handler<S>)
    ensures FeedAll(s, chunks + [c], handle) == Feed(FeedAll(s, chunks, handle), c, handle)
    decreases |chunks|
  {
    hide Feed;
    if chunks == [] {
      assert (chunks + [c])[1..] == [];
    } else {
      assert (chunks + [c])[1..] == chunks[1..] + [c];
      FeedAllSnoc(Feed(s, chunks[0], handle), chunks[1..], c, handle);
    }
  }

  lemma FeedBounded<S>(s: State<S>, c: seq<byte>, handle: Handler<S>)
    requires s.failed.None? ==> |s.pending| <= MAX_PENDING_EVENT
    ensures var t, d := Feed(s, c, handle), Drain(Norm(s.pending + c), s.seen, handle);
      && (s.failed.Some? ==> t == s)
      && (s.failed.None? && d.failed ==>
            t.failed == Some(Parse) && t.pending == d.rest && |d.rest| + 2 <= MAX_PENDING_EVENT + |c|)
      && (s.failed.None? && !d.failed ==> t.failed != Some(Parse) && |t.pending| <= MAX_PENDING_EVENT)
  {
    hide Norm, Drain;
    NormShrinks(s.pending + c);
    DrainShrinks(Norm(s.pending + c), s.seen, handle);
  }

  /** Whatever was fed: the buffer is within the limit, unless some feed met the first event that cannot
      be read. Then it is what followed that event in that feed, less than the limit and that chunk, and
      stays so however much is fed after. */
  lemma {:induction false} PendingBounded<S>(chunks: seq<seq<byte>>, seen: S, handle: Handler<S>)
    ensures var st := FeedAll(State(seen, [], None), chunks, handle);
      && (st.failed != Some(Parse) ==> |st.pending| <= MAX_PENDING_EVENT)
      && (st.failed == Some(Parse) ==>
            exists k :: 0 <= k < |chunks| && Meets(chunks, k, st.pending, seen, handle)
                        && |st.pending| + 2 <= MAX_PENDING_EVENT + |chunks[k]|)
    decreases |chunks|
  {
    hide Feed, Norm, Drain;
    var start := State(seen, [], None);
    if chunks != [] {
      var n := |chunks| - 1;
      var init, c := chunks[..n], chunks[n];
      assert chunks == init + [c];
      PendingBounded(init, seen, handle);
      FeedAllSnoc(start, init, c, handle);
      var s := FeedAll(start, init, handle);
      FeedBounded(s, c, handle);
      var st := FeedAll(start, chunks, handle);
      if s.failed == Some(Parse) {
        var k :| 0 <= k < n && Meets(init, k, s.pending, seen, handle) && |s.pending| + 2 <= MAX_PENDING_EVENT + |init[k]|;
        assert init[..k] == chunks[..k];
        assert Meets(chunks, k, st.pending, seen, handle);
      } else if st.failed == Some(Parse) {
        assert Meets(chunks, n, st.pending, seen, handle);
      }
    }
  }

  predicate NoLineEnds(s: seq<byte>) {
    forall i :: 0 <= i < |s| ==> s[i] != CR && s[i] != LF
  }

  /** One feed of an event that cannot be read and more than the limit after it keeps all of that. */
  lemma UnreadableThenMore<S>(event: seq<byte>, more: seq<byte>, seen: S, handle: Handler<S>)
    requires NoLineEnds(event) && NoLineEnds(more) && |more| > MAX_PENDING_EVENT && !handle(seen, event).ok
    ensures var st := FeedAll(State(seen, [], None), [event + ([LF, LF] + more)], handle);
      st.failed == Some(Parse) && st.pending == more
  {
    hide Norm, Drain, Boundary;
    var p := event + ([LF, LF] + more);
    FeedIs(State(seen, [], None), p, handle);
    var none: seq<byte> := [];
    assert none + p == p;
    assert forall i :: 0 <= i < |p| ==> p[i] != CR;
    NormNone(p);
    assert Boundary(p) == |event| by { BoundaryAt(p, |event|); }
    DrainStep(p, seen, handle);
    assert p[..|event|] == event && p[|event| + 2..] == more;
  }

  lemma BoundaryAt(p: seq<byte>, n: nat)
    requires n + 1 < |p| && p[n] == LF && p[n + 1] == LF
    requires forall i :: 0 <= i < n ==> p[i] != LF
    ensures Boundary(p) == n
  {
  }

  lemma {:induction false} NormNone(s: seq<byte>)
    requires forall i :: 0 <= i < |s| ==> s[i] != CR
    ensures Norm(s) == s
    decreases |s|
  {
    if s != [] {
      NormNone(s[1..]);
      assert s == [s[0]] + s[1..];
    }
  }

  // ---- what the events tell ----

  /** What is learned from a response. */
  datatype Seen = Seen(model: string, usage: W.Counts, stopReason: Option<string>, tools: seq<string>)

  const NOTHING := Seen("", map[], None, [])

  function See(s: Seen, e: W.Event): Seen {
    match e
    case MessageStart(model, usage) => s.(model := model, usage := s.usage + usage)
    case MessageDelta(reason, usage) =>
      s.(usage := s.usage + usage, stopReason := if reason.Some? && reason.value != "" then reason else s.stopReason)
    case Start(_, block) => if block.Tool? then s.(tools := s.tools + [block.name]) else s
    case _ => s
  }

  function SeeAll(s: Seen, events: seq<W.Event>): Seen
    decreases |events|
  {
    if events == [] then s else SeeAll(See(s, events[0]), events[1..])
  }

  /** What a JSON body tells. */
  function OfBody(m: W.Message): Seen {
    Seen(m.model, m.usage, m.stopReason, W.ToolNames(m.content))
  }

  /** The observer is where a reader of the same events is. */
  ghost predicate Agree(s: Seen, r: W.Reader) {
    && r.Reader? && s.model == r.model && s.usage == r.usage
    && s.stopReason == (if r.stop.Some? && r.stop.value != Some("") then r.stop.value else None)
    && s.tools == W.ToolNames(r.blocks) + (if r.open.OpenTool? then [r.open.name] else [])
  }

  lemma SeeKeeps(s: Seen, r: W.Reader, e: W.Event, codec: W.Codec)
    requires Agree(s, r) && W.ReadEvent(r, e, codec).Reader?
    ensures Agree(See(s, e), W.ReadEvent(r, e, codec))
  {
    hide W.ToolNames;
    var r' := W.ReadEvent(r, e, codec);
    if e.Stop? { W.ToolNamesSnoc(r.blocks, r'.blocks[|r.blocks|]); }
  }

  lemma {:induction false} SeeAllKeeps(s: Seen, r: W.Reader, events: seq<W.Event>, codec: W.Codec)
    requires Agree(s, r) && W.Read(r, events, codec).Reader?
    ensures Agree(SeeAll(s, events), W.Read(r, events, codec))
    decreases |events|
  {
    hide Agree, See, W.ReadEvent;
    if events != [] {
      var r' := W.ReadEvent(r, events[0], codec);
      W.BadStays(r', events[1..], codec);
      SeeKeeps(s, r, events[0], codec);
      SeeAllKeeps(See(s, events[0]), r', events[1..], codec);
    }
  }

  /** Of any well-formed stream the observer reports the model, the usage, the stop reason and the
      tools, in order, of the message it reads back to. */
  lemma ObserverReads(events: seq<W.Event>, codec: W.Codec)
    requires W.ReadStream(events, codec).Reader? && W.ReadStream(events, codec).ended
    ensures Agree(SeeAll(NOTHING, events), W.ReadStream(events, codec))
  {
    hide W.Read, W.ReadEvent;
    var start := W.Unread(events[0].model, events[0].usage);
    assert map[] + events[0].usage == events[0].usage;
    assert Agree(See(NOTHING, events[0]), start);
    SeeAllKeeps(See(NOTHING, events[0]), start, events[1..], codec);
  }

  /** What is recorded of a response. */
  datatype Summary = Summary(model: Option<string>, usage: W.Counts, stopReason: Option<string>, tools: seq<string>)

  /** Only what is a token leaves the gateway. */
  function TokenOrNone(value: Option<string>, isToken: string -> bool): Option<string> {
    if value.Some? && isToken(value.value) then value else None
  }

  function Summarized(s: Seen, isToken: string -> bool): Summary {
    Summary(TokenOrNone(Some(s.model), isToken), s.usage, TokenOrNone(s.stopReason, isToken), s.tools)
  }

  /** Every message is recorded the same streamed as whole, whatever its stop reason, since none and an
      empty one are both no token. */
  lemma StreamTellsWhatBodyTells(m: W.Message, setup: W.Setup, isToken: string -> bool)
    requires W.Lawful(setup.codec) && "output_tokens" in m.usage && !isToken("")
    ensures Summarized(SeeAll(NOTHING, W.AsStream(m, setup.codec)), isToken) == Summarized(OfBody(m), isToken)
  {
    hide W.AsStream, W.ReadStream, SeeAll, W.Lawful, W.ToolNames;
    W.MessageReadsBack(m, setup);
    ObserverReads(W.AsStream(m, setup.codec), setup.codec);
    assert W.ToolNames(m.content) + [] == W.ToolNames(m.content);
  }
}
