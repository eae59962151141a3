/** Where a request stands in its conversation, told of what happened before it: for every run, from the requests
    and their times alone. */
module ConversationRuns {
  import opened Options
  import opened OrderedMap
  import opened Signals
  import opened Conversations

  /** A request and when it came. */
  datatype Request = Request(signals: Signals, now: real)

  predicate BeginsOf(e: Event, key: Key) {
    e.Begins? && Owner(e.signals, e.developer).Some? && Owner(e.signals, e.developer).value.0 == key
  }

  /** Whether the conversation is tracked when a request comes. */
  predicate TrackedAt(events: seq<Event>, key: Key, now: real, idle: real, max: nat) {
    Find(Active(Run(events, idle, max).tracked, now, idle), key).Some?
  }

  /** The requests of a conversation since it started. */
  function Since(events: seq<Event>, key: Key, idle: real, max: nat): seq<Request> {
    if events == [] then []
    else
      var init, e := events[..|events| - 1], events[|events| - 1];
      var before := Since(init, key, idle, max);
      if BeginsOf(e, key) then
        (if TrackedAt(init, key, e.now, idle, max) then before else []) + [Request(e.signals, e.now)]
      else before
  }

  /** What the last finished request of the conversation since it started left cached. */
  function CachedSince(events: seq<Event>, key: Key, idle: real, max: nat): nat {
    if events == [] then 0
    else
      var init, e := events[..|events| - 1], events[|events| - 1];
      if BeginsOf(e, key) && !TrackedAt(init, key, e.now, idle, max) then 0
      else if e.Completes? && e.position.key == Some(key) && e.ok && e.cached > 0 then e.cached
      else CachedSince(init, key, idle, max)
  }

  /** The last prompt named; an empty name counts only where the conversation started with it. */
  function LastNamed(h: seq<Request>): Option<string> {
    if h == [] then None
    else
      var named := h[|h| - 1].signals.hints.prompt;
      if |h| == 1 || (named.Some? && named.value != "") then named else LastNamed(h[..|h| - 1])
  }

  /** The requests since the last compaction, itself included. */
  function SinceCompaction(h: seq<Request>): seq<Request> {
    if |h| <= 1 then h
    else if h[|h| - 1].signals.hints.compacted then [h[|h| - 1]]
    else SinceCompaction(h[..|h| - 1]) + [h[|h| - 1]]
  }

  /** The first message that one of the requests tells. */
  function FirstTold(h: seq<Request>): Option<string> {
    if h == [] then None
    else if h[0].signals.body.Some? && h[0].signals.body.value.firstMessage.Some? then h[0].signals.body.value.firstMessage
    else FirstTold(h[1..])
  }

  /** One of the request's cache markers still lives after so long. */
  ghost predicate MarkerLives(s: Signals, gap: real) {
    s.body.Some? && exists t <- s.body.value.cacheTtls :: (t == "5m" && gap <= 300.0) || (t == "1h" && gap <= 3600.0)
  }

  /** What the tracker knows of a conversation is what happened since it started. */
  ghost predicate Knows(v: Conversation, h: seq<Request>, cached: nat) {
    && h != []
    && v.lastStarted == h[|h| - 1].now
    && v.ttl == TtlOf(h[|h| - 1].signals)
    && v.prompt == LastNamed(h)
    && v.firstMessage == FirstTold(SinceCompaction(h))
    && v.requests == |h|
    && v.cached == cached
  }

  ghost predicate KnowsAll(events: seq<Event>, idle: real, max: nat) {
    forall e <- Run(events, idle, max).tracked ::
      Knows(e.value, Since(events, e.key, idle, max), CachedSince(events, e.key, idle, max))
  }

  lemma {:induction false} FirstToldSnoc(h: seq<Request>, x: Request)
    ensures FirstTold(h + [x]) == if FirstTold(h).Some? then FirstTold(h) else DigestOf(x.signals)
  {
    if h == [] {
      assert (h + [x])[1..] == [];
    } else {
      assert (h + [x])[1..] == h[1..] + [x];
      FirstToldSnoc(h[1..], x);
    }
  }

  lemma KnowsStart(s: Signals, now: real, kind: Kind)
    ensures Knows(Started(None, s, now, kind), [Request(s, now)], 0)
  {
    var h := [Request(s, now)];
    assert h[1..] == [];
  }

  lemma KnowsNext(v: Conversation, h: seq<Request>, cached: nat, s: Signals, now: real, kind: Kind)
    requires Knows(v, h, cached)
    ensures Knows(Started(Some(v), s, now, kind), h + [Request(s, now)], cached)
  {
    hide TtlOf, Warm;
    var x := Request(s, now);
    assert (h + [x])[..|h|] == h;
    FirstToldSnoc(SinceCompaction(h), x);
    var none: seq<Request> := [];
    FirstToldSnoc(none, x);
    assert none + [x] == [x];
  }

  lemma {:induction false} AllKnown(events: seq<Event>, idle: real, max: nat)
    requires Monotone(events) && max > 0
    ensures KnowsAll(events, idle, max)
  {
    hide Next, Since, CachedSince, Knows, Inv;
    if events != [] {
      var init, e := events[..|events| - 1], events[|events| - 1];
      assert Monotone(init) by { assert forall i :: 0 <= i < |init| ==> init[i] == events[i]; }
      AllKnown(init, idle, max);
      RunKeeps(init, idle, max);
      var st := Run(init, idle, max);
      InvUnique(st, max);
      forall x <- Next(st, e, idle, max).tracked
        ensures Knows(x.value, Since(events, x.key, idle, max), CachedSince(events, x.key, idle, max))
      {
        if e.Begins? { BeginKnown(init, e, idle, max, x); } else { CompleteKnown(init, e, idle, max, x); }
        assert events == init + [e];
      }
    }
  }

  lemma InvUnique(st: State, max: nat)
    requires Inv(st, max)
    ensures Unique(st.tracked)
  {
  }

  /** The requests since the start, after one more event. */
  lemma SinceSnoc(events: seq<Event>, e: Event, key: Key, idle: real, max: nat)
    ensures Since(events + [e], key, idle, max) ==
      if BeginsOf(e, key) then
        (if TrackedAt(events, key, e.now, idle, max) then Since(events, key, idle, max) else []) + [Request(e.signals, e.now)]
      else Since(events, key, idle, max)
    ensures CachedSince(events + [e], key, idle, max) ==
      if BeginsOf(e, key) && !TrackedAt(events, key, e.now, idle, max) then 0
      else if e.Completes? && e.position.key == Some(key) && e.ok && e.cached > 0 then e.cached
      else CachedSince(events, key, idle, max)
  {
    hide TrackedAt, BeginsOf;
    assert (events + [e])[..|events|] == events;
  }

  lemma BeginKnown(events: seq<Event>, e: Event, idle: real, max: nat, x: Entry<Key, Conversation>)
    requires e.Begins? && KnowsAll(events, idle, max)
    requires var st := Run(events, idle, max); Unique(st.tracked) && x in Next(st, e, idle, max).tracked
    ensures Knows(x.value, Since(events + [e], x.key, idle, max), CachedSince(events + [e], x.key, idle, max))
  {
    hide Since, CachedSince, Knows, Active, Find, Put, Started, Place, SidePosition, Run, Unique;
    var st := Run(events, idle, max);
    var kept, owner := Active(st.tracked, e.now, idle), Owner(e.signals, e.developer);
    SinceSnoc(events, e, x.key, idle, max);
    if owner.None? {
      assert x in st.tracked;
    } else {
      var (key, kind) := owner.value;
      var found := Find(kept, key);
      PutFrom(kept, key, Started(found, e.signals, e.now, kind), max);
      if x == Entry(key, Started(found, e.signals, e.now, kind)) {
        if found.None? {
          KnowsStart(e.signals, e.now, kind);
          var none: seq<Request> := [];
          assert none + [Request(e.signals, e.now)] == [Request(e.signals, e.now)];
        } else {
          assert Entry(key, found.value) in kept;
          KnowsNext(found.value, Since(events, key, idle, max), CachedSince(events, key, idle, max), e.signals, e.now, kind);
        }
      } else {
        assert x in st.tracked;
      }
    }
  }

  lemma CompleteKnown(events: seq<Event>, e: Event, idle: real, max: nat, x: Entry<Key, Conversation>)
    requires e.Completes? && KnowsAll(events, idle, max)
    requires var st := Run(events, idle, max); Unique(st.tracked) && x in Next(st, e, idle, max).tracked
    ensures Knows(x.value, Since(events + [e], x.key, idle, max), CachedSince(events + [e], x.key, idle, max))
  {
    hide Since, CachedSince, Finished, Run, LastNamed, SinceCompaction, FirstTold, TtlOf;
    var st := Run(events, idle, max);
    SinceSnoc(events, e, x.key, idle, max);
    var m := Next(st, e, idle, max).tracked;
    if e.position.key.Some? && e.ok && e.cached != 0 {
      FinishedAt(st.tracked, e.position.key.value, e.cached);
      var i :| 0 <= i < |m| && m[i] == x;
      assert st.tracked[i] in st.tracked;
    }
  }

  /** The markers of the last request are what the cache's lifetime is told by. */
  lemma WarmIsMarkers(v: Conversation, last: Request, s: Signals, now: real)
    requires v.ttl == TtlOf(last.signals) && v.lastStarted == last.now
    ensures Warm(v, s, now) <==> !s.hints.compacted && MarkerLives(last.signals, now - last.now)
  {
    if last.signals.body.Some? {
      var ttls := last.signals.body.value.cacheTtls;
      assert v.ttl == Longest(ttls);
      if MarkerLives(last.signals, now - last.now) {
        var t :| t in ttls && ((t == "5m" && now - last.now <= 300.0) || (t == "1h" && now - last.now <= 3600.0));
        assert TtlSeconds(t) <= v.ttl;
      }
    }
  }

  /** Where every request stands, told of the run before it. A conversation that is not tracked starts. Of one
      that is: its context was compacted; or no marker of its last request lives any more; or it names another
      prompt than the last one named since it started; or it continues. */
  lemma BoundaryIsTold(events: seq<Event>, s: Signals, developer: Option<string>, now: real, idle: real, max: nat)
    requires Monotone(events) && max > 0 && Owner(s, developer).Some?
    ensures var (key, kind) := Owner(s, developer).value;
      var p, h := Begun(Run(events, idle, max).tracked, s, developer, now, idle, max).1, Since(events, key, idle, max);
      && p.key == Some(key)
      && (p.boundary.ConversationStart? <==> !TrackedAt(events, key, now, idle, max))
      && (p.boundary.ConversationStart? ==> p == Position(ConversationStart, Some(key), Some(kind), 0, 0, false, 0, 0, None))
      && (TrackedAt(events, key, now, idle, max) ==>
            && h != []
            && var last := h[|h| - 1];
               var warm := !s.hints.compacted && MarkerLives(last.signals, now - last.now);
               && (p.boundary.AfterCompaction? <==> s.hints.compacted)
               && (p.boundary.CacheExpired? <==> !s.hints.compacted && !MarkerLives(last.signals, now - last.now))
               && (p.boundary.NewPrompt? <==> warm && s.hints.prompt.Some? && s.hints.prompt != LastNamed(h))
               && (p.boundary.Continuation? <==> warm && !(s.hints.prompt.Some? && s.hints.prompt != LastNamed(h)))
               && p.index == |h| && p.cacheWarm == warm
               && p.cachedPrefix == if warm then CachedSince(events, key, idle, max) else 0)
  {
    hide Active, Find, Put, Started, Since, CachedSince, LastNamed, FirstTold, SinceCompaction, TtlOf, MarkerLives, Warm, Run;
    var (key, kind) := Owner(s, developer).value;
    AllKnown(events, idle, max);
    var kept := Active(Run(events, idle, max).tracked, now, idle);
    var found := Find(kept, key);
    if found.Some? {
      assert Entry(key, found.value) in kept;
      var h := Since(events, key, idle, max);
      assert Knows(found.value, h, CachedSince(events, key, idle, max));
      WarmIsMarkers(found.value, h[|h| - 1], s, now);
    }
  }

  /** A side request has no place in a conversation; it rides the main one's cache exactly when it begins with the
      first message told there since the last compaction. */
  lemma SideIsTold(events: seq<Event>, s: Signals, developer: Option<string>, now: real, idle: real, max: nat)
    requires Monotone(events) && max > 0 && s.hints.session.Some? && s.hints.requestClass.Auxiliary?
    ensures var main := Key(developer, s.hints.session.value, "main");
      var p := Begun(Run(events, idle, max).tracked, s, developer, now, idle, max).1;
      var told := FirstTold(SinceCompaction(Since(events, main, idle, max)));
      && p.boundary.SideRequest? && p.key.None?
      && p.sharesMainPrefix ==
           if TrackedAt(events, main, now, idle, max) && told.Some? && s.body.Some? && s.body.value.firstMessage.Some?
           then Some(s.body.value.firstMessage == told) else None
  {
    hide Active, Find, Put, Started, Since, CachedSince, LastNamed, FirstTold, SinceCompaction, TtlOf, Run;
    AllKnown(events, idle, max);
    var main := Key(developer, s.hints.session.value, "main");
    var kept := Active(Run(events, idle, max).tracked, now, idle);
    var found := Find(kept, main);
    if found.Some? {
      assert Entry(main, found.value) in kept;
      assert Knows(found.value, Since(events, main, idle, max), CachedSince(events, main, idle, max));
    }
  }

  // ---- which conversations are tracked ----

  /** The conversations the requests belong to, in order. */
  function Owners(events: seq<Event>): seq<Key> {
    if events == [] then []
    else
      var e := events[|events| - 1];
      Owners(events[..|events| - 1]) +
        (if e.Begins? && Owner(e.signals, e.developer).Some? then [Owner(e.signals, e.developer).value.0] else [])
  }

  /** When a conversation's last request came. */
  function LastAt(events: seq<Event>, key: Key): Option<real> {
    if events == [] then None
    else if BeginsOf(events[|events| - 1], key) then Some(events[|events| - 1].now)
    else LastAt(events[..|events| - 1], key)
  }

  /** The `max` conversations that were most recently asked of, the latest last. */
  function MostRecent(events: seq<Event>, max: nat): seq<Key> {
    Newest(Recency(Owners(events)), max)
  }

  predicate IdleAt(last: Option<real>, now: real, idle: real) {
    last.Some? && now - last.value > idle
  }

  /** What is tracked: the most recent ones but for some that are idle, each with its last time. */
  ghost predicate TracksRecent(m: Tracked, events: seq<Event>, clock: real, idle: real, max: nat) {
    var r := MostRecent(events, max);
    && |m| <= |r| && Keys(m) == r[|r| - |m|..]
    && (forall i :: 0 <= i < |r| - |m| ==> IdleAt(LastAt(events, r[i]), clock, idle))
    && (forall e <- m :: LastAt(events, e.key) == Some(e.value.lastStarted))
  }

  lemma {:induction false} ActiveIsSuffix(m: Tracked, now: real, idle: real)
    requires Sorted(m)
    ensures var kept := Active(m, now, idle);
      && kept == m[|m| - |kept|..]
      && forall i :: 0 <= i < |m| - |kept| ==> Idle(m[i].value, now, idle)
  {
    if m != [] {
      if Idle(m[0].value, now, idle) {
        ActiveIsSuffix(m[1..], now, idle);
        assert [] + Active(m[1..], now, idle) == Active(m[1..], now, idle);
      } else {
        AllActive(m, now, idle);
      }
    }
  }

  /** What was idle stays so, and more may be. */
  lemma KeptRecent(m: Tracked, events: seq<Event>, clock: real, now: real, idle: real, max: nat)
    requires TracksRecent(m, events, clock, idle, max) && Sorted(m) && now >= clock
    ensures TracksRecent(Active(m, now, idle), events, now, idle, max)
  {
    hide MostRecent, LastAt, Active, Sorted;
    ActiveIsSuffix(m, now, idle);
    var r, kept := MostRecent(events, max), Active(m, now, idle);
    forall i | 0 <= i < |r| - |kept| ensures IdleAt(LastAt(events, r[i]), now, idle) {
      if i >= |r| - |m| {
        var j := i - (|r| - |m|);
        assert Keys(m)[j] == r[i] && m[j] in m;
      }
    }
    assert Keys(kept) == Keys(m)[|m| - |kept|..];
  }

  lemma NewestOfTwo<T>(a: seq<T>, b: seq<T>, max: nat)
    ensures |b| > max ==> Newest(a + b, max) == Newest(b, max)
    ensures |b| <= max ==>
      Newest(a + b, max) == (if |a| + |b| > max then a[|a| + |b| - max..] else a) + b && Newest(b, max) == b
  {
  }

  lemma OwnersSnoc(events: seq<Event>, e: Event)
    ensures Owners(events + [e]) == Owners(events) +
      (if e.Begins? && Owner(e.signals, e.developer).Some? then [Owner(e.signals, e.developer).value.0] else [])
    ensures forall key :: LastAt(events + [e], key) == if BeginsOf(e, key) then Some(e.now) else LastAt(events, key)
  {
    assert (events + [e])[..|events|] == events;
  }

  lemma RecencySnoc(ks: seq<Key>, k: Key, max: nat)
    requires max > 0
    ensures Newest(Recency(ks + [k]), max) == Newest(WithoutKey(Newest(Recency(ks), max), k) + [k], max)
  {
    assert (ks + [k])[..|ks|] == ks;
    RecencyNoRepeat(ks);
    NewestAfter(Recency(ks), k, max);
  }

  lemma {:induction false} WithoutKeyFrom(ks: seq<Key>, key: Key)
    ensures forall k <- WithoutKey(ks, key) :: k in ks && k != key
  {
    if ks != [] { WithoutKeyFrom(ks[1..], key); }
  }

  /** The conversation asked of comes last, and the others keep their order. */
  lemma PutRecent(kept: Tracked, events: seq<Event>, e: Event, key: Key, v: Conversation, idle: real, max: nat)
    requires BeginsOf(e, key) && v.lastStarted == e.now && max > 0
    requires TracksRecent(kept, events, e.now, idle, max)
    ensures TracksRecent(Put(kept, key, v, max), events + [e], e.now, idle, max)
  {
    hide LastAt, Recency, WithoutKey, Without, Newest, Owners;
    var r, r' := MostRecent(events, max), MostRecent(events + [e], max);
    var d := |r| - |kept|;
    var a, b := WithoutKey(r[..d], key), WithoutKey(r[d..], key) + [key];
    OwnersSnoc(events, e);
    RecencySnoc(Owners(events), key, max);
    WithoutKeySplit(r[..d], r[d..], key);
    assert r[..d] + r[d..] == r;
    assert WithoutKey(r, key) + [key] == a + b;
    NewestOfTwo(a, b, max);
    var m := Put(kept, key, v, max);
    PutKeys(kept, key, v, max);
    assert Keys(m) == Newest(b, max);
    WithoutKeyFrom(r[..d], key);
    assert |m| <= |r'| && Keys(m) == r'[|r'| - |m|..] && forall i :: 0 <= i < |r'| - |m| ==> r'[i] in a by {
      SuffixOf(a, b, r', Keys(m), max);
    }
    forall i | 0 <= i < |r'| - |m| ensures IdleAt(LastAt(events + [e], r'[i]), e.now, idle) {
      assert r'[i] in r[..d];
      var j :| 0 <= j < d && r[..d][j] == r'[i];
      assert IdleAt(LastAt(events, r[j]), e.now, idle);
    }
    PutFrom(kept, key, v, max);
  }

  lemma SuffixOf(a: seq<Key>, b: seq<Key>, r: seq<Key>, m: seq<Key>, max: nat)
    requires r == Newest(a + b, max) && m == Newest(b, max)
    ensures |m| <= |r| && m == r[|r| - |m|..] && forall i :: 0 <= i < |r| - |m| ==> r[i] in a
  {
    hide Newest;
    NewestOfTwo(a, b, max);
    if |b| <= max {
      var c := if |a| + |b| > max then a[|a| + |b| - max..] else a;
      assert r == c + b;
      forall i | 0 <= i < |r| - |m| ensures r[i] in a { assert r[i] == c[i]; }
    }
  }

  lemma PutKeys(m: Tracked, key: Key, v: Conversation, max: nat)
    ensures Keys(Put(m, key, v, max)) == Newest(WithoutKey(Keys(m), key) + [key], max)
  {
    hide Without, WithoutKey;
    WithoutKeyOf(m, key);
    assert Keys(Without(m, key) + [Entry(key, v)]) == Keys(Without(m, key)) + [key];
  }

  lemma StepRecent(st: State, events: seq<Event>, e: Event, idle: real, max: nat)
    requires TracksRecent(st.tracked, events, st.clock, idle, max) && Valid(st.tracked, max, st.clock) && max > 0
    requires e.Begins? ==> e.now >= st.clock
    ensures var t := Next(st, e, idle, max); TracksRecent(t.tracked, events + [e], t.clock, idle, max)
  {
    hide TracksRecent, Active, Find, Put, Place, Started, SidePosition, Finished, Sorted, Unique, Logged;
    match e
    case Begins(s, developer, now) =>
      KeptRecent(st.tracked, events, st.clock, now, idle, max);
      var kept := Active(st.tracked, now, idle);
      if Owner(s, developer).Some? {
        var (key, kind) := Owner(s, developer).value;
        var found := Find(kept, key);
        StartedNow(found, s, now, kind);
        PutRecent(kept, events, e, key, Started(found, s, now, kind), idle, max);
      } else {
        SameRecent(kept, kept, events, e, now, idle, max);
      }
    case Completes(p, ok, cached) =>
      if p.key.Some? && ok && cached != 0 { FinishedAt(st.tracked, p.key.value, cached); }
      SameRecent(st.tracked, Next(st, e, idle, max).tracked, events, e, st.clock, idle, max);
  }

  lemma SameRecent(m: Tracked, t: Tracked, events: seq<Event>, e: Event, clock: real, idle: real, max: nat)
    requires TracksRecent(m, events, clock, idle, max)
    requires !(e.Begins? && Owner(e.signals, e.developer).Some?)
    requires |t| == |m| && forall i :: 0 <= i < |m| ==> t[i].key == m[i].key && t[i].value.lastStarted == m[i].value.lastStarted
    ensures TracksRecent(t, events + [e], clock, idle, max)
  {
    hide Recency, Newest, Owners, LastAt;
    OwnersSnoc(events, e);
    assert Owners(events) + [] == Owners(events);
    assert Keys(t) == Keys(m);
    forall x <- t ensures LastAt(events + [e], x.key) == Some(x.value.lastStarted) {
      var i :| 0 <= i < |t| && t[i] == x;
      assert m[i] in m;
    }
  }

  lemma {:induction false} RunTracksRecent(events: seq<Event>, idle: real, max: nat)
    requires Monotone(events) && max > 0
    ensures TracksRecent(Run(events, idle, max).tracked, events, Run(events, idle, max).clock, idle, max)
  {
    hide Next, TracksRecent, Valid;
    if events == [] {
      assert TracksRecent([], [], 0.0, idle, max) by { NoneRecent(idle, max); }
    } else {
      var init, e := events[..|events| - 1], events[|events| - 1];
      assert Monotone(init) by { assert forall i :: 0 <= i < |init| ==> init[i] == events[i]; }
      RunTracksRecent(init, idle, max);
      RunKeeps(init, idle, max);
      LatestIs(init);
      StepRecent(Run(init, idle, max), init, e, idle, max);
      assert init + [e] == events;
    }
  }

  lemma NoneRecent(idle: real, max: nat)
    ensures TracksRecent([], [], 0.0, idle, max)
  {
    var none: Tracked := [];
    assert MostRecent([], max) == [];
    assert Keys(none) == [];
  }

  /** Which conversations are tracked when a request comes: exactly those among the `max` most recently asked of
      whose last request is not longer ago than the idle time. */
  lemma TrackedExactly(events: seq<Event>, key: Key, now: real, idle: real, max: nat)
    requires Monotone(events) && max > 0 && now >= Latest(events)
    ensures TrackedAt(events, key, now, idle, max) <==>
      key in MostRecent(events, max) && LastAt(events, key).Some? && now - LastAt(events, key).value <= idle
  {
    hide Run, Find, Active, MostRecent, LastAt, Inv;
    RunTracksRecent(events, idle, max);
    RunKeeps(events, idle, max);
    var m, r := Run(events, idle, max).tracked, MostRecent(events, max);
    var kept := Active(m, now, idle);
    if Find(kept, key).Some? {
      var e := Entry(key, Find(kept, key).value);
      var i :| 0 <= i < |m| && m[i] == e;
      assert Keys(m)[i] == key;
    }
    if key in r && LastAt(events, key).Some? && now - LastAt(events, key).value <= idle {
      var i :| 0 <= i < |r| && r[i] == key;
      var j := i - (|r| - |m|);
      assert Keys(m)[j] == key && m[j] in m;
      var k :| 0 <= k < |kept| && kept[k] == m[j];
      assert kept[k].key == key;
    }
  }
}
