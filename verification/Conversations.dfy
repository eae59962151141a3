/** Placing requests in conversations: a bounded map ordered by when a conversation was last
    started, from which idle conversations leave at the front. */
module Conversations {
  import opened Options
  import opened OrderedMap
  import opened Signals

  datatype Conversation = Conversation(
    kind: Kind,
    lastStarted: real,
    prompt: Option<string>,
    ttl: nat,
    firstMessage: Option<string>,
    segment: nat,
    requests: nat,
    cached: nat)

  type Tracked = seq<Entry<Key, Conversation>>

  function TtlSeconds(ttl: string): nat {
    if ttl == "5m" then 300 else if ttl == "1h" then 3600 else 0
  }

  /** The longest-lived marker's lifetime. */
  function Longest(ttls: seq<string>): (r: nat)
    ensures forall t <- ttls :: TtlSeconds(t) <= r
    ensures r > 0 ==> exists t <- ttls :: TtlSeconds(t) == r
  {
    if ttls == [] then 0
    else
      var rest := Longest(ttls[1..]);
      if TtlSeconds(ttls[0]) > rest then TtlSeconds(ttls[0]) else rest
  }

  function TtlOf(s: Signals): nat {
    if s.body.Some? then Longest(s.body.value.cacheTtls) else 0
  }

  function DigestOf(s: Signals): Option<string> {
    if s.body.Some? then s.body.value.firstMessage else None
  }

  function Or(a: Option<string>, b: Option<string>): Option<string> {
    if a.Some? && a.value != "" then a else b
  }

  // ---- order ----

  predicate Idle(v: Conversation, now: real, idle: real) {
    now - v.lastStarted > idle
  }

  /** The conversations not idle, in order. */
  function Active(m: Tracked, now: real, idle: real): (r: Tracked)
    ensures forall e <- r :: e in m && !Idle(e.value, now, idle)
    ensures forall e <- m :: !Idle(e.value, now, idle) ==> e in r
    ensures |r| <= |m|
  {
    if m == [] then []
    else (if Idle(m[0].value, now, idle) then [] else [m[0]]) + Active(m[1..], now, idle)
  }

  predicate Sorted(m: Tracked) {
    forall i, j :: 0 <= i < j < |m| ==> m[i].value.lastStarted <= m[j].value.lastStarted
  }

  predicate Before(m: Tracked, clock: real) {
    forall e <- m :: e.value.lastStarted <= clock
  }

  predicate Valid(m: Tracked, max: nat, clock: real) {
    Unique(m) && Sorted(m) && |m| <= max && Before(m, clock)
  }

  lemma {:induction false} AllActive(m: Tracked, now: real, idle: real)
    requires Sorted(m) && (m != [] ==> !Idle(m[0].value, now, idle))
    ensures Active(m, now, idle) == m
  {
    if |m| > 1 {
      AllActive(m[1..], now, idle);
    } else if |m| == 1 {
      assert m[1..] == [];
    }
  }

  lemma {:induction false} ActiveValid(m: Tracked, now: real, idle: real, max: nat, clock: real)
    requires Valid(m, max, clock)
    ensures Valid(Active(m, now, idle), max, clock)
  {
    if m != [] {
      var r := Active(m[1..], now, idle);
      ActiveValid(m[1..], now, idle, max, clock);
      forall e <- r ensures e.key != m[0].key && m[0].value.lastStarted <= e.value.lastStarted {
        assert e in m[1..];
      }
    }
  }

  // ---- placing a request ----

  const SIDE := Position(SideRequest, None, None, 0, 0, false, 0, 0, None)

  const UNTRACKED := SIDE.(boundary := Untracked)

  /** The conversation a request belongs to, if it is one's. */
  function Owner(s: Signals, developer: Option<string>): Option<(Key, Kind)> {
    var h := s.hints;
    if h.session.None? || h.requestClass in {Unlabeled, Unrecognized, Auxiliary} then None
    else if h.requestClass in {Subagent, Workflow} && h.agent.Some? && h.agent.value != "" then
      Some((Key(developer, h.session.value, h.agent.value), if h.requestClass.Subagent? then SubagentKind else WorkflowKind))
    else Some((Key(developer, h.session.value, "main"), MainKind))
  }

  function SidePosition(m: Tracked, s: Signals, developer: Option<string>): Position {
    var h := s.hints;
    if h.session.None? || !h.requestClass.Auxiliary? then UNTRACKED
    else
      var main := Find(m, Key(developer, h.session.value, "main"));
      var digest := DigestOf(s);
      if main.Some? && main.value.firstMessage.Some? && digest.Some? then
        SIDE.(sharesMainPrefix := Some(digest == main.value.firstMessage))
      else SIDE
  }

  predicate Warm(v: Conversation, s: Signals, now: real) {
    v.ttl > 0 && now - v.lastStarted <= v.ttl as real && !s.hints.compacted
  }

  function BoundaryOf(v: Conversation, s: Signals, now: real): Boundary {
    if s.hints.compacted then AfterCompaction
    else if !Warm(v, s, now) then CacheExpired
    else if s.hints.prompt.Some? && s.hints.prompt != v.prompt then NewPrompt
    else Continuation
  }

  function Place(found: Option<Conversation>, s: Signals, now: real, key: Key, kind: Kind): Position {
    if found.None? then Position(ConversationStart, Some(key), Some(kind), 0, 0, false, 0, 0, None)
    else
      var v, b := found.value, BoundaryOf(found.value, s, now);
      Position(b, Some(key), Some(v.kind), v.segment + (if b.Continuation? then 0 else 1), v.requests,
        Warm(v, s, now), v.ttl, if Warm(v, s, now) then v.cached else 0, None)
  }

  function Started(found: Option<Conversation>, s: Signals, now: real, kind: Kind): Conversation {
    if found.None? then Conversation(kind, now, s.hints.prompt, TtlOf(s), DigestOf(s), 0, 1, 0)
    else
      var v, b := found.value, BoundaryOf(found.value, s, now);
      v.(segment := v.segment + (if b.Continuation? then 0 else 1), requests := v.requests + 1,
         lastStarted := now, prompt := Or(s.hints.prompt, v.prompt), ttl := TtlOf(s),
         firstMessage := if b.AfterCompaction? || v.firstMessage.None? then DigestOf(s) else v.firstMessage)
  }

  /** One conversation with this many tokens cached, in its place. */
  function Finished(m: Tracked, key: Key, cached: nat): Tracked {
    if m == [] then []
    else if m[0].key == key then [Entry(key, m[0].value.(cached := cached))] + m[1..]
    else [m[0]] + Finished(m[1..], key, cached)
  }

  function Begun(m: Tracked, s: Signals, developer: Option<string>, now: real, idle: real, max: nat): (Tracked, Position) {
    var kept, owner := Active(m, now, idle), Owner(s, developer);
    if owner.None? then (kept, SidePosition(kept, s, developer))
    else
      var (key, kind) := owner.value;
      var found := Find(kept, key);
      (Put(kept, key, Started(found, s, now, kind), max), Place(found, s, now, key, kind))
  }

  // ---- the tracker ----

  class ConversationTracker {
    var conversations: Tracked
    const max: nat
    const idle: real
    ghost var clock: real

    ghost predicate Ok()
      reads this
    {
      Valid(conversations, max, clock)
    }

    constructor (max: nat, idle: real)
      ensures Ok() && conversations == [] && this.max == max && this.idle == idle
    {
      conversations, this.max, this.idle, clock := [], max, idle, 0.0;
    }

    /** Tells where a request stands and moves its conversation to the end. */
    method Begin(s: Signals, developer: Option<string>, now: real) returns (p: Position)
      requires Ok() && now >= clock && max > 0
      modifies this
      ensures Ok() && clock == now
      ensures (conversations, p) == Begun(old(conversations), s, developer, now, idle, max)
    {
      hide Find, Put, Place, Started, Sorted, Unique;
      var m := ForgetIdle(conversations, now, idle);
      ActiveValid(conversations, now, idle, max, clock);
      clock, conversations := now, m;
      var owner := Owner(s, developer);
      if owner.None? {
        p := SidePosition(m, s, developer);
      } else {
        var (key, kind) := owner.value;
        var found := Find(m, key);
        p := Place(found, s, now, key, kind);
        StartedNow(found, s, now, kind);
        PutValid(m, key, Started(found, s, now, kind), max, now);
        conversations := PutNewest(m, key, Started(found, s, now, kind), max);
      }
    }

    /** Notes the tokens now cached: of one conversation alone, and in its place. */
    method Complete(p: Position, ok: bool, cached: nat)
      requires Ok()
      modifies this`conversations
      ensures Ok() && |conversations| == |old(conversations)|
      ensures forall i :: 0 <= i < |conversations| ==>
        conversations[i] ==
          if ok && cached != 0 && p.key == Some(old(conversations)[i].key)
          then Entry(old(conversations)[i].key, old(conversations)[i].value.(cached := cached))
          else old(conversations)[i]
      ensures p.key.Some? && ok && cached != 0 ==> conversations == Finished(old(conversations), p.key.value, cached)
    {
      hide Finished;
      if p.key.Some? && ok && cached != 0 {
        FinishedValid(conversations, p.key.value, cached, max, clock);
        FinishedAt(conversations, p.key.value, cached);
        conversations := Finished(conversations, p.key.value, cached);
      }
    }
  }

  /** Only the front is looked at, yet exactly the idle conversations go. */
  method ForgetIdle(m: Tracked, now: real, idle: real) returns (r: Tracked)
    requires Sorted(m)
    ensures r == Active(m, now, idle)
  {
    r := m;
    while r != [] && Idle(r[0].value, now, idle)
      invariant Sorted(r) && Active(r, now, idle) == Active(m, now, idle)
    {
      r := r[1..];
    }
    AllActive(r, now, idle);
  }

  lemma StartedNow(found: Option<Conversation>, s: Signals, now: real, kind: Kind)
    ensures Started(found, s, now, kind).lastStarted == now
  {
  }

  lemma {:induction false} WithoutSorted(m: Tracked, key: Key)
    requires Sorted(m)
    ensures Sorted(Without(m, key))
  {
    if m != [] {
      WithoutSorted(m[1..], key);
      var w := Without(m[1..], key);
      forall e <- w ensures m[0].value.lastStarted <= e.value.lastStarted { assert e in m[1..]; }
    }
  }

  lemma WithoutBefore(m: Tracked, key: Key, clock: real)
    requires Before(m, clock)
    ensures Before(Without(m, key), clock)
  {
  }

  lemma SnocSorted(w: Tracked, e: Entry<Key, Conversation>)
    requires Sorted(w) && Before(w, e.value.lastStarted)
    ensures Sorted(w + [e]) && Before(w + [e], e.value.lastStarted)
  {
    forall i | 0 <= i < |w| ensures w[i].value.lastStarted <= e.value.lastStarted { assert w[i] in w; }
  }

  lemma NewestSorted(m: Tracked, max: nat, clock: real)
    requires Sorted(m) && Before(m, clock)
    ensures Sorted(Newest(m, max)) && Before(Newest(m, max), clock)
  {
    var r := Newest(m, max);
    var d := |m| - |r|;
    forall i, j | 0 <= i < j < |r| ensures r[i].value.lastStarted <= r[j].value.lastStarted {
      assert r[i] == m[d + i] && r[j] == m[d + j];
    }
    forall e <- r ensures e.value.lastStarted <= clock { assert e in m; }
  }

  lemma PutValid(m: Tracked, key: Key, v: Conversation, max: nat, now: real)
    requires Valid(m, max, now) && v.lastStarted == now && max > 0
    ensures Valid(Put(m, key, v, max), max, now)
  {
    hide Without, Sorted, Before, Unique, Newest;
    WithoutSorted(m, key);
    WithoutBefore(m, key, now);
    PutFind(m, key, v, max, key);
    SnocSorted(Without(m, key), Entry(key, v));
    NewestSorted(Without(m, key) + [Entry(key, v)], max, now);
  }

  lemma {:induction false} FinishedAt(m: Tracked, key: Key, cached: nat)
    requires Unique(m)
    ensures |Finished(m, key, cached)| == |m|
    ensures forall i :: 0 <= i < |m| ==>
      Finished(m, key, cached)[i] == if m[i].key == key then Entry(key, m[i].value.(cached := cached)) else m[i]
  {
    if m != [] && m[0].key != key { FinishedAt(m[1..], key, cached); }
  }

  lemma FinishedValid(m: Tracked, key: Key, cached: nat, max: nat, clock: real)
    requires Valid(m, max, clock)
    ensures Valid(Finished(m, key, cached), max, clock)
  {
    FinishedAt(m, key, cached);
  }

  // ---- what goes when a request begins ----

  /** A conversation other than the begun one goes exactly when it is idle, or when the tracker is full
      without the begun one and no other active conversation started before it. */
  lemma BeginForgets(m: Tracked, s: Signals, developer: Option<string>, now: real, idle: real, max: nat, i: nat)
    requires Valid(m, max, now) && max > 0 && i < |m|
    requires Owner(s, developer).Some? && m[i].key != Owner(s, developer).value.0
    ensures var kept := Active(m, now, idle);
      m[i] in Begun(m, s, developer, now, idle, max).0
      <==> !Idle(m[i].value, now, idle)
           && !(Without(kept, Owner(s, developer).value.0) != []
                && |Without(kept, Owner(s, developer).value.0)| == max
                && Without(kept, Owner(s, developer).value.0)[0] == m[i])
  {
    hide Place, Started, Active, Without;
    ActiveValid(m, now, idle, max, now);
    var kept := Active(m, now, idle);
    var (key, kind) := Owner(s, developer).value;
    var w := Without(kept, key);
    WithoutUnique(kept, key);
    var all := w + [Entry(key, Started(Find(kept, key), s, now, kind))];
    assert m[i] in kept <==> !Idle(m[i].value, now, idle);
    assert m[i] in w <==> m[i] in kept;
    if |w| == max {
      assert Newest(all, max) == all[1..];
      assert all[1..] == w[1..] + [all[max]];
      assert m[i] in w[1..] <==> m[i] in w && w[0] != m[i];
    } else {
      assert Newest(all, max) == all;
    }
  }

  // ---- whole runs ----

  datatype Event =
    | Begins(signals: Signals, developer: Option<string>, now: real)
    | Completes(position: Position, ok: bool, cached: nat)

  /** The tracker, the latest time, and each conversation's boundaries since it last started. */
  datatype State = State(tracked: Tracked, clock: real, log: map<Key, seq<Boundary>>)

  const START := State([], 0.0, map[])

  function Logged(log: map<Key, seq<Boundary>>, p: Position): map<Key, seq<Boundary>> {
    if p.key.None? then log
    else
      log[p.key.value := (if p.boundary.ConversationStart? || p.key.value !in log then [] else log[p.key.value]) + [p.boundary]]
  }

  function Next(st: State, e: Event, idle: real, max: nat): State {
    match e
    case Begins(s, developer, now) =>
      var (m, p) := Begun(st.tracked, s, developer, now, idle, max);
      State(m, now, Logged(st.log, p))
    case Completes(p, ok, cached) =>
      if p.key.None? || !ok || cached == 0 then st
      else st.(tracked := Finished(st.tracked, p.key.value, cached))
  }

  function Run(events: seq<Event>, idle: real, max: nat): State {
    if events == [] then START else Next(Run(events[..|events| - 1], idle, max), events[|events| - 1], idle, max)
  }

  /** The clock never goes back, and never before the tracker was made. */
  predicate Monotone(events: seq<Event>) {
    && (forall i :: 0 <= i < |events| && events[i].Begins? ==> events[i].now >= 0.0)
    && (forall i, j :: 0 <= i < j < |events| && events[i].Begins? && events[j].Begins? ==> events[i].now <= events[j].now)
  }

  function Latest(events: seq<Event>): real {
    if events == [] then 0.0
    else if events[|events| - 1].Begins? then events[|events| - 1].now
    else Latest(events[..|events| - 1])
  }

  /** The boundaries that are not continuations. */
  function Boundaries(log: seq<Boundary>): nat {
    if log == [] then 0
    else Boundaries(log[..|log| - 1]) + (if log[|log| - 1].Continuation? then 0 else 1)
  }

  /** A conversation's log since it started, and what the tracker counts of it. */
  predicate CountedBy(v: Conversation, log: seq<Boundary>) {
    && log != [] && log[0].ConversationStart?
    && (forall i :: 1 <= i < |log| ==> !log[i].ConversationStart?)
    && v.segment + 1 == Boundaries(log)
    && v.requests == |log|
  }

  predicate Counted(e: Entry<Key, Conversation>, log: map<Key, seq<Boundary>>) {
    e.key in log && CountedBy(e.value, log[e.key])
  }

  ghost predicate Inv(st: State, max: nat) {
    Valid(st.tracked, max, st.clock) && forall e <- st.tracked :: Counted(e, st.log)
  }

  lemma StepKeeps(st: State, e: Event, idle: real, max: nat)
    requires Inv(st, max) && max > 0 && (e.Begins? ==> e.now >= st.clock)
    ensures Inv(Next(st, e, idle, max), max)
  {
    match e
    case Begins(s, developer, now) => BeginKeeps(st, s, developer, now, idle, max);
    case Completes(p, ok, cached) =>
      if p.key.Some? && ok && cached != 0 { FinishKeeps(st, p.key.value, cached, max); }
  }

  lemma FinishKeeps(st: State, key: Key, cached: nat, max: nat)
    requires Inv(st, max)
    ensures Inv(st.(tracked := Finished(st.tracked, key, cached)), max)
  {
    hide Finished, Sorted, Before;
    FinishedValid(st.tracked, key, cached, max, st.clock);
    FinishedAt(st.tracked, key, cached);
    var m := Finished(st.tracked, key, cached);
    forall e <- m ensures Counted(e, st.log) {
      var i :| 0 <= i < |m| && m[i] == e;
      assert Counted(st.tracked[i], st.log);
    }
  }

  lemma BeginKeeps(st: State, s: Signals, developer: Option<string>, now: real, idle: real, max: nat)
    requires Inv(st, max) && max > 0 && now >= st.clock
    ensures Inv(Next(st, Begins(s, developer, now), idle, max), max)
  {
    hide Active, Find, Put, Started, Place, Valid, Counted;
    var kept, owner := Active(st.tracked, now, idle), Owner(s, developer);
    KeptValid(st.tracked, st.clock, now, idle, max);
    SideHasNoKey(kept, s, developer);
    if owner.Some? {
      var (key, kind) := owner.value;
      var found := Find(kept, key);
      var v, p := Started(found, s, now, kind), Place(found, s, now, key, kind);
      StartedNow(found, s, now, kind);
      PutValid(kept, key, v, max, now);
      PlaceCounted(found, s, now, key, kind, st.log);
      var r, log := Put(kept, key, v, max), Logged(st.log, p);
      PutFrom(kept, key, v, max);
      forall e <- r ensures Counted(e, log) {
        if e != Entry(key, v) { SameLog(e, st.log, log); }
      }
    }
  }

  lemma SameLog(e: Entry<Key, Conversation>, log: map<Key, seq<Boundary>>, log': map<Key, seq<Boundary>>)
    requires Counted(e, log) && (e.key in log ==> e.key in log' && log'[e.key] == log[e.key])
    ensures Counted(e, log')
  {
  }

  lemma KeptValid(m: Tracked, clock: real, now: real, idle: real, max: nat)
    requires Valid(m, max, clock) && now >= clock
    ensures Valid(Active(m, now, idle), max, now)
  {
    ActiveValid(m, now, idle, max, clock);
  }

  lemma SideHasNoKey(m: Tracked, s: Signals, developer: Option<string>)
    ensures SidePosition(m, s, developer).key.None?
  {
  }

  lemma OneMore(v: Conversation, log: seq<Boundary>, b: Boundary, v': Conversation)
    requires CountedBy(v, log) && !b.ConversationStart?
    requires v'.segment == v.segment + (if b.Continuation? then 0 else 1) && v'.requests == v.requests + 1
    ensures CountedBy(v', log + [b])
  {
    assert (log + [b])[..|log|] == log;
  }

  lemma FirstOne(v: Conversation)
    requires v.segment == 0 && v.requests == 1
    ensures CountedBy(v, [ConversationStart])
  {
    assert [ConversationStart][..0] == [];
    assert Boundaries([]) == 0;
  }

  lemma PlaceCounted(found: Option<Conversation>, s: Signals, now: real, key: Key, kind: Kind, log: map<Key, seq<Boundary>>)
    requires found.Some? ==> Counted(Entry(key, found.value), log)
    ensures Place(found, s, now, key, kind).key == Some(key)
    ensures Counted(Entry(key, Started(found, s, now, kind)), Logged(log, Place(found, s, now, key, kind)))
  {
    hide CountedBy, TtlOf, DigestOf, Warm;
    var p, v := Place(found, s, now, key, kind), Started(found, s, now, kind);
    if found.None? {
      FirstOne(v);
      assert [] + [p.boundary] == [ConversationStart];
    } else {
      OneMore(found.value, log[key], p.boundary, v);
    }
  }

  /** After any run under a clock that never goes back: the order is by when each conversation last
      started, the bound holds, and each conversation counts its requests and, as its segment, its
      boundaries since it started. */
  lemma {:induction false} RunKeeps(events: seq<Event>, idle: real, max: nat)
    requires Monotone(events) && max > 0
    ensures Inv(Run(events, idle, max), max) && Run(events, idle, max).clock == Latest(events)
  {
    hide Next, Valid, Counted;
    if events == [] {
      assert Valid([], max, 0.0) by { EmptyValid(max); }
    } else {
      var init, e := events[..|events| - 1], events[|events| - 1];
      assert Monotone(init) by { assert forall i :: 0 <= i < |init| ==> init[i] == events[i]; }
      RunKeeps(init, idle, max);
      LatestIs(init);
      StepKeeps(Run(init, idle, max), e, idle, max);
      NextClock(Run(init, idle, max), e, idle, max);
    }
  }

  lemma EmptyValid(max: nat)
    ensures Valid([], max, 0.0)
  {
  }

  lemma NextClock(st: State, e: Event, idle: real, max: nat)
    ensures Next(st, e, idle, max).clock == if e.Begins? then e.now else st.clock
  {
  }

  lemma {:induction false} LatestIs(events: seq<Event>)
    ensures Latest(events) == 0.0 || exists i :: 0 <= i < |events| && events[i].Begins? && events[i].now == Latest(events)
  {
    if events != [] {
      var init := events[..|events| - 1];
      LatestIs(init);
      if !events[|events| - 1].Begins? && Latest(init) != 0.0 {
        var i :| 0 <= i < |init| && init[i].Begins? && init[i].now == Latest(init);
        assert events[i] == init[i];
      }
    }
  }

  /** A switch is free exactly for a conversation's request that finds no warm cache: the previous
      request left none, it has outlived its markers, or the context was compacted. */
  lemma ColdIsNoWarmCache(st: State, s: Signals, developer: Option<string>, now: real, idle: real, max: nat)
    ensures var p := Begun(st.tracked, s, developer, now, idle, max).1;
      && (IsCold(p) <==> p.key.Some? && !p.cacheWarm)
      && (p.key.Some? <==> Owner(s, developer).Some?)
      && (p.cacheWarm ==>
            (var found := Find(Active(st.tracked, now, idle), p.key.value);
             found.Some? && Warm(found.value, s, now)))
      && (p.cachedPrefix > 0 ==> p.cacheWarm)
  {
    hide Active, Find, Put, Started;
  }
}
