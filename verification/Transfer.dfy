/** Importing a bundle's history: sessions, runs, spans and node I/O, then messages, with a session undone
    when its messages cannot land. Each step is one transaction. */
module Transfer {
  import opened Options

  type Id = string

  datatype RunRow = RunRow(session: Option<Id>, data: string)
  datatype SpanRow = SpanRow(run: Id, data: string)
  datatype NodeIoRow = NodeIoRow(run: Id, node: string, data: string)
  datatype MessageRow = MessageRow(session: Id, run: Option<Id>, position: int, data: string)

  datatype Store = Store(
    sessions: map<Id, string>,
    runs: map<Id, RunRow>,
    spans: map<Id, SpanRow>,
    nodeIo: map<Id, NodeIoRow>,
    messages: map<Id, MessageRow>)

  // ---- bundles ----

  /** A message as bundled; `ok` when its required fields are there and well-typed. */
  datatype MessageEntry = MessageEntry(ok: bool, id: Id, run: Option<Id>, position: int, data: string)

  datatype Messages = NoMessages | NotAList | AList(entries: seq<MessageEntry>)

  /** An entry; `id` is none when it has none, and `ok` says whether the rest can be stored. */
  datatype SessionEntry = SessionEntry(id: Option<Id>, ok: bool, data: string, messages: Messages)
  datatype RunEntry = RunEntry(id: Option<Id>, ok: bool, session: Option<Id>, data: string)
  datatype SpanEntry = SpanEntry(run: Option<Id>, ok: bool, id: Id, data: string)
  datatype NodeIoEntry = NodeIoEntry(run: Option<Id>, ok: bool, id: Id, node: string, data: string)

  /** A section that is absent, or is not a list, is skipped. */
  datatype Bundle = Bundle(
    sessions: Option<seq<SessionEntry>>,
    runs: Option<seq<RunEntry>>,
    spans: Option<seq<SpanEntry>>,
    nodeIo: Option<seq<NodeIoEntry>>)

  function Entries<T>(section: Option<seq<T>>): seq<T> {
    if section.Some? then section.value else []
  }

  // ---- referential integrity ----

  /** Each run's session, each message's session and run, and each span's and node I/O's run exist, or
      are null where they may be. */
  ghost predicate Sound(st: Store) {
    && (forall r <- st.runs :: st.runs[r].session.Some? ==> st.runs[r].session.value in st.sessions)
    && (forall s <- st.spans :: st.spans[s].run in st.runs)
    && (forall n <- st.nodeIo :: st.nodeIo[n].run in st.runs)
    && (forall m <- st.messages :: st.messages[m].session in st.sessions)
    && (forall m <- st.messages :: st.messages[m].run.Some? ==> st.messages[m].run.value in st.runs)
  }

  // ---- steps ----

  predicate NewSession(st: Store, e: SessionEntry) {
    e.id.Some? && e.id.value !in st.sessions && e.ok
  }

  function SessionStep(st: Store, e: SessionEntry): Store {
    if NewSession(st, e) then st.(sessions := st.sessions[e.id.value := e.data]) else st
  }

  /** A run whose session is not here arrives detached. */
  function RunStep(st: Store, e: RunEntry): Store {
    if e.id.None? || e.id.value in st.runs || !e.ok then st
    else
      var session := if e.session.Some? && e.session.value in st.sessions then e.session else None;
      st.(runs := st.runs[e.id.value := RunRow(session, e.data)])
  }

  function SpanStep(st: Store, known: set<Id>, e: SpanEntry): Store {
    if e.run.None? || e.run.value !in known || !e.ok || e.id in st.spans then st
    else st.(spans := st.spans[e.id := SpanRow(e.run.value, e.data)])
  }

  predicate HasNode(nodeIo: map<Id, NodeIoRow>, run: Id, node: string) {
    exists n <- nodeIo :: nodeIo[n].run == run && nodeIo[n].node == node
  }

  /** One row for a run's node; another's id is refused. */
  function NodeIoStep(st: Store, known: set<Id>, e: NodeIoEntry): Store {
    if e.run.None? || e.run.value !in known || !e.ok || HasNode(st.nodeIo, e.run.value, e.node) || e.id in st.nodeIo then st
    else st.(nodeIo := st.nodeIo[e.id := NodeIoRow(e.run.value, e.node, e.data)])
  }

  // -- messages --

  predicate AllOk(entries: seq<MessageEntry>) {
    forall m <- entries :: m.ok
  }

  /** A session's positions, of the messages among these. */
  function Positions(messages: map<Id, MessageRow>, session: Id): set<int> {
    set m | m in messages && messages[m].session == session :: messages[m].position
  }

  /** Whether messages land: one whose id is taken is skipped, one whose position is taken fails them all. */
  predicate Fits(entries: seq<MessageEntry>, ids: set<Id>, positions: set<int>)
    decreases |entries|
  {
    entries == [] || (var m := entries[0];
      if m.id in ids then Fits(entries[1..], ids, positions)
      else m.position !in positions && Fits(entries[1..], ids + {m.id}, positions + {m.position}))
  }

  /** The messages after those that land; a reference to a run that is not known is dropped. */
  function Landed(messages: map<Id, MessageRow>, session: Id, entries: seq<MessageEntry>, known: set<Id>): map<Id, MessageRow>
    decreases |entries|
  {
    if entries == [] then messages
    else
      var m := entries[0];
      var run := if m.run.Some? && m.run.value in known then m.run else None;
      Landed(if m.id in messages then messages else messages[m.id := MessageRow(session, run, m.position, m.data)],
             session, entries[1..], known)
  }

  /** The runs of a session keep their history without it. */
  function Detached(runs: map<Id, RunRow>, session: Id): map<Id, RunRow> {
    map r | r in runs :: if runs[r].session == Some(session) then runs[r].(session := None) else runs[r]
  }

  function Compensated(st: Store, session: Id): Store {
    st.(sessions := st.sessions - {session}, runs := Detached(st.runs, session),
        messages := map m | m in st.messages && st.messages[m].session != session :: st.messages[m])
  }

  predicate Lands(st: Store, e: SessionEntry)
    requires e.id.Some?
  {
    match e.messages
    case NoMessages => true
    case NotAList => false
    case AList(entries) => AllOk(entries) && Fits(entries, st.messages.Keys, Positions(st.messages, e.id.value))
  }

  /** The messages of a session that was imported; without them the session is undone. */
  function MessageStep(st: Store, e: SessionEntry): Store
    requires e.id.Some?
  {
    if !Lands(st, e) then Compensated(st, e.id.value)
    else if e.messages.AList? then st.(messages := Landed(st.messages, e.id.value, e.messages.entries, st.runs.Keys))
    else st
  }

  // ---- phases ----

  function AllSessions(st: Store, es: seq<SessionEntry>): Store
    decreases |es|
  {
    if es == [] then st else AllSessions(SessionStep(st, es[0]), es[1..])
  }

  /** The entries that made a session. */
  function NewSessions(st: Store, es: seq<SessionEntry>): (r: seq<SessionEntry>)
    ensures forall e <- r :: e in es && e.id.Some? && e.ok
    decreases |es|
  {
    if es == [] then []
    else (if NewSession(st, es[0]) then [es[0]] else []) + NewSessions(SessionStep(st, es[0]), es[1..])
  }

  function AllRuns(st: Store, es: seq<RunEntry>): Store
    decreases |es|
  {
    if es == [] then st else AllRuns(RunStep(st, es[0]), es[1..])
  }

  function AllSpans(st: Store, known: set<Id>, es: seq<SpanEntry>): Store
    decreases |es|
  {
    if es == [] then st else AllSpans(SpanStep(st, known, es[0]), known, es[1..])
  }

  function AllNodeIo(st: Store, known: set<Id>, es: seq<NodeIoEntry>): Store
    decreases |es|
  {
    if es == [] then st else AllNodeIo(NodeIoStep(st, known, es[0]), known, es[1..])
  }

  function AllMessages(st: Store, es: seq<SessionEntry>): Store
    requires forall e <- es :: e.id.Some?
    decreases |es|
  {
    if es == [] then st else AllMessages(MessageStep(st, es[0]), es[1..])
  }

  /** Everything but the messages. */
  function Rows(st: Store, b: Bundle): Store {
    var sessions := AllSessions(st, Entries(b.sessions));
    var runs := AllRuns(sessions, Entries(b.runs));
    var spans := AllSpans(runs, runs.runs.Keys, Entries(b.spans));
    AllNodeIo(spans, spans.runs.Keys, Entries(b.nodeIo))
  }

  function Imported(st: Store, b: Bundle): Store {
    AllMessages(Rows(st, b), NewSessions(st, Entries(b.sessions)))
  }

  // ---- the importer ----

  class Importer {
    var store: Store

    constructor (store: Store)
      ensures this.store == store
    {
      this.store := store;
    }

    /** Applies a bundle, whatever the order its sections are written in: sessions before the runs that
        refer to them, and messages after both. Every row in the store refers to rows that exist, after
        every transaction. */
    method Apply(b: Bundle)
      requires Sound(store)
      modifies this
      ensures Sound(store) && store == Imported(old(store), b)
      ensures store == After(old(store), StepsOf(old(store), b))
    {
      hide Sound, AllSessions, AllRuns, AllSpans, AllNodeIo, AllMessages, NewSessions, After;
      ImportIsItsSteps(store, b);
      NothingToDo();
      MadeAreThere(store, b);
      var made: seq<SessionEntry> := [];
      if b.sessions.Some? { made := ImportSessions(b.sessions.value); }
      if b.runs.Some? { ImportRuns(b.runs.value); }
      if b.spans.Some? { ImportSpans(b.spans.value); }
      if b.nodeIo.Some? { ImportNodeIo(b.nodeIo.value); }
      ImportMessages(made);
    }

    method ImportSessions(es: seq<SessionEntry>) returns (made: seq<SessionEntry>)
      requires Sound(store)
      modifies this
      ensures Sound(store) && store == AllSessions(old(store), es) && made == NewSessions(old(store), es)
    {
      hide Sound, SessionStep, NewSession;
      var st := store;
      made := [];
      var i := 0;
      while i < |es|
        invariant 0 <= i <= |es| && Sound(st)
        invariant AllSessions(st, es[i..]) == AllSessions(old(store), es)
        invariant made + NewSessions(st, es[i..]) == NewSessions(old(store), es)
      {
        assert es[i..][1..] == es[i + 1..];
        SessionSound(st, es[i]);
        if NewSession(st, es[i]) { made := made + [es[i]]; }
        st := SessionStep(st, es[i]);
        i := i + 1;
      }
      store := st;
    }

    method ImportRuns(es: seq<RunEntry>)
      requires Sound(store)
      modifies this
      ensures Sound(store) && store == AllRuns(old(store), es)
    {
      hide Sound, RunStep;
      var st := store;
      var i := 0;
      while i < |es|
        invariant 0 <= i <= |es| && Sound(st) && AllRuns(st, es[i..]) == AllRuns(old(store), es)
      {
        assert es[i..][1..] == es[i + 1..];
        RunSound(st, es[i]);
        st := RunStep(st, es[i]);
        i := i + 1;
      }
      store := st;
    }

    method ImportSpans(es: seq<SpanEntry>)
      requires Sound(store)
      modifies this
      ensures Sound(store) && store == AllSpans(old(store), old(store).runs.Keys, es)
    {
      hide Sound, SpanStep;
      var st, known := store, store.runs.Keys;
      var i := 0;
      while i < |es|
        invariant 0 <= i <= |es| && Sound(st) && known == st.runs.Keys
        invariant AllSpans(st, known, es[i..]) == AllSpans(old(store), known, es)
      {
        assert es[i..][1..] == es[i + 1..];
        SpanSound(st, es[i]);
        st := SpanStep(st, known, es[i]);
        i := i + 1;
      }
      store := st;
    }

    method ImportNodeIo(es: seq<NodeIoEntry>)
      requires Sound(store)
      modifies this
      ensures Sound(store) && store == AllNodeIo(old(store), old(store).runs.Keys, es)
    {
      hide Sound, NodeIoStep;
      var st, known := store, store.runs.Keys;
      var i := 0;
      while i < |es|
        invariant 0 <= i <= |es| && Sound(st) && known == st.runs.Keys
        invariant AllNodeIo(st, known, es[i..]) == AllNodeIo(old(store), known, es)
      {
        assert es[i..][1..] == es[i + 1..];
        NodeIoSound(st, es[i]);
        st := NodeIoStep(st, known, es[i]);
        i := i + 1;
      }
      store := st;
    }

    method ImportMessages(es: seq<SessionEntry>)
      requires Sound(store) && forall e <- es :: e.id.Some?
      requires forall e <- es :: e.id.value in store.sessions
      requires forall i, j :: 0 <= i < j < |es| ==> es[i].id != es[j].id
      modifies this
      ensures Sound(store) && store == AllMessages(old(store), es)
    {
      hide Sound, MessageStep;
      var st := store;
      var i := 0;
      while i < |es|
        invariant 0 <= i <= |es| && Sound(st) && AllMessages(st, es[i..]) == AllMessages(old(store), es)
        invariant forall j :: i <= j < |es| ==> es[j].id.value in st.sessions
      {
        assert es[i..][1..] == es[i + 1..];
        MessageSound(st, es[i]);
        st := MessageStep(st, es[i]);
        i := i + 1;
      }
      store := st;
    }
  }

  // ---- every step is sound ----

  lemma SessionSound(st: Store, e: SessionEntry)
    requires Sound(st)
    ensures Sound(SessionStep(st, e))
  {
  }

  /** A run keeps the session it names if that is there; what was there stays. */
  lemma RunSound(st: Store, e: RunEntry)
    requires Sound(st)
    ensures Sound(RunStep(st, e))
    ensures forall r <- st.runs :: r in RunStep(st, e).runs && RunStep(st, e).runs[r] == st.runs[r]
    ensures e.id.Some? && e.ok && e.id.value !in st.runs ==>
      var made := RunStep(st, e).runs;
      && e.id.value in made && made[e.id.value].data == e.data
      && (forall s <- st.sessions :: made[e.id.value].session == Some(s) <==> e.session == Some(s))
  {
  }

  lemma SpanSound(st: Store, e: SpanEntry)
    requires Sound(st)
    ensures Sound(SpanStep(st, st.runs.Keys, e)) && SpanStep(st, st.runs.Keys, e).runs == st.runs
  {
  }

  lemma NodeIoSound(st: Store, e: NodeIoEntry)
    requires Sound(st)
    ensures Sound(NodeIoStep(st, st.runs.Keys, e)) && NodeIoStep(st, st.runs.Keys, e).runs == st.runs
  {
    hide HasNode;
  }

  lemma CompensatedSound(st: Store, session: Id)
    requires Sound(st)
    ensures Sound(Compensated(st, session))
  {
    var st' := Compensated(st, session);
    assert st'.runs.Keys == st.runs.Keys;
  }

  lemma {:induction false} LandedSound(st: Store, session: Id, entries: seq<MessageEntry>)
    requires Sound(st) && session in st.sessions
    ensures Sound(st.(messages := Landed(st.messages, session, entries, st.runs.Keys)))
    decreases |entries|
  {
    if entries != [] {
      var m := entries[0];
      var run := if m.run.Some? && m.run.value in st.runs.Keys then m.run else None;
      var next := st.(messages := if m.id in st.messages then st.messages
                                  else st.messages[m.id := MessageRow(session, run, m.position, m.data)]);
      LandedSound(next, session, entries[1..]);
    } else {
      assert st.(messages := st.messages) == st;
    }
  }

  /** A session's messages land or are undone: either way every reference still resolves, and no other
      session is touched. */
  lemma MessageSound(st: Store, e: SessionEntry)
    requires Sound(st) && e.id.Some? && e.id.value in st.sessions
    ensures Sound(MessageStep(st, e))
    ensures forall s <- st.sessions :: s != e.id.value ==> s in MessageStep(st, e).sessions
  {
    hide Fits, Landed, Sound, Lands, Detached;
    CompensatedSound(st, e.id.value);
    if e.messages.AList? { LandedSound(st, e.id.value, e.messages.entries); }
  }

  lemma NothingToDo()
    ensures forall s: Store :: AllSessions(s, []) == s && NewSessions(s, []) == [] && AllRuns(s, []) == s
    ensures forall s: Store, known: set<Id> :: AllSpans(s, known, []) == s && AllNodeIo(s, known, []) == s
  {
  }

  // ---- what the phases change ----

  /** The entries that made sessions have different ids, new ones, and they are all there. */
  lemma {:induction false} NewSessionsAre(st: Store, es: seq<SessionEntry>)
    ensures var made, after := NewSessions(st, es), AllSessions(st, es);
      && (forall e <- made :: e.id.value !in st.sessions && e.id.value in after.sessions)
      && (forall i, j :: 0 <= i < j < |made| ==> made[i].id != made[j].id)
      && (forall s <- st.sessions :: s in after.sessions)
      && after == st.(sessions := after.sessions)
    decreases |es|
  {
    if es != [] {
      NewSessionsAre(SessionStep(st, es[0]), es[1..]);
    }
  }

  lemma {:induction false} RunsAre(st: Store, es: seq<RunEntry>)
    ensures AllRuns(st, es) == st.(runs := AllRuns(st, es).runs)
    ensures forall r <- st.runs :: r in AllRuns(st, es).runs && AllRuns(st, es).runs[r] == st.runs[r]
    ensures forall e <- es :: e.id.Some? && e.ok ==> e.id.value in AllRuns(st, es).runs
    decreases |es|
  {
    if es != [] {
      RunsAre(RunStep(st, es[0]), es[1..]);
      assert forall e <- es :: e == es[0] || e in es[1..];
    }
  }

  lemma {:induction false} SpansAre(st: Store, known: set<Id>, es: seq<SpanEntry>)
    ensures AllSpans(st, known, es) == st.(spans := AllSpans(st, known, es).spans)
    ensures forall s <- st.spans :: s in AllSpans(st, known, es).spans
    ensures forall e <- es :: e.run.Some? && e.run.value in known && e.ok ==> e.id in AllSpans(st, known, es).spans
    decreases |es|
  {
    if es != [] {
      SpansAre(SpanStep(st, known, es[0]), known, es[1..]);
      assert forall e <- es :: e == es[0] || e in es[1..];
    }
  }

  /** A node's I/O is there, or its id belongs to another's. */
  predicate NodeIoDone(nodeIo: map<Id, NodeIoRow>, e: NodeIoEntry)
    requires e.run.Some?
  {
    HasNode(nodeIo, e.run.value, e.node) || e.id in nodeIo
  }

  lemma {:induction false} NodeIoAre(st: Store, known: set<Id>, es: seq<NodeIoEntry>)
    ensures AllNodeIo(st, known, es) == st.(nodeIo := AllNodeIo(st, known, es).nodeIo)
    ensures forall n <- st.nodeIo :: n in AllNodeIo(st, known, es).nodeIo && AllNodeIo(st, known, es).nodeIo[n] == st.nodeIo[n]
    ensures forall e <- es ::
      e.run.Some? && e.run.value in known && e.ok ==> NodeIoDone(AllNodeIo(st, known, es).nodeIo, e)
    decreases |es|
  {
    hide HasNode;
    if es != [] {
      var next := NodeIoStep(st, known, es[0]);
      NodeIoAre(next, known, es[1..]);
      var after := AllNodeIo(st, known, es).nodeIo;
      if es[0].run.Some? && es[0].run.value in known && es[0].ok {
        if HasNode(st.nodeIo, es[0].run.value, es[0].node) { NodeStays(st.nodeIo, after, es[0]); }
      }
      assert forall e <- es :: e == es[0] || e in es[1..];
    }
  }

  lemma NodeStays(nodeIo: map<Id, NodeIoRow>, after: map<Id, NodeIoRow>, e: NodeIoEntry)
    requires e.run.Some? && HasNode(nodeIo, e.run.value, e.node)
    requires forall n <- nodeIo :: n in after && after[n] == nodeIo[n]
    ensures HasNode(after, e.run.value, e.node)
  {
    var n :| n in nodeIo && nodeIo[n].run == e.run.value && nodeIo[n].node == e.node;
    assert after[n].run == e.run.value && after[n].node == e.node;
  }

  lemma MadeAreThere(st: Store, b: Bundle)
    ensures var made, rows := NewSessions(st, Entries(b.sessions)), Rows(st, b);
      && (forall e <- made :: e.id.value !in st.sessions && e.id.value in rows.sessions)
      && (forall i, j :: 0 <= i < j < |made| ==> made[i].id != made[j].id)
  {
    hide AllSessions, NewSessions, AllRuns, AllSpans, AllNodeIo;
    RowsAre(st, b);
    NewSessionsAre(st, Entries(b.sessions));
  }

  /** The phases before the messages each change their own table. */
  lemma RowsAre(st: Store, b: Bundle)
    ensures var rows, sessions := Rows(st, b), AllSessions(st, Entries(b.sessions));
      && rows.sessions == sessions.sessions && rows.messages == st.messages
      && rows.runs == AllRuns(sessions, Entries(b.runs)).runs
      && (forall s <- st.sessions :: s in rows.sessions)
  {
    hide AllSessions, NewSessions, AllRuns, AllSpans, AllNodeIo;
    NewSessionsAre(st, Entries(b.sessions));
    var sessions := AllSessions(st, Entries(b.sessions));
    RunsAre(sessions, Entries(b.runs));
    var runs := AllRuns(sessions, Entries(b.runs));
    SpansAre(runs, runs.runs.Keys, Entries(b.spans));
    var spans := AllSpans(runs, runs.runs.Keys, Entries(b.spans));
    NodeIoAre(spans, spans.runs.Keys, Entries(b.nodeIo));
  }

  // ---- all of a session's messages, or none of it ----

  /** The ids of the messages an entry brings. */
  function MessageIds(e: SessionEntry): set<Id> {
    if e.messages.AList? then set m | m in e.messages.entries :: m.id else {}
  }

  /** No message is in two sessions' entries. */
  predicate MessagesDiffer(es: seq<SessionEntry>) {
    forall i, j :: 0 <= i < j < |es| ==> MessageIds(es[i]) !! MessageIds(es[j])
  }

  /** Whether messages land depends on which of their ids are taken, not on what else there is. */
  lemma {:induction false} FitsSame(entries: seq<MessageEntry>, a: set<Id>, b: set<Id>, positions: set<int>)
    requires forall m <- entries :: m.id in a <==> m.id in b
    ensures Fits(entries, a, positions) == Fits(entries, b, positions)
    decreases |entries|
  {
    if entries != [] {
      var m := entries[0];
      if m.id in a {
        FitsSame(entries[1..], a, b, positions);
      } else {
        FitsSame(entries[1..], a + {m.id}, b + {m.id}, positions + {m.position});
      }
    }
  }

  lemma {:induction false} LandedAre(messages: map<Id, MessageRow>, session: Id, entries: seq<MessageEntry>, known: set<Id>)
    ensures var after := Landed(messages, session, entries, known);
      && (forall m <- messages :: m in after && after[m] == messages[m])
      && (forall m <- entries :: m.id in after)
      && (forall m <- after :: m in messages || ((exists e <- entries :: e.id == m) && after[m].session == session))
    decreases |entries|
  {
    if entries != [] {
      var m := entries[0];
      var run := if m.run.Some? && m.run.value in known then m.run else None;
      var next := if m.id in messages then messages else messages[m.id := MessageRow(session, run, m.position, m.data)];
      LandedAre(next, session, entries[1..], known);
      assert forall e <- entries :: e == m || e in entries[1..];
      assert m in entries;
    }
  }

  predicate NoneOf(messages: map<Id, MessageRow>, session: Id) {
    forall m <- messages :: messages[m].session != session
  }

  /** Messages that were there are as they were, and the others are the entry's, of its session. */
  ghost predicate Grown(before: map<Id, MessageRow>, after: map<Id, MessageRow>, es: seq<SessionEntry>) {
    && (forall m <- before :: m in after && after[m] == before[m])
    && (forall m <- after :: m in before || exists e <- es :: m in MessageIds(e) && Some(after[m].session) == e.id)
  }

  /** Of its messages a session that is there has exactly those whose ids were not taken before. */
  predicate Owns(before: map<Id, MessageRow>, after: Store, e: SessionEntry) {
    e.id.Some? && forall m <- MessageIds(e) ::
      m in after.messages && (after.messages[m].session == e.id.value <==> m !in before)
  }

  /** One session's messages all land, or nothing of the session is left. */
  lemma MessageStepIs(st: Store, e: SessionEntry)
    requires Sound(st) && e.id.Some? && e.id.value in st.sessions && NoneOf(st.messages, e.id.value)
    ensures var after := MessageStep(st, e);
      && after == st.(sessions := after.sessions, runs := after.runs, messages := after.messages)
      && after.runs.Keys == st.runs.Keys
      && Grown(st.messages, after.messages, [e])
      && (if Lands(st, e) then after.sessions == st.sessions && Owns(st.messages, after, e)
          else after.sessions == st.sessions - {e.id.value} && after.messages == st.messages)
  {
    hide Lands, Landed, Sound;
    if !Lands(st, e) {
      var left := Compensated(st, e.id.value).messages;
      assert forall m <- st.messages :: m in left && left[m] == st.messages[m];
      assert left == st.messages;
    } else if e.messages.AList? {
      LandedAre(st.messages, e.id.value, e.messages.entries, st.runs.Keys);
      var after := MessageStep(st, e).messages;
      forall m <- after | m !in st.messages ensures m in MessageIds(e) && Some(after[m].session) == e.id {
        var x :| x in e.messages.entries && x.id == m;
      }
      assert e in [e];
    }
  }

  /** A session whose messages could not land cannot land after the others either. */
  lemma StillFails(st: Store, after: Store, e: SessionEntry, es: seq<SessionEntry>)
    requires e.id.Some? && !Lands(st, e) && NoneOf(st.messages, e.id.value)
    requires Grown(st.messages, after.messages, es)
    requires forall x <- es :: x.id != e.id && MessageIds(x) !! MessageIds(e)
    ensures !Lands(after, e) && NoneOf(after.messages, e.id.value)
  {
    forall m <- after.messages ensures after.messages[m].session != e.id.value {
      if m !in st.messages { var x :| x in es && m in MessageIds(x) && Some(after.messages[m].session) == x.id; }
    }
    assert Positions(st.messages, e.id.value) == {} && Positions(after.messages, e.id.value) == {};
    if e.messages.AList? && AllOk(e.messages.entries) {
      forall m <- e.messages.entries ensures m.id in st.messages.Keys <==> m.id in after.messages.Keys {
        assert m.id in MessageIds(e);
        assert forall x <- es :: m.id !in MessageIds(x);
      }
      FitsSame(e.messages.entries, st.messages.Keys, after.messages.Keys, {});
    }
  }

  lemma GrownOn(a: map<Id, MessageRow>, b: map<Id, MessageRow>, c: map<Id, MessageRow>, e: SessionEntry, es: seq<SessionEntry>)
    requires Grown(a, b, [e]) && Grown(b, c, es)
    ensures Grown(a, c, [e] + es)
  {
    forall m <- c | m !in a ensures exists x <- [e] + es :: m in MessageIds(x) && Some(c[m].session) == x.id {
      if m in b { assert e in [e] + es && m in MessageIds(e) && Some(b[m].session) == e.id; }
      else { var x :| x in es && m in MessageIds(x) && Some(c[m].session) == x.id; assert x in [e] + es; }
    }
  }

  /** An entry's messages are a list of well-formed ones, or none, and those whose ids are not taken have
      positions of their own. */
  ghost predicate Keepable(e: SessionEntry, taken: set<Id>) {
    e.messages.NoMessages?
    || (e.messages.AList? && AllOk(e.messages.entries) && OwnPositions(e.messages.entries, taken))
  }

  /** The first entry of an id that is not taken. */
  predicate IsNew(entries: seq<MessageEntry>, taken: set<Id>, i: nat)
    requires i < |entries|
  {
    entries[i].id !in taken && forall j :: 0 <= j < i ==> entries[j].id != entries[i].id
  }

  ghost predicate OwnPositions(entries: seq<MessageEntry>, taken: set<Id>) {
    forall i, j :: 0 <= i < j < |entries| && IsNew(entries, taken, i) && IsNew(entries, taken, j) ==>
      entries[i].position != entries[j].position
  }

  ghost predicate Apart(entries: seq<MessageEntry>, taken: set<Id>, positions: set<int>) {
    forall i :: 0 <= i < |entries| && IsNew(entries, taken, i) ==> entries[i].position !in positions
  }

  lemma NewAfter(entries: seq<MessageEntry>, taken: set<Id>, i: nat)
    requires i + 1 < |entries|
    ensures IsNew(entries[1..], taken + {entries[0].id}, i) <==> IsNew(entries, taken, i + 1)
  {
    assert forall j :: 0 <= j < i ==> entries[1..][j] == entries[j + 1];
    if IsNew(entries[1..], taken + {entries[0].id}, i) {
      forall j | 0 <= j < i + 1 ensures entries[j].id != entries[i + 1].id {
        if j > 0 { assert entries[1..][j - 1].id != entries[1..][i].id; }
      }
    }
  }

  /** Messages fit exactly when the new ones have positions that are free, and each its own. */
  lemma {:induction false} FitsExactly(entries: seq<MessageEntry>, taken: set<Id>, positions: set<int>)
    ensures Fits(entries, taken, positions) <==> OwnPositions(entries, taken) && Apart(entries, taken, positions)
    decreases |entries|
  {
    hide IsNew, Fits;
    if entries == [] {
      assert Fits(entries, taken, positions) by { FitsStep(entries, taken, positions); }
    } else {
      var m, rest := entries[0], entries[1..];
      FitsStep(entries, taken, positions);
      var positions' := if m.id in taken then positions else positions + {m.position};
      FitsExactly(rest, taken + {m.id}, positions');
      if m.id in taken { assert taken + {m.id} == taken; }
      FirstIsNew(entries, taken);
      forall i | 0 <= i < |rest| ensures IsNew(rest, taken + {m.id}, i) <==> IsNew(entries, taken, i + 1) {
        NewAfter(entries, taken, i);
      }
      OwnStep(entries, taken);
      ApartStep(entries, taken, positions);
    }
  }

  lemma FitsStep(entries: seq<MessageEntry>, taken: set<Id>, positions: set<int>)
    ensures entries == [] ==> Fits(entries, taken, positions)
    ensures entries != [] && entries[0].id in taken ==>
      Fits(entries, taken, positions) == Fits(entries[1..], taken, positions)
    ensures entries != [] && entries[0].id !in taken ==>
      Fits(entries, taken, positions) ==
        (entries[0].position !in positions && Fits(entries[1..], taken + {entries[0].id}, positions + {entries[0].position}))
  {
  }

  lemma FirstIsNew(entries: seq<MessageEntry>, taken: set<Id>)
    requires entries != []
    ensures IsNew(entries, taken, 0) <==> entries[0].id !in taken
  {
  }

  /** Positions of their own: the first's, and the others' among themselves. */
  lemma OwnStep(entries: seq<MessageEntry>, taken: set<Id>)
    requires entries != []
    requires forall i :: 0 <= i < |entries| - 1 ==>
      (IsNew(entries[1..], taken + {entries[0].id}, i) <==> IsNew(entries, taken, i + 1))
    ensures var rest := entries[1..];
      OwnPositions(entries, taken) <==>
        && OwnPositions(rest, taken + {entries[0].id})
        && (IsNew(entries, taken, 0) ==> Apart(rest, taken + {entries[0].id}, {entries[0].position}))
  {
    hide IsNew;
    var rest, more := entries[1..], taken + {entries[0].id};
    if OwnPositions(entries, taken) {
      forall i, j | 0 <= i < j < |rest| && IsNew(rest, more, i) && IsNew(rest, more, j)
        ensures rest[i].position != rest[j].position
      {
        assert entries[i + 1].position != entries[j + 1].position;
      }
    }
    if OwnPositions(rest, more) && (IsNew(entries, taken, 0) ==> Apart(rest, more, {entries[0].position})) {
      forall i, j | 0 <= i < j < |entries| && IsNew(entries, taken, i) && IsNew(entries, taken, j)
        ensures entries[i].position != entries[j].position
      {
        assert IsNew(rest, more, j - 1) && rest[j - 1] == entries[j];
        if i > 0 { assert IsNew(rest, more, i - 1) && rest[i - 1] == entries[i]; }
      }
    }
  }

  lemma ApartStep(entries: seq<MessageEntry>, taken: set<Id>, positions: set<int>)
    requires entries != []
    requires forall i :: 0 <= i < |entries| - 1 ==>
      (IsNew(entries[1..], taken + {entries[0].id}, i) <==> IsNew(entries, taken, i + 1))
    ensures var rest, more := entries[1..], taken + {entries[0].id};
      && (Apart(entries, taken, positions) <==>
            (IsNew(entries, taken, 0) ==> entries[0].position !in positions) && Apart(rest, more, positions))
      && (Apart(rest, more, positions + {entries[0].position}) <==>
            Apart(rest, more, positions) && Apart(rest, more, {entries[0].position}))
  {
    hide IsNew;
    var rest, more := entries[1..], taken + {entries[0].id};
    if Apart(entries, taken, positions) {
      forall i | 0 <= i < |rest| && IsNew(rest, more, i) ensures rest[i].position !in positions {
        assert entries[i + 1].position !in positions;
      }
    }
    if (IsNew(entries, taken, 0) ==> entries[0].position !in positions) && Apart(rest, more, positions) {
      forall i | 0 <= i < |entries| && IsNew(entries, taken, i) ensures entries[i].position !in positions {
        if i > 0 { assert IsNew(rest, more, i - 1) && rest[i - 1] == entries[i]; }
      }
    }
  }

  /** Messages of a session without any land exactly when they can be kept. */
  lemma LandsExactly(st: Store, e: SessionEntry)
    requires e.id.Some? && NoneOf(st.messages, e.id.value)
    ensures Lands(st, e) <==> Keepable(e, st.messages.Keys)
  {
    hide Fits, OwnPositions;
    assert Positions(st.messages, e.id.value) == {};
    if e.messages.AList? { FitsExactly(e.messages.entries, st.messages.Keys, {}); }
  }

  /** What can be kept depends only on which of its own ids are taken. */
  lemma KeepableSame(e: SessionEntry, a: set<Id>, b: set<Id>)
    requires forall m <- MessageIds(e) :: m in a <==> m in b
    ensures Keepable(e, a) == Keepable(e, b)
  {
    if e.messages.AList? {
      var entries := e.messages.entries;
      forall i | 0 <= i < |entries| ensures IsNew(entries, a, i) == IsNew(entries, b, i) {
        assert entries[i].id in MessageIds(e);
      }
    }
  }

  /** An entry's outcome: its session with its messages, kept exactly when it can be, or nothing of it. */
  ghost predicate Settled(before: map<Id, MessageRow>, st: Store, e: SessionEntry) {
    && e.id.Some?
    && (e.id.value in st.sessions <==> Keepable(e, before.Keys))
    && if e.id.value in st.sessions then Owns(before, st, e) else !Lands(st, e) && NoneOf(st.messages, e.id.value)
  }

  lemma {:induction false} MessagesAre(st: Store, es: seq<SessionEntry>)
    requires Sound(st) && MessagesDiffer(es)
    requires forall e <- es :: e.id.Some? && e.id.value in st.sessions && NoneOf(st.messages, e.id.value)
    requires forall i, j :: 0 <= i < j < |es| ==> es[i].id != es[j].id
    ensures var after := AllMessages(st, es);
      && Sound(after) && after.runs.Keys == st.runs.Keys && after.spans == st.spans && after.nodeIo == st.nodeIo
      && (forall s <- after.sessions :: s in st.sessions && after.sessions[s] == st.sessions[s])
      && (forall s <- st.sessions :: s in after.sessions || exists e <- es :: e.id == Some(s))
      && Grown(st.messages, after.messages, es)
      && (forall e <- es :: Settled(st.messages, after, e))
    decreases |es|
  {
    hide Sound, Lands, MessageStep, MessageIds, Grown, NoneOf, Settled, Owns;
    if es == [] {
      GrownSame(st.messages, es);
    } else {
      var e, rest, next, after := es[0], es[1..], MessageStep(st, es[0]), AllMessages(st, es);
      MessageSound(st, e);
      MessageStepIs(st, e);
      RestReady(st, next, e, rest, es);
      MessagesAre(next, rest);
      GrownOn(st.messages, next.messages, after.messages, e, rest);
      assert es == [e] + rest;
      OthersDiffer(es);
      HeadSettled(st, next, after, e, rest);
      forall x <- es ensures Settled(st.messages, after, x) {
        if x != e {
          assert x in rest;
          SettledSince(st.messages, next.messages, after, e, x);
        }
      }
      forall s <- st.sessions | s !in after.sessions ensures exists x <- es :: x.id == Some(s) {
        if s in next.sessions { var x :| x in rest && x.id == Some(s); assert x in es; } else { assert e in es; }
      }
    }
  }

  /** Another entry's messages take no id of this one. */
  lemma SettledSince(before: map<Id, MessageRow>, since: map<Id, MessageRow>, after: Store, e: SessionEntry, x: SessionEntry)
    requires Settled(since, after, x) && Grown(before, since, [e]) && MessageIds(x) !! MessageIds(e)
    ensures Settled(before, after, x)
  {
    hide Lands, MessageIds, Keepable;
    forall m <- MessageIds(x) ensures m in since <==> m in before {
      assert forall y <- [e] :: m !in MessageIds(y);
    }
    assert forall m <- MessageIds(x) :: m in since.Keys <==> m in before.Keys;
    KeepableSame(x, since.Keys, before.Keys);
  }

  lemma GrownSame(messages: map<Id, MessageRow>, es: seq<SessionEntry>)
    ensures Grown(messages, messages, es)
  {
  }

  lemma OthersDiffer(es: seq<SessionEntry>)
    requires es != [] && MessagesDiffer(es) && forall i, j :: 0 <= i < j < |es| ==> es[i].id != es[j].id
    ensures forall x <- es[1..] :: x.id != es[0].id && MessageIds(x) !! MessageIds(es[0])
    ensures MessagesDiffer(es[1..])
    ensures forall i, j :: 0 <= i < j < |es[1..]| ==> es[1..][i].id != es[1..][j].id
  {
    hide MessageIds;
  }

  lemma RestReady(st: Store, next: Store, e: SessionEntry, rest: seq<SessionEntry>, es: seq<SessionEntry>)
    requires es == [e] + rest && MessagesDiffer(es) && forall i, j :: 0 <= i < j < |es| ==> es[i].id != es[j].id
    requires forall x <- es :: x.id.Some? && x.id.value in st.sessions && NoneOf(st.messages, x.id.value)
    requires Grown(st.messages, next.messages, [e])
    requires forall s <- st.sessions :: Some(s) != e.id ==> s in next.sessions
    ensures MessagesDiffer(rest) && forall i, j :: 0 <= i < j < |rest| ==> rest[i].id != rest[j].id
    ensures forall x <- rest :: x.id.Some? && x.id.value in next.sessions && NoneOf(next.messages, x.id.value)
  {
    assert es[1..] == rest;
    OthersDiffer(es);
    forall x <- rest ensures x.id.Some? && x.id.value in next.sessions && NoneOf(next.messages, x.id.value) {
      assert x in es;
    }
  }

  lemma HeadSettled(st: Store, next: Store, after: Store, e: SessionEntry, rest: seq<SessionEntry>)
    requires e.id.Some? && e.id.value in st.sessions && NoneOf(st.messages, e.id.value)
    requires forall x <- rest :: x.id != e.id && MessageIds(x) !! MessageIds(e)
    requires Grown(next.messages, after.messages, rest)
    requires if Lands(st, e) then next.sessions == st.sessions && Owns(st.messages, next, e)
             else next.sessions == st.sessions - {e.id.value} && next.messages == st.messages
    requires forall s <- after.sessions :: s in next.sessions
    requires forall s <- next.sessions :: s in after.sessions || exists x <- rest :: x.id == Some(s)
    ensures Settled(st.messages, after, e)
  {
    hide Lands, MessageIds, Keepable;
    LandsExactly(st, e);
    if !Lands(st, e) { StillFails(st, after, e, rest); }
  }

  lemma {:induction false} MadeDiffer(st: Store, es: seq<SessionEntry>)
    requires MessagesDiffer(es)
    ensures MessagesDiffer(NewSessions(st, es))
    decreases |es|
  {
    hide MessageIds;
    if es != [] {
      var rest := NewSessions(SessionStep(st, es[0]), es[1..]);
      MadeDiffer(SessionStep(st, es[0]), es[1..]);
      forall j | 0 <= j < |rest| ensures MessageIds(es[0]) !! MessageIds(rest[j]) {
        assert rest[j] in es[1..];
        var k :| 0 <= k < |es[1..]| && es[1..][k] == rest[j];
        assert es[k + 1] == rest[j];
      }
    }
  }

  /** What the messages are imported into. */
  lemma ReadyForMessages(st: Store, b: Bundle)
    requires Sound(st) && MessagesDiffer(Entries(b.sessions))
    ensures var made, rows := NewSessions(st, Entries(b.sessions)), Rows(st, b);
      && Sound(rows) && MessagesDiffer(made)
      && (forall e <- made :: e.id.value in rows.sessions && NoneOf(rows.messages, e.id.value))
      && (forall i, j :: 0 <= i < j < |made| ==> made[i].id != made[j].id)
  {
    hide Rows, NewSessions, MessagesDiffer;
    MadeAreThere(st, b);
    MadeDiffer(st, Entries(b.sessions));
    RowsAre(st, b);
    RowsSound(st, b);
    var made := NewSessions(st, Entries(b.sessions));
    forall e <- made ensures NoneOf(Rows(st, b).messages, e.id.value) { NoneYet(st, e.id.value); }
  }

  lemma NoneYet(st: Store, session: Id)
    requires Sound(st) && session !in st.sessions
    ensures NoneOf(st.messages, session)
  {
  }

  lemma RowsSound(st: Store, b: Bundle)
    requires Sound(st)
    ensures Sound(Rows(st, b))
  {
    hide Sound;
    var sessions := AllSessions(st, Entries(b.sessions));
    AllSessionsSound(st, Entries(b.sessions));
    AllRunsSound(sessions, Entries(b.runs));
    var runs := AllRuns(sessions, Entries(b.runs));
    AllSpansSound(runs, Entries(b.spans));
    AllNodeIoSound(AllSpans(runs, runs.runs.Keys, Entries(b.spans)), Entries(b.nodeIo));
  }

  lemma {:induction false} AllSessionsSound(st: Store, es: seq<SessionEntry>)
    requires Sound(st)
    ensures Sound(AllSessions(st, es))
    decreases |es|
  {
    hide Sound, SessionStep;
    if es != [] {
      SessionSound(st, es[0]);
      AllSessionsSound(SessionStep(st, es[0]), es[1..]);
    }
  }

  lemma {:induction false} AllRunsSound(st: Store, es: seq<RunEntry>)
    requires Sound(st)
    ensures Sound(AllRuns(st, es))
    decreases |es|
  {
    hide Sound, RunStep;
    if es != [] {
      RunSound(st, es[0]);
      AllRunsSound(RunStep(st, es[0]), es[1..]);
    }
  }

  lemma {:induction false} AllSpansSound(st: Store, es: seq<SpanEntry>)
    requires Sound(st)
    ensures Sound(AllSpans(st, st.runs.Keys, es)) && AllSpans(st, st.runs.Keys, es).runs == st.runs
    decreases |es|
  {
    hide Sound, SpanStep;
    if es != [] {
      SpanSound(st, es[0]);
      AllSpansSound(SpanStep(st, st.runs.Keys, es[0]), es[1..]);
    }
  }

  lemma {:induction false} AllNodeIoSound(st: Store, es: seq<NodeIoEntry>)
    requires Sound(st)
    ensures Sound(AllNodeIo(st, st.runs.Keys, es))
    decreases |es|
  {
    hide Sound, NodeIoStep;
    if es != [] {
      NodeIoSound(st, es[0]);
      AllNodeIoSound(NodeIoStep(st, st.runs.Keys, es[0]), es[1..]);
    }
  }

  /** Each session a bundle makes is kept exactly when its messages are well formed and the new ones have
      positions of their own. Then it has all of them as its own exactly when none of their ids was taken
      before; otherwise nothing refers to it, and a corrected bundle can bring it again. */
  lemma SessionsAreWhole(st: Store, b: Bundle)
    requires Sound(st) && MessagesDiffer(Entries(b.sessions))
    ensures Sound(Imported(st, b))
    ensures forall e <- NewSessions(st, Entries(b.sessions)) ::
      e.id.value in Imported(st, b).sessions <==> Keepable(e, st.messages.Keys)
    ensures forall e <- NewSessions(st, Entries(b.sessions)) ::
      if e.id.value in Imported(st, b).sessions
      then OwnsAll(Imported(st, b), e) <==> MessageIds(e) !! st.messages.Keys
      else NoneOf(Imported(st, b).messages, e.id.value)
  {
    hide Rows, NewSessions, AllMessages, Sound, MessagesDiffer, Lands, MessageIds, NoneOf, Keepable;
    ReadyForMessages(st, b);
    MessagesAre(Rows(st, b), NewSessions(st, Entries(b.sessions)));
    RowsAre(st, b);
    var after := Imported(st, b);
    forall e <- NewSessions(st, Entries(b.sessions))
      ensures e.id.value in after.sessions <==> Keepable(e, st.messages.Keys)
      ensures
        if e.id.value in after.sessions then OwnsAll(after, e) <==> MessageIds(e) !! st.messages.Keys
        else NoneOf(after.messages, e.id.value)
    {
      assert Settled(st.messages, after, e);
      if e.id.value in after.sessions { OwnsAllExactly(st.messages, after, e); }
    }
  }

  /** Every message of the entry is there, in its session. */
  predicate OwnsAll(st: Store, e: SessionEntry)
    requires e.id.Some?
  {
    forall m <- MessageIds(e) :: m in st.messages && st.messages[m].session == e.id.value
  }

  lemma OwnsAllExactly(before: map<Id, MessageRow>, st: Store, e: SessionEntry)
    requires e.id.Some? && Owns(before, st, e)
    ensures OwnsAll(st, e) <==> MessageIds(e) !! before.Keys
  {
    hide MessageIds;
    if OwnsAll(st, e) {
      forall m <- MessageIds(e) ensures m !in before.Keys { assert m !in before; }
    } else {
      var m :| m in MessageIds(e) && !(m in st.messages && st.messages[m].session == e.id.value);
      assert m in before.Keys;
    }
  }

  /** A message whose id another session holds is skipped: its own session stays, without it. */
  lemma TakenIdIsSkipped(data: string)
    ensures var st := Store(map["A" := data], map[], map[], map[], map["m" := MessageRow("A", None, 0, data)]);
      var e := SessionEntry(Some("B"), true, data, AList([MessageEntry(true, "m", None, 0, data)]));
      var after := Imported(st, Bundle(Some([e]), None, None, None));
      && Sound(st) && MessagesDiffer([e])
      && "B" in after.sessions && NoneOf(after.messages, "B") && after.messages == st.messages
  {
    var st := Store(map["A" := data], map[], map[], map[], map["m" := MessageRow("A", None, 0, data)]);
    var m := MessageEntry(true, "m", None, 0, data);
    var e := SessionEntry(Some("B"), true, data, AList([m]));
    var rows := st.(sessions := st.sessions["B" := data]);
    OneSession(st, e);
    NothingToDo();
    assert Rows(st, Bundle(Some([e]), None, None, None)) == rows;
    assert [m][1..] == [] && m in [m];
    assert Fits([m], rows.messages.Keys, Positions(rows.messages, "B"));
    assert Landed(rows.messages, "B", [m], rows.runs.Keys) == rows.messages;
    assert MessageStep(rows, e) == rows;
  }

  lemma OneSession(st: Store, e: SessionEntry)
    requires NewSession(st, e)
    ensures AllSessions(st, [e]) == SessionStep(st, e) && NewSessions(st, [e]) == [e]
    ensures forall s: Store :: AllMessages(s, [e]) == MessageStep(s, e)
  {
    var es := [e];
    assert es[1..] == [];
  }

  // ---- every transaction ----

  /** One transaction of an import; one that fails does nothing. */
  datatype Step =
    | Makes(session: SessionEntry)
    | Runs(run: RunEntry)
    | Spans(span: SpanEntry)
    | Captures(nodeIo: NodeIoEntry)
    | Writes(messages: SessionEntry)
    | Fails

  function Stepped(st: Store, step: Step): Store {
    match step
    case Makes(e) => SessionStep(st, e)
    case Runs(e) => RunStep(st, e)
    case Spans(e) => SpanStep(st, st.runs.Keys, e)
    case Captures(e) => NodeIoStep(st, st.runs.Keys, e)
    case Writes(e) => if e.id.Some? && e.id.value in st.sessions then MessageStep(st, e) else st
    case Fails => st
  }

  function After(st: Store, steps: seq<Step>): Store {
    if steps == [] then st else Stepped(After(st, steps[..|steps| - 1]), steps[|steps| - 1])
  }

  /** Every reference resolves after every transaction of an import, whichever of them fail, the undoing
      of a session included. */
  lemma {:induction false} EveryStepIsSound(st: Store, steps: seq<Step>)
    requires Sound(st)
    ensures Sound(After(st, steps))
  {
    hide Sound, SessionStep, RunStep, SpanStep, NodeIoStep, MessageStep;
    if steps != [] {
      var before, step := After(st, steps[..|steps| - 1]), steps[|steps| - 1];
      EveryStepIsSound(st, steps[..|steps| - 1]);
      match step
      case Makes(e) => SessionSound(before, e);
      case Runs(e) => RunSound(before, e);
      case Spans(e) => SpanSound(before, e);
      case Captures(e) => NodeIoSound(before, e);
      case Writes(e) => if e.id.Some? && e.id.value in before.sessions { MessageSound(before, e); }
      case Fails =>
    }
  }

  /** A session whose messages failed and whose undoing failed too is there without messages, and no later
      import brings them: it skips what is there. */
  lemma StuckWithoutMessages(st: Store, e: SessionEntry, b: Bundle)
    requires Sound(st) && NewSession(st, e) && MessagesDiffer(Entries(b.sessions))
    ensures var stuck := After(st, [Makes(e), Fails]);
      e.id.value in Imported(stuck, b).sessions && NoneOf(Imported(stuck, b).messages, e.id.value)
  {
    hide Rows, NewSessions, AllMessages, Sound, MessagesDiffer, SessionStep, Settled, MessageIds;
    var stuck := SessionStep(st, e);
    assert [Makes(e), Fails][..1] == [Makes(e)] && [Makes(e)][..0] == [];
    assert After(st, [Makes(e)]) == stuck && After(st, [Makes(e), Fails]) == stuck;
    MadeIs(st, e);
    SessionSound(st, e);
    KeepsSessions(stuck, b);
    ReadyForMessages(stuck, b);
    RowsAre(stuck, b);
    var made, after := NewSessions(stuck, Entries(b.sessions)), Imported(stuck, b);
    MadeAreThere(stuck, b);
    MessagesAre(Rows(stuck, b), made);
    forall m <- after.messages ensures after.messages[m].session != e.id.value {
      if m !in stuck.messages {
        var x :| x in made && m in MessageIds(x) && Some(after.messages[m].session) == x.id;
        assert x.id.value !in stuck.sessions;
      }
    }
  }

  lemma MadeIs(st: Store, e: SessionEntry)
    requires Sound(st) && NewSession(st, e)
    ensures var made := SessionStep(st, e); e.id.value in made.sessions && NoneOf(made.messages, e.id.value)
  {
  }

  /** The transactions of an import in which none fails. */
  function StepsOf(st: Store, b: Bundle): seq<Step> {
    var es, rs, ss, ns := Entries(b.sessions), Entries(b.runs), Entries(b.spans), Entries(b.nodeIo);
    var made := NewSessions(st, es);
    seq(|es|, i requires 0 <= i < |es| => Makes(es[i])) + (seq(|rs|, i requires 0 <= i < |rs| => Runs(rs[i]))
      + (seq(|ss|, i requires 0 <= i < |ss| => Spans(ss[i])) + (seq(|ns|, i requires 0 <= i < |ns| => Captures(ns[i]))
      + seq(|made|, i requires 0 <= i < |made| => Writes(made[i])))))
  }

  lemma {:induction false} AfterConcat(st: Store, a: seq<Step>, c: seq<Step>)
    ensures After(st, a + c) == After(After(st, a), c)
  {
    hide Stepped;
    if c == [] {
      assert a + c == a;
    } else {
      assert (a + c)[..|a + c| - 1] == a + c[..|c| - 1];
      AfterConcat(st, a, c[..|c| - 1]);
    }
  }

  lemma AfterOne(st: Store, step: Step, rest: seq<Step>)
    ensures After(st, [step] + rest) == After(Stepped(st, step), rest)
  {
    hide Stepped;
    AfterConcat(st, [step], rest);
    assert [step][..0] == [];
    assert After(st, [step]) == Stepped(st, step);
  }

  lemma {:induction false} MakesAll(st: Store, es: seq<SessionEntry>, steps: seq<Step>)
    requires |steps| == |es| && forall i :: 0 <= i < |es| ==> steps[i] == Makes(es[i])
    ensures After(st, steps) == AllSessions(st, es)
    decreases |es|
  {
    hide SessionStep;
    if es != [] {
      assert steps == [steps[0]] + steps[1..];
      AfterOne(st, steps[0], steps[1..]);
      MakesAll(SessionStep(st, es[0]), es[1..], steps[1..]);
    }
  }

  lemma {:induction false} RunsAll(st: Store, es: seq<RunEntry>, steps: seq<Step>)
    requires |steps| == |es| && forall i :: 0 <= i < |es| ==> steps[i] == Runs(es[i])
    ensures After(st, steps) == AllRuns(st, es)
    decreases |es|
  {
    hide RunStep;
    if es != [] {
      assert steps == [steps[0]] + steps[1..];
      AfterOne(st, steps[0], steps[1..]);
      RunsAll(RunStep(st, es[0]), es[1..], steps[1..]);
    }
  }

  lemma {:induction false} SpansAll(st: Store, es: seq<SpanEntry>, steps: seq<Step>)
    requires |steps| == |es| && forall i :: 0 <= i < |es| ==> steps[i] == Spans(es[i])
    ensures After(st, steps) == AllSpans(st, st.runs.Keys, es)
    decreases |es|
  {
    if es != [] {
      assert steps == [steps[0]] + steps[1..];
      AfterOne(st, steps[0], steps[1..]);
      SpansAll(SpanStep(st, st.runs.Keys, es[0]), es[1..], steps[1..]);
    }
  }

  lemma {:induction false} CapturesAll(st: Store, es: seq<NodeIoEntry>, steps: seq<Step>)
    requires |steps| == |es| && forall i :: 0 <= i < |es| ==> steps[i] == Captures(es[i])
    ensures After(st, steps) == AllNodeIo(st, st.runs.Keys, es)
    decreases |es|
  {
    hide HasNode;
    if es != [] {
      assert steps == [steps[0]] + steps[1..];
      AfterOne(st, steps[0], steps[1..]);
      CapturesAll(NodeIoStep(st, st.runs.Keys, es[0]), es[1..], steps[1..]);
    }
  }

  lemma {:induction false} LandsAll(st: Store, es: seq<SessionEntry>, steps: seq<Step>)
    requires Sound(st) && |steps| == |es| && forall i :: 0 <= i < |es| ==> steps[i] == Writes(es[i])
    requires forall e <- es :: e.id.Some? && e.id.value in st.sessions
    requires forall i, j :: 0 <= i < j < |es| ==> es[i].id != es[j].id
    ensures After(st, steps) == AllMessages(st, es)
    decreases |es|
  {
    hide MessageStep, Sound;
    if es != [] {
      assert steps == [steps[0]] + steps[1..];
      AfterOne(st, steps[0], steps[1..]);
      MessageSound(st, es[0]);
      forall e <- es[1..] ensures e.id.Some? && e.id.value in MessageStep(st, es[0]).sessions {
        var j :| 0 <= j < |es[1..]| && es[1..][j] == e;
        assert es[j + 1] == e;
      }
      LandsAll(MessageStep(st, es[0]), es[1..], steps[1..]);
    }
  }

  lemma MessagesLast(st: Store, b: Bundle, rows: Store, made: seq<SessionEntry>, steps: seq<Step>)
    requires Sound(st) && rows == Rows(st, b) && made == NewSessions(st, Entries(b.sessions))
    requires |steps| == |made| && forall i :: 0 <= i < |made| ==> steps[i] == Writes(made[i])
    ensures After(rows, steps) == AllMessages(rows, made)
  {
    hide Sound, Rows, AllMessages, NewSessions, After;
    MadeAreThere(st, b);
    RowsSound(st, b);
    LandsAll(rows, made, steps);
  }

  /** An import is its transactions, one after another. */
  lemma ImportIsItsSteps(st: Store, b: Bundle)
    requires Sound(st)
    ensures Imported(st, b) == After(st, StepsOf(st, b))
  {
    hide Sound, AllSessions, AllRuns, AllSpans, AllNodeIo, AllMessages, NewSessions, After;
    var es, rs, ss, ns := Entries(b.sessions), Entries(b.runs), Entries(b.spans), Entries(b.nodeIo);
    var made := NewSessions(st, es);
    var s1 := seq(|es|, i requires 0 <= i < |es| => Makes(es[i]));
    var s2 := seq(|rs|, i requires 0 <= i < |rs| => Runs(rs[i]));
    var s3 := seq(|ss|, i requires 0 <= i < |ss| => Spans(ss[i]));
    var s4 := seq(|ns|, i requires 0 <= i < |ns| => Captures(ns[i]));
    var s5 := seq(|made|, i requires 0 <= i < |made| => Writes(made[i]));
    assert StepsOf(st, b) == s1 + (s2 + (s3 + (s4 + s5)));
    var t1 := AllSessions(st, es);
    var t2 := AllRuns(t1, rs);
    var t3 := AllSpans(t2, t2.runs.Keys, ss);
    var t4 := AllNodeIo(t3, t3.runs.Keys, ns);
    AfterConcat(st, s1, s2 + (s3 + (s4 + s5)));
    MakesAll(st, es, s1);
    AfterConcat(t1, s2, s3 + (s4 + s5));
    RunsAll(t1, rs, s2);
    AfterConcat(t2, s3, s4 + s5);
    SpansAll(t2, ss, s3);
    AfterConcat(t3, s4, s5);
    CapturesAll(t3, ns, s4);
    assert t4 == Rows(st, b);
    MessagesLast(st, b, t4, made, s5);
  }

  // ---- importing again ----

  /** What made a session where there were more would have made it where there were fewer. */
  lemma {:induction false} MadeAgain(more: Store, fewer: Store, es: seq<SessionEntry>)
    requires forall s <- fewer.sessions :: s in more.sessions
    ensures forall e <- NewSessions(more, es) :: e in NewSessions(fewer, es)
    decreases |es|
  {
    if es != [] { MadeAgain(SessionStep(more, es[0]), SessionStep(fewer, es[0]), es[1..]); }
  }

  lemma {:induction false} RunsAgain(st: Store, es: seq<RunEntry>)
    requires forall e <- es :: e.id.Some? && e.ok ==> e.id.value in st.runs
    ensures AllRuns(st, es) == st
    decreases |es|
  {
    if es != [] {
      assert es[0] in es;
      assert forall e <- es[1..] :: e in es;
      RunsAgain(st, es[1..]);
    }
  }

  lemma {:induction false} SpansAgain(st: Store, known: set<Id>, es: seq<SpanEntry>)
    requires forall e <- es :: e.run.Some? && e.run.value in known && e.ok ==> e.id in st.spans
    ensures AllSpans(st, known, es) == st
    decreases |es|
  {
    if es != [] {
      assert es[0] in es;
      assert forall e <- es[1..] :: e in es;
      SpansAgain(st, known, es[1..]);
    }
  }

  lemma {:induction false} NodeIoAgain(st: Store, known: set<Id>, es: seq<NodeIoEntry>)
    requires forall e <- es :: e.run.Some? && e.run.value in known && e.ok ==> NodeIoDone(st.nodeIo, e)
    ensures AllNodeIo(st, known, es) == st
    decreases |es|
  {
    hide HasNode;
    if es != [] {
      assert es[0] in es;
      assert forall e <- es[1..] :: e in es;
      NodeIoAgain(st, known, es[1..]);
    }
  }

  /** What the rows of a bundle are once it was imported. */
  ghost predicate RowsDone(st: Store, b: Bundle) {
    && (forall e <- Entries(b.runs) :: e.id.Some? && e.ok ==> e.id.value in st.runs)
    && (forall e <- Entries(b.spans) :: e.run.Some? && e.run.value in st.runs && e.ok ==> e.id in st.spans)
    && (forall e <- Entries(b.nodeIo) :: e.run.Some? && e.run.value in st.runs && e.ok ==> NodeIoDone(st.nodeIo, e))
  }

  lemma RowsAreDone(st: Store, b: Bundle)
    ensures RowsDone(Rows(st, b), b)
  {
    hide AllSessions, AllRuns, AllSpans, AllNodeIo, NodeIoDone;
    var sessions := AllSessions(st, Entries(b.sessions));
    RunsAre(sessions, Entries(b.runs));
    var runs := AllRuns(sessions, Entries(b.runs));
    SpansAre(runs, runs.runs.Keys, Entries(b.spans));
    var spans := AllSpans(runs, runs.runs.Keys, Entries(b.spans));
    NodeIoAre(spans, spans.runs.Keys, Entries(b.nodeIo));
  }

  lemma RowsAgain(st: Store, b: Bundle)
    requires RowsDone(st, b)
    ensures Rows(st, b) == AllSessions(st, Entries(b.sessions))
  {
    hide AllSessions, AllRuns, AllSpans, AllNodeIo, NodeIoDone;
    NewSessionsAre(st, Entries(b.sessions));
    var sessions := AllSessions(st, Entries(b.sessions));
    RunsAgain(sessions, Entries(b.runs));
    SpansAgain(sessions, sessions.runs.Keys, Entries(b.spans));
    NodeIoAgain(sessions, sessions.runs.Keys, Entries(b.nodeIo));
  }

  /** Undoing a session that nothing refers to takes away its row alone. */
  lemma UndoneAlone(st: Store, sessions: map<Id, string>, id: Id)
    requires Sound(st) && id !in st.sessions
    ensures Compensated(st.(sessions := sessions), id) == st.(sessions := sessions - {id})
  {
    assert Detached(st.runs, id) == st.runs;
    var left := map m | m in st.messages && st.messages[m].session != id :: st.messages[m];
    assert forall m <- st.messages :: m in left;
    assert left == st.messages;
  }

  /** Sessions made again whose messages fail again are all undone. */
  lemma {:induction false} UndoneAgain(st: Store, sessions: map<Id, string>, es: seq<SessionEntry>)
    requires Sound(st)
    requires forall s <- st.sessions :: s in sessions && sessions[s] == st.sessions[s]
    requires forall s <- sessions :: s in st.sessions || exists e <- es :: e.id == Some(s)
    requires forall e <- es :: e.id.Some? && e.id.value !in st.sessions && !Lands(st, e)
    ensures AllMessages(st.(sessions := sessions), es) == st
    decreases |es|
  {
    hide Sound, Lands, Compensated;
    if es == [] {
      assert sessions == st.sessions;
    } else {
      var e, rest := es[0], es[1..];
      SameLands(st, sessions, e);
      UndoneAlone(st, sessions, e.id.value);
      assert forall x <- rest :: x in es;
      forall s <- sessions - {e.id.value} ensures s in st.sessions || exists x <- rest :: x.id == Some(s) {
        if s !in st.sessions { var x :| x in es && x.id == Some(s); assert x in rest; }
      }
      UndoneAgain(st, sessions - {e.id.value}, rest);
    }
  }

  lemma SameLands(st: Store, sessions: map<Id, string>, e: SessionEntry)
    requires e.id.Some?
    ensures Lands(st.(sessions := sessions), e) == Lands(st, e)
  {
  }

  /** The sessions that are there after making some. */
  lemma {:induction false} SessionsAre(st: Store, es: seq<SessionEntry>)
    ensures var after := AllSessions(st, es).sessions;
      && (forall s <- st.sessions :: s in after && after[s] == st.sessions[s])
      && (forall s <- after :: s in st.sessions || exists e <- NewSessions(st, es) :: e.id == Some(s))
    decreases |es|
  {
    if es != [] {
      var next := SessionStep(st, es[0]);
      SessionsAre(next, es[1..]);
      var after := AllSessions(st, es).sessions;
      forall s <- after | s !in st.sessions ensures exists e <- NewSessions(st, es) :: e.id == Some(s) {
        if s in next.sessions {
          assert es[0] in NewSessions(st, es);
        } else {
          var e :| e in NewSessions(next, es[1..]) && e.id == Some(s);
          assert e in NewSessions(st, es);
        }
      }
    }
  }

  /** Importing the same bundle again leaves the store as it is: rows that are there stay, and a session
      whose messages could not land is made and undone as before. */
  lemma ImportTwice(st: Store, b: Bundle)
    requires Sound(st) && MessagesDiffer(Entries(b.sessions))
    ensures Imported(Imported(st, b), b) == Imported(st, b)
  {
    hide Rows, NewSessions, AllMessages, AllSessions, Sound, MessagesDiffer, RowsDone, Lands, NoneOf;
    var es := Entries(b.sessions);
    var rows, once := Rows(st, b), Imported(st, b);
    ReadyForMessages(st, b);
    MessagesAre(rows, NewSessions(st, es));
    RowsAreDone(st, b);
    DoneStays(rows, once, b);
    RowsAgain(once, b);
    NewSessionsAre(once, es);
    SessionsAre(once, es);
    KeepsSessions(st, b);
    MadeAgain(once, st, es);
    forall e <- NewSessions(once, es) ensures e.id.value !in once.sessions && !Lands(once, e) {
      assert e in NewSessions(st, es);
      assert Settled(rows.messages, once, e);
    }
    UndoneAgain(once, AllSessions(once, es).sessions, NewSessions(once, es));
  }

  lemma DoneStays(rows: Store, once: Store, b: Bundle)
    requires RowsDone(rows, b)
    requires once.runs.Keys == rows.runs.Keys && once.spans == rows.spans && once.nodeIo == rows.nodeIo
    ensures RowsDone(once, b)
  {
    hide NodeIoDone;
    assert forall r :: r in once.runs <==> r in once.runs.Keys;
    assert forall r :: r in rows.runs <==> r in rows.runs.Keys;
  }

  /** No session that was there is undone. */
  lemma KeepsSessions(st: Store, b: Bundle)
    requires Sound(st) && MessagesDiffer(Entries(b.sessions))
    ensures forall s <- st.sessions :: s in Imported(st, b).sessions
  {
    hide Rows, NewSessions, AllMessages, AllSessions, Sound, MessagesDiffer, Settled;
    ReadyForMessages(st, b);
    MadeAreThere(st, b);
    RowsAre(st, b);
    MessagesAre(Rows(st, b), NewSessions(st, Entries(b.sessions)));
    forall s <- st.sessions ensures s in Imported(st, b).sessions {
      assert s in Rows(st, b).sessions;
    }
  }
}
