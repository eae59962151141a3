/** What an import leaves in the store, row by row, told of the bundle and of what was there. */
module TransferContent {
  import opened Options
  import opened Transfer

  // ---- which entry makes a row ----

  /** The first entry of a session not there before that can be stored. */
  ghost predicate MakesSession(before: map<Id, string>, es: seq<SessionEntry>, i: nat) {
    i < |es| && es[i].id.Some? && es[i].ok && es[i].id.value !in before
    && forall j: nat :: j < i && es[j].ok ==> es[j].id != es[i].id
  }

  ghost predicate MakesRun(before: map<Id, RunRow>, es: seq<RunEntry>, i: nat) {
    i < |es| && es[i].id.Some? && es[i].ok && es[i].id.value !in before
    && forall j: nat :: j < i && es[j].ok ==> es[j].id != es[i].id
  }

  /** Of a run that is known. */
  predicate SpanStored(e: SpanEntry, known: set<Id>) {
    e.ok && e.run.Some? && e.run.value in known
  }

  ghost predicate MakesSpan(before: map<Id, SpanRow>, known: set<Id>, es: seq<SpanEntry>, i: nat) {
    i < |es| && SpanStored(es[i], known) && es[i].id !in before
    && forall j: nat :: j < i && SpanStored(es[j], known) ==> es[j].id != es[i].id
  }

  predicate NodeIoStored(e: NodeIoEntry, known: set<Id>) {
    e.ok && e.run.Some? && e.run.value in known
  }

  /** Neither its id nor its run's node is taken, by a row from before or by an entry that made one. */
  ghost predicate MakesNodeIo(before: map<Id, NodeIoRow>, known: set<Id>, es: seq<NodeIoEntry>, i: nat)
    decreases i
  {
    i < |es| && NodeIoStored(es[i], known) && es[i].id !in before
    && (forall n <- before :: !(before[n].run == es[i].run.value && before[n].node == es[i].node))
    && forall j: nat :: j < i && MakesNodeIo(before, known, es, j) ==>
         es[j].id != es[i].id && !(es[j].run == es[i].run && es[j].node == es[i].node)
  }

  ghost predicate FirstMessage(entries: seq<MessageEntry>, m: Id, j: nat) {
    j < |entries| && entries[j].id == m && forall k: nat :: k < j ==> entries[k].id != m
  }

  /** A reference is kept where what it refers to is there. */
  function Resolved(ref: Option<Id>, there: set<Id>): Option<Id> {
    if ref.Some? && ref.value in there then ref else None
  }

  /** The row is that of the first message of its id among the entries. */
  ghost predicate IsMessage(session: Id, entries: seq<MessageEntry>, known: set<Id>, m: Id, row: MessageRow, j: nat) {
    FirstMessage(entries, m, j)
    && row == MessageRow(session, Resolved(entries[j].run, known), entries[j].position, entries[j].data)
  }

  ghost predicate Brings(e: SessionEntry, known: set<Id>, m: Id, row: MessageRow) {
    e.id.Some? && e.messages.AList? && exists j: nat :: IsMessage(e.id.value, e.messages.entries, known, m, row, j)
  }

  // ---- sessions ----

  lemma {:induction false} SessionsSnoc(st: Store, es: seq<SessionEntry>, e: SessionEntry)
    ensures AllSessions(st, es + [e]) == SessionStep(AllSessions(st, es), e)
    ensures NewSessions(st, es + [e]) == NewSessions(st, es) + (if NewSession(AllSessions(st, es), e) then [e] else [])
    decreases |es|
  {
    hide SessionStep, NewSession;
    if es == [] {
      assert (es + [e])[1..] == [];
    } else {
      assert (es + [e])[1..] == es[1..] + [e];
      SessionsSnoc(SessionStep(st, es[0]), es[1..], e);
    }
  }

  lemma {:induction false} SessionsFrom(st: Store, es: seq<SessionEntry>, n: nat)
    requires n <= |es|
    ensures var after, made := AllSessions(st, es[..n]), NewSessions(st, es[..n]);
      && after == st.(sessions := after.sessions)
      && (forall s <- st.sessions :: s in after.sessions && after.sessions[s] == st.sessions[s])
      && (forall i: nat :: i < n && MakesSession(st.sessions, es, i) ==>
            es[i].id.value in after.sessions && after.sessions[es[i].id.value] == es[i].data && es[i] in made)
      && (forall s <- after.sessions :: s in st.sessions
            || exists i: nat :: i < n && MakesSession(st.sessions, es, i) && es[i].id.value == s)
      && (forall e <- made :: exists i: nat :: i < n && MakesSession(st.sessions, es, i) && es[i] == e)
  {
    hide AllSessions, NewSessions;
    if n == 0 {
      NothingToDo();
      assert es[..0] == [];
    } else {
      var before := AllSessions(st, es[..n - 1]);
      SessionsFrom(st, es, n - 1);
      SessionsSnoc(st, es[..n - 1], es[n - 1]);
      assert es[..n] == es[..n - 1] + [es[n - 1]];
      NextMakes(st, before, es, n - 1);
    }
  }

  /** The next entry makes a session exactly when that is not there yet. */
  lemma NextMakes(st: Store, before: Store, es: seq<SessionEntry>, n: nat)
    requires n < |es|
    requires forall s <- st.sessions :: s in before.sessions
    requires forall i: nat :: i < n && MakesSession(st.sessions, es, i) ==> es[i].id.value in before.sessions
    requires forall s <- before.sessions ::
      s in st.sessions || exists i: nat :: i < n && MakesSession(st.sessions, es, i) && es[i].id.value == s
    ensures NewSession(before, es[n]) <==> MakesSession(st.sessions, es, n)
  {
    if es[n].id.Some? && es[n].ok && es[n].id.value !in st.sessions {
      if j: nat :| j < n && es[j].ok && es[j].id == es[n].id {
        var k := FirstSession(es, j);
        assert MakesSession(st.sessions, es, k);
      }
    }
  }

  lemma {:induction false} FirstSession(es: seq<SessionEntry>, j: nat) returns (k: nat)
    requires j < |es| && es[j].ok
    ensures k <= j && es[k].ok && es[k].id == es[j].id
    ensures forall i: nat :: i < k && es[i].ok ==> es[i].id != es[k].id
  {
    if i: nat :| i < j && es[i].ok && es[i].id == es[j].id {
      k := FirstSession(es, i);
    } else {
      k := j;
    }
  }

  // ---- runs ----

  lemma {:induction false} RunsSnoc(st: Store, es: seq<RunEntry>, e: RunEntry)
    ensures AllRuns(st, es + [e]) == RunStep(AllRuns(st, es), e)
    decreases |es|
  {
    hide RunStep;
    if es == [] {
      assert (es + [e])[1..] == [];
    } else {
      assert (es + [e])[1..] == es[1..] + [e];
      RunsSnoc(RunStep(st, es[0]), es[1..], e);
    }
  }

  lemma {:induction false} RunsFrom(st: Store, es: seq<RunEntry>, n: nat)
    requires n <= |es|
    ensures var after := AllRuns(st, es[..n]);
      && after == st.(runs := after.runs)
      && (forall r <- st.runs :: r in after.runs && after.runs[r] == st.runs[r])
      && (forall i: nat :: i < n && MakesRun(st.runs, es, i) ==>
            es[i].id.value in after.runs
            && after.runs[es[i].id.value] == RunRow(Resolved(es[i].session, st.sessions.Keys), es[i].data))
      && (forall r <- after.runs :: r in st.runs || exists i: nat :: i < n && MakesRun(st.runs, es, i) && es[i].id.value == r)
  {
    hide AllRuns;
    if n == 0 {
      NothingToDo();
      assert es[..0] == [];
    } else {
      var before := AllRuns(st, es[..n - 1]);
      RunsFrom(st, es, n - 1);
      RunsSnoc(st, es[..n - 1], es[n - 1]);
      assert es[..n] == es[..n - 1] + [es[n - 1]];
      NextRun(st, before, es, n - 1);
    }
  }

  lemma NextRun(st: Store, before: Store, es: seq<RunEntry>, n: nat)
    requires n < |es|
    requires forall r <- st.runs :: r in before.runs
    requires forall i: nat :: i < n && MakesRun(st.runs, es, i) ==> es[i].id.value in before.runs
    requires forall r <- before.runs :: r in st.runs || exists i: nat :: i < n && MakesRun(st.runs, es, i) && es[i].id.value == r
    ensures es[n].id.Some? && es[n].ok && es[n].id.value !in before.runs <==> MakesRun(st.runs, es, n)
  {
    if es[n].id.Some? && es[n].ok && es[n].id.value !in st.runs {
      if j: nat :| j < n && es[j].ok && es[j].id == es[n].id {
        var k := FirstRun(es, j);
        assert MakesRun(st.runs, es, k);
      }
    }
  }

  lemma {:induction false} FirstRun(es: seq<RunEntry>, j: nat) returns (k: nat)
    requires j < |es| && es[j].ok
    ensures k <= j && es[k].ok && es[k].id == es[j].id
    ensures forall i: nat :: i < k && es[i].ok ==> es[i].id != es[k].id
  {
    if i: nat :| i < j && es[i].ok && es[i].id == es[j].id {
      k := FirstRun(es, i);
    } else {
      k := j;
    }
  }

  // ---- spans and node I/O ----

  lemma {:induction false} SpansSnoc(st: Store, known: set<Id>, es: seq<SpanEntry>, e: SpanEntry)
    ensures AllSpans(st, known, es + [e]) == SpanStep(AllSpans(st, known, es), known, e)
    decreases |es|
  {
    hide SpanStep;
    if es == [] {
      assert (es + [e])[1..] == [];
    } else {
      assert (es + [e])[1..] == es[1..] + [e];
      SpansSnoc(SpanStep(st, known, es[0]), known, es[1..], e);
    }
  }

  lemma {:induction false} SpansFrom(st: Store, known: set<Id>, es: seq<SpanEntry>, n: nat)
    requires n <= |es|
    ensures var after := AllSpans(st, known, es[..n]);
      && after == st.(spans := after.spans)
      && (forall s <- st.spans :: s in after.spans && after.spans[s] == st.spans[s])
      && (forall i: nat :: i < n && MakesSpan(st.spans, known, es, i) ==>
            es[i].id in after.spans && after.spans[es[i].id] == SpanRow(es[i].run.value, es[i].data))
      && (forall s <- after.spans :: s in st.spans || exists i: nat :: i < n && MakesSpan(st.spans, known, es, i) && es[i].id == s)
  {
    hide AllSpans;
    if n == 0 {
      NothingToDo();
      assert es[..0] == [];
    } else {
      var before := AllSpans(st, known, es[..n - 1]);
      SpansFrom(st, known, es, n - 1);
      SpansSnoc(st, known, es[..n - 1], es[n - 1]);
      assert es[..n] == es[..n - 1] + [es[n - 1]];
      NextSpan(st, before, known, es, n - 1);
    }
  }

  lemma NextSpan(st: Store, before: Store, known: set<Id>, es: seq<SpanEntry>, n: nat)
    requires n < |es|
    requires forall s <- st.spans :: s in before.spans
    requires forall i: nat :: i < n && MakesSpan(st.spans, known, es, i) ==> es[i].id in before.spans
    requires forall s <- before.spans ::
      s in st.spans || exists i: nat :: i < n && MakesSpan(st.spans, known, es, i) && es[i].id == s
    ensures SpanStored(es[n], known) && es[n].id !in before.spans <==> MakesSpan(st.spans, known, es, n)
  {
    if SpanStored(es[n], known) && es[n].id !in st.spans {
      if j: nat :| j < n && SpanStored(es[j], known) && es[j].id == es[n].id {
        var k := FirstSpan(es, known, j);
        assert MakesSpan(st.spans, known, es, k);
      }
    }
  }

  lemma {:induction false} FirstSpan(es: seq<SpanEntry>, known: set<Id>, j: nat) returns (k: nat)
    requires j < |es| && SpanStored(es[j], known)
    ensures k <= j && SpanStored(es[k], known) && es[k].id == es[j].id
    ensures forall i: nat :: i < k && SpanStored(es[i], known) ==> es[i].id != es[k].id
  {
    if i: nat :| i < j && SpanStored(es[i], known) && es[i].id == es[j].id {
      k := FirstSpan(es, known, i);
    } else {
      k := j;
    }
  }

  lemma {:induction false} NodeIoSnoc(st: Store, known: set<Id>, es: seq<NodeIoEntry>, e: NodeIoEntry)
    ensures AllNodeIo(st, known, es + [e]) == NodeIoStep(AllNodeIo(st, known, es), known, e)
    decreases |es|
  {
    hide NodeIoStep;
    if es == [] {
      assert (es + [e])[1..] == [];
    } else {
      assert (es + [e])[1..] == es[1..] + [e];
      NodeIoSnoc(NodeIoStep(st, known, es[0]), known, es[1..], e);
    }
  }

  lemma {:induction false} NodeIoFrom(st: Store, known: set<Id>, es: seq<NodeIoEntry>, n: nat)
    requires n <= |es|
    ensures NodeIoTold(st.nodeIo, AllNodeIo(st, known, es[..n]).nodeIo, known, es, n)
    ensures AllNodeIo(st, known, es[..n]) == st.(nodeIo := AllNodeIo(st, known, es[..n]).nodeIo)
  {
    hide AllNodeIo, MakesNodeIo, HasNode;
    if n == 0 {
      NothingToDo();
      assert es[..0] == [];
    } else {
      var before := AllNodeIo(st, known, es[..n - 1]);
      NodeIoFrom(st, known, es, n - 1);
      NodeIoSnoc(st, known, es[..n - 1], es[n - 1]);
      assert es[..n] == es[..n - 1] + [es[n - 1]];
      NextNodeIo(st.nodeIo, before.nodeIo, known, es, n - 1);
      if MakesNodeIo(st.nodeIo, known, es, n - 1) { OnlyNow(st.nodeIo, known, es, n - 1); }
    }
  }

  /** The rows from before, and those that the first `n` entries made. */
  ghost predicate NodeIoTold(before: map<Id, NodeIoRow>, after: map<Id, NodeIoRow>, known: set<Id>, es: seq<NodeIoEntry>, n: nat) {
    && (forall x <- before :: x in after && after[x] == before[x])
    && (forall i: nat :: i < n && i < |es| && MakesNodeIo(before, known, es, i) ==>
          es[i].run.Some? && es[i].id in after && after[es[i].id] == NodeIoRow(es[i].run.value, es[i].node, es[i].data))
    && (forall x <- after :: x in before
          || exists i: nat :: i < n && i < |es| && MakesNodeIo(before, known, es, i) && es[i].id == x)
  }

  lemma OnlyNow(before: map<Id, NodeIoRow>, known: set<Id>, es: seq<NodeIoEntry>, n: nat)
    requires MakesNodeIo(before, known, es, n)
    ensures forall j: nat :: j < n && MakesNodeIo(before, known, es, j) ==> es[j].id != es[n].id
    ensures n < |es| && es[n].id !in before && es[n].run.Some?
  {
  }

  lemma NextNodeIo(before: map<Id, NodeIoRow>, now: map<Id, NodeIoRow>, known: set<Id>, es: seq<NodeIoEntry>, n: nat)
    requires n < |es| && NodeIoTold(before, now, known, es, n)
    ensures NodeIoStored(es[n], known) && !HasNode(now, es[n].run.value, es[n].node) && es[n].id !in now
      <==> MakesNodeIo(before, known, es, n)
  {
    if NodeIoStored(es[n], known) && !HasNode(now, es[n].run.value, es[n].node) && es[n].id !in now {
      forall x <- before ensures !(before[x].run == es[n].run.value && before[x].node == es[n].node) {
        assert now[x] == before[x];
      }
      forall j: nat | j < n && MakesNodeIo(before, known, es, j)
        ensures es[j].id != es[n].id && !(es[j].run == es[n].run && es[j].node == es[n].node)
      {
        assert es[j].id in now && now[es[j].id].node == es[j].node;
      }
    }
    if MakesNodeIo(before, known, es, n) {
      forall x <- now ensures x != es[n].id && !(now[x].run == es[n].run.value && now[x].node == es[n].node) {
        if x in before {
          assert now[x] == before[x];
        } else {
          var i: nat :| i < n && i < |es| && MakesNodeIo(before, known, es, i) && es[i].id == x;
        }
      }
    }
  }

  // ---- messages ----

  lemma {:induction false} LandedFrom(messages: map<Id, MessageRow>, session: Id, entries: seq<MessageEntry>, known: set<Id>)
    ensures var after := Landed(messages, session, entries, known);
      && (forall m <- messages :: m in after && after[m] == messages[m])
      && (forall m <- after :: m in messages || exists j: nat :: IsMessage(session, entries, known, m, after[m], j))
    decreases |entries|
  {
    hide IsMessage;
    var after := Landed(messages, session, entries, known);
    if entries != [] {
      var e, rest := entries[0], entries[1..];
      var run := if e.run.Some? && e.run.value in known then e.run else None;
      var next := if e.id in messages then messages else messages[e.id := MessageRow(session, run, e.position, e.data)];
      LandedFrom(next, session, rest, known);
      assert after == Landed(next, session, rest, known);
      forall m <- after | m !in messages ensures exists j: nat :: IsMessage(session, entries, known, m, after[m], j) {
        if m == e.id {
          HeadIs(session, entries, known);
          assert IsMessage(session, entries, known, m, after[m], 0);
        } else {
          var j: nat :| IsMessage(session, rest, known, m, after[m], j);
          LaterIs(session, entries, known, m, after[m], j);
        }
      }
    }
  }

  lemma HeadIs(session: Id, entries: seq<MessageEntry>, known: set<Id>)
    requires entries != []
    ensures var e := entries[0];
      var run := if e.run.Some? && e.run.value in known then e.run else None;
      IsMessage(session, entries, known, e.id, MessageRow(session, run, e.position, e.data), 0)
  {
  }

  lemma LaterIs(session: Id, entries: seq<MessageEntry>, known: set<Id>, m: Id, row: MessageRow, j: nat)
    requires entries != [] && entries[0].id != m && IsMessage(session, entries[1..], known, m, row, j)
    ensures IsMessage(session, entries, known, m, row, j + 1)
  {
    assert entries[1..][j] == entries[j + 1];
    forall k: nat | k < j + 1 ensures entries[k].id != m {
      if k > 0 { assert entries[k] == entries[1..][k - 1]; }
    }
  }

  /** Runs refer to sessions that are there. */
  ghost predicate RunsResolve(st: Store) {
    forall r <- st.runs :: st.runs[r].session.Some? ==> st.runs[r].session.value in st.sessions
  }

  predicate Unnamed(s: Id, es: seq<SessionEntry>) {
    forall e <- es :: e.id != Some(s)
  }

  /** What importing messages changes: sessions go with their messages, runs lose a session that went, and the
      messages that come are the entries'. */
  ghost predicate MessagesTold(st: Store, after: Store, es: seq<SessionEntry>) {
    && after == Store(after.sessions, after.runs, st.spans, st.nodeIo, after.messages)
    && after.runs.Keys == st.runs.Keys
    && (forall r <- st.runs :: after.runs[r] == RunRow(Resolved(st.runs[r].session, after.sessions.Keys), st.runs[r].data))
    && (forall s <- after.sessions :: s in st.sessions && after.sessions[s] == st.sessions[s])
    && (forall s <- st.sessions :: Unnamed(s, es) ==> s in after.sessions)
    && (forall m <- st.messages :: Unnamed(st.messages[m].session, es) ==> m in after.messages && after.messages[m] == st.messages[m])
    && (forall m <- after.messages :: (m in st.messages && after.messages[m] == st.messages[m])
          || exists e <- es :: Brings(e, st.runs.Keys, m, after.messages[m]))
  }

  lemma UndoneTold(st: Store, e: SessionEntry)
    requires e.id.Some? && RunsResolve(st)
    ensures var after := Compensated(st, e.id.value); RunsResolve(after) && MessagesTold(st, after, [e])
  {
    hide Brings;
    var after := Compensated(st, e.id.value);
    assert e in [e];
    assert after.runs.Keys == st.runs.Keys;
  }

  lemma LandedTold(st: Store, e: SessionEntry)
    requires e.id.Some? && e.messages.AList? && RunsResolve(st)
    ensures var after := st.(messages := Landed(st.messages, e.id.value, e.messages.entries, st.runs.Keys));
      RunsResolve(after) && MessagesTold(st, after, [e])
  {
    hide Landed, IsMessage;
    LandedFrom(st.messages, e.id.value, e.messages.entries, st.runs.Keys);
    assert e in [e];
  }

  lemma MessageStepTold(st: Store, e: SessionEntry)
    requires e.id.Some? && RunsResolve(st)
    ensures RunsResolve(MessageStep(st, e)) && MessagesTold(st, MessageStep(st, e), [e])
  {
    hide Lands, Landed, Compensated, RunsResolve, MessagesTold;
    UndoneTold(st, e);
    if e.messages.AList? { LandedTold(st, e); }
    SameTold(st, [e]);
  }

  lemma {:induction false} AllMessagesTold(st: Store, es: seq<SessionEntry>)
    requires (forall e <- es :: e.id.Some?) && RunsResolve(st)
    ensures MessagesTold(st, AllMessages(st, es), es)
    decreases |es|
  {
    hide MessageStep, RunsResolve, MessagesTold;
    if es == [] {
      SameTold(st, es);
    } else {
      var next := MessageStep(st, es[0]);
      MessageStepTold(st, es[0]);
      AllMessagesTold(next, es[1..]);
      ToldOn(st, next, AllMessages(st, es), es[0], es[1..]);
      assert es == [es[0]] + es[1..];
    }
  }

  lemma SameTold(st: Store, es: seq<SessionEntry>)
    requires RunsResolve(st)
    ensures MessagesTold(st, st, es)
  {
  }

  lemma ToldOn(a: Store, b: Store, c: Store, e: SessionEntry, rest: seq<SessionEntry>)
    requires MessagesTold(a, b, [e]) && MessagesTold(b, c, rest)
    ensures MessagesTold(a, c, [e] + rest)
  {
    hide Brings;
    var es := [e] + rest;
    forall s | Unnamed(s, es) ensures Unnamed(s, [e]) && Unnamed(s, rest) {
      assert e in es;
      forall x <- rest ensures x.id != Some(s) { assert x in es; }
    }
    forall m <- c.messages | !(m in a.messages && c.messages[m] == a.messages[m])
      ensures exists x <- es :: Brings(x, a.runs.Keys, m, c.messages[m])
    {
      if m in b.messages && c.messages[m] == b.messages[m] {
        var x :| x in [e] && Brings(x, a.runs.Keys, m, b.messages[m]);
        assert x in es;
      } else {
        var x :| x in rest && Brings(x, b.runs.Keys, m, c.messages[m]);
        assert x in es;
      }
    }
  }

  // ---- whole imports ----

  /** Before the messages: every row from before, and what the entries made. */
  lemma RowsTold(st: Store, b: Bundle)
    ensures var rows, runs := Rows(st, b), Entries(b.runs);
      && (forall r <- st.runs :: r in rows.runs && rows.runs[r] == st.runs[r])
      && (forall i: nat :: MakesRun(st.runs, runs, i) ==>
            runs[i].id.value in rows.runs
            && rows.runs[runs[i].id.value] == RunRow(Resolved(runs[i].session, rows.sessions.Keys), runs[i].data))
      && (forall r <- rows.runs :: r in st.runs || exists i: nat :: MakesRun(st.runs, runs, i) && runs[i].id.value == r)
      && rows.sessions == AllSessions(st, Entries(b.sessions)).sessions && rows.messages == st.messages
  {
    hide AllSessions, AllRuns, AllSpans, AllNodeIo;
    RowsAre(st, b);
    var es, rs := Entries(b.sessions), Entries(b.runs);
    var sessions := AllSessions(st, es);
    assert es[..|es|] == es && rs[..|rs|] == rs;
    SessionsFrom(st, es, |es|);
    RunsFrom(sessions, rs, |rs|);
  }

  lemma RowsSpansTold(st: Store, b: Bundle)
    ensures var rows, spans := Rows(st, b), Entries(b.spans);
      && (forall s <- st.spans :: s in rows.spans && rows.spans[s] == st.spans[s])
      && (forall i: nat :: MakesSpan(st.spans, rows.runs.Keys, spans, i) ==>
            spans[i].id in rows.spans && rows.spans[spans[i].id] == SpanRow(spans[i].run.value, spans[i].data))
      && (forall s <- rows.spans :: s in st.spans
            || exists i: nat :: MakesSpan(st.spans, rows.runs.Keys, spans, i) && spans[i].id == s)
      && NodeIoTold(st.nodeIo, rows.nodeIo, rows.runs.Keys, Entries(b.nodeIo), |Entries(b.nodeIo)|)
  {
    hide AllSessions, AllRuns, AllSpans, AllNodeIo, NodeIoTold, MakesNodeIo;
    var es, rs, ss, ns := Entries(b.sessions), Entries(b.runs), Entries(b.spans), Entries(b.nodeIo);
    assert es[..|es|] == es && rs[..|rs|] == rs && ss[..|ss|] == ss && ns[..|ns|] == ns;
    var sessions := AllSessions(st, es);
    SessionsFrom(st, es, |es|);
    RunsFrom(sessions, rs, |rs|);
    var runs := AllRuns(sessions, rs);
    SpansFrom(runs, runs.runs.Keys, ss, |ss|);
    var spans := AllSpans(runs, runs.runs.Keys, ss);
    NodeIoFrom(spans, spans.runs.Keys, ns, |ns|);
  }

  /** What the messages change of the rows. */
  lemma ImportedTold(st: Store, b: Bundle)
    requires Sound(st)
    ensures MessagesTold(Rows(st, b), Imported(st, b), NewSessions(st, Entries(b.sessions)))
  {
    hide Rows, AllMessages, NewSessions, MessagesTold, Sound;
    RowsSound(st, b);
    Resolves(Rows(st, b));
    AllMessagesTold(Rows(st, b), NewSessions(st, Entries(b.sessions)));
  }

  lemma Resolves(st: Store)
    requires Sound(st)
    ensures RunsResolve(st)
  {
  }

  /** A session there before is none that an import makes. */
  lemma MadeAreNew(st: Store, es: seq<SessionEntry>)
    ensures forall s <- st.sessions :: Unnamed(s, NewSessions(st, es))
  {
    hide NewSessions, AllSessions;
    NewSessionsAre(st, es);
  }

  /** Every row that was there before an import is there after it, as it was: a session that is undone is one
      the import made, so nothing from before is detached or goes with it. */
  lemma EarlierRowsStay(st: Store, b: Bundle)
    requires Sound(st)
    ensures var after := Imported(st, b);
      && (forall s <- st.sessions :: s in after.sessions && after.sessions[s] == st.sessions[s])
      && (forall r <- st.runs :: r in after.runs && after.runs[r] == st.runs[r])
      && (forall s <- st.spans :: s in after.spans && after.spans[s] == st.spans[s])
      && (forall n <- st.nodeIo :: n in after.nodeIo && after.nodeIo[n] == st.nodeIo[n])
      && (forall m <- st.messages :: m in after.messages && after.messages[m] == st.messages[m])
  {
    hide Rows, Imported, NewSessions, AllSessions, MakesNodeIo, MakesSession, MakesRun, MakesSpan, Brings;
    var es, rows, after := Entries(b.sessions), Rows(st, b), Imported(st, b);
    RowsTold(st, b);
    RowsSpansTold(st, b);
    ImportedTold(st, b);
    MadeAreNew(st, es);
    assert es[..|es|] == es;
    SessionsFrom(st, es, |es|);
    forall r <- st.runs ensures after.runs[r] == st.runs[r] {
      assert rows.runs[r] == st.runs[r];
    }
  }

  /** Every session after an import that was not there before is that of the first entry with its id that can be
      stored; and which of those are kept. */
  lemma SessionsAreTheEntries(st: Store, b: Bundle)
    requires Sound(st) && MessagesDiffer(Entries(b.sessions))
    ensures var after, es := Imported(st, b), Entries(b.sessions);
      && (forall s <- after.sessions :: s in st.sessions || exists i: nat :: MakesSession(st.sessions, es, i) && es[i].id.value == s)
      && (forall i: nat :: MakesSession(st.sessions, es, i) ==>
            && (es[i].id.value in after.sessions <==> Keepable(es[i], st.messages.Keys))
            && (es[i].id.value in after.sessions ==> after.sessions[es[i].id.value] == es[i].data))
  {
    hide Rows, Imported, NewSessions, AllSessions, MessagesDiffer, Keepable, Sound, MakesSession, Brings;
    var es, rows, after := Entries(b.sessions), Rows(st, b), Imported(st, b);
    RowsTold(st, b);
    ImportedTold(st, b);
    SessionsAreWhole(st, b);
    assert es[..|es|] == es;
    SessionsFrom(st, es, |es|);
    forall i: nat | MakesSession(st.sessions, es, i)
      ensures i < |es| && es[i].id.Some?
      ensures es[i].id.value in after.sessions <==> Keepable(es[i], st.messages.Keys)
      ensures es[i].id.value in after.sessions ==> after.sessions[es[i].id.value] == es[i].data
    {
      MakesIs(st.sessions, es, i);
      assert es[i] in NewSessions(st, es);
    }
  }

  lemma MakesIs(before: map<Id, string>, es: seq<SessionEntry>, i: nat)
    requires MakesSession(before, es, i)
    ensures i < |es| && es[i].id.Some?
  {
  }

  /** Every run after an import that was not there before has what the first entry with its id that can be
      stored says, and that entry's session exactly when this is in the store afterwards: it was there before, or
      was made and kept. Each such entry has its run there. */
  lemma RunsKeepTheirSessions(st: Store, b: Bundle)
    requires Sound(st)
    ensures var after, es := Imported(st, b), Entries(b.runs);
      && (forall i: nat :: MakesRun(st.runs, es, i) ==>
            es[i].id.value in after.runs
            && after.runs[es[i].id.value] == RunRow(Resolved(es[i].session, after.sessions.Keys), es[i].data))
      && (forall r <- after.runs :: r in st.runs || exists i: nat :: MakesRun(st.runs, es, i) && es[i].id.value == r)
  {
    hide Rows, Imported, NewSessions, AllSessions, Sound, MakesSession, Brings, MakesRun;
    var es, rows, after := Entries(b.runs), Rows(st, b), Imported(st, b);
    RowsTold(st, b);
    ImportedTold(st, b);
    forall i: nat | MakesRun(st.runs, es, i)
      ensures i < |es| && es[i].id.Some? && es[i].id.value in after.runs
      ensures after.runs[es[i].id.value] == RunRow(Resolved(es[i].session, after.sessions.Keys), es[i].data)
    {
      MakesRunIs(st.runs, es, i);
      assert es[i].id.value in rows.runs.Keys;
    }
    forall r <- after.runs | r !in st.runs ensures exists i: nat :: MakesRun(st.runs, es, i) && es[i].id.Some? && es[i].id.value == r {
      assert r in rows.runs.Keys;
    }
  }

  lemma MakesRunIs(before: map<Id, RunRow>, es: seq<RunEntry>, i: nat)
    requires MakesRun(before, es, i)
    ensures i < |es| && es[i].id.Some?
  {
  }

  /** The same of spans and node I/O, of runs that are there afterwards. */
  lemma SpansAreTheEntries(st: Store, b: Bundle)
    requires Sound(st)
    ensures var after, spans, nodeIo := Imported(st, b), Entries(b.spans), Entries(b.nodeIo);
      var known := after.runs.Keys;
      && (forall i: nat :: MakesSpan(st.spans, known, spans, i) ==>
            spans[i].id in after.spans && after.spans[spans[i].id] == SpanRow(spans[i].run.value, spans[i].data))
      && (forall s <- after.spans :: s in st.spans || exists i: nat :: MakesSpan(st.spans, known, spans, i) && spans[i].id == s)
      && (forall i: nat :: i < |nodeIo| && MakesNodeIo(st.nodeIo, known, nodeIo, i) ==>
            nodeIo[i].run.Some? && nodeIo[i].id in after.nodeIo
            && after.nodeIo[nodeIo[i].id] == NodeIoRow(nodeIo[i].run.value, nodeIo[i].node, nodeIo[i].data))
      && (forall n <- after.nodeIo :: n in st.nodeIo
            || exists i: nat :: i < |nodeIo| && MakesNodeIo(st.nodeIo, known, nodeIo, i) && nodeIo[i].id == n)
  {
    hide Rows, Imported, NewSessions, AllSessions, Sound, MakesNodeIo, Brings;
    RowsSpansTold(st, b);
    ImportedTold(st, b);
  }

  /** Every message after an import that was not there before is the first of its id that the entry of its session
      brings, in its place, of the run it names if that is there afterwards; and its session is there. */
  lemma MessagesAreTheEntries(st: Store, b: Bundle)
    requires Sound(st)
    ensures var after, es := Imported(st, b), Entries(b.sessions);
      forall m <- after.messages :: m in st.messages
        || exists i: nat :: MakesSession(st.sessions, es, i) && Brings(es[i], after.runs.Keys, m, after.messages[m])
  {
    hide Rows, Imported, NewSessions, AllSessions, Sound, MakesSession, Brings, MakesRun;
    var es, after := Entries(b.sessions), Imported(st, b);
    RowsTold(st, b);
    ImportedTold(st, b);
    assert es[..|es|] == es;
    SessionsFrom(st, es, |es|);
    forall m <- after.messages | m !in st.messages
      ensures exists i: nat :: MakesSession(st.sessions, es, i) && i < |es| && Brings(es[i], after.runs.Keys, m, after.messages[m])
    {
      var e :| e in NewSessions(st, es) && Brings(e, after.runs.Keys, m, after.messages[m]);
      var i: nat :| i < |es| && MakesSession(st.sessions, es, i) && es[i] == e;
    }
  }
}
