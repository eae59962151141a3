/** Exchanges and shadows interleaved: what every run keeps of deliveries, counters and spending. */
module ShadowProtocol {
  import opened Options
  import opened Policy
  import opened Shadows

  /** The shared state, and what is known about it: the exchanges that ended, those a local model is
      serving, those whose observation was assembled, the tasks cancelled before their first step, and
      what was spent on each day. */
  datatype State = State(
    core: Core,
    done: set<X>,
    served: set<X>,
    observed: set<X>,
    lost: map<X, TargetKind>,
    today: nat,
    clock: real,
    paid: map<nat, real>)

  const START := State(Core(0, 0, 0, map[], 0, 0.0, 0.0, multiset{}), {}, {}, {}, map[], 0, 0.0, map[])

  datatype Event =
    | Serves(x: X)
    | Releases(x: X)
    | Finishes(x: X, assembled: bool, jobs: seq<Job>, terms: Terms)
    | Steps(x: X)
    | Ends(x: X, cost: Option<real>)
    | Pauses
    | Stops
    | Passes(days: nat, seconds: nat)

  function Paid(paid: map<nat, real>, day: nat): real {
    if day in paid then paid[day] else 0.0
  }

  function Next(st: State, e: Event): State {
    match e
    case Serves(x) =>
      if x in st.served then st else st.(core := ServingStarted(st.core), served := st.served + {x})
    case Releases(x) => Released(st, x)
    case Finishes(x, assembled, jobs, terms) =>
      if x in st.done then st
      else
        st.(core := Finished(st.core, x, x in st.served, assembled, jobs, terms, Moment(st.today, st.clock)),
            done := st.done + {x}, served := st.served - {x}, observed := if assembled then st.observed + {x} else st.observed)
    case Steps(x) =>
      st.(core := Begun(st.core, x),
          lost := if DiesUnborn(st.core, x) then st.lost[x := st.core.tasks[x].kind] else st.lost)
    case Ends(x, cost) =>
      st.(core := Ended(st.core, x, cost, st.today),
          paid := if Spends(st.core, x, cost) then st.paid[st.today := Paid(st.paid, st.today) + cost.value] else st.paid)
    case Pauses => st.(core := st.core.(pausedUntil := st.clock + PAUSE_SECONDS))
    case Stops => st.(core := st.core.(tasks := CancelAll(st.core.tasks, false)))
    case Passes(days, seconds) => st.(today := st.today + days, clock := st.clock + seconds as real)
  }

  function Released(st: State, x: X): State {
    if x in st.served then st.(core := ServingEnded(st.core), served := st.served - {x}) else st
  }

  /** The first step of a task that was cancelled before it: its body is never entered. */
  predicate DiesUnborn(c: Core, x: X) {
    x in c.tasks && !c.tasks[x].begun && c.tasks[x].cancelled
  }

  predicate Spends(c: Core, x: X, cost: Option<real>) {
    x in c.tasks && c.tasks[x].begun && c.tasks[x].kind.Anthropic? && cost.Some?
  }

  function Run(events: seq<Event>): State {
    if events == [] then START else Next(Run(events[..|events| - 1]), events[|events| - 1])
  }

  // ---- what every run keeps ----

  function OfKind(tasks: map<X, Task>, kind: TargetKind): set<X> {
    set x | x in tasks && tasks[x].kind == kind
  }

  function LostOfKind(lost: map<X, TargetKind>, kind: TargetKind): set<X> {
    set x | x in lost && lost[x] == kind
  }

  function InFlight(c: Core, kind: TargetKind): nat {
    if kind.Local? then c.local else c.cloud
  }

  /** Where an exchange's observation is: with its shadow, lost with it, or delivered. */
  function Places(st: State, x: X): nat {
    (if x in st.core.tasks then 1 else 0) + (if x in st.lost then 1 else 0) + st.core.delivered[x]
  }

  ghost predicate Accounted(st: State) {
    st.observed <= st.done && forall x :: Places(st, x) == if x in st.observed then 1 else 0
  }

  /** A shadow is in flight until it ends, and for good if it is lost. */
  predicate Counted(st: State) {
    forall kind :: InFlight(st.core, kind) == |OfKind(st.core.tasks, kind)| + |LostOfKind(st.lost, kind)|
  }

  predicate Bounded(c: Core) {
    c.local <= LOCAL_IN_FLIGHT && c.cloud <= CLOUD_IN_FLIGHT
  }

  /** While a request is served locally every local shadow is on its way out. */
  predicate MakesWay(st: State) {
    && st.core.serving == |st.served|
    && (st.served != {} ==> forall x <- st.core.tasks :: st.core.tasks[x].kind.Local? ==> st.core.tasks[x].cancelled)
  }

  ghost predicate Inv(st: State) {
    Accounted(st) && Counted(st) && Bounded(st.core) && MakesWay(st)
  }

  // -- counting tasks --

  lemma Insert<T>(s: set<T>, x: T)
    requires x !in s
    ensures |s + {x}| == |s| + 1
  {
  }

  lemma KindsLaunched(tasks: map<X, Task>, x: X, task: Task)
    requires x !in tasks
    ensures forall kind ::
      |OfKind(tasks[x := task], kind)| == |OfKind(tasks, kind)| + (if kind == task.kind then 1 else 0)
  {
    forall kind
      ensures |OfKind(tasks[x := task], kind)| == |OfKind(tasks, kind)| + (if kind == task.kind then 1 else 0)
    {
      var before, after := OfKind(tasks, kind), OfKind(tasks[x := task], kind);
      if kind == task.kind {
        assert after == before + {x};
        Insert(before, x);
      } else {
        assert after == before;
      }
    }
  }

  lemma KindsForgotten(tasks: map<X, Task>, x: X)
    requires x in tasks
    ensures forall kind ::
      |OfKind(tasks, kind)| == |OfKind(Forgotten(tasks, x), kind)| + (if kind == tasks[x].kind then 1 else 0)
  {
    var rest := Forgotten(tasks, x);
    assert tasks == rest[x := tasks[x]];
    KindsLaunched(rest, x, tasks[x]);
  }

  lemma KindsSame(tasks: map<X, Task>, tasks': map<X, Task>)
    requires tasks.Keys == tasks'.Keys && forall x <- tasks :: tasks[x].kind == tasks'[x].kind
    ensures forall kind :: OfKind(tasks, kind) == OfKind(tasks', kind)
  {
  }

  lemma LostMore(lost: map<X, TargetKind>, x: X, k: TargetKind)
    requires x !in lost
    ensures forall kind :: |LostOfKind(lost[x := k], kind)| == |LostOfKind(lost, kind)| + (if kind == k then 1 else 0)
  {
    forall kind ensures |LostOfKind(lost[x := k], kind)| == |LostOfKind(lost, kind)| + (if kind == k then 1 else 0) {
      var before, after := LostOfKind(lost, kind), LostOfKind(lost[x := k], kind);
      if kind == k {
        assert after == before + {x};
        Insert(before, x);
      } else {
        assert after == before;
      }
    }
  }

  // -- trying jobs --

  /** What trying jobs does: nothing but at most one launch. */
  lemma {:induction false} AnyStartedIs(c: Core, x: X, jobs: seq<Job>, t: Terms, m: Moment)
    ensures var (c', running) := AnyStarted(c, x, jobs, t, m);
      && (c'.serving, c'.delivered, c'.pausedUntil) == (c.serving, c.delivered, c.pausedUntil)
      && (!running ==> (c'.tasks, c'.local, c'.cloud) == (c.tasks, c.local, c.cloud))
      && (running ==> exists job <- jobs :: LaunchedBy(c, c', x, job, t, m))
    decreases |jobs|
  {
    if jobs != [] && !MayRun(c, jobs[0], t, m) {
      var next := Started(c, x, jobs[0], t, m);
      AnyStartedIs(next, x, jobs[1..], t, m);
      if AnyStarted(c, x, jobs, t, m).1 {
        var job :| job in jobs[1..] && LaunchedBy(next, AnyStarted(c, x, jobs, t, m).0, x, job, t, m);
        assert job in jobs;
      }
    } else if jobs != [] {
      assert LaunchedBy(c, AnyStarted(c, x, jobs, t, m).0, x, jobs[0], t, m);
    }
  }

  /** The launch of a job that was allowed to run. */
  predicate LaunchedBy(c: Core, c': Core, x: X, job: Job, t: Terms, m: Moment) {
    && c'.tasks == c.tasks[x := Task(job.kind, false, false)]
    && c'.local == c.local + (if job.kind.Local? then 1 else 0)
    && c'.cloud == c.cloud + (if job.kind.Anthropic? then 1 else 0)
    && (if job.kind.Local? then c.serving == 0 && c.local < LOCAL_IN_FLIGHT && (t.shadowLocal || job.trial)
        else c.cloud < CLOUD_IN_FLIGHT && t.shadowCloud && t.cloudAllowed && m.clock >= c.pausedUntil
             && Rolled(c, m.today).spent < t.dailyLimit)
  }

  lemma DeliverKeeps(st: State, x: X)
    requires Inv(st) && x !in st.done
    ensures Inv(st.(core := Delivered(st.core, x), done := st.done + {x}, observed := st.observed + {x}))
  {
    var st' := st.(core := Delivered(st.core, x), done := st.done + {x}, observed := st.observed + {x});
    forall y ensures Places(st', y) == if y in st'.observed then 1 else 0 { assert Places(st, y) >= 0; }
  }

  lemma LaunchKeeps(st: State, c': Core, x: X, job: Job, t: Terms, m: Moment)
    requires Inv(st) && x !in st.done && LaunchedBy(st.core, c', x, job, t, m)
    requires (c'.serving, c'.delivered) == (st.core.serving, st.core.delivered)
    ensures Inv(st.(core := c', done := st.done + {x}, observed := st.observed + {x}))
  {
    hide OfKind, LostOfKind;
    var st' := st.(core := c', done := st.done + {x}, observed := st.observed + {x});
    assert Places(st, x) == 0;
    KindsLaunched(st.core.tasks, x, Task(job.kind, false, false));
    forall y ensures Places(st', y) == if y in st'.observed then 1 else 0 { assert Places(st, y) >= 0; }
  }

  lemma FinishKeeps(st: State, x: X, assembled: bool, jobs: seq<Job>, t: Terms)
    requires Inv(st)
    ensures Inv(Next(st, Finishes(x, assembled, jobs, t)))
  {
    hide Inv, AnyStarted, LaunchedBy;
    if x !in st.done {
      var free, m := Released(st, x), Moment(st.today, st.clock);
      ReleaseKeeps(st, x);
      assert free.served == st.served - {x};
      if assembled {
        AnyStartedIs(free.core, x, jobs, t, m);
        var (tried, running) := AnyStarted(free.core, x, jobs, t, m);
        if running {
          var job :| job in jobs && LaunchedBy(free.core, tried, x, job, t, m);
          LaunchKeeps(free, tried, x, job, t, m);
        } else {
          SameCore(free, tried);
          var last := free.(core := tried);
          DeliverKeeps(last, x);
          assert Next(st, Finishes(x, assembled, jobs, t))
              == last.(core := Delivered(last.core, x), done := last.done + {x}, observed := last.observed + {x});
        }
      } else {
        DoneKeeps(free, x);
      }
    }
  }

  lemma DoneKeeps(st: State, x: X)
    requires Inv(st)
    ensures Inv(st.(done := st.done + {x}))
  {
    var st' := st.(done := st.done + {x});
    forall y ensures Places(st', y) == if y in st'.observed then 1 else 0 { assert Places(st, y) >= 0; }
  }

  /** Only what is spent, and when, differs. */
  lemma SameCore(st: State, c: Core)
    requires Inv(st)
    requires (c.tasks, c.local, c.cloud, c.serving, c.delivered)
          == (st.core.tasks, st.core.local, st.core.cloud, st.core.serving, st.core.delivered)
    ensures Inv(st.(core := c))
  {
    var st' := st.(core := c);
    forall y ensures Places(st', y) == if y in st'.observed then 1 else 0 { assert Places(st, y) >= 0; }
  }

  lemma ReleaseKeeps(st: State, x: X)
    requires Inv(st)
    ensures Inv(Released(st, x))
  {
    var st' := Released(st, x);
    if x in st.served {
      Insert(st.served - {x}, x);
      assert st.served - {x} + {x} == st.served;
    }
    forall y ensures Places(st', y) == if y in st'.observed then 1 else 0 { assert Places(st, y) >= 0; }
  }

  lemma CancelKeeps(st: State, localOnly: bool)
    requires Inv(st)
    ensures Inv(st.(core := st.core.(tasks := CancelAll(st.core.tasks, localOnly))))
  {
    hide OfKind;
    var st' := st.(core := st.core.(tasks := CancelAll(st.core.tasks, localOnly)));
    KindsSame(st.core.tasks, st'.core.tasks);
    forall y ensures Places(st', y) == if y in st'.observed then 1 else 0 { assert Places(st, y) >= 0; }
  }

  lemma ServeKeeps(st: State, x: X)
    requires Inv(st)
    ensures Inv(Next(st, Serves(x)))
  {
    hide OfKind, Accounted, Counted;
    if x !in st.served {
      CancelKeeps(st, true);
      Insert(st.served, x);
      var cancelled := st.(core := st.core.(tasks := CancelAll(st.core.tasks, true)));
      SameAccounts(cancelled, Next(st, Serves(x)));
    }
  }

  lemma SameAccounts(st: State, st': State)
    requires Accounted(st) && Counted(st)
    requires (st'.core.tasks, st'.core.local, st'.core.cloud, st'.core.delivered, st'.lost, st'.observed, st'.done)
          == (st.core.tasks, st.core.local, st.core.cloud, st.core.delivered, st.lost, st.observed, st.done)
    ensures Accounted(st') && Counted(st')
  {
    forall y ensures Places(st', y) == if y in st'.observed then 1 else 0 { assert Places(st, y) >= 0; }
  }

  lemma StepKeeps(st: State, x: X)
    requires Inv(st)
    ensures Inv(Next(st, Steps(x)))
  {
    hide OfKind, LostOfKind;
    var st' := Next(st, Steps(x));
    assert Places(st, x) == if x in st.observed then 1 else 0;
    if DiesUnborn(st.core, x) {
      KindsForgotten(st.core.tasks, x);
      LostMore(st.lost, x, st.core.tasks[x].kind);
    } else {
      KindsSame(st.core.tasks, st'.core.tasks);
    }
    forall y ensures Places(st', y) == if y in st'.observed then 1 else 0 { assert Places(st, y) >= 0; }
  }

  lemma EndKeeps(st: State, x: X, cost: Option<real>)
    requires Inv(st)
    ensures Inv(Next(st, Ends(x, cost)))
  {
    hide OfKind, LostOfKind, Paid;
    var st' := Next(st, Ends(x, cost));
    assert Places(st, x) == if x in st.observed then 1 else 0;
    if x in st.core.tasks && st.core.tasks[x].begun {
      KindsForgotten(st.core.tasks, x);
      var kind := st.core.tasks[x].kind;
      assert InFlight(st.core, kind) > 0;
      forall k ensures InFlight(st'.core, k) == |OfKind(st'.core.tasks, k)| + |LostOfKind(st'.lost, k)| {
        assert InFlight(st.core, k) == |OfKind(st.core.tasks, k)| + |LostOfKind(st.lost, k)|;
      }
    }
    forall y ensures Places(st', y) == if y in st'.observed then 1 else 0 { assert Places(st, y) >= 0; }
  }

  lemma NextKeeps(st: State, e: Event)
    requires Inv(st)
    ensures Inv(Next(st, e))
  {
    hide Inv, Begun, Ended, Finished;
    match e
    case Serves(x) => ServeKeeps(st, x);
    case Releases(x) => ReleaseKeeps(st, x);
    case Finishes(x, assembled, jobs, terms) => FinishKeeps(st, x, assembled, jobs, terms);
    case Steps(x) => StepKeeps(st, x);
    case Ends(x, cost) => EndKeeps(st, x, cost);
    case Pauses => SameCore(st, st.core.(pausedUntil := st.clock + PAUSE_SECONDS));
    case Stops => CancelKeeps(st, false);
    case Passes(_, _) => TimeKeeps(st, Next(st, e));
  }

  lemma TimeKeeps(st: State, st': State)
    requires Inv(st) && st' == st.(today := st'.today, clock := st'.clock)
    ensures Inv(st')
  {
    SameAccounts(st, st');
  }

  /** After every interleaving: each assembled observation is with its one shadow, lost with it, or
      delivered, once; what is in flight is the shadows not ended and those lost; at most one is local
      and two are on the cloud; and local ones make way for requests served locally. */
  lemma {:induction false} RunKeeps(events: seq<Event>)
    ensures Inv(Run(events))
  {
    hide Inv, Next;
    if events == [] {
      StartKeeps();
    } else {
      RunKeeps(events[..|events| - 1]);
      NextKeeps(Run(events[..|events| - 1]), events[|events| - 1]);
    }
  }

  lemma StartKeeps()
    ensures Inv(START)
  {
    forall kind ensures |OfKind(START.core.tasks, kind)| + |LostOfKind(START.lost, kind)| == 0 {
      assert OfKind(START.core.tasks, kind) == {} && LostOfKind(START.lost, kind) == {};
    }
    forall y ensures Places(START, y) == 0 { assert START.core.delivered[y] == 0; }
  }

  // ---- delivery ----

  /** Once an exchange's shadow is over its observation was delivered exactly once, unless the shadow was
      cancelled before its first step: then never. */
  lemma DeliveredOnceUnlessLost(events: seq<Event>, x: X)
    ensures var st := Run(events);
      && st.core.delivered[x] <= 1
      && (x in st.observed && x !in st.core.tasks ==> (st.core.delivered[x] == 1 <==> x !in st.lost))
      && (x !in st.observed ==> st.core.delivered[x] == 0)
  {
    hide Run;
    RunKeeps(events);
    assert Places(Run(events), x) >= 0;
  }

  /** An observation becomes lost only at the first step of a shadow cancelled before it, and stays so. */
  lemma LostAtFirstStep(events: seq<Event>, e: Event, x: X)
    ensures var st, st' := Run(events), Run(events + [e]);
      && (x in st.lost ==> x in st'.lost && st'.lost[x] == st.lost[x])
      && (x !in st.lost ==> (x in st'.lost <==> e.Steps? && e.x == x && DiesUnborn(st.core, x)))
  {
    hide DiesUnborn;
    assert (events + [e])[..|events|] == events;
    RunKeeps(events);
    assert Places(Run(events), x) >= 0;
    if e.Steps? { UnbornIsNotLost(Run(events), e.x); }
  }

  lemma UnbornIsNotLost(st: State, x: X)
    requires Inv(st)
    ensures DiesUnborn(st.core, x) ==> x !in st.lost
  {
    assert Places(st, x) <= 1;
  }

  /** The gap: a shadow created, cancelled before its first step for a request served locally, delivers
      nothing and is in flight for good. */
  lemma CancelledBeforeItBegan()
    ensures var job, terms := Job(Local, true), Terms(true, false, 0.0, false, true, false);
      var st := Run([Finishes(0, true, [job], terms), Serves(1), Steps(0), Releases(1)]);
      st.observed == {0} && st.core.tasks == map[] && st.core.delivered == multiset{} && st.core.local == 1 && st.core.serving == 0
  {
    var job, terms := Job(Local, true), Terms(true, false, 0.0, false, true, false);
    var a, b, c, d := Finishes(0, true, [job], terms), Serves(1), Steps(0), Releases(1);
    RunLast([], a);
    RunLast([a], b);
    RunLast([a, b], c);
    RunLast([a, b, c], d);
    assert [] + [a] == [a] && [a] + [b] == [a, b] && [a, b] + [c] == [a, b, c] && [a, b, c] + [d] == [a, b, c, d];
    assert Run([a]).core.tasks == map[0 := Task(Local, false, false)];
    assert Run([a, b]).core.tasks == map[0 := Task(Local, false, true)];
    assert Run([a, b, c]).core.tasks == map[];
  }

  lemma RunLast(events: seq<Event>, e: Event)
    ensures Run(events + [e]) == Next(Run(events), e)
  {
    assert (events + [e])[..|events|] == events;
  }

  // ---- local models serve real traffic first ----

  /** A local shadow starts only while no request is served locally and none was ever lost, and when one
      starts being served every local shadow is cancelled. */
  lemma LocalShadowsMakeWay(events: seq<Event>, e: Event, x: X)
    ensures var st, st' := Run(events), Run(events + [e]);
      && (x !in st.core.tasks && x in st'.core.tasks && st'.core.tasks[x].kind.Local? ==>
            st'.served == {} && LostOfKind(st.lost, Local) == {} && e.Finishes? && e.x == x)
      && (st'.served != {} && x in st'.core.tasks && st'.core.tasks[x].kind.Local? ==> st'.core.tasks[x].cancelled)
  {
    hide AnyStarted, Inv, LostOfKind, OfKind, LaunchedBy, Begun, Ended;
    var st, st' := Run(events), Run(events + [e]);
    RunLast(events, e);
    RunKeeps(events);
    RunKeeps(events + [e]);
    InvMakesWay(st', x);
    if e.Finishes? && e.x !in st.done {
      FinishLaunches(st, e, x);
    } else {
      OthersLaunchNothing(st, e, x);
    }
  }

  lemma InvMakesWay(st: State, x: X)
    requires Inv(st)
    ensures st.core.serving == |st.served|
    ensures st.served != {} && x in st.core.tasks && st.core.tasks[x].kind.Local? ==> st.core.tasks[x].cancelled
  {
  }

  lemma OthersLaunchNothing(st: State, e: Event, x: X)
    requires e.Finishes? ==> e.x in st.done
    ensures x in Next(st, e).core.tasks ==> x in st.core.tasks
  {
  }

  lemma FinishLaunches(st: State, e: Event, x: X)
    requires Inv(st) && e.Finishes? && e.x !in st.done
    ensures var st' := Next(st, e);
      x !in st.core.tasks && x in st'.core.tasks && st'.core.tasks[x].kind.Local? ==>
        st'.served == {} && LostOfKind(st.lost, Local) == {} && e.x == x
  {
    hide AnyStarted, OfKind, Accounted;
    var free, m := Released(st, e.x), Moment(st.today, st.clock);
    ReleaseKeeps(st, e.x);
    AnyStartedIs(free.core, e.x, e.jobs, e.terms, m);
    var (tried, running) := AnyStarted(free.core, e.x, e.jobs, e.terms, m);
    if running {
      var job :| job in e.jobs && LaunchedBy(free.core, tried, e.x, job, e.terms, m);
      if job.kind.Local? {
        assert InFlight(st.core, Local) == |OfKind(st.core.tasks, Local)| + |LostOfKind(st.lost, Local)|;
        assert free.core.serving == |free.served|;
      }
    }
  }

  /** A request served locally cancels local shadows and no other; stopping cancels them all, and nothing is
      brought back. */
  lemma OnlyLocalShadowsMakeWay(st: State, e: Event, x: X)
    requires (e.Serves? || e.Stops?) && x in st.core.tasks
    ensures var st', before := Next(st, e), st.core.tasks[x];
      x in st'.core.tasks && st'.core.tasks[x] == before.(cancelled :=
        before.cancelled || e.Stops? || (e.Serves? && e.x !in st.served && before.kind.Local?))
  {
  }

  // ---- spending ----

  /** A cloud shadow's cost stays within `most`, and the daily limit in force within `limit`. */
  predicate Within(e: Event, limit: real, most: real) {
    && (e.Ends? && e.cost.Some? ==> 0.0 <= e.cost.value <= most)
    && (e.Finishes? ==> e.terms.dailyLimit <= limit)
  }

  /** What is spent and what is in flight to be spent stay within the limit and two shadows. */
  ghost predicate Thrifty(st: State, limit: real, most: real) {
    && st.core.day <= st.today
    && st.core.spent == Paid(st.paid, st.core.day)
    && (forall day :: day > st.core.day ==> Paid(st.paid, day) == 0.0)
    && (forall day :: Paid(st.paid, day) <= limit + 2.0 * most)
    && 0.0 <= st.core.spent
    && st.core.spent + st.core.cloud as real * most <= limit + 2.0 * most
  }

  /** A day that is over is forgotten, and nothing was spent on the next. */
  lemma RollKeeps(st: State, limit: real, most: real)
    requires Thrifty(st, limit, most) && limit >= 0.0 && most >= 0.0 && st.core.cloud <= CLOUD_IN_FLIGHT
    ensures Thrifty(st.(core := Rolled(st.core, st.today)), limit, most)
  {
    if st.today != st.core.day { Few(st.core.cloud, 2, most); }
  }

  lemma Few(n: nat, m: nat, most: real)
    requires n <= m && most >= 0.0
    ensures n as real * most <= m as real * most
  {
  }

  lemma {:induction false} TryingKeeps(st: State, x: X, jobs: seq<Job>, t: Terms, limit: real, most: real)
    requires Thrifty(st, limit, most) && limit >= 0.0 && most >= 0.0 && st.core.cloud <= CLOUD_IN_FLIGHT
    requires t.dailyLimit <= limit
    ensures Thrifty(st.(core := AnyStarted(st.core, x, jobs, t, Moment(st.today, st.clock)).0), limit, most)
    decreases |jobs|
  {
    hide Thrifty, Rolled;
    var m := Moment(st.today, st.clock);
    if jobs != [] {
      var checked := st.(core := Checked(st.core, jobs[0], t, m));
      RollKeeps(st, limit, most);
      RolledCloud(st.core, st.today);
      if MayRun(st.core, jobs[0], t, m) {
        OneMoreShadow(checked, x, jobs[0].kind, limit, most);
      } else {
        TryingKeeps(checked, x, jobs[1..], t, limit, most);
      }
    } else {
      assert st.(core := st.core) == st;
    }
  }

  lemma RolledCloud(c: Core, today: nat)
    ensures Rolled(c, today).cloud == c.cloud
  {
  }

  lemma OneMoreShadow(st: State, x: X, kind: TargetKind, limit: real, most: real)
    requires Thrifty(st, limit, most) && most >= 0.0
    requires kind.Anthropic? ==> st.core.cloud < CLOUD_IN_FLIGHT && st.core.spent <= limit
    ensures Thrifty(st.(core := Launched(st.core, x, kind)), limit, most)
  {
    if kind.Anthropic? { Few(st.core.cloud + 1, 2, most); }
  }

  lemma PayKeeps(st: State, x: X, cost: Option<real>, limit: real, most: real)
    requires Thrifty(st, limit, most) && limit >= 0.0 && most >= 0.0 && st.core.cloud <= CLOUD_IN_FLIGHT
    requires cost.Some? ==> 0.0 <= cost.value <= most
    requires x in st.core.tasks && st.core.tasks[x].kind.Anthropic? ==> st.core.cloud > 0
    ensures Thrifty(Next(st, Ends(x, cost)), limit, most)
  {
    if x in st.core.tasks && st.core.tasks[x].begun && st.core.tasks[x].kind.Anthropic? {
      RollKeeps(st, limit, most);
      var n := st.core.cloud;
      assert (n - 1) as real * most + most == n as real * most;
      if cost.Some? {
        Few(1, n, most);
        PaidMore(st.paid, st.today, cost.value);
      }
    }
  }

  lemma PaidMore(paid: map<nat, real>, today: nat, cost: real)
    ensures var paid' := paid[today := Paid(paid, today) + cost];
      forall day :: Paid(paid', day) == Paid(paid, day) + (if day == today then cost else 0.0)
  {
  }

  lemma ThriftyNext(st: State, e: Event, limit: real, most: real)
    requires Inv(st) && Thrifty(st, limit, most) && limit >= 0.0 && most >= 0.0 && Within(e, limit, most)
    ensures Thrifty(Next(st, e), limit, most)
  {
    hide Inv, AnyStarted, Ended, CancelAll, Thrifty, Paid;
    InvCloud(st);
    match e
    case Ends(x, cost) => PayKeeps(st, x, cost, limit, most);
    case Finishes(x, assembled, jobs, terms) =>
      if x !in st.done && assembled {
        var free := st.(core := if x in st.served then ServingEnded(st.core) else st.core);
        SameSpending(st, free, limit, most);
        TryingKeeps(free, x, jobs, terms, limit, most);
        var (tried, _) := AnyStarted(free.core, x, jobs, terms, Moment(st.today, st.clock));
        SameSpending(free.(core := tried), Next(st, e), limit, most);
      } else {
        SameSpending(st, Next(st, e), limit, most);
      }
    case _ => SameSpending(st, Next(st, e), limit, most);
  }

  lemma SameSpending(st: State, st': State, limit: real, most: real)
    requires Thrifty(st, limit, most) && st'.paid == st.paid && st'.today >= st.today
    requires (st'.core.spent, st'.core.day, st'.core.cloud) == (st.core.spent, st.core.day, st.core.cloud)
    ensures Thrifty(st', limit, most)
  {
  }

  lemma InvCloud(st: State)
    requires Inv(st)
    ensures st.core.cloud <= CLOUD_IN_FLIGHT
    ensures forall x <- st.core.tasks :: st.core.tasks[x].kind.Anthropic? ==> st.core.cloud > 0
  {
    assert InFlight(st.core, Anthropic) == |OfKind(st.core.tasks, Anthropic)| + |LostOfKind(st.lost, Anthropic)|;
    forall x <- st.core.tasks | st.core.tasks[x].kind.Anthropic? ensures st.core.cloud > 0 {
      assert x in OfKind(st.core.tasks, Anthropic);
    }
  }

  /** On no day do shadows cost more than the daily limit and two of them, whenever days end and however
      shadows straddle them. */
  lemma {:induction false} SpendingIsBounded(events: seq<Event>, limit: real, most: real)
    requires limit >= 0.0 && most >= 0.0 && forall e <- events :: Within(e, limit, most)
    ensures Thrifty(Run(events), limit, most)
    ensures forall day :: Paid(Run(events).paid, day) <= limit + 2.0 * most
  {
    hide Within, Next, Inv;
    if events != [] {
      var init, e := events[..|events| - 1], events[|events| - 1];
      assert forall i <- init :: i in events;
      SpendingIsBounded(init, limit, most);
      RunKeeps(init);
      ThriftyNext(Run(init), e, limit, most);
    }
  }

  // ---- pressure ----

  /** No cloud shadow starts within the pause that rate-limit pressure sets. */
  lemma PausedMeansNone(st: State, e: Event, x: X)
    requires Inv(st)
    ensures x !in st.core.tasks && x in Next(st, e).core.tasks && Next(st, e).core.tasks[x].kind.Anthropic? ==>
      st.clock >= st.core.pausedUntil
    ensures Next(st, Pauses).core.pausedUntil == st.clock + PAUSE_SECONDS
  {
    hide AnyStarted, Inv;
    if e.Finishes? && e.x !in st.done {
      var free, m := Released(st, e.x), Moment(st.today, st.clock);
      AnyStartedIs(free.core, e.x, e.jobs, e.terms, m);
    } else {
      OthersLaunchNothing(st, e, x);
    }
  }

  /** An exchange starts a shadow only once it ended complete and well, of what it decided and did not
      apply or of a local model that did not serve it; it holds one task at most, of one of those jobs. */
  lemma ShadowsAreWarranted(st: State, x: X, assembled: bool, e: Ending, terms: Terms)
    requires Inv(st) && x !in st.done
    ensures var st' := Next(st, Finishes(x, assembled, JobsOf(e), terms));
      x in st'.core.tasks ==>
        && assembled && e.kept && e.outcomeComplete && e.isMessages && e.plan.Some?
        && e.status.Some? && 200 <= e.status.value < 300
        && (|| (!e.applied && e.plan.value.routes && e.plan.value.target.Some? && e.plan.value.target.value.kind == st'.core.tasks[x].kind)
            || (!e.local && e.plan.value.trial.Some? && e.plan.value.trial.value.kind == st'.core.tasks[x].kind))
  {
    hide AnyStarted, Inv;
    var free, m := Released(st, x), Moment(st.today, st.clock);
    NoTaskYet(st, x);
    AnyStartedIs(free.core, x, JobsOf(e), terms, m);
    var (tried, running) := AnyStarted(free.core, x, JobsOf(e), terms, m);
    if running && assembled {
      var job :| job in JobsOf(e) && LaunchedBy(free.core, tried, x, job, terms, m);
    }
  }

  lemma NoTaskYet(st: State, x: X)
    requires Inv(st) && x !in st.done
    ensures x !in st.core.tasks
  {
    assert Places(st, x) == 0;
  }

  // ---- that a warranted shadow starts ----

  /** Nothing stands in the way of a shadow of that kind once the exchange is over: a local one needs the local
      models free of requests and of shadows, a cloud one its share of what may run and be spent today. */
  predicate Free(st: State, x: X, kind: TargetKind, trial: bool, t: Terms) {
    if kind.Local? then
      && (t.shadowLocal || trial) && t.hasLocal && st.served <= {x}
      && |OfKind(st.core.tasks, Local)| + |LostOfKind(st.lost, Local)| < 1
    else
      && t.shadowCloud && t.cloudAllowed && t.hasUpstream && st.clock >= st.core.pausedUntil
      && |OfKind(st.core.tasks, Anthropic)| + |LostOfKind(st.lost, Anthropic)| < 2
      && Paid(st.paid, st.today) < t.dailyLimit
  }

  /** The exchange ended complete and well, and its observation is kept. */
  predicate EndedWell(e: Ending) {
    && e.kept && e.outcomeComplete && e.isMessages && e.plan.Some?
    && e.status.Some? && 200 <= e.status.value < 300
  }

  /** It decided on a target and did not use it. */
  predicate Unused(e: Ending) {
    e.plan.Some? && e.plan.value.routes && e.plan.value.target.Some? && !e.applied
  }

  /** It named a local model to try, and none served it. */
  predicate Untried(e: Ending) {
    e.plan.Some? && e.plan.value.trial.Some? && !e.local
  }

  lemma Spent(events: seq<Event>)
    ensures var st := Run(events); st.core.day <= st.today && Rolled(st.core, st.today).spent == Paid(st.paid, st.today)
  {
    SpentIsPaid(events);
  }

  /** What is known to be spent is what was paid that day, and nothing was paid on a later one. */
  predicate Remembers(st: State) {
    && st.core.day <= st.today && st.core.spent == Paid(st.paid, st.core.day)
    && forall day <- st.paid :: day > st.core.day ==> st.paid[day] == 0.0
  }

  lemma {:induction false} SpentIsPaid(events: seq<Event>)
    ensures Remembers(Run(events))
  {
    hide Next, Remembers;
    if events == [] {
      assert Remembers(Run([])) by { NothingPaid(); }
    } else {
      SpentIsPaid(events[..|events| - 1]);
      PaidNext(Run(events[..|events| - 1]), events[|events| - 1]);
    }
  }

  lemma NothingPaid()
    ensures Remembers(Run([]))
  {
  }

  lemma {:induction false} TryingRemembers(c: Core, x: X, jobs: seq<Job>, t: Terms, m: Moment)
    ensures var c' := AnyStarted(c, x, jobs, t, m).0;
      (c'.day, c'.spent) in {(c.day, c.spent), (Rolled(c, m.today).day, Rolled(c, m.today).spent)}
    decreases |jobs|
  {
    if jobs != [] && !MayRun(c, jobs[0], t, m) { TryingRemembers(Started(c, x, jobs[0], t, m), x, jobs[1..], t, m); }
  }

  lemma PaidNext(st: State, e: Event)
    requires Remembers(st)
    ensures Remembers(Next(st, e))
  {
    hide AnyStarted, CancelAll, Forgotten;
    if e.Finishes? {
      var free := if e.x in st.served then ServingEnded(st.core) else st.core;
      TryingRemembers(free, e.x, e.jobs, e.terms, Moment(st.today, st.clock));
    }
  }

  /** Whether one may run is told by what is in flight, being served and paid. */
  lemma FreeIs(events: seq<Event>, x: X, kind: TargetKind, trial: bool, t: Terms)
    ensures var st := Run(events);
      Free(st, x, kind, trial, t) == MayRun(Released(st, x).core, Job(kind, trial), t, Moment(st.today, st.clock))
  {
    hide Run, OfKind, LostOfKind, Accounted, Paid;
    RunKeeps(events);
    Spent(events);
    var st := Run(events);
    assert InFlight(st.core, kind) == |OfKind(st.core.tasks, kind)| + |LostOfKind(st.lost, kind)|;
    if x in st.served {
      assert |st.served - {x}| == |st.served| - 1;
      if |st.served - {x}| == 0 { assert st.served - {x} == {}; }
    } else if |st.served| == 0 {
      assert st.served == {};
    }
  }

  /** A check of one kind says nothing about the other. */
  lemma CheckedSame(c: Core, job: Job, other: Job, t: Terms, m: Moment)
    ensures MayRun(Checked(c, job, t, m), other, t, m) == MayRun(c, other, t, m)
  {
  }

  /** When a shadow starts, for every run: exactly when an exchange first ended well and a shadow of the target it
      decided on and did not use may run, and then that one does; else when one of the local model it was to try
      may. */
  lemma ShadowStartsExactly(events: seq<Event>, x: X, e: Ending, t: Terms)
    requires x !in Run(events).done
    ensures var st := Run(events);
      var st' := Run(events + [Finishes(x, true, JobsOf(e), t)]);
      var first := Unused(e) && Free(st, x, e.plan.value.target.value.kind, false, t);
      var second := Untried(e) && Free(st, x, e.plan.value.trial.value.kind, true, t);
      && (x in st'.core.tasks <==> EndedWell(e) && (first || second))
      && (x in st'.core.tasks ==>
            st'.core.tasks[x] == Task(if first then e.plan.value.target.value.kind else e.plan.value.trial.value.kind, false, false))
      && (x !in st'.core.tasks ==> x in st'.core.delivered)
  {
    hide Run, Free, MayRun, Inv, Checked;
    var st, m := Run(events), Moment(Run(events).today, Run(events).clock);
    RunLast(events, Finishes(x, true, JobsOf(e), t));
    RunKeeps(events);
    NoTaskYet(st, x);
    var free := Released(st, x).core;
    if Unused(e) { FreeIs(events, x, e.plan.value.target.value.kind, false, t); }
    if Untried(e) { FreeIs(events, x, e.plan.value.trial.value.kind, true, t); }
    if EndedWell(e) {
      TriesBoth(free, x, e, t, m);
    } else {
      assert JobsOf(e) == [];
    }
    var (tried, running) := AnyStarted(free, x, JobsOf(e), t, m);
    if !running { assert Delivered(tried, x).delivered[x] > 0; }
  }

  lemma TriesFirst(c: Core, x: X, jobs: seq<Job>, t: Terms, m: Moment)
    ensures jobs == [] ==> AnyStarted(c, x, jobs, t, m) == (c, false)
    ensures jobs != [] && MayRun(c, jobs[0], t, m) ==>
      AnyStarted(c, x, jobs, t, m) == (Launched(Checked(c, jobs[0], t, m), x, jobs[0].kind), true)
    ensures jobs != [] && !MayRun(c, jobs[0], t, m) ==>
      AnyStarted(c, x, jobs, t, m) == AnyStarted(Checked(c, jobs[0], t, m), x, jobs[1..], t, m)
  {
  }

  /** The one or two jobs, tried in order. */
  lemma TriesBoth(c: Core, x: X, e: Ending, t: Terms, m: Moment)
    requires EndedWell(e) && x !in c.tasks
    ensures var (c', running) := AnyStarted(c, x, JobsOf(e), t, m);
      var first := Unused(e) && MayRun(c, Job(e.plan.value.target.value.kind, false), t, m);
      var second := Untried(e) && MayRun(c, Job(e.plan.value.trial.value.kind, true), t, m);
      && (running <==> first || second)
      && (running ==> x in c'.tasks)
      && (running ==>
            c'.tasks[x] == Task(if first then e.plan.value.target.value.kind else e.plan.value.trial.value.kind, false, false))
      && (!running ==> c'.tasks == c.tasks)
  {
    hide MayRun, AnyStarted;
    var jobs := JobsOf(e);
    TriesFirst(c, x, jobs, t, m);
    if jobs != [] {
      var next := Checked(c, jobs[0], t, m);
      TriesFirst(next, x, jobs[1..], t, m);
      if |jobs| == 2 {
        CheckedSame(c, jobs[0], jobs[1], t, m);
        TriesFirst(Checked(next, jobs[1], t, m), x, jobs[1..][1..], t, m);
      }
    }
  }
}
