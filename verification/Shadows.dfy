/** Shadow runs and the exchanges that start them: copies of requests sent in the background, each
    holding its exchange's observation until it ends. */
module Shadows {
  import opened Options
  import opened Policy

  /** An exchange; it starts at most one shadow. */
  type X = nat

  const LOCAL_IN_FLIGHT: nat := 1
  const CLOUD_IN_FLIGHT: nat := 2
  const PAUSE_SECONDS := 600.0

  datatype Job = Job(kind: TargetKind, trial: bool)

  /** A background task. One cancelled before its first step never enters its body. */
  datatype Task = Task(kind: TargetKind, begun: bool, cancelled: bool)

  /** What bears on whether a shadow may run. */
  datatype Terms = Terms(
    shadowLocal: bool,
    shadowCloud: bool,
    dailyLimit: real,
    cloudAllowed: bool,
    hasLocal: bool,
    hasUpstream: bool)

  datatype Moment = Moment(today: nat, clock: real)

  datatype Core = Core(
    local: nat,
    cloud: nat,
    serving: nat,
    tasks: map<X, Task>,
    day: nat,
    spent: real,
    pausedUntil: real,
    delivered: multiset<X>)

  // ---- steps on the shared state ----

  /** What was spent today, once a day that is over is forgotten. */
  function Rolled(c: Core, today: nat): Core {
    if today != c.day then c.(day := today, spent := 0.0) else c
  }

  /** Whether the spending is looked at: everything else allows a cloud shadow. */
  predicate Affordable(c: Core, job: Job, t: Terms, m: Moment) {
    job.kind.Anthropic? && t.shadowCloud && t.cloudAllowed && t.hasUpstream
    && c.cloud < CLOUD_IN_FLIGHT && m.clock >= c.pausedUntil
  }

  predicate MayRun(c: Core, job: Job, t: Terms, m: Moment) {
    if job.kind.Local? then (t.shadowLocal || job.trial) && t.hasLocal && c.serving == 0 && c.local < LOCAL_IN_FLIGHT
    else Affordable(c, job, t, m) && Rolled(c, m.today).spent < t.dailyLimit
  }

  function Checked(c: Core, job: Job, t: Terms, m: Moment): Core {
    if Affordable(c, job, t, m) then Rolled(c, m.today) else c
  }

  function Launched(c: Core, x: X, kind: TargetKind): Core {
    var started := c.(tasks := c.tasks[x := Task(kind, false, false)]);
    if kind.Local? then started.(local := c.local + 1) else started.(cloud := c.cloud + 1)
  }

  function Started(c: Core, x: X, job: Job, t: Terms, m: Moment): Core {
    if MayRun(c, job, t, m) then Launched(Checked(c, job, t, m), x, job.kind) else Checked(c, job, t, m)
  }

  function CancelAll(tasks: map<X, Task>, localOnly: bool): map<X, Task> {
    map x | x in tasks :: if localOnly && !tasks[x].kind.Local? then tasks[x] else tasks[x].(cancelled := true)
  }

  function ServingStarted(c: Core): Core {
    c.(serving := c.serving + 1, tasks := CancelAll(c.tasks, true))
  }

  function ServingEnded(c: Core): Core {
    c.(serving := if c.serving > 0 then c.serving - 1 else 0)
  }

  function Forgotten(tasks: map<X, Task>, x: X): map<X, Task> {
    map y | y in tasks && y != x :: tasks[y]
  }

  /** A task's first step. */
  function Begun(c: Core, x: X): Core {
    if x !in c.tasks || c.tasks[x].begun then c
    else if c.tasks[x].cancelled then c.(tasks := Forgotten(c.tasks, x))
    else c.(tasks := c.tasks[x := c.tasks[x].(begun := true)])
  }

  /** A begun task's end, however it comes: what it cost is spent, it is no longer in flight, and its
      exchange's observation is delivered. */
  function Ended(c: Core, x: X, cost: Option<real>, today: nat): Core {
    if x !in c.tasks || !c.tasks[x].begun then c
    else
      var spent := if c.tasks[x].kind.Anthropic? && cost.Some? then Rolled(c, today).(spent := Rolled(c, today).spent + cost.value) else c;
      var over := if c.tasks[x].kind.Local? then spent.(local := if c.local > 0 then c.local - 1 else 0)
                  else spent.(cloud := if c.cloud > 0 then c.cloud - 1 else 0);
      over.(tasks := Forgotten(c.tasks, x), delivered := c.delivered + multiset{x})
  }

  /** The first job that may run runs. */
  function AnyStarted(c: Core, x: X, jobs: seq<Job>, t: Terms, m: Moment): (Core, bool)
    decreases |jobs|
  {
    if jobs == [] then (c, false)
    else if MayRun(c, jobs[0], t, m) then (Started(c, x, jobs[0], t, m), true)
    else AnyStarted(Started(c, x, jobs[0], t, m), x, jobs[1..], t, m)
  }

  function Delivered(c: Core, x: X): Core {
    c.(delivered := c.delivered + multiset{x})
  }

  class Shadows {
    var local: nat
    var cloud: nat
    var serving: nat
    var tasks: map<X, Task>
    var day: nat
    var spent: real
    var pausedUntil: real
    /** What the record hook was given. */
    var delivered: multiset<X>

    ghost function Now(): Core
      reads this
    {
      Core(local, cloud, serving, tasks, day, spent, pausedUntil, delivered)
    }

    constructor (today: nat)
      ensures Now() == Core(0, 0, 0, map[], today, 0.0, 0.0, multiset{})
    {
      local, cloud, serving, tasks, day, spent, pausedUntil, delivered := 0, 0, 0, map[], today, 0.0, 0.0, multiset{};
    }

    method SpentToday(today: nat) returns (usd: real)
      modifies this`day, this`spent
      ensures Now() == Rolled(old(Now()), today) && usd == Rolled(old(Now()), today).spent
    {
      if today != day { day, spent := today, 0.0; }
      usd := spent;
    }

    method StartServing()
      modifies this
      ensures Now() == ServingStarted(old(Now()))
    {
      serving := serving + 1;
      tasks := CancelAll(tasks, true);
    }

    method EndServing()
      modifies this
      ensures Now() == ServingEnded(old(Now()))
    {
      if serving > 0 { serving := serving - 1; }
    }

    method Allowed(job: Job, t: Terms, m: Moment) returns (may: bool)
      modifies this
      ensures Now() == Checked(old(Now()), job, t, m) && may == MayRun(old(Now()), job, t, m)
    {
      if job.kind.Local? {
        may := (t.shadowLocal || job.trial) && t.hasLocal && serving == 0 && local < LOCAL_IN_FLIGHT;
      } else {
        may := t.shadowCloud && t.cloudAllowed && t.hasUpstream && cloud < CLOUD_IN_FLIGHT && m.clock >= pausedUntil;
        if may {
          var usd := SpentToday(m.today);
          may := usd < t.dailyLimit;
        }
      }
    }

    /** Runs a job in the background, unless no shadow may run now. */
    method Start(x: X, job: Job, t: Terms, m: Moment) returns (running: bool)
      modifies this
      ensures Now() == Started(old(Now()), x, job, t, m) && running == MayRun(old(Now()), job, t, m)
    {
      running := Allowed(job, t, m);
      if running {
        if job.kind.Local? { local := local + 1; } else { cloud := cloud + 1; }
        tasks := tasks[x := Task(job.kind, false, false)];
      }
    }

    method Begin(x: X)
      modifies this
      ensures Now() == Begun(old(Now()), x)
    {
      if x in tasks && !tasks[x].begun {
        if tasks[x].cancelled {
          tasks := Forgotten(tasks, x);
        } else {
          tasks := tasks[x := tasks[x].(begun := true)];
        }
      }
    }

    method End(x: X, cost: Option<real>, today: nat)
      modifies this
      ensures Now() == Ended(old(Now()), x, cost, today)
    {
      if x in tasks && tasks[x].begun {
        if tasks[x].kind.Local? {
          if local > 0 { local := local - 1; }
        } else {
          if cost.Some? {
            var usd := SpentToday(today);
            spent := usd + cost.value;
          }
          if cloud > 0 { cloud := cloud - 1; }
        }
        tasks := Forgotten(tasks, x);
        delivered := delivered + multiset{x};
      }
    }

    /** A cloud shadow met rate-limit pressure. */
    method Pause(clock: real)
      modifies this`pausedUntil
      ensures Now() == old(Now()).(pausedUntil := clock + PAUSE_SECONDS)
    {
      pausedUntil := clock + PAUSE_SECONDS;
    }

    method Stop()
      modifies this
      ensures Now() == old(Now()).(tasks := CancelAll(old(tasks), false))
    {
      tasks := CancelAll(tasks, false);
    }
  }

  // ---- the exchange's side ----

  datatype Ending = Ending(outcomeComplete: bool, status: Option<nat>, isMessages: bool, plan: Option<Plan>, applied: bool, local: bool, kept: bool)

  /** What an ended exchange may be tried on: first the target it decided on and did not use, then its
      trial. */
  function JobsOf(e: Ending): seq<Job> {
    if !e.kept || e.plan.None? || !e.outcomeComplete || !e.isMessages then []
    else if e.status.None? || !(200 <= e.status.value < 300) then []
    else
      (if e.plan.value.routes && e.plan.value.target.Some? && !e.applied then [Job(e.plan.value.target.value.kind, false)] else [])
      + (if e.plan.value.trial.Some? && !e.local then [Job(e.plan.value.trial.value.kind, true)] else [])
  }

  class Exchange {
    const id: X
    const shadows: Shadows
    var done: bool
    var serving: bool

    constructor (id: X, shadows: Shadows)
      ensures this.id == id && this.shadows == shadows && !done && !serving
    {
      this.id, this.shadows, done, serving := id, shadows, false, false;
    }

    /** Counts this exchange as served locally, once. */
    method ServingLocally()
      modifies this`serving, shadows
      ensures serving
      ensures shadows.Now() == if old(serving) then old(shadows.Now()) else ServingStarted(old(shadows.Now()))
    {
      if !serving {
        serving := true;
        shadows.StartServing();
      }
    }

    method Served()
      modifies this`serving, shadows
      ensures !serving
      ensures shadows.Now() == if old(serving) then ServingEnded(old(shadows.Now())) else old(shadows.Now())
    {
      if serving {
        serving := false;
        shadows.EndServing();
      }
    }

    /** Ends the exchange, once: its observation is delivered, now or by the shadow it starts; one that
        could not be assembled is not. */
    method Finish(assembled: bool, e: Ending, t: Terms, m: Moment)
      modifies this, shadows
      ensures done && (old(done) ==> serving == old(serving) && shadows.Now() == old(shadows.Now()))
      ensures !old(done) ==> !serving
      ensures !old(done) ==> shadows.Now() == Finished(old(shadows.Now()), id, old(serving), assembled, JobsOf(e), t, m)
    {
      if done { return; }
      done := true;
      Served();
      if assembled {
        var shadowed := StartAny(shadows, id, JobsOf(e), t, m);
        if !shadowed { shadows.delivered := shadows.delivered + multiset{id}; }
      }
    }
  }

  function Finished(c: Core, x: X, serving: bool, assembled: bool, jobs: seq<Job>, t: Terms, m: Moment): Core {
    var free := if serving then ServingEnded(c) else c;
    if !assembled then free
    else
      var (tried, running) := AnyStarted(free, x, jobs, t, m);
      if running then tried else Delivered(tried, x)
  }

  method StartAny(s: Shadows, x: X, jobs: seq<Job>, t: Terms, m: Moment) returns (running: bool)
    modifies s
    ensures (s.Now(), running) == AnyStarted(old(s.Now()), x, jobs, t, m)
  {
    running := false;
    var i := 0;
    while i < |jobs|
      invariant 0 <= i <= |jobs| && !running
      invariant AnyStarted(s.Now(), x, jobs[i..], t, m) == AnyStarted(old(s.Now()), x, jobs, t, m)
    {
      assert jobs[i..][1..] == jobs[i + 1..];
      running := s.Start(x, jobs[i], t, m);
      if running { return; }
      i := i + 1;
    }
  }
}
