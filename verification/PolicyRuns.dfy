/** What every run of the routing policy keeps, whatever conversations interleave and however the
    configuration changes in between. */
module PolicyRuns {
  import opened Options
  import opened OrderedMap
  import opened Signals
  import opened Policy
  import C = Costs

  // ---- runs ----

  datatype Event =
    | Decides(ask: Ask)
    | Fails(ask: Ask, plan: Plan)
    | Refuses(position: Option<Position>, requested: Option<string>)

  function Next(t: Tables, holding: Holding, e: Event, max: nat): Holding {
    match e
    case Decides(a) => AfterDecision(t, holding, a, max)
    case Fails(a, plan) => AfterFailure(t, holding, a, plan, max)
    case Refuses(p, requested) => AfterRefusal(holding, p, requested, max)
  }

  function After(t: Tables, holding: Holding, events: seq<Event>, max: nat): Holding
    decreases |events|
  {
    if events == [] then holding else After(t, Next(t, holding, events[0], max), events[1..], max)
  }

  function KeyOf(e: Event): Option<Key> {
    var p := if e.Refuses? then e.position else e.ask.position;
    if p.Some? then p.value.key else None
  }

  /** What an event holds for its conversation, if it does. */
  function Kept(t: Tables, holding: Holding, e: Event): (r: Option<Held>)
    ensures r.Some? ==> KeyOf(e).Some?
  {
    if KeyOf(e).None? then None
    else match e
      case Decides(a) =>
        var o := Decision(t, HeldFor(holding, a), a);
        if o.keep then Some(Held(o.plan, Requested(a.signals))) else None
      case Fails(a, plan) =>
        var o := FailurePlan(t, a, plan);
        if o.keep then Some(Held(o.plan, Requested(a.signals))) else None
      case Refuses(_, requested) => Some(Held(Stay([PinnedAfterRefusal]), requested))
  }

  lemma NextIs(t: Tables, holding: Holding, e: Event, max: nat)
    ensures Next(t, holding, e, max)
      == if Kept(t, holding, e).Some? then Put(holding, KeyOf(e).value, Kept(t, holding, e).value, max) else holding
  {
    hide Decision, FailurePlan, Put, Find;
  }

  predicate AllWellFormed(holding: Holding) {
    forall e <- holding :: WellFormed(e.value.plan)
  }

  predicate Valid(holding: Holding, max: nat) {
    Unique(holding) && |holding| <= max && AllWellFormed(holding)
  }

  lemma ColdWellFormed(r: Rules, s: Signals, p: Turn, local: bool)
    ensures WellFormed(AtColdBoundary(r, s, p, local))
  {
    hide InShare, InTrial, LocalModelFor, Accepts, Fits, Eligible, C.CostsLess, PromptTokens;
  }

  lemma FitWellFormed(r: Rules, plan: Plan, s: Signals, p: Turn)
    ensures FitLocal(r, plan, s, p).Some? ==> WellFormed(FitLocal(r, plan, s, p).value)
  {
    hide AtColdBoundary, LocalModelFor, PromptTokens;
    ColdWellFormed(r, s, p, false);
  }

  lemma WarmWellFormed(r: Rules, s: Signals, p: Turn, current: Plan)
    requires WellFormed(current)
    ensures WellFormed(WarmPrompt(r, s, p, current))
  {
    hide AtColdBoundary, WarmSwitchIsWorth;
    ColdWellFormed(r, s, p, true);
  }

  lemma ConversationWellFormed(r: Rules, held: Option<Held>, s: Signals, p: Turn)
    requires held.Some? ==> WellFormed(held.value.plan)
    ensures WellFormed(Conversation(r, held, s, p).plan)
  {
    hide AtColdBoundary, WarmPrompt, FitLocal;
    ColdWellFormed(r, s, p, true);
    if held.Some? {
      var plan := Because(held.value.plan, [MidConversation] + held.value.plan.reasons);
      FitWellFormed(r, plan, s, p);
      WarmWellFormed(r, s, p, held.value.plan);
      FitWellFormed(r, WarmPrompt(r, s, p, held.value.plan), s, p);
    }
  }

  lemma KeptWellFormed(t: Tables, holding: Holding, e: Event)
    requires AllWellFormed(holding)
    ensures Kept(t, holding, e).Some? ==> WellFormed(Kept(t, holding, e).value.plan)
  {
    hide Conversation, AtColdBoundary, CompactionPlan, SidePlan, Find;
    match e
    case Decides(a) =>
      if IsTurn(a) { ConversationWellFormed(RulesOf(t, a), HeldFor(holding, a), a.signals, a.position.value); }
    case Fails(a, _) =>
      if IsTurn(a) { ColdWellFormed(RulesOf(t, a), a.signals, a.position.value, false); }
    case Refuses(_, _) =>
  }

  lemma NextValid(t: Tables, holding: Holding, e: Event, max: nat)
    requires Valid(holding, max) && max > 0
    ensures Valid(Next(t, holding, e, max), max)
  {
    hide Next, Kept, Find, WellFormed;
    NextIs(t, holding, e, max);
    KeptWellFormed(t, holding, e);
    var k := Kept(t, holding, e);
    if k.Some? {
      PutFind(holding, KeyOf(e).value, k.value, max, KeyOf(e).value);
      PutFrom(holding, KeyOf(e).value, k.value, max);
    }
  }

  // ---- sticky decisions ----

  /** What lets a conversation's request move to another model. */
  predicate MayMove(t: Tables, target: Option<Target>, requested: Option<string>, a: Ask) {
    IsTurn(a) &&
    var r, p, s := RulesOf(t, a), a.position.value, a.signals;
    || requested != Requested(s)                                        // another model is asked for
    || !(p.boundary.Continuation? || p.boundary.NewPrompt?)             // a cold boundary
    || Outgrown(r.policy, target, s)                                    // the local model is too small now
    || (p.boundary.NewPrompt?                                           // a warm switch pays
        && WarmSwitchIsWorth(r, p, ServedBy(target, requested), Serves(AtColdBoundary(r, s, p, true), requested), IsFast(s)))
  }

  /** A conversation's request that may not move stays where its decision serves it, and a continuation
      leaves what is held untouched. */
  lemma StaysOrMayMove(t: Tables, held: Held, a: Ask)
    requires WellFormed(held.plan) && IsTurn(a) && OfConversationClass(a)
    requires !MayMove(t, held.plan.target, held.requested, a)
    ensures var o := Decision(t, Some(held), a);
      o.plan.target == held.plan.target && (a.position.value.boundary.Continuation? ==> !o.keep)
  {
    hide AtColdBoundary, WarmSwitchIsWorth, Outgrown;
    ColdWellFormed(RulesOf(t, a), a.signals, a.position.value, true);
  }

  /** An event that cannot move a conversation served at `target`. */
  predicate Quiet(t: Tables, key: Key, target: Option<Target>, requested: Option<string>, e: Event) {
    KeyOf(e) == Some(key) ==> e.Decides? && (OfConversationClass(e.ask) ==> !MayMove(t, target, requested, e.ask))
  }

  ghost predicate HeldThroughout(t: Tables, holding: Holding, events: seq<Event>, max: nat, key: Key)
    decreases |events|
  {
    Find(holding, key).Some? && (events != [] ==> HeldThroughout(t, Next(t, holding, events[0], max), events[1..], max, key))
  }

  /** What is held for a conversation serves the same model after a quiet event. */
  predicate SameServed(holding: Holding, key: Key, target: Option<Target>, requested: Option<string>) {
    Find(holding, key).Some? ==>
      Find(holding, key).value.plan.target == target && Find(holding, key).value.requested == requested
  }

  lemma StickyStep(t: Tables, holding: Holding, e: Event, max: nat, key: Key, target: Option<Target>, requested: Option<string>)
    requires Valid(holding, max) && max > 0 && Find(holding, key).Some?
    requires SameServed(holding, key, target, requested) && Quiet(t, key, target, requested, e)
    ensures SameServed(Next(t, holding, e, max), key, target, requested)
  {
    hide Next, Decision, FailurePlan, MayMove, OfConversationClass, Find, WellFormed, Put;
    NextIs(t, holding, e, max);
    var k := Kept(t, holding, e);
    if k.Some? {
      PutFind(holding, KeyOf(e).value, k.value, max, key);
      if KeyOf(e) == Some(key) {
        var held := Find(holding, key).value;
        assert Entry(key, held) in holding;
        KeepIsConversation(t, Some(held), e.ask);
        if OfConversationClass(e.ask) {
          StaysOrMayMove(t, held, e.ask);
          NotMoved(t, target, requested, e.ask);
        }
      }
    }
  }

  lemma NotMoved(t: Tables, target: Option<Target>, requested: Option<string>, a: Ask)
    requires IsTurn(a) && !MayMove(t, target, requested, a)
    ensures requested == Requested(a.signals)
  {
  }

  lemma KeepIsConversation(t: Tables, held: Option<Held>, a: Ask)
    requires Decision(t, held, a).keep
    ensures OfConversationClass(a) && IsTurn(a)
  {
    hide Conversation, CompactionPlan, SidePlan;
  }

  /** Over any run, whatever other conversations do and however the configuration changes, a conversation
      that stays held and meets nothing that lets it move is served the same model all along. */
  lemma {:induction false} StickyRun(t: Tables, holding: Holding, events: seq<Event>, max: nat, key: Key)
    requires Valid(holding, max) && max > 0 && HeldThroughout(t, holding, events, max, key)
    requires forall e <- events :: Quiet(t, key, Find(holding, key).value.plan.target, Find(holding, key).value.requested, e)
    ensures Find(After(t, holding, events, max), key).Some?
    ensures SameServed(After(t, holding, events, max), key, Find(holding, key).value.plan.target, Find(holding, key).value.requested)
    decreases |events|
  {
    hide Find, Next, Quiet, Valid;
    if events != [] {
      var h, next := Find(holding, key).value, Next(t, holding, events[0], max);
      NextValid(t, holding, events[0], max);
      StickyStep(t, holding, events[0], max, key, h.plan.target, h.requested);
      forall e <- events[1..] ensures Quiet(t, key, h.plan.target, h.requested, e) { assert e in events; }
      assert HeldThroughout(t, next, events[1..], max, key);
      assert Find(next, key).Some?;
      StickyRun(t, next, events[1..], max, key);
    }
  }

  /** A conversation whose target refused it is served by the model asked for until something lets it
      move. */
  lemma RefusedStaysPinned(t: Tables, holding: Holding, p: Option<Position>, key: Key, requested: Option<string>,
                           events: seq<Event>, max: nat)
    requires Valid(holding, max) && max > 0 && p.Some? && p.value.key == Some(key)
    requires var next := Next(t, holding, Refuses(p, requested), max); HeldThroughout(t, next, events, max, key)
    requires forall e <- events :: Quiet(t, key, None, requested, e)
    ensures var last := Find(After(t, Next(t, holding, Refuses(p, requested), max), events, max), key);
      last.Some? && Serves(last.value.plan, requested) == requested
  {
    hide Find, Put, Quiet, After, Decision, FailurePlan;
    var e := Refuses(p, requested);
    NextIs(t, holding, e, max);
    NextValid(t, holding, e, max);
    PutFind(holding, key, Held(Stay([PinnedAfterRefusal]), requested), max, key);
    StickyRun(t, Next(t, holding, e, max), events, max, key);
  }

  // ---- bounded memory ----

  /** What a run holds for its conversations, in the order it was put. */
  function Puts(t: Tables, events: seq<Event>, max: nat): seq<Entry<Key, Held>> {
    if events == [] then []
    else
      var init, e := events[..|events| - 1], events[|events| - 1];
      var k := Kept(t, AfterPrefix(t, init, max), e);
      Puts(t, init, max) + (if k.Some? then [Entry(KeyOf(e).value, k.value)] else [])
  }

  /** What is held after events, taken from the end. */
  function AfterPrefix(t: Tables, events: seq<Event>, max: nat): Holding {
    if events == [] then [] else Next(t, AfterPrefix(t, events[..|events| - 1], max), events[|events| - 1], max)
  }

  lemma {:induction false} AfterAppend(t: Tables, holding: Holding, events: seq<Event>, e: Event, max: nat)
    ensures After(t, holding, events + [e], max) == Next(t, After(t, holding, events, max), e, max)
    decreases |events|
  {
    hide Next;
    if events == [] {
      assert (events + [e])[1..] == [];
    } else {
      assert (events + [e])[1..] == events[1..] + [e];
      AfterAppend(t, Next(t, holding, events[0], max), events[1..], e, max);
    }
  }

  lemma {:induction false} PrefixIsRun(t: Tables, events: seq<Event>, max: nat)
    ensures AfterPrefix(t, events, max) == After(t, [], events, max)
  {
    hide Next;
    if events != [] {
      PrefixIsRun(t, events[..|events| - 1], max);
      AfterAppend(t, [], events[..|events| - 1], events[|events| - 1], max);
      assert events == events[..|events| - 1] + [events[|events| - 1]];
    }
  }

  lemma {:induction false} HoldingIsPuts(t: Tables, events: seq<Event>, max: nat)
    ensures AfterPrefix(t, events, max) == PutAll(Puts(t, events, max), max)
  {
    hide Next, Kept, Put;
    if events != [] {
      var init, e := events[..|events| - 1], events[|events| - 1];
      HoldingIsPuts(t, init, max);
      NextIs(t, AfterPrefix(t, init, max), e, max);
      PutAllSnoc(Puts(t, init, max), Kept(t, AfterPrefix(t, init, max), e), KeyOf(e), max);
    }
  }

  lemma PutAllSnoc(puts: seq<Entry<Key, Held>>, k: Option<Held>, key: Option<Key>, max: nat)
    requires k.Some? ==> key.Some?
    ensures k.None? ==> puts + [] == puts
    ensures k.Some? ==>
      PutAll(puts + [Entry(key.value, k.value)], max) == Put(PutAll(puts, max), key.value, k.value, max)
  {
    if k.Some? { assert (puts + [Entry(key.value, k.value)])[..|puts|] == puts; }
  }

  /** After any run the policy remembers exactly the `max` conversations decided most recently: a decision
      is forgotten only when that many others were held after it. */
  lemma RemembersTheMostRecent(t: Tables, events: seq<Event>, max: nat)
    requires max > 0
    ensures Keys(After(t, [], events, max)) == Newest(Recency(Keys(Puts(t, events, max))), max)
  {
    hide AfterPrefix, Puts, PutAll, Recency, Newest;
    PrefixIsRun(t, events, max);
    HoldingIsPuts(t, events, max);
    HoldsTheMostRecent(Puts(t, events, max), max);
  }

  // ---- local routes fit ----

  /** No local model is listed twice. */
  predicate Distinct(models: seq<LocalModel>) {
    forall i, j :: 0 <= i < j < |models| ==> models[i].model != models[j].model
  }

  predicate FitsLocal(policy: PolicyConfig, target: Option<Target>, s: Signals) {
    IsLocal(target) ==> PromptTokens(s) <= CapabilitiesOf(policy, target.value.model).context
  }

  lemma ListedIs(policy: PolicyConfig, m: LocalModel)
    requires Distinct(policy.localModels) && m in policy.localModels
    ensures CapabilitiesOf(policy, m.model) == m
  {
    var i :| 0 <= i < |policy.localModels| && policy.localModels[i] == m;
    assert IndexOf(policy.localModels, m.model) == i;
  }

  lemma ChosenFits(policy: PolicyConfig, chosen: Option<string>, s: Signals, tools: bool)
    requires Distinct(policy.localModels)
    ensures var r := LocalModelFor(policy, chosen, s, tools);
      r.Some? ==> r.value in policy.localModels && Takes(r.value, PromptTokens(s), tools) && FitsLocal(policy, Some(LocalTarget(r.value)), s)
  {
    hide PromptTokens, IndexOf;
    var r := LocalModelFor(policy, chosen, s, tools);
    if r.Some? {
      assert r.value in policy.localModels;
      ListedIs(policy, r.value);
    }
  }

  lemma SideModelFits(policy: PolicyConfig, s: Signals)
    requires Distinct(policy.localModels)
    ensures SideModel(policy, s).Some? ==> FitsLocal(policy, Some(LocalTarget(SideModel(policy, s).value)), s)
  {
    hide LocalModelFor, PromptTokens, IndexOf;
    var chosen := if policy.sideRequests.model.Some? then policy.sideRequests.model else policy.localTarget;
    ChosenFits(policy, chosen, s, s.body.Some? && s.body.value.shape.toolCount > 0);
  }

  lemma ColdFits(r: Rules, s: Signals, p: Turn, local: bool)
    requires Distinct(r.policy.localModels)
    ensures FitsLocal(r.policy, AtColdBoundary(r, s, p, local).target, s)
    ensures FitsLocal(r.policy, AtColdBoundary(r, s, p, local).trial, s)
    ensures !local ==> !IsLocal(AtColdBoundary(r, s, p, local).target)
  {
    hide InShare, InTrial, LocalModelFor, Accepts, Fits, Eligible, C.CostsLess, PromptTokens, CapabilitiesOf;
    ChosenFits(r.policy, DialOf(r.policy, p).model, s, true);
  }

  lemma FitFits(r: Rules, plan: Plan, s: Signals, p: Turn)
    requires Distinct(r.policy.localModels)
    ensures FitsLocal(r.policy, (if FitLocal(r, plan, s, p).Some? then FitLocal(r, plan, s, p).value else plan).target, s)
  {
    hide AtColdBoundary, LocalModelFor, PromptTokens, CapabilitiesOf;
    if Outgrown(r.policy, plan.target, s) {
      ChosenFits(r.policy, Some(plan.target.value.model), s, true);
      ColdFits(r, s, p, false);
    }
  }

  lemma ConversationFits(r: Rules, held: Option<Held>, s: Signals, p: Turn)
    requires Distinct(r.policy.localModels)
    ensures FitsLocal(r.policy, Conversation(r, held, s, p).plan.target, s)
  {
    hide AtColdBoundary, WarmPrompt, FitLocal, FitsLocal;
    NoneFits(r.policy, s);
    ColdFits(r, s, p, true);
    if held.Some? {
      FitFits(r, Because(held.value.plan, [MidConversation] + held.value.plan.reasons), s, p);
      FitFits(r, WarmPrompt(r, s, p, held.value.plan), s, p);
    }
  }

  lemma NoneFits(policy: PolicyConfig, s: Signals)
    ensures FitsLocal(policy, None, s)
  {
  }

  lemma CompactionFits(r: Rules, held: Option<Held>, s: Signals, p: Option<Position>)
    requires Distinct(r.policy.localModels)
    ensures FitsLocal(r.policy, CompactionPlan(r, held, s, p).target, s)
  {
    hide LocalModelFor, Accepts, Fits, C.CostsLess, PromptTokens, CapabilitiesOf;
    if held.Some? && IsLocal(held.value.plan.target) {
      ChosenFits(r.policy, Some(held.value.plan.target.value.model), s, true);
    }
  }

  lemma SideFits(r: Rules, rules: map<string, Status>, s: Signals, p: Option<Position>)
    requires Distinct(r.policy.localModels)
    ensures FitsLocal(r.policy, SidePlan(r, rules, s, p).target, s)
    ensures FitsLocal(r.policy, SidePlan(r, rules, s, p).trial, s)
  {
    hide SideModel, Accepts, Fits, C.CostsLess, PromptTokens, CapabilitiesOf, InShare, InTrial;
    SideModelFits(r.policy, s);
  }

  /** Every local route, whether fresh, held, warm, for a compaction or a side request, names a model
      whose context holds the request's prompt. */
  lemma LocalRoutesFit(t: Tables, held: Option<Held>, a: Ask)
    requires Distinct(RulesOf(t, a).policy.localModels)
    ensures FitsLocal(RulesOf(t, a).policy, Decision(t, held, a).plan.target, a.signals)
  {
    hide Conversation, CompactionPlan, SidePlan, FitsLocal;
    var r := RulesOf(t, a);
    NoneFits(r.policy, a.signals);
    CompactionFits(r, held, a.signals, a.position);
    SideFits(r, if a.config.Some? then a.config.value.fingerprints else map[], a.signals, a.position);
    if IsTurn(a) { ConversationFits(r, held, a.signals, a.position.value); }
  }

  // ---- outgrowing climbs ----

  /** The same place, up the list, or off it. */
  predicate Climbs(policy: PolicyConfig, here: Option<Target>, there: Option<Target>) {
    || there == here
    || !IsLocal(there)
    || (IsLocal(here) && Listed(policy, there.value.model)
        && IndexOf(policy.localModels, here.value.model) < IndexOf(policy.localModels, there.value.model))
  }

  lemma ClimbsOn(policy: PolicyConfig, a: Option<Target>, b: Option<Target>, c: Option<Target>)
    requires Climbs(policy, a, b) && Climbs(policy, b, c)
    ensures Climbs(policy, a, c)
    ensures !IsLocal(a) ==> !IsLocal(c)
    ensures a == c || IsLocal(b) || !IsLocal(c)
  {
  }

  /** The first larger model that takes the request stands further up the list. */
  lemma LargerIsFurther(policy: PolicyConfig, name: string, s: Signals, tools: bool)
    requires Distinct(policy.localModels)
    requires Listed(policy, name) && PromptTokens(s) > CapabilitiesOf(policy, name).context
    ensures var r := LocalModelFor(policy, Some(name), s, tools);
      r.Some? ==>
        Listed(policy, r.value.model) && IndexOf(policy.localModels, name) < IndexOf(policy.localModels, r.value.model)
  {
    hide PromptTokens;
    var models, i, r := policy.localModels, IndexOf(policy.localModels, name), LocalModelFor(policy, Some(name), s, tools);
    if r.Some? {
      var j :| i <= j < |models| && models[j] == r.value;
      ListedIs(policy, r.value);
      assert IndexOf(models, r.value.model) == j;
    }
  }

  lemma FitClimbs(r: Rules, plan: Plan, s: Signals, p: Turn)
    requires Distinct(r.policy.localModels)
    ensures FitLocal(r, plan, s, p).Some? ==> Climbs(r.policy, plan.target, FitLocal(r, plan, s, p).value.target)
  {
    hide AtColdBoundary, PromptTokens, IndexOf, CapabilitiesOf;
    if Outgrown(r.policy, plan.target, s) {
      var name := plan.target.value.model;
      if Listed(r.policy, name) {
        LargerIsFurther(r.policy, name, s, true);
      } else {
        UnlistedTakesNothing(r.policy, name, s);
      }
      ColdFits(r, s, p, false);
    }
  }

  lemma UnlistedTakesNothing(policy: PolicyConfig, name: string, s: Signals)
    requires !Listed(policy, name)
    ensures LocalModelFor(policy, Some(name), s, true).None?
  {
    assert policy.localModels[IndexOf(policy.localModels, name)..] == [];
  }

  /** No listed local model has a price of its own. */
  predicate Unpriced(r: Rules) {
    r.prices.Some? ==> forall m <- r.policy.localModels :: m.model == "" || r.tables.base(m.model) !in r.prices.value
  }

  /** A warm prompt keeps a conversation where it is, or takes it between models that are priced. */
  lemma WarmClimbs(r: Rules, s: Signals, p: Turn, current: Plan)
    requires Distinct(r.policy.localModels) && Unpriced(r) && WellFormed(current)
    ensures Climbs(r.policy, current.target, WarmPrompt(r, s, p, current).target)
  {
    hide AtColdBoundary, PromptTokens, IndexOf, C.Sum;
    ColdWellFormed(r, s, p, true);
    ColdLocalListed(r, s, p);
  }

  lemma ColdLocalListed(r: Rules, s: Signals, p: Turn)
    requires Distinct(r.policy.localModels)
    ensures IsLocal(AtColdBoundary(r, s, p, true).target) ==>
      exists m <- r.policy.localModels :: m.model == AtColdBoundary(r, s, p, true).target.value.model
  {
    hide InShare, InTrial, LocalModelFor, Accepts, Fits, Eligible, C.CostsLess, PromptTokens, CapabilitiesOf;
    ChosenFits(r.policy, DialOf(r.policy, p).model, s, true);
  }

  /** Not a point to decide afresh at. */
  predicate HoldsOn(a: Ask, requested: Option<string>) {
    IsTurn(a) && requested == Requested(a.signals)
    && (a.position.value.boundary.Continuation? || a.position.value.boundary.NewPrompt?)
  }

  lemma ConversationClimbs(r: Rules, held: Held, s: Signals, p: Turn)
    requires Distinct(r.policy.localModels) && Unpriced(r) && WellFormed(held.plan)
    requires held.requested == Requested(s) && (p.boundary.Continuation? || p.boundary.NewPrompt?)
    ensures Climbs(r.policy, held.plan.target, Conversation(r, Some(held), s, p).plan.target)
  {
    hide AtColdBoundary, WarmPrompt, FitLocal, Climbs;
    var mid := Because(held.plan, [MidConversation] + held.plan.reasons);
    var warm := WarmPrompt(r, s, p, held.plan);
    FitClimbs(r, mid, s, p);
    WarmClimbs(r, s, p, held.plan);
    FitClimbs(r, warm, s, p);
    ClimbsHere(r.policy, held.plan.target);
    var fitted := FitLocal(r, warm, s, p);
    if fitted.Some? { ClimbsOn(r.policy, held.plan.target, warm.target, fitted.value.target); }
  }

  lemma ClimbsHere(policy: PolicyConfig, t: Option<Target>)
    ensures Climbs(policy, t, t)
  {
  }

  /** A compaction runs where its conversation does or above, and holds nothing. */
  lemma CompactionClimbs(r: Rules, held: Held, s: Signals, p: Option<Position>)
    requires Distinct(r.policy.localModels)
    ensures Climbs(r.policy, held.plan.target, CompactionPlan(r, Some(held), s, p).target)
  {
    hide Accepts, Fits, C.CostsLess, PromptTokens, IndexOf;
    if IsLocal(held.plan.target) {
      var name := held.plan.target.value.model;
      ClimbOrStay(r.policy, name, s);
    }
  }

  lemma ClimbOrStay(policy: PolicyConfig, name: string, s: Signals)
    requires Distinct(policy.localModels)
    ensures var m := LocalModelFor(policy, Some(name), s, true);
      m.Some? && m.value.model != name ==>
        Listed(policy, m.value.model) && IndexOf(policy.localModels, name) < IndexOf(policy.localModels, m.value.model)
  {
    hide PromptTokens;
    var models, i, m := policy.localModels, IndexOf(policy.localModels, name), LocalModelFor(policy, Some(name), s, true);
    if m.Some? {
      var j :| i <= j < |models| && models[j] == m.value;
      ListedIs(policy, m.value);
      assert IndexOf(models, m.value.model) == j;
    }
  }

  /** An event under one list of unpriced local models at which a conversation is not decided afresh. */
  predicate Steady(t: Tables, key: Key, policy: PolicyConfig, requested: Option<string>, e: Event) {
    && (!e.Refuses? ==> (e.ask.config.Some? ==> e.ask.config.value.policy == policy))
    && (!e.Refuses? ==> RulesOf(t, e.ask).policy == policy && Unpriced(RulesOf(t, e.ask)))
    && (KeyOf(e) == Some(key) ==>
          if e.Refuses? then e.requested == requested
          else HoldsOn(e.ask, requested))
  }

  predicate ClimbedFrom(holding: Holding, key: Key, policy: PolicyConfig, target: Option<Target>, requested: Option<string>) {
    Find(holding, key).Some? ==>
      Climbs(policy, target, Find(holding, key).value.plan.target) && Find(holding, key).value.requested == requested
  }

  lemma ClimbStep(t: Tables, holding: Holding, e: Event, max: nat, key: Key, policy: PolicyConfig, target: Option<Target>, requested: Option<string>)
    requires Valid(holding, max) && max > 0 && Find(holding, key).Some? && Distinct(policy.localModels)
    requires ClimbedFrom(holding, key, policy, target, requested) && Steady(t, key, policy, requested, e)
    ensures ClimbedFrom(Next(t, holding, e, max), key, policy, target, requested)
  {
    hide Next, Find, WellFormed, Put, Conversation, CompactionPlan, SidePlan, AtColdBoundary, Climbs, Distinct, Unpriced;
    NextIs(t, holding, e, max);
    var k := Kept(t, holding, e);
    if k.Some? {
      PutFind(holding, KeyOf(e).value, k.value, max, key);
      if KeyOf(e) == Some(key) {
        var held := Find(holding, key).value;
        assert Entry(key, held) in holding;
        KeptClimbs(t, holding, e, held, policy);
        ClimbsOn(policy, target, held.plan.target, k.value.plan.target);
      }
    }
  }

  lemma KeptClimbs(t: Tables, holding: Holding, e: Event, held: Held, policy: PolicyConfig)
    requires KeyOf(e).Some? && Find(holding, KeyOf(e).value) == Some(held) && WellFormed(held.plan)
    requires Distinct(policy.localModels) && Steady(t, KeyOf(e).value, policy, held.requested, e)
    requires Kept(t, holding, e).Some?
    ensures Climbs(policy, held.plan.target, Kept(t, holding, e).value.plan.target)
    ensures Kept(t, holding, e).value.requested == held.requested
  {
    hide Find, WellFormed, Conversation, CompactionPlan, SidePlan, AtColdBoundary, Distinct, Unpriced, IndexOf;
    match e
    case Decides(a) => ConversationClimbs(RulesOf(t, a), held, a.signals, a.position.value);
    case Fails(a, _) => ColdFits(RulesOf(t, a), a.signals, a.position.value, false);
    case Refuses(_, _) =>
  }

  /** Between fresh decisions under one configuration, a conversation's local model only moves up the
      list, and once it left local models it never returns to one. */
  lemma {:induction false} ClimbRun(t: Tables, holding: Holding, events: seq<Event>, max: nat, key: Key, policy: PolicyConfig,
                                    target: Option<Target>, requested: Option<string>)
    requires Valid(holding, max) && max > 0 && HeldThroughout(t, holding, events, max, key) && Distinct(policy.localModels)
    requires ClimbedFrom(holding, key, policy, target, requested)
    requires forall e <- events :: Steady(t, key, policy, requested, e)
    ensures Find(After(t, holding, events, max), key).Some?
    ensures ClimbedFrom(After(t, holding, events, max), key, policy, target, requested)
    decreases |events|
  {
    hide Find, Next, Steady, Valid, ClimbedFrom, Distinct;
    if events != [] {
      var next := Next(t, holding, events[0], max);
      NextValid(t, holding, events[0], max);
      ClimbStep(t, holding, events[0], max, key, policy, target, requested);
      forall e <- events[1..] ensures Steady(t, key, policy, requested, e) { assert e in events; }
      ClimbRun(t, next, events[1..], max, key, policy, target, requested);
    }
  }

  /** A conversation whose local model failed is off local models until it is decided afresh. */
  lemma FailedStaysOffLocal(t: Tables, holding: Holding, a: Ask, failed: Plan, key: Key, policy: PolicyConfig,
                            events: seq<Event>, max: nat)
    requires Valid(holding, max) && max > 0 && Distinct(policy.localModels) && RulesOf(t, a).policy == policy
    requires KeyOf(Fails(a, failed)) == Some(key) && FailurePlan(t, a, failed).keep
    requires var next := Next(t, holding, Fails(a, failed), max); HeldThroughout(t, next, events, max, key)
    requires forall e <- events :: Steady(t, key, policy, Requested(a.signals), e)
    ensures var last := Find(After(t, Next(t, holding, Fails(a, failed), max), events, max), key);
      last.Some? && !IsLocal(last.value.plan.target)
  {
    hide Find, Put, Steady, After, Decision, AtColdBoundary, Distinct;
    var e := Fails(a, failed);
    var h := Held(FailurePlan(t, a, failed).plan, Requested(a.signals));
    NextIs(t, holding, e, max);
    NextValid(t, holding, e, max);
    PutFind(holding, key, h, max, key);
    ColdFits(RulesOf(t, a), a.signals, a.position.value, false);
    ClimbsHere(policy, h.plan.target);
    ClimbRun(t, Next(t, holding, e, max), events, max, key, policy, h.plan.target, h.requested);
  }

  // ---- raising a share serves exactly what was tried ----

  lemma TrialIsTheSlice(t: Tables, sample: Sample, dial: Dial)
    requires dial.trial >= 0.0
    ensures InShare(t, sample, dial.share + dial.trial) <==> InShare(t, sample, dial.share) || InTrial(t, sample, dial)
  {
  }

  function RaisedDial(d: Dial): Dial {
    d.(share := d.share + d.trial, trial := 0.0)
  }

  /** The rules once every dial's trial became part of its share. */
  function Raised(r: Rules): Rules {
    r.(policy := r.policy.(sideRequests := RaisedDial(r.policy.sideRequests),
                           subagents := RaisedDial(r.policy.subagents),
                           main := RaisedDial(r.policy.main)))
  }

  predicate TrialsAreShares(policy: PolicyConfig) {
    policy.sideRequests.trial >= 0.0 && policy.subagents.trial >= 0.0 && policy.main.trial >= 0.0
  }

  /** Raising each share by its trial serves the same conversations as before and, on the very model
      each was tried on, exactly those tried. */
  lemma RaisingServesTheTried(r: Rules, s: Signals, p: Turn)
    requires TrialsAreShares(r.policy)
    ensures var before, after := AtColdBoundary(r, s, p, true), AtColdBoundary(Raised(r), s, p, true);
      && after.trial.None?
      && after.target == (if before.trial.Some? then before.trial else before.target)
      && (before.trial.Some? ==> !IsLocal(before.target))
  {
    hide InShare, InTrial, LocalModelFor, Accepts, Fits, Eligible, C.CostsLess, PromptTokens;
    var sample, dial := OfConversation(p.key.value), DialOf(r.policy, p);
    TrialIsTheSlice(r.tables, sample, dial);
    NoTrial(r.tables, sample, RaisedDial(dial));
    SameLocalModel(r, s);
    assert DialOf(Raised(r).policy, p) == RaisedDial(dial);
    TrialIsOut(r.tables, sample, dial);
    SameEligible(r, s, p);
  }

  lemma SameEligible(r: Rules, s: Signals, p: Position)
    ensures Eligible(Raised(r).policy, s, p) == Eligible(r.policy, s, p)
  {
  }

  lemma NoTrial(t: Tables, sample: Sample, dial: Dial)
    requires dial.trial == 0.0
    ensures !InTrial(t, sample, dial)
  {
  }

  lemma TrialIsOut(t: Tables, sample: Sample, dial: Dial)
    ensures InTrial(t, sample, dial) ==> !InShare(t, sample, dial.share)
  {
  }

  lemma SameLocalModel(r: Rules, s: Signals)
    ensures forall chosen, tools {:trigger LocalModelFor(Raised(r).policy, chosen, s, tools)} ::
      LocalModelFor(Raised(r).policy, chosen, s, tools) == LocalModelFor(r.policy, chosen, s, tools)
  {
    hide PromptTokens, IndexOf;
  }

  lemma RaisingServesTheTriedSide(r: Rules, s: Signals)
    requires TrialsAreShares(r.policy)
    ensures var before, after := LocalSide(r, s), LocalSide(Raised(r), s);
      && after.trial.None?
      && after.target == (if before.trial.Some? then before.trial else before.target)
      && (before.trial.Some? ==> before.target.None?)
  {
    hide InShare, InTrial, LocalModelFor, PromptTokens;
    var sample := OfSide(s.hints.session, if s.body.Some? then s.body.value.fingerprint else "");
    var dial := r.policy.sideRequests;
    TrialIsTheSlice(r.tables, sample, dial);
    NoTrial(r.tables, sample, RaisedDial(dial));
    TrialIsOut(r.tables, sample, dial);
    SameLocalModel(r, s);
  }

  // ---- what is never routed, and what a route to Anthropic is worth ----

  /** The request begins as the main conversation does. */
  predicate RidesMain(a: Ask) {
    a.position.Some? && a.position.value.sharesMainPrefix == Some(true)
  }

  /** Which requests are considered at all. */
  lemma ConsideredExactly(a: Ask)
    ensures var h, body := a.signals.hints.requestClass, a.signals.body;
      Unconsidered(a).None? <==>
        && (a.config.Some? ==> !a.config.value.mode.Passthrough?) && a.isMessages
        && !h.Unlabeled? && !h.Unrecognized?
        && (body.Some? ==> !body.value.hasSafeguards && (body.value.isQuotaProbe ==> h.Compaction?))
  {
  }

  /** A route is only ever for a labelled, reviewed or held message request that is no safety check,
      and a quota check is routed only as a compaction. */
  lemma NeverRouted(t: Tables, held: Option<Held>, a: Ask)
    ensures Decision(t, held, a).plan.target.Some? ==>
      && a.isMessages && (a.config.Some? ==> !a.config.value.mode.Passthrough?)
      && !a.signals.hints.requestClass.Unlabeled? && !a.signals.hints.requestClass.Unrecognized?
      && (a.signals.body.Some? ==> !a.signals.body.value.hasSafeguards)
      && (a.signals.body.Some? && a.signals.body.value.isQuotaProbe ==> a.signals.hints.requestClass.Compaction?)
      && (a.signals.hints.requestClass.Compaction? ==>
            held.Some? && held.value.requested == Requested(a.signals) && held.value.plan.target.Some?)
      && (a.signals.hints.requestClass.Auxiliary? ==>
            a.config.Some? && StatusOf(a.config.value.fingerprints, a.signals) in {AllowCheaper, AllowLocal} && !RidesMain(a))
      && (OfConversationClass(a) ==> IsTurn(a))
  {
    hide Conversation, LocalSide, AnthropicTarget, LocalModelFor, Accepts;
  }

  /** A model whose capabilities are known takes the request as it is: its thinking, effort, output, speed and
      system messages, what its conversation has cached and its own size. */
  predicate Suits(t: Tables, model: string, s: Signals, p: Option<Position>) {
    t.base(model) in t.capabilities && s.body.Some? &&
    var c, shape := t.capabilities[t.base(model)], s.body.value.shape;
    && (c.adaptiveThinking || shape.thinking != Some("adaptive"))
    && (c.effort || shape.effort == None)
    && (shape.maxTokens == None || c.maxOutput >= shape.maxTokens.value)
    && (c.fastMode || shape.speed != Some("fast"))
    && (c.midConversationSystem || !shape.hasMidConversationSystem)
    && (p == None || c.context >= p.value.cachedPrefix)
    && c.context >= PromptTokens(s)
  }

  /** A target worth moving to: known to cost less where prices are known, taking the request's shape
      and its context, and not the model asked for. */
  predicate Worth(r: Rules, model: string, s: Signals, p: Option<Position>) {
    && (r.prices.Some? ==> C.CostsLess(r.prices.value, r.tables.base, model, Requested(s)))
    && Suits(r.tables, model, s, p)
    && !(Requested(s).Some? && r.tables.base(Requested(s).value) == r.tables.base(model))
  }

  lemma SuitsIs(t: Tables, model: string, s: Signals, p: Option<Position>)
    ensures Suits(t, model, s, p) <==> Accepts(t, model, s) && Fits(t, model, s, p)
  {
    hide PromptTokens;
  }

  predicate WorthIfAnthropic(r: Rules, target: Option<Target>, s: Signals, p: Option<Position>) {
    target.Some? && target.value.kind.Anthropic? ==> Worth(r, target.value.model, s, p)
  }

  lemma AnthropicWorth(r: Rules, s: Signals, p: Option<Position>, target: Option<string>, why: seq<Reason>)
    ensures WorthIfAnthropic(r, AnthropicTarget(r, s, p, target, why).target, s, p)
  {
    hide Accepts, Fits, Suits, C.CostsLess;
    if target.Some? { SuitsIs(r.tables, target.value, s, p); }
  }

  lemma ColdWorth(r: Rules, s: Signals, p: Turn, local: bool)
    ensures WorthIfAnthropic(r, AtColdBoundary(r, s, p, local).target, s, Some(p))
  {
    hide AnthropicTarget, Worth, LocalModelFor, InShare, InTrial, Eligible;
    var target := if OfSubagent(p) then r.policy.subagentTarget else r.policy.mainTarget;
    var why := if OfSubagent(p) && p.boundary.ConversationStart? then SubagentAtSpawn else ColdCacheBoundary;
    AnthropicWorth(r, s, Some(p), target, [why]);
  }

  predicate HeldOrWorth(r: Rules, held: Option<Held>, target: Option<Target>, s: Signals, p: Option<Position>) {
    (held.Some? && held.value.requested == Requested(s) && held.value.plan.target == target) || WorthIfAnthropic(r, target, s, p)
  }

  lemma ConversationWorth(r: Rules, held: Option<Held>, s: Signals, p: Turn)
    ensures HeldOrWorth(r, held, Conversation(r, held, s, p).plan.target, s, Some(p))
  {
    hide AtColdBoundary, Worth, LocalModelFor, WarmSwitchIsWorth, Outgrown, Informative;
    ColdWorth(r, s, p, true);
    ColdWorth(r, s, p, false);
  }

  lemma CompactionWorth(r: Rules, held: Option<Held>, s: Signals, p: Option<Position>)
    ensures HeldOrWorth(r, held, CompactionPlan(r, held, s, p).target, s, p)
  {
    hide AnthropicTarget, Worth, LocalModelFor, Accepts;
    AnthropicWorth(r, s, p, r.policy.mainTarget, [CompactionTurn, OutgrewLocalModel]);
  }

  lemma SideWorth(r: Rules, rules: map<string, Status>, s: Signals, p: Option<Position>)
    ensures WorthIfAnthropic(r, SidePlan(r, rules, s, p).target, s, p)
  {
    hide AnthropicTarget, Worth, SideModel, InShare, InTrial, StatusOf, StandaloneStructured;
    AnthropicWorth(r, s, p, r.policy.subagentTarget, [FingerprintAllowCheaper]);
  }

  /** Every route to an Anthropic model follows what is held or was found worth it for this request. */
  lemma AnthropicRoutesAreWorth(t: Tables, held: Option<Held>, a: Ask)
    ensures HeldOrWorth(RulesOf(t, a), held, Decision(t, held, a).plan.target, a.signals, a.position)
  {
    hide Conversation, CompactionPlan, SidePlan, Unconsidered, Worth;
    var r := RulesOf(t, a);
    CompactionWorth(r, held, a.signals, a.position);
    SideWorth(r, if a.config.Some? then a.config.value.fingerprints else map[], a.signals, a.position);
    if IsTurn(a) { ConversationWorth(r, held, a.signals, a.position.value); }
  }

  // ---- which target a fresh decision picks ----

  /** A request decided without what is held: at a cold boundary, or where another model is asked for. */
  predicate DecidedAfresh(held: Option<Held>, a: Ask) {
    IsTurn(a) && OfConversationClass(a)
    && ((held.Some? && held.value.requested != Requested(a.signals))
        || !(a.position.value.boundary.Continuation? || a.position.value.boundary.NewPrompt?))
  }

  predicate OfHelper(p: Position) {
    p.kind == Some(SubagentKind) || p.kind == Some(WorkflowKind)
  }

  /** In the share of local models of its own kind, and of a type that is let in. */
  predicate SharedLocally(r: Rules, s: Signals, p: Turn) {
    var dial := if OfHelper(p) then r.policy.subagents else r.policy.main;
    && (OfHelper(p) && dial.agentTypes != [] ==> s.hints.agentType.Some? && s.hints.agentType.value in dial.agentTypes)
    && (dial.share >= 1.0 || (dial.share > 0.0 && r.tables.digest(OfConversation(p.key.value)) < dial.share))
  }

  /** The model of that place stands at or after the first of the chosen name. */
  ghost predicate From(models: seq<LocalModel>, chosen: Option<string>, i: nat)
    requires i < |models|
  {
    chosen.None? || exists k: nat :: k <= i && models[k].model == chosen.value
  }

  ghost predicate TakesIt(models: seq<LocalModel>, s: Signals, tools: bool, i: nat)
    requires i < |models|
  {
    (models[i].tools || !tools) && PromptTokens(s) <= models[i].context
  }

  /** The first model from the chosen one on that takes the request. */
  ghost predicate FirstFrom(models: seq<LocalModel>, chosen: Option<string>, s: Signals, tools: bool, i: nat) {
    i < |models| && From(models, chosen, i) && TakesIt(models, s, tools, i)
    && forall j: nat :: j < i && From(models, chosen, j) ==> !TakesIt(models, s, tools, j)
  }

  ghost predicate FirstFor(r: Rules, s: Signals, p: Turn, i: nat) {
    FirstFrom(r.policy.localModels, (if OfHelper(p) then r.policy.subagents else r.policy.main).model, s, true, i)
  }

  /** The Anthropic model configured for requests of its kind. */
  function ConfiguredFor(r: Rules, p: Position): Option<string> {
    if OfHelper(p) then r.policy.subagentTarget else r.policy.mainTarget
  }

  lemma {:induction false} FirstTakingAt(models: seq<LocalModel>, size: int, tools: bool) returns (i: nat)
    ensures FirstTaking(models, size, tools).None? ==> i == |models|
    ensures FirstTaking(models, size, tools).Some? ==> i < |models| && models[i] == FirstTaking(models, size, tools).value
    ensures forall j: nat :: j < i && j < |models| ==> !Takes(models[j], size, tools)
  {
    if models == [] || Takes(models[0], size, tools) {
      i := 0;
    } else {
      var k := FirstTakingAt(models[1..], size, tools);
      i := k + 1;
      forall j: nat | j < i && j < |models| ensures !Takes(models[j], size, tools) {
        if j > 0 { assert models[1..][j - 1] == models[j]; }
      }
    }
  }

  lemma FromIs(models: seq<LocalModel>, chosen: Option<string>)
    ensures forall j: nat :: j < |models| ==>
      (From(models, chosen, j) <==> (if chosen.None? then 0 else IndexOf(models, chosen.value)) <= j)
  {
    forall j: nat | j < |models|
      ensures From(models, chosen, j) <==> (if chosen.None? then 0 else IndexOf(models, chosen.value)) <= j
    {
      if chosen.Some? && IndexOf(models, chosen.value) <= j {
        assert models[IndexOf(models, chosen.value)].model == chosen.value;
      }
    }
  }

  lemma TakesIs(models: seq<LocalModel>, s: Signals, tools: bool, i: nat)
    requires i < |models|
    ensures TakesIt(models, s, tools, i) == Takes(models[i], PromptTokens(s), tools)
  {
  }

  /** The model a share serves on is the first from the chosen one on, and there is none only if none takes. */
  lemma LocalIsFirst(policy: PolicyConfig, chosen: Option<string>, s: Signals, tools: bool) returns (k: nat)
    ensures var m, models := LocalModelFor(policy, chosen, s, tools), policy.localModels;
      && (m.None? ==> forall i: nat :: !FirstFrom(models, chosen, s, tools, i))
      && (m.Some? ==> FirstFrom(models, chosen, s, tools, k) && models[k] == m.value)
      && (m.Some? ==> forall i: nat :: FirstFrom(models, chosen, s, tools, i) ==> i == k)
  {
    hide PromptTokens, FirstTaking, IndexOf, From, TakesIt, Takes;
    var models := policy.localModels;
    var start := if chosen.None? then 0 else IndexOf(models, chosen.value);
    assert models[0..] == models;
    FromIs(models, chosen);
    var i := FirstTakingAt(models[start..], PromptTokens(s), tools);
    k := start + i;
    forall j: nat | j < k && j < |models| && From(models, chosen, j) ensures !TakesIt(models, s, tools, j) {
      TakesIs(models, s, tools, j);
      assert models[start..][j - start] == models[j];
    }
    if LocalModelFor(policy, chosen, s, tools).Some? {
      assert models[start..][i] == models[k];
      TakesIs(models, s, tools, k);
      assert FirstFrom(models, chosen, s, tools, k);
      forall j: nat | FirstFrom(models, chosen, s, tools, j) ensures j == k { }
    }
  }

  lemma SharedIs(r: Rules, s: Signals, p: Turn)
    ensures SharedLocally(r, s, p) <==>
      Eligible(r.policy, s, p) && InShare(r.tables, OfConversation(p.key.value), DialOf(r.policy, p).share)
    ensures DialOf(r.policy, p) == if OfHelper(p) then r.policy.subagents else r.policy.main
  {
  }

  lemma AnthropicIsWorth(r: Rules, s: Signals, p: Option<Position>, target: Option<string>, why: seq<Reason>)
    ensures var plan := AnthropicTarget(r, s, p, target, why); !plan.cold && (plan.routes <==> plan.target.Some?)
    ensures var got := AnthropicTarget(r, s, p, target, why).target;
      && !IsLocal(got)
      && forall x :: got == Some(Target(Anthropic, x)) <==> target == Some(x) && Worth(r, x, s, p)
  {
    hide Accepts, Fits, Suits, C.CostsLess;
    if target.Some? { SuitsIs(r.tables, target.value, s, p); }
  }

  lemma ColdPicks(r: Rules, s: Signals, p: Turn)
    ensures !AtColdBoundary(r, s, p, true).cold
    ensures var got := AtColdBoundary(r, s, p, true).target;
      && (IsLocal(got) <==> SharedLocally(r, s, p) && exists i: nat :: FirstFor(r, s, p, i))
      && (forall i: nat :: FirstFor(r, s, p, i) && SharedLocally(r, s, p) ==>
            got == Some(Target(Local, r.policy.localModels[i].model)))
      && (forall x :: got == Some(Target(Anthropic, x)) <==>
            !IsLocal(got) && ConfiguredFor(r, p) == Some(x) && Worth(r, x, s, Some(p)))
  {
    hide AnthropicTarget, Worth, LocalModelFor, PromptTokens, FirstFrom, InShare, InTrial, Eligible, SharedLocally;
    var why := if OfSubagent(p) && p.boundary.ConversationStart? then SubagentAtSpawn else ColdCacheBoundary;
    SharedIs(r, s, p);
    var k := LocalIsFirst(r.policy, DialOf(r.policy, p).model, s, true);
    AnthropicIsWorth(r, s, Some(p), ConfiguredFor(r, p), [why]);
    if LocalModelFor(r.policy, DialOf(r.policy, p).model, s, true).Some? { assert FirstFor(r, s, p, k); }
  }

  /** What a fresh decision picks. It is a local model exactly when the request falls in the share of its own
      kind and a listed model from the chosen one on takes it, and then the first such; it is an Anthropic model
      exactly when no local model serves it, that one is configured for its kind, and it is worth it. */
  lemma FreshDecision(t: Tables, held: Option<Held>, a: Ask)
    requires DecidedAfresh(held, a)
    ensures var o, r, s, p := Decision(t, held, a), RulesOf(t, a), a.signals, a.position.value;
      && o.keep && !o.plan.cold
      && (IsLocal(o.plan.target) <==> SharedLocally(r, s, p) && exists i: nat :: FirstFor(r, s, p, i))
      && (forall i: nat :: FirstFor(r, s, p, i) && SharedLocally(r, s, p) ==>
            o.plan.target == Some(Target(Local, r.policy.localModels[i].model)))
      && (forall x :: o.plan.target == Some(Target(Anthropic, x)) <==>
            !IsLocal(o.plan.target) && ConfiguredFor(r, p) == Some(x) && Worth(r, x, s, Some(p)))
  {
    hide AtColdBoundary, Worth, SharedLocally, FirstFor, CompactionPlan, SidePlan, WarmPrompt, FitLocal;
    ColdPicks(RulesOf(t, a), a.signals, a.position.value);
  }

  /** Serving the cached prefix here once more costs at least the margin times writing it there. */
  ghost predicate MovePays(r: Rules, s: Signals, p: Position, here: Option<string>, there: Option<string>) {
    && r.prices.Some? && p.cachedPrefix > 0
    && exists stay, move ::
         && C.Cost(r.prices.value, r.tables.base, here, C.Usage(0, 0, p.cachedPrefix, 0, 0), IsFast(s)) == Some(stay)
         && C.CostCold(r.prices.value, r.tables.base, there, C.Usage(0, 0, p.cachedPrefix, 0, 0),
                       if p.ttl <= 300 then C.FiveMinutes else C.OneHour, IsFast(s)) == Some(move)
         && r.policy.warmSwitchMargin * move <= stay
  }

  /** The same request, had its cache run out. */
  function Expired(a: Ask): Ask
    requires IsTurn(a)
  {
    a.(position := Some(a.position.value.(boundary := CacheExpired)))
  }

  /** Where a held conversation's request is served before its size is looked at: a new prompt goes where it
      would go were it decided afresh if that is another model and the move pays; else it stays. */
  ghost function MeantFor(t: Tables, held: Held, a: Ask): Option<Target>
    requires IsTurn(a)
  {
    var p, s, here := a.position.value, a.signals, held.plan.target;
    var there := Decision(t, None, Expired(a)).plan.target;
    if p.boundary.NewPrompt? && ServedBy(there, Requested(s)) != ServedBy(here, Requested(s))
      && MovePays(RulesOf(t, a), s, p, ServedBy(here, Requested(s)), ServedBy(there, Requested(s))) then there
    else here
  }

  /** Larger than the local model it is meant for: one that no list describes takes 32768 tokens. */
  ghost predicate TooLarge(policy: PolicyConfig, target: Option<Target>, s: Signals) {
    target.Some? && target.value.kind.Local? &&
    PromptTokens(s) >
      if exists i: nat :: FirstNamed(policy.localModels, target.value.model, i)
      then var i: nat :| FirstNamed(policy.localModels, target.value.model, i); policy.localModels[i].context
      else 32768
  }

  ghost predicate FirstNamed(models: seq<LocalModel>, name: string, i: nat) {
    i < |models| && models[i].model == name && forall j: nat :: j < i ==> models[j].model != name
  }

  lemma MovePaysIs(r: Rules, s: Signals, p: Position, here: Option<string>, there: Option<string>)
    ensures MovePays(r, s, p, here, there) == WarmSwitchIsWorth(r, p, here, there, IsFast(s))
  {
    hide C.Cost, C.CostCold;
  }

  lemma TooLargeIs(policy: PolicyConfig, target: Option<Target>, s: Signals)
    ensures TooLarge(policy, target, s) == Outgrown(policy, target, s)
  {
    hide PromptTokens;
    if IsLocal(target) {
      var models, i := policy.localModels, IndexOf(policy.localModels, target.value.model);
      if i < |models| { assert FirstNamed(models, target.value.model, i); }
      forall j: nat | FirstNamed(models, target.value.model, j) ensures j == i { }
    }
  }

  lemma ColdAnywhere(r: Rules, s: Signals, p: Turn, q: Turn, local: bool)
    requires q == p.(boundary := q.boundary)
    ensures AtColdBoundary(r, s, p, local).target == AtColdBoundary(r, s, q, local).target
  {
    hide LocalModelFor, InShare, InTrial, Accepts, Fits, C.CostsLess;
    assert Eligible(r.policy, s, p) == Eligible(r.policy, s, q);
    assert DialOf(r.policy, p) == DialOf(r.policy, q) && OfSubagent(p) == OfSubagent(q);
    FitsAnywhere(r.tables, s, p, q);
  }

  lemma FitsAnywhere(t: Tables, s: Signals, p: Position, q: Position)
    requires q == p.(boundary := q.boundary)
    ensures forall x :: Fits(t, x, s, Some(p)) == Fits(t, x, s, Some(q))
  {
  }

  lemma MeantIs(t: Tables, held: Held, a: Ask)
    requires WellFormed(held.plan) && IsTurn(a) && OfConversationClass(a) && held.requested == Requested(a.signals)
    ensures var r, s, p := RulesOf(t, a), a.signals, a.position.value;
      && (p.boundary.NewPrompt? ==>
            && WarmPrompt(r, s, p, held.plan).target == MeantFor(t, held, a)
            && (WarmPrompt(r, s, p, held.plan).cold <==> MeantFor(t, held, a).Some? && MeantFor(t, held, a) != held.plan.target))
      && (!p.boundary.NewPrompt? ==> MeantFor(t, held, a) == held.plan.target)
  {
    hide AtColdBoundary, WarmSwitchIsWorth, MovePays, Informative, CompactionPlan, SidePlan;
    var r, s, p := RulesOf(t, a), a.signals, a.position.value;
    var q: Turn := p.(boundary := CacheExpired);
    assert RulesOf(t, Expired(a)) == r && OfConversationClass(Expired(a));
    ColdAnywhere(r, s, p, q, true);
    assert Decision(t, None, Expired(a)).plan == AtColdBoundary(r, s, q, true);
    ColdWellFormed(r, s, p, true);
    MovePaysIs(r, s, p, ServedBy(held.plan.target, Requested(s)), Serves(AtColdBoundary(r, s, p, true), Requested(s)));
  }

  lemma FitPicks(r: Rules, plan: Plan, s: Signals, p: Turn)
    requires plan.target.Some? && Outgrown(r.policy, plan.target, s)
    ensures FitLocal(r, plan, s, p).Some?
    ensures var fitted := FitLocal(r, plan, s, p).value; fitted.cold <==> fitted.target.Some? && !IsLocal(fitted.target)
    ensures var got, from := FitLocal(r, plan, s, p).value.target, Some(plan.target.value.model);
      && (IsLocal(got) <==> exists i: nat :: FirstFrom(r.policy.localModels, from, s, true, i))
      && (forall i: nat :: FirstFrom(r.policy.localModels, from, s, true, i) ==> got == Some(Target(Local, r.policy.localModels[i].model)))
      && (forall x :: got == Some(Target(Anthropic, x)) <==>
            !IsLocal(got) && ConfiguredFor(r, p) == Some(x) && Worth(r, x, s, Some(p)))
  {
    hide AnthropicTarget, Worth, LocalModelFor, PromptTokens, FirstFrom, InShare, InTrial, Eligible, Outgrown;
    var from := Some(plan.target.value.model);
    var k := LocalIsFirst(r.policy, from, s, true);
    var why := if OfSubagent(p) && p.boundary.ConversationStart? then SubagentAtSpawn else ColdCacheBoundary;
    AnthropicIsWorth(r, s, Some(p), ConfiguredFor(r, p), [why]);
    if LocalModelFor(r.policy, from, s, true).Some? { assert FirstFrom(r.policy.localModels, from, s, true, k); }
  }

  /** What a held conversation's request is served by between fresh decisions: the target it is meant for, unless
      that is a local model the request is too large for. Then it is the first listed model from that one on that
      takes it, and with none the Anthropic model of its kind that is worth it, or the one it asks for. A target it
      moves to is marked cold, but for a larger local model. */
  lemma HeldDecision(t: Tables, held: Held, a: Ask)
    requires WellFormed(held.plan) && IsTurn(a) && OfConversationClass(a) && !DecidedAfresh(Some(held), a)
    ensures var o, r, s, p, meant := Decision(t, Some(held), a), RulesOf(t, a), a.signals, a.position.value, MeantFor(t, held, a);
      if !TooLarge(r.policy, meant, s) then
        && o.plan.target == meant && (p.boundary.NewPrompt? <==> o.keep)
        && (o.plan.cold <==> meant.Some? && meant != held.plan.target)
      else
        && o.keep && (o.plan.cold <==> o.plan.target.Some? && !IsLocal(o.plan.target))
        && var models, from := r.policy.localModels, Some(meant.value.model);
           && (IsLocal(o.plan.target) <==> exists i: nat :: FirstFrom(models, from, s, true, i))
           && (forall i: nat :: FirstFrom(models, from, s, true, i) ==> o.plan.target == Some(Target(Local, models[i].model)))
           && (forall x :: o.plan.target == Some(Target(Anthropic, x)) <==>
                 !IsLocal(o.plan.target) && ConfiguredFor(r, p) == Some(x) && Worth(r, x, s, Some(p)))
  {
    hide WarmPrompt, AtColdBoundary, MeantFor, Worth, FirstFrom, TooLarge, CompactionPlan, SidePlan, LocalModelFor;
    var r, s, p := RulesOf(t, a), a.signals, a.position.value;
    MeantIs(t, held, a);
    TooLargeIs(r.policy, MeantFor(t, held, a), s);
    var plan := if p.boundary.NewPrompt? then WarmPrompt(r, s, p, held.plan)
                else Because(held.plan, [MidConversation] + held.plan.reasons);
    assert plan.target == MeantFor(t, held, a);
    if Outgrown(r.policy, plan.target, s) { FitPicks(r, plan, s, p); }
  }

  /** A conversation that is no longer held, and whose cache may be warm, stays on the model it asks for. */
  lemma ForgottenStays(t: Tables, a: Ask)
    requires IsTurn(a) && OfConversationClass(a) && !DecidedAfresh(None, a)
    ensures var o := Decision(t, None, a); o.plan.target.None? && (o.keep <==> a.position.value.boundary.NewPrompt?)
  {
    hide CompactionPlan, SidePlan, WarmPrompt, AtColdBoundary;
  }

  /** A compaction is served where its conversation is: by its Anthropic model if that takes the request's shape,
      by the first listed model from its local one on that takes it, and with none by the main target that is
      worth it. In every other case it stays. */
  lemma CompactionServes(t: Tables, held: Option<Held>, a: Ask)
    requires Unconsidered(a).None? && a.signals.hints.requestClass.Compaction?
    ensures var o, r, s := Decision(t, held, a), RulesOf(t, a), a.signals;
      && !o.keep
      && (o.plan.cold <==> held.Some? && IsLocal(held.value.plan.target) && o.plan.target.Some? && !IsLocal(o.plan.target))
      && if held.None? || held.value.requested != Requested(s) || held.value.plan.target.None? then o.plan.target.None?
         else if held.value.plan.target.value.kind.Anthropic? then
           o.plan.target == if Accepts(t, held.value.plan.target.value.model, s) then held.value.plan.target else None
         else
           var models, from := r.policy.localModels, Some(held.value.plan.target.value.model);
           && (IsLocal(o.plan.target) <==> exists i: nat :: FirstFrom(models, from, s, true, i))
           && (forall i: nat :: FirstFrom(models, from, s, true, i) ==> o.plan.target == Some(Target(Local, models[i].model)))
           && (forall x :: o.plan.target == Some(Target(Anthropic, x)) <==>
                 !IsLocal(o.plan.target) && r.policy.mainTarget == Some(x) && Worth(r, x, s, a.position))
  {
    hide AnthropicTarget, Worth, LocalModelFor, FirstFrom, Accepts, Conversation, SidePlan;
    var r, s := RulesOf(t, a), a.signals;
    AnthropicIsWorth(r, s, a.position, r.policy.mainTarget, [CompactionTurn, OutgrewLocalModel]);
    if held.Some? && IsLocal(held.value.plan.target) {
      var from := Some(held.value.plan.target.value.model);
      var k := LocalIsFirst(r.policy, from, s, true);
      if LocalModelFor(r.policy, from, s, true).Some? { assert FirstFrom(r.policy.localModels, from, s, true, k); }
    }
  }

  /** After a local failure a turn of a configured gateway goes to the Anthropic model of its kind exactly when
      that is worth it, and is held there; everything else stays. */
  lemma FailureServes(t: Tables, a: Ask, failed: Plan)
    ensures var o, r, s := FailurePlan(t, a, failed), RulesOf(t, a), a.signals;
      && (o.keep <==> IsTurn(a) && a.config.Some? && (s.hints.requestClass.MainLoop? || s.hints.requestClass.Subagent?))
      && !IsLocal(o.plan.target) && !o.plan.cold
      && (!o.keep ==> o.plan.target.None?)
      && forall x :: o.plan.target == Some(Target(Anthropic, x)) <==>
           o.keep && IsTurn(a) && ConfiguredFor(r, a.position.value) == Some(x) && Worth(r, x, s, a.position)
  {
    hide AnthropicTarget, Worth, LocalModelFor, InShare, InTrial, Eligible;
    if IsTurn(a) {
      var r, p := RulesOf(t, a), a.position.value;
      var why := if OfSubagent(p) && p.boundary.ConversationStart? then SubagentAtSpawn else ColdCacheBoundary;
      AnthropicIsWorth(r, a.signals, Some(p), ConfiguredFor(r, p), [why]);
    }
  }

  predicate OffersTools(s: Signals) {
    s.body.Some? && s.body.value.shape.toolCount > 0
  }

  predicate IsListed(models: seq<LocalModel>, name: string) {
    exists m <- models :: m.model == name
  }

  /** In the share of side requests. */
  predicate SideShared(r: Rules, s: Signals) {
    var share := r.policy.sideRequests.share;
    share >= 1.0 || (share > 0.0 &&
      r.tables.digest(OfSide(s.hints.session, if s.body.Some? then s.body.value.fingerprint else "")) < share)
  }

  lemma SideIs(policy: PolicyConfig, s: Signals) returns (k: nat)
    ensures var tools := OffersTools(s);
      var chosen := if policy.sideRequests.model.Some? then policy.sideRequests.model else policy.localTarget;
      if chosen.Some? && !IsListed(policy.localModels, chosen.value) then
        SideModel(policy, s) == if tools || PromptTokens(s) > 32768 then None else Some(LocalModel(chosen.value, 32768, false))
      else
        && (SideModel(policy, s).None? ==> forall i: nat :: !FirstFrom(policy.localModels, chosen, s, tools, i))
        && (SideModel(policy, s).Some? ==>
              FirstFrom(policy.localModels, chosen, s, tools, k) && policy.localModels[k] == SideModel(policy, s).value)
        && (SideModel(policy, s).Some? ==> forall i: nat :: FirstFrom(policy.localModels, chosen, s, tools, i) ==> i == k)
  {
    hide PromptTokens, LocalModelFor, FirstFrom;
    var tools := OffersTools(s);
    var chosen := if policy.sideRequests.model.Some? then policy.sideRequests.model else policy.localTarget;
    k := LocalIsFirst(policy, chosen, s, tools);
    if chosen.Some? {
      var i := IndexOf(policy.localModels, chosen.value);
      if i < |policy.localModels| { assert policy.localModels[i] in policy.localModels; }
    }
  }

  /** The configuration gives the request's fingerprint this status. */
  predicate Reviewed(a: Ask, status: Status) {
    a.config.Some? && a.signals.body.Some? && a.signals.body.value.fingerprint != ""
    && a.signals.body.value.fingerprint in a.config.value.fingerprints
    && a.config.value.fingerprints[a.signals.body.value.fingerprint] == status
  }

  lemma ReviewedIs(a: Ask, status: Status)
    requires !status.Unreviewed?
    ensures Reviewed(a, status) <==> a.config.Some? && StatusOf(a.config.value.fingerprints, a.signals) == status
  {
  }

  /** A side request whose fingerprint allows local models is served by the first listed model from the chosen
      one on that takes it, or by the chosen one itself where no list describes it and it takes no tools. */
  lemma SideServesLocally(t: Tables, held: Option<Held>, a: Ask)
    requires Unconsidered(a).None? && a.signals.hints.requestClass.Auxiliary?
    requires Reviewed(a, AllowLocal) && !RidesMain(a)
    ensures var o, r, s := Decision(t, held, a), RulesOf(t, a), a.signals;
      var models, tools := r.policy.localModels, OffersTools(s);
      var chosen := if r.policy.sideRequests.model.Some? then r.policy.sideRequests.model else r.policy.localTarget;
      && !o.keep && (o.plan.target.Some? ==> IsLocal(o.plan.target))
      && if !SideShared(r, s) || (r.policy.localTarget.None? && models == []) then o.plan.target.None?
         else if chosen.Some? && !IsListed(models, chosen.value) then
           o.plan.target == if !tools && PromptTokens(s) <= 32768 then Some(Target(Local, chosen.value)) else None
         else
           && (o.plan.target.Some? <==> exists i: nat :: FirstFrom(models, chosen, s, tools, i))
           && (forall i: nat :: FirstFrom(models, chosen, s, tools, i) ==> o.plan.target == Some(Target(Local, models[i].model)))
  {
    hide SideModel, PromptTokens, FirstFrom, IsListed, OffersTools, Conversation, CompactionPlan, AnthropicTarget, StatusOf, Unconsidered, Reviewed;
    var r, s := RulesOf(t, a), a.signals;
    ReviewedIs(a, AllowLocal);
    var k := SideIs(r.policy, s);
    var chosen := if r.policy.sideRequests.model.Some? then r.policy.sideRequests.model else r.policy.localTarget;
    if SideModel(r.policy, s).Some? && !(chosen.Some? && !IsListed(r.policy.localModels, chosen.value)) {
      assert FirstFrom(r.policy.localModels, chosen, s, OffersTools(s), k);
    }
  }

  /** One whose fingerprint allows a cheaper model goes to the subagents' target exactly when that is worth it;
      one that is not allowed either, or rides the main conversation's cache, stays. */
  lemma SideServesCheaper(t: Tables, held: Option<Held>, a: Ask)
    requires Unconsidered(a).None? && a.signals.hints.requestClass.Auxiliary?
    requires !Reviewed(a, AllowLocal) || RidesMain(a)
    ensures var o, r, s := Decision(t, held, a), RulesOf(t, a), a.signals;
      && !o.keep && !IsLocal(o.plan.target)
      && forall x :: o.plan.target == Some(Target(Anthropic, x)) <==>
           && Reviewed(a, AllowCheaper) && !RidesMain(a)
           && r.policy.subagentTarget == Some(x) && Worth(r, x, s, a.position)
  {
    hide AnthropicTarget, Worth, Conversation, CompactionPlan, LocalSide, Reviewed;
    var r := RulesOf(t, a);
    ReviewedIs(a, AllowLocal);
    ReviewedIs(a, AllowCheaper);
    AnthropicIsWorth(r, a.signals, a.position, r.policy.subagentTarget, [FingerprintAllowCheaper]);
  }

  /** An Anthropic target is one of those named. */
  predicate AmongNamed(target: Option<Target>, named: set<string>) {
    target.Some? && target.value.kind.Anthropic? ==> target.value.model in named
  }

  /** A request of that conversation is no helper's, and its main target, if any, is one of those named. */
  predicate MainOnly(t: Tables, key: Key, named: set<string>, e: Event) {
    KeyOf(e) == Some(key) && !e.Refuses? ==>
      && !OfHelper(e.ask.position.value)
      && (RulesOf(t, e.ask).policy.mainTarget.Some? ==> RulesOf(t, e.ask).policy.mainTarget.value in named)
  }

  lemma ColdAmong(r: Rules, s: Signals, p: Turn, local: bool, named: set<string>)
    requires !OfHelper(p) && (r.policy.mainTarget.Some? ==> r.policy.mainTarget.value in named)
    ensures AmongNamed(AtColdBoundary(r, s, p, local).target, named)
  {
    hide LocalModelFor, InShare, InTrial, Eligible, Accepts, Fits, C.CostsLess;
  }

  lemma ConversationAmong(r: Rules, held: Option<Held>, s: Signals, p: Turn, named: set<string>)
    requires !OfHelper(p) && (r.policy.mainTarget.Some? ==> r.policy.mainTarget.value in named)
    requires held.Some? ==> AmongNamed(held.value.plan.target, named)
    ensures AmongNamed(Conversation(r, held, s, p).plan.target, named)
  {
    hide AtColdBoundary, LocalModelFor, WarmSwitchIsWorth, Outgrown, Informative;
    ColdAmong(r, s, p, true, named);
    ColdAmong(r, s, p, false, named);
  }

  lemma CompactionAmong(r: Rules, held: Option<Held>, s: Signals, p: Option<Position>, named: set<string>)
    requires r.policy.mainTarget.Some? ==> r.policy.mainTarget.value in named
    requires held.Some? ==> AmongNamed(held.value.plan.target, named)
    ensures AmongNamed(CompactionPlan(r, held, s, p).target, named)
  {
    hide LocalModelFor, Accepts, Fits, C.CostsLess;
  }

  lemma KeptAmong(t: Tables, holding: Holding, e: Event, key: Key, named: set<string>)
    requires KeyOf(e) == Some(key) && MainOnly(t, key, named, e)
    requires Find(holding, key).Some? ==> AmongNamed(Find(holding, key).value.plan.target, named)
    ensures Kept(t, holding, e).Some? ==> AmongNamed(Kept(t, holding, e).value.plan.target, named)
  {
    hide Conversation, AtColdBoundary, CompactionPlan, SidePlan, Find;
    match e
    case Decides(a) => ConversationAmong(RulesOf(t, a), HeldFor(holding, a), a.signals, a.position.value, named);
    case Fails(a, _) => ColdAmong(RulesOf(t, a), a.signals, a.position.value, false, named);
    case Refuses(_, _) =>
  }

  lemma {:induction false} HeldAmong(t: Tables, holding: Holding, events: seq<Event>, max: nat, key: Key, named: set<string>)
    requires Valid(holding, max) && max > 0 && forall e <- events :: MainOnly(t, key, named, e)
    requires Find(holding, key).Some? ==> AmongNamed(Find(holding, key).value.plan.target, named)
    ensures var last := Find(After(t, holding, events, max), key);
      last.Some? ==> AmongNamed(last.value.plan.target, named)
    decreases |events|
  {
    hide Find, Next, Kept, Valid, MainOnly, AmongNamed;
    if events != [] {
      var e := events[0];
      NextIs(t, holding, e, max);
      NextValid(t, holding, e, max);
      if KeyOf(e) == Some(key) { KeptAmong(t, holding, e, key, named); }
      FoundAfter(t, holding, e, max, key);
      assert forall e <- events[1..] :: e in events;
      HeldAmong(t, Next(t, holding, e, max), events[1..], max, key, named);
    }
  }

  lemma FoundAfter(t: Tables, holding: Holding, e: Event, max: nat, key: Key)
    requires Valid(holding, max) && max > 0
    ensures var now := Find(Next(t, holding, e, max), key);
      now.Some? ==> now == Find(holding, key) || (KeyOf(e) == Some(key) && now == Kept(t, holding, e))
  {
    hide Find, Next, Kept, WellFormed;
    NextIs(t, holding, e, max);
    if Kept(t, holding, e).Some? { PutFind(holding, KeyOf(e).value, Kept(t, holding, e).value, max, key); }
  }

  /** Over every run, an Anthropic model that serves a request of a main conversation which did not ask for it
      was named as the main target by some configuration so far, compactions included: with no main target
      configured, a main conversation never moves to one. */
  lemma OnlyMainTargets(t: Tables, events: seq<Event>, max: nat, key: Key, a: Ask, named: set<string>)
    requires max > 0 && forall e <- events :: MainOnly(t, key, named, e)
    requires KeyOf(Decides(a)) == Some(key) && MainOnly(t, key, named, Decides(a))
    requires !a.signals.hints.requestClass.Auxiliary?
    ensures AmongNamed(Decision(t, HeldFor(After(t, [], events, max), a), a).plan.target, named)
    ensures named == {} ==>
      var target := Decision(t, HeldFor(After(t, [], events, max), a), a).plan.target; target.None? || IsLocal(target)
  {
    hide After, Find, Conversation, CompactionPlan, SidePlan;
    HeldAmong(t, [], events, max, key, named);
    var held, r := HeldFor(After(t, [], events, max), a), RulesOf(t, a);
    ConversationAmong(r, held, a.signals, a.position.value, named);
    CompactionAmong(r, held, a.signals, a.position, named);
  }
}
