/** Deciding which model serves a request, and remembering that per conversation for as long as moving
    would throw a cache away. */
module Policy {
  import opened Options
  import opened OrderedMap
  import opened Signals
  import C = Costs

  datatype TargetKind = Anthropic | Local

  datatype Target = Target(kind: TargetKind, model: string)

  datatype Reason =
    | ModePassthrough | NotAMessageRequest | UnlabeledRequest | UnrecognizedRequestClass | SafetyCheck | QuotaCheck
    | CompactionTurn | SharesMainPrefix | FingerprintUnreviewed | FingerprintObserveOnly | FingerprintNeverRoute
    | FingerprintAllowCheaper | LocalCandidate | SubagentAtSpawn | MidConversation | ColdCacheBoundary
    | WarmCacheSwitchCost | TargetRejectsRequestShape | ContextExceedsTarget | AlreadyOnTarget | NoTargetConfigured
    | FollowsWarmCache | WarmSwitchPays | TargetRefused | PinnedAfterRefusal | TargetNotCheaper | LocalShare
    | NoLocalModelFits | OutgrewLocalModel

  /** What is decided of a request. Of a cold target nothing is cached yet; a trial names the local model
      to try the request on afterwards. */
  datatype Plan = Plan(routes: bool, reasons: seq<Reason>, target: Option<Target>, cold: bool, trial: Option<Target>)

  function Stay(reasons: seq<Reason>): Plan {
    Plan(false, reasons, None, false, None)
  }

  function Route(target: Target, reasons: seq<Reason>): Plan {
    Plan(true, reasons, Some(target), false, None)
  }

  /** The same decision, explained differently. */
  function Because(p: Plan, reasons: seq<Reason>): Plan {
    p.(reasons := reasons, cold := false)
  }

  function ServedBy(target: Option<Target>, requested: Option<string>): Option<string> {
    if target.Some? then Some(target.value.model) else requested
  }

  function Serves(p: Plan, requested: Option<string>): Option<string> {
    ServedBy(p.target, requested)
  }

  predicate IsLocal(t: Option<Target>) {
    t.Some? && t.value.kind.Local?
  }

  predicate WellFormed(p: Plan) {
    (p.routes <==> p.target.Some?) && (p.trial.Some? ==> p.trial.value.kind.Local?)
  }

  /** A conversation's last kept plan, with the model its request named. */
  datatype Held = Held(plan: Plan, requested: Option<string>)

  type Holding = seq<Entry<Key, Held>>

  // ---- configuration ----

  datatype LocalModel = LocalModel(model: string, context: nat, tools: bool)

  /** What is assumed of a local model that no list describes. */
  function Classic(model: string): LocalModel {
    LocalModel(model, 32768, false)
  }

  datatype Dial = Dial(share: real, trial: real, model: Option<string>, agentTypes: seq<string>)

  const CLOSED := Dial(0.0, 0.0, None, [])

  datatype PolicyConfig = PolicyConfig(
    subagentTarget: Option<string>,
    mainTarget: Option<string>,
    localTarget: Option<string>,
    warmSwitchMargin: real,
    localModels: seq<LocalModel>,
    sideRequests: Dial,
    subagents: Dial,
    main: Dial)

  const DEFAULT_POLICY :=
    PolicyConfig(Some("claude-sonnet-5-5"), None, None, 1.5, [], CLOSED.(share := 1.0), CLOSED, CLOSED)

  datatype Mode = Passthrough | Observer | Router

  datatype Status = Unreviewed | ObserveOnly | AllowCheaper | AllowLocal | NeverRoute

  datatype Config = Config(mode: Mode, policy: PolicyConfig, fingerprints: map<string, Status>)

  datatype Capabilities = Capabilities(
    adaptiveThinking: bool,
    effort: bool,
    maxOutput: nat,
    midConversationSystem: bool,
    context: nat,
    fastMode: bool)

  /** What shares are sampled by. */
  datatype Sample = OfConversation(key: Key) | OfSide(session: Option<string>, fingerprint: string)

  /** What a decision looks up elsewhere: the model an id names, what each Anthropic model accepts, and
      a stable hash. */
  datatype Tables = Tables(base: C.BaseOf, capabilities: map<string, Capabilities>, digest: Sample -> real)

  /** The rules a decision is made under. */
  datatype Rules = Rules(tables: Tables, policy: PolicyConfig, prices: Option<C.Book>)

  // ---- shares ----

  predicate InShare(t: Tables, sample: Sample, share: real) {
    share >= 1.0 || (share > 0.0 && t.digest(sample) < share)
  }

  /** In the slice just above the share. */
  predicate InTrial(t: Tables, sample: Sample, dial: Dial) {
    dial.trial > 0.0 && !InShare(t, sample, dial.share) && InShare(t, sample, dial.share + dial.trial)
  }

  // ---- local models ----

  predicate Takes(m: LocalModel, size: int, tools: bool) {
    (tools ==> m.tools) && size <= m.context
  }

  function FirstTaking(models: seq<LocalModel>, size: int, tools: bool): (r: Option<LocalModel>)
    ensures r.Some? ==> r.value in models && Takes(r.value, size, tools)
    ensures r.None? ==> forall m <- models :: !Takes(m, size, tools)
  {
    if models == [] then None
    else if Takes(models[0], size, tools) then Some(models[0])
    else FirstTaking(models[1..], size, tools)
  }

  function IndexOf(models: seq<LocalModel>, name: string): (i: nat)
    ensures i <= |models|
    ensures i < |models| ==> models[i].model == name
    ensures forall j :: 0 <= j < i ==> models[j].model != name
  {
    if models == [] then 0
    else if models[0].model == name then 0
    else
      var i := IndexOf(models[1..], name);
      assert forall j :: 1 <= j < |models| ==> models[1..][j - 1] == models[j];
      1 + i
  }

  predicate Listed(policy: PolicyConfig, name: string) {
    IndexOf(policy.localModels, name) < |policy.localModels|
  }

  /** The first listed model that takes the request, from the chosen one on if one is chosen. */
  function LocalModelFor(policy: PolicyConfig, chosen: Option<string>, s: Signals, tools: bool): Option<LocalModel> {
    if chosen.None? then FirstTaking(policy.localModels, PromptTokens(s), tools)
    else FirstTaking(policy.localModels[IndexOf(policy.localModels, chosen.value)..], PromptTokens(s), tools)
  }

  function CapabilitiesOf(policy: PolicyConfig, name: string): LocalModel {
    var i := IndexOf(policy.localModels, name);
    if i < |policy.localModels| then policy.localModels[i] else Classic(name)
  }

  function SideModel(policy: PolicyConfig, s: Signals): Option<LocalModel> {
    var chosen := if policy.sideRequests.model.Some? then policy.sideRequests.model else policy.localTarget;
    var tools := s.body.Some? && s.body.value.shape.toolCount > 0;
    if chosen.Some? && !Listed(policy, chosen.value) then
      if tools || PromptTokens(s) > Classic(chosen.value).context then None else Some(Classic(chosen.value))
    else LocalModelFor(policy, chosen, s, tools)
  }

  function LocalTarget(m: LocalModel): Target {
    Target(Local, m.model)
  }

  // ---- Anthropic targets ----

  predicate Accepts(t: Tables, model: string, s: Signals) {
    && t.base(model) in t.capabilities && s.body.Some?
    && var c, shape := t.capabilities[t.base(model)], s.body.value.shape;
       && (shape.thinking == Some("adaptive") ==> c.adaptiveThinking)
       && (shape.effort.Some? ==> c.effort)
       && (shape.maxTokens.Some? ==> shape.maxTokens.value <= c.maxOutput)
       && (shape.speed == Some("fast") ==> c.fastMode)
       && (shape.hasMidConversationSystem ==> c.midConversationSystem)
  }

  /** The request's context fits: what the conversation has cached, and what its body's size tells. */
  predicate Fits(t: Tables, model: string, s: Signals, p: Option<Position>) {
    && t.base(model) in t.capabilities
    && (p.Some? ==> p.value.cachedPrefix <= t.capabilities[t.base(model)].context)
    && PromptTokens(s) <= t.capabilities[t.base(model)].context
  }

  function AnthropicTarget(r: Rules, s: Signals, p: Option<Position>, target: Option<string>, why: seq<Reason>): Plan {
    var t, requested := r.tables, Requested(s);
    if target.None? then Stay(why + [NoTargetConfigured])
    else if requested.Some? && t.base(requested.value) == t.base(target.value) then Stay(why + [AlreadyOnTarget])
    else if r.prices.Some? && !C.CostsLess(r.prices.value, t.base, target.value, requested) then Stay(why + [TargetNotCheaper])
    else if !Accepts(t, target.value, s) then Stay(why + [TargetRejectsRequestShape])
    else if !Fits(t, target.value, s, p) then Stay(why + [ContextExceedsTarget])
    else Route(Target(Anthropic, target.value), why)
  }

  // ---- conversations ----

  /** A request of a conversation. */
  type Turn = p: Position | p.key.Some?
    witness Position(ConversationStart, Some(Key(None, "", "")), None, 0, 0, false, 0, 0, None)

  predicate OfSubagent(p: Position) {
    p.kind.Some? && !p.kind.value.MainKind?
  }

  function DialOf(policy: PolicyConfig, p: Position): Dial {
    if OfSubagent(p) then policy.subagents else policy.main
  }

  predicate Eligible(policy: PolicyConfig, s: Signals, p: Position) {
    !OfSubagent(p) || policy.subagents.agentTypes == []
    || (s.hints.agentType.Some? && s.hints.agentType.value in policy.subagents.agentTypes)
  }

  function AtColdBoundary(r: Rules, s: Signals, p: Turn, local: bool): Plan {
    var policy, sample, dial := r.policy, OfConversation(p.key.value), DialOf(r.policy, p);
    var why := if OfSubagent(p) && p.boundary.ConversationStart? then SubagentAtSpawn else ColdCacheBoundary;
    var considered := local && Eligible(policy, s, p);
    var model := LocalModelFor(policy, dial.model, s, true);
    var shared := considered && InShare(r.tables, sample, dial.share);
    if shared && model.Some? then Route(LocalTarget(model.value), [why, LocalShare])
    else
      var tried := considered && InTrial(r.tables, sample, dial) && model.Some?;
      var trial := if tried then Some(LocalTarget(model.value)) else None;
      var plan := AnthropicTarget(r, s, Some(p), if OfSubagent(p) then policy.subagentTarget else policy.mainTarget, [why]);
      (if shared then Because(plan, plan.reasons + [NoLocalModelFits]) else plan).(trial := trial)
  }

  /** The target is a local model, and the request is larger than it takes. */
  predicate Outgrown(policy: PolicyConfig, target: Option<Target>, s: Signals) {
    IsLocal(target) && PromptTokens(s) > CapabilitiesOf(policy, target.value.model).context
  }

  /** The plan for a request its local model is too small for; none when the plan can stay. */
  function FitLocal(r: Rules, plan: Plan, s: Signals, p: Turn): Option<Plan> {
    if !Outgrown(r.policy, plan.target, s) then None
    else
      var larger := LocalModelFor(r.policy, Some(plan.target.value.model), s, true);
      if larger.Some? then Some(Route(LocalTarget(larger.value), [OutgrewLocalModel]))
      else
        var cloud := AtColdBoundary(r, s, p, false);
        Some(Because(cloud, [OutgrewLocalModel] + cloud.reasons).(cold := cloud.routes))
  }

  /** Reading what is cached here costs so much that writing it there, times the margin, is no more. */
  predicate WarmSwitchIsWorth(r: Rules, p: Position, here: Option<string>, there: Option<string>, fast: bool) {
    var cached := C.Usage(0, 0, p.cachedPrefix, 0, 0);
    var ttl := if p.ttl > 300 then C.OneHour else C.FiveMinutes;
    && r.prices.Some? && p.cachedPrefix > 0
    && var stay, move := C.Cost(r.prices.value, r.tables.base, here, cached, fast),
                         C.CostCold(r.prices.value, r.tables.base, there, cached, ttl, fast);
       stay.Some? && move.Some? && stay.value >= r.policy.warmSwitchMargin * move.value
  }

  function Informative(reasons: seq<Reason>): seq<Reason> {
    if reasons == [] then []
    else (if reasons[0] in {ColdCacheBoundary, SubagentAtSpawn} then [] else [reasons[0]]) + Informative(reasons[1..])
  }

  /** The plan for a new prompt of a conversation that is held and warm. */
  function WarmPrompt(r: Rules, s: Signals, p: Turn, current: Plan): Plan {
    var requested, preferred := Requested(s), AtColdBoundary(r, s, p, true);
    if Serves(preferred, requested) == Serves(current, requested) then
      if current.routes then Because(current, [FollowsWarmCache])
      else
        var informative := Informative(preferred.reasons);
        Stay(if informative != [] then informative else [FollowsWarmCache]).(trial := preferred.trial)
    else if WarmSwitchIsWorth(r, p, Serves(current, requested), Serves(preferred, requested), IsFast(s)) then
      Because(preferred, [WarmSwitchPays]).(cold := preferred.routes)
    else Because(current, [WarmCacheSwitchCost])
  }

  /** A plan, and whether it is held from here on. */
  datatype Outcome = Outcome(plan: Plan, keep: bool)

  function Conversation(r: Rules, held: Option<Held>, s: Signals, p: Turn): Outcome {
    if held.Some? && held.value.requested != Requested(s) then Outcome(AtColdBoundary(r, s, p, true), true)
    else if p.boundary.Continuation? then
      if held.None? then Outcome(Stay([MidConversation]), false)
      else
        var plan := Because(held.value.plan, [MidConversation] + held.value.plan.reasons);
        var grown := FitLocal(r, plan, s, p);
        if grown.None? then Outcome(plan, false) else Outcome(grown.value, true)
    else if p.boundary.NewPrompt? && held.Some? then
      var plan := WarmPrompt(r, s, p, held.value.plan);
      var grown := FitLocal(r, plan, s, p);
      Outcome(if grown.Some? then grown.value else plan, true)
    else if p.boundary.NewPrompt? then Outcome(Stay([WarmCacheSwitchCost]), true)
    else Outcome(AtColdBoundary(r, s, p, true), true)
  }

  function CompactionPlan(r: Rules, held: Option<Held>, s: Signals, p: Option<Position>): Plan {
    if held.None? || held.value.requested != Requested(s) || held.value.plan.target.None? then Stay([CompactionTurn])
    else
      var target := held.value.plan.target.value;
      if target.kind.Anthropic? then
        if !Accepts(r.tables, target.model, s) then Stay([CompactionTurn, TargetRejectsRequestShape])
        else Route(target, [CompactionTurn, FollowsWarmCache])
      else
        var fitting := LocalModelFor(r.policy, Some(target.model), s, true);
        if fitting.None? then
          var cloud := AnthropicTarget(r, s, p, r.policy.mainTarget, [CompactionTurn, OutgrewLocalModel]);
          cloud.(cold := cloud.routes)
        else if fitting.value.model != target.model then
          Route(LocalTarget(fitting.value), [CompactionTurn, OutgrewLocalModel])
        else Route(target, [CompactionTurn, FollowsWarmCache])
  }

  predicate SharesMain(p: Option<Position>) {
    p.Some? && p.value.sharesMainPrefix == Some(true)
  }

  predicate StandaloneStructured(s: Signals, p: Option<Position>) {
    s.body.Some? && s.body.value.shape.hasOutputSchema && s.body.value.shape.toolCount == 0 && !SharesMain(p)
  }

  function StatusOf(rules: map<string, Status>, s: Signals): Status {
    if s.body.Some? && s.body.value.fingerprint != "" && s.body.value.fingerprint in rules then
      rules[s.body.value.fingerprint]
    else Unreviewed
  }

  function LocalSide(r: Rules, s: Signals): Plan {
    var dial, sample := r.policy.sideRequests, OfSide(s.hints.session, if s.body.Some? then s.body.value.fingerprint else "");
    if r.policy.localTarget.None? && r.policy.localModels == [] then Stay([LocalCandidate, NoTargetConfigured])
    else
      var model := SideModel(r.policy, s);
      if !InShare(r.tables, sample, dial.share) then
        var tried := InTrial(r.tables, sample, dial) && model.Some?;
        Stay([LocalCandidate]).(trial := if tried then Some(LocalTarget(model.value)) else None)
      else if model.None? then Stay([LocalCandidate, NoLocalModelFits])
      else Route(LocalTarget(model.value), [LocalCandidate])
  }

  function SidePlan(r: Rules, rules: map<string, Status>, s: Signals, p: Option<Position>): Plan {
    var candidate := if StandaloneStructured(s, p) then [LocalCandidate] else [];
    if SharesMain(p) then Stay([SharesMainPrefix])
    else match StatusOf(rules, s)
      case NeverRoute => Stay([FingerprintNeverRoute])
      case Unreviewed => Stay([FingerprintUnreviewed] + candidate)
      case ObserveOnly => Stay([FingerprintObserveOnly] + candidate)
      case AllowLocal => LocalSide(r, s)
      case AllowCheaper => AnthropicTarget(r, s, p, r.policy.subagentTarget, [FingerprintAllowCheaper])
  }

  // ---- deciding ----

  datatype Ask = Ask(signals: Signals, position: Option<Position>, config: Option<Config>, isMessages: bool, prices: Option<C.Book>)

  function RulesOf(t: Tables, a: Ask): Rules {
    Rules(t, if a.config.Some? then a.config.value.policy else DEFAULT_POLICY, a.prices)
  }

  predicate IsTurn(a: Ask) {
    a.position.Some? && a.position.value.key.Some?
  }

  /** A request that is never looked at further, and why. */
  function Unconsidered(a: Ask): Option<Reason> {
    var class_, body := a.signals.hints.requestClass, a.signals.body;
    if a.config.Some? && a.config.value.mode.Passthrough? then Some(ModePassthrough)
    else if !a.isMessages then Some(NotAMessageRequest)
    else if class_.Unlabeled? then Some(UnlabeledRequest)
    else if class_.Unrecognized? then Some(UnrecognizedRequestClass)
    else if body.Some? && body.value.hasSafeguards then Some(SafetyCheck)
    else if !class_.Compaction? && body.Some? && body.value.isQuotaProbe then Some(QuotaCheck)
    else None
  }

  predicate OfConversationClass(a: Ask) {
    Unconsidered(a).None? && !a.signals.hints.requestClass.Compaction? && !a.signals.hints.requestClass.Auxiliary?
  }

  function HeldFor(holding: Holding, a: Ask): Option<Held> {
    if IsTurn(a) then Find(holding, a.position.value.key.value) else None
  }

  function Decision(t: Tables, held: Option<Held>, a: Ask): Outcome {
    var r, class_ := RulesOf(t, a), a.signals.hints.requestClass;
    if Unconsidered(a).Some? then Outcome(Stay([Unconsidered(a).value]), false)
    else if class_.Compaction? then Outcome(CompactionPlan(r, held, a.signals, a.position), false)
    else if class_.Auxiliary? then
      Outcome(SidePlan(r, if a.config.Some? then a.config.value.fingerprints else map[], a.signals, a.position), false)
    else if !IsTurn(a) then Outcome(Stay([UnlabeledRequest]), false)
    else Conversation(r, held, a.signals, a.position.value)
  }

  /** What is held after a request. */
  function AfterDecision(t: Tables, holding: Holding, a: Ask, max: nat): Holding {
    var o := Decision(t, HeldFor(holding, a), a);
    if o.keep && IsTurn(a) then Put(holding, a.position.value.key.value, Held(o.plan, Requested(a.signals)), max) else holding
  }

  /** The plan after a local failure: what a cold boundary without local models gives. */
  function FailurePlan(t: Tables, a: Ask, plan: Plan): Outcome {
    if !IsTurn(a) || a.config.None? || !(a.signals.hints.requestClass in {MainLoop, Subagent}) then
      Outcome(Stay([TargetRefused] + plan.reasons), false)
    else
      var cloud := AtColdBoundary(RulesOf(t, a), a.signals, a.position.value, false);
      Outcome(Because(cloud, [TargetRefused] + cloud.reasons), true)
  }

  function AfterFailure(t: Tables, holding: Holding, a: Ask, plan: Plan, max: nat): Holding {
    var o := FailurePlan(t, a, plan);
    if o.keep && IsTurn(a) then Put(holding, a.position.value.key.value, Held(o.plan, Requested(a.signals)), max) else holding
  }

  function AfterRefusal(holding: Holding, p: Option<Position>, requested: Option<string>, max: nat): Holding {
    if p.Some? && p.value.key.Some? then Put(holding, p.value.key.value, Held(Stay([PinnedAfterRefusal]), requested), max)
    else holding
  }

  class Policy {
    const tables: Tables
    const max: nat
    var held: Holding

    constructor (tables: Tables, max: nat)
      ensures this.tables == tables && this.max == max && held == []
    {
      this.tables, this.max, held := tables, max, [];
    }

    method Decide(a: Ask) returns (plan: Plan)
      modifies this
      ensures plan == Decision(tables, HeldFor(old(held), a), a).plan
      ensures held == AfterDecision(tables, old(held), a, max)
    {
      hide Conversation, CompactionPlan, SidePlan, Put;
      var r, class_ := RulesOf(tables, a), a.signals.hints.requestClass;
      var dropped := Unconsidered(a);
      if dropped.Some? {
        plan := Stay([dropped.value]);
      } else if class_.Compaction? {
        var current := None;
        if IsTurn(a) { current := Find(held, a.position.value.key.value); }
        plan := CompactionPlan(r, current, a.signals, a.position);
      } else if class_.Auxiliary? {
        plan := SidePlan(r, if a.config.Some? then a.config.value.fingerprints else map[], a.signals, a.position);
      } else if !IsTurn(a) {
        plan := Stay([UnlabeledRequest]);
      } else {
        var key := a.position.value.key.value;
        var o := Conversation(r, Find(held, key), a.signals, a.position.value);
        plan := o.plan;
        if o.keep { Remember(key, Held(plan, Requested(a.signals))); }
      }
    }

    /** Decides again after a local failure. */
    method AfterLocalFailure(a: Ask, failed: Plan) returns (plan: Plan)
      modifies this
      ensures plan == FailurePlan(tables, a, failed).plan
      ensures held == AfterFailure(tables, old(held), a, failed, max)
    {
      var o := FailurePlan(tables, a, failed);
      plan := o.plan;
      if o.keep { Remember(a.position.value.key.value, Held(plan, Requested(a.signals))); }
    }

    /** Pins a conversation to the model asked for. */
    method Refused(p: Option<Position>, requested: Option<string>)
      modifies this
      ensures held == AfterRefusal(old(held), p, requested, max)
    {
      if p.Some? && p.value.key.Some? {
        Remember(p.value.key.value, Held(Stay([PinnedAfterRefusal]), requested));
      }
    }

    method Remember(key: Key, h: Held)
      modifies this
      ensures held == Put(old(held), key, h, max)
    {
      held := PutNewest(held, key, h, max);
    }
  }
}
