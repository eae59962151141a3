/** What a request says about itself: Claude Code's hints and the structure of its body. */
module Signals {
  import opened Options

  datatype RequestClass = MainLoop | Subagent | Workflow | Compaction | Auxiliary | Unlabeled | Unrecognized

  datatype Hints = Hints(
    requestClass: RequestClass,
    session: Option<string>,
    agent: Option<string>,
    agentType: Option<string>,
    prompt: Option<string>,
    compacted: bool)

  datatype Shape = Shape(
    maxTokens: Option<nat>,
    toolCount: nat,
    thinking: Option<string>,
    effort: Option<string>,
    hasOutputSchema: bool,
    hasMidConversationSystem: bool,
    bodyBytes: nat,
    speed: Option<string>)

  datatype Body = Body(
    model: Option<string>,
    shape: Shape,
    fingerprint: string,
    firstMessage: Option<string>,
    hasSafeguards: bool,
    isQuotaProbe: bool,
    cacheTtls: seq<string>)

  datatype Signals = Signals(hints: Hints, body: Option<Body>)

  const BYTES_PER_TOKEN := 2.75

  /** An estimate of the prompt in tokens. */
  function PromptTokens(s: Signals): int {
    if s.body.Some? then (s.body.value.shape.bodyBytes as real / BYTES_PER_TOKEN).Floor else 0
  }

  function Requested(s: Signals): Option<string> {
    if s.body.Some? then s.body.value.model else None
  }

  predicate IsFast(s: Signals) {
    s.body.Some? && s.body.value.shape.speed == Some("fast")
  }

  // ---- conversations and where a request stands in one ----

  datatype Key = Key(developer: Option<string>, session: string, agent: string)

  datatype Kind = MainKind | SubagentKind | WorkflowKind

  datatype Boundary =
    | ConversationStart
    | AfterCompaction
    | CacheExpired
    | NewPrompt
    | Continuation
    | SideRequest
    | Untracked

  datatype Position = Position(
    boundary: Boundary,
    key: Option<Key>,
    kind: Option<Kind>,
    segment: nat,
    index: nat,
    cacheWarm: bool,
    ttl: nat,
    cachedPrefix: nat,
    sharesMainPrefix: Option<bool>)

  /** No cache is lost by changing the model at such a request. */
  predicate IsCold(p: Position) {
    p.boundary.ConversationStart? || p.boundary.AfterCompaction? || p.boundary.CacheExpired?
  }
}
