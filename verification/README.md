# Gateway and control plane: verified models

A Dafny model of the stateful cores of the AI gateway and the control plane, with proofs of what their
documentation promises. Each module follows one component.

| module | component |
|---|---|
| `Spool`, `Exporter`, `ExportProtocol` | the durable request log, its exporter, and the protocol between writer, exporter, sink and crashes |
| `Json`, `JsonScan`, `Routing` | JSON text as the decoder reads it, and the splice of one `model` value inside a request body |
| `TagText`, `ThinkSplitter`, `ThinkFilter` | the two incremental readers of a leading think block |
| `Writer`, `WriterContent` | OpenAI chunks in, Anthropic events out, the relay that commits to an answer, and what the content is of the chunks |
| `Observe` | server-sent events cut out of a byte stream, and what they tell of a message |
| `OrderedMap`, `Signals`, `Conversations`, `ConversationRuns`, `Costs`, `Policy`, `PolicyRuns` | where a request stands in its conversation, what it costs, where it goes, and what every run of the policy keeps |
| `Shadows`, `ShadowProtocol` | shadow runs, the exchanges that start them, and their interleavings |
| `Settings`, `Patches` | resolution, hooks and refreshes of platform settings; atomic patches and their secrets |
| `Retention` | archiving request rows behind a mark that reports read by |
| `Transfer`, `TransferContent`, `ConnectionConfig` | importing a bundle's history, what that leaves, and stripping credentials from a configuration |

Components that update fields are classes whose methods are proved against functions on values; lemmas
then say what those functions mean over whole runs. Asynchronous code is a state machine over the atomic
steps between awaits. The clock, the hash behind shares, prices, JSON codecs, what counts as a blank, the
sink's and the hooks' answers, and which tasks are cancelled when are parameters or nondeterministic steps.

## What the proofs found

Where the code does something else than its documentation says, the model follows the code.

- A body with `NaN`, `Infinity` or `-Infinity` is routed, which section 4 of RFC 8259 does not allow, and an
  integer of more than 4300 digits is refused, which it does. `Routing.RfcRouted` and
  `Routing.RoutedBeyondRfc` say exactly which bodies that concerns.
- The counter of segments pruned unexported starts anew with each process, and a process that dies between
  unlinking a segment and counting it loses its records with no count (`ExportProtocol.DiedBeforeCounting`;
  `ExportProtocol.LostExactly` and `ExportProtocol.UncountedExactly` say exactly which).
- Only opening the spool ends a torn line, so an append that fails half-way without a restart glues two
  records together (`Spool.AppendKeepsLines`, which gives the exact condition).
- The local route's filter never shows an answer that is only the beginning of a think tag; the control
  plane's splitter releases it at the end (`ThinkFilter.FilterAgrees`).
- Pieces of a tool call that arrive after the next call began are lost (`WriterContent.LateIsLost`).
- After an event that cannot be read the observer keeps the rest of that chunk, however long
  (`Observe.PendingBounded`, `Observe.UnreadableThenMore`).
- A shadow cancelled before its first step never enters the body whose `finally` delivers: its exchange is
  never recorded, and after a local one no local shadow starts again (`ShadowProtocol.CancelledBeforeItBegan`,
  `ShadowProtocol.LocalShadowsMakeWay`).
- A price override under an id with a context suffix or a date is never looked up
  (`Costs.SuffixedOverrideUnused`). A target with lower base rates may cost more past a tier's threshold
  or in fast mode (`Costs.CheaperMayCostMoreLong`, `Costs.CheaperMayCostMoreFast`); `Costs.TargetNeverCostsMore`
  says exactly when it never does. In the packaged price list it is fast mode: `claude-opus-5-5` has lower base
  rates than `claude-opus-4-7` and `claude-fable-5-1`, but in fast mode its input and output are above those of
  the first and its cache reads above those of the second.
- A setting changed while one of its hooks raised, and changed back before the next refresh, does not look
  changed: a hook that had taken the change keeps it (`Settings.UndoneBeforeRetried`).
- A session is imported without a message whose id another session holds (`Transfer.TakenIdIsSkipped`;
  `Transfer.SessionsAreWhole` is exact). If undoing a session fails too, the session stays empty and later imports
  skip it (`Transfer.StuckWithoutMessages`).
- A setting that stopped being sensitive leaves its old secret behind when it is patched
  (`Patches.SecretLeftBehind`).
- An env or headers map directly inside another is not blanked, and values in it are not reported for
  re-entry (`ConnectionConfig.NestedValueSurvives`; `ConnectionConfig.ValuesAreBlanked` is exact).

## Model

| member | source | states |
|---|---|---|
| `ExportProtocol.NoSilentLoss` | apps/ai-gateway/src/theygent_ai_gateway/requestlog.py:187-236 | In every interleaving of append, rotation, prune, read, partial delivery, lost acknowledgement, commit, restart and death while writing or pruning, a record whose append returned is pending, or reached the sink, or lay in a segment that a process counted, or that one removed and died before it counted; the counter is of the running process |
| `ExportProtocol.LostExactly` | apps/ai-gateway/src/theygent_ai_gateway/requestlog.py:224-236 | A record is nowhere and in no counted segment exactly when the sink did not receive it and its segment was removed by a process that died before counting it |
| `ExportProtocol.UncountedExactly` | apps/ai-gateway/src/theygent_ai_gateway/requestlog.py:231-236 | Segments become uncounted only so: the last one removed before such a death, if the cursor had not passed it |
| `ExportProtocol.RemovedOnlyWhenFull` | apps/ai-gateway/src/theygent_ai_gateway/requestlog.py:211-236 | Over every run under the same limits all segments but the newest hold at least the maximal bytes, and a segment removed before export, counted or not, has at least max(1, bound) newer ones: nothing is lost while the spool holds fewer bytes than those |
| `ExportProtocol.AppendIs` | apps/ai-gateway/src/theygent_ai_gateway/requestlog.py:211-236 | In every reachable state an append writes to the newest segment unless that is full, else to the next number, and keeps exactly the newest max(1, bound) segments with their data, all if there are no more; a full segment only ever gets the newline that ends a torn line |
| `ExportProtocol.DiedBeforeCounting` | apps/ai-gateway/src/theygent_ai_gateway/requestlog.py:211-236 | A run in which an appended record is lost with no count: the process dies between unlinking a segment and counting it |
| `ExportProtocol.ArrivalsInOrder` | apps/ai-gateway/src/theygent_ai_gateway/requestlog.py:505-518 | First arrivals at the sink follow the order of the spool, and before the furthest one nothing is missing but records of removed segments |
| `ExportProtocol.CursorAdvances` | apps/ai-gateway/src/theygent_ai_gateway/requestlog.py:149-154 | No step moves the persisted cursor back in lexicographic order, unless the cursor file is lost |
| `ExportProtocol.BatchesNeverEmpty` | apps/ai-gateway/src/theygent_ai_gateway/requestlog.py:531-560 | However often batches are halved, a read with something pending always puts at least one line in flight |
| `ExportProtocol.FailedBatchIsRetried` | apps/ai-gateway/src/theygent_ai_gateway/requestlog.py:531-560 | A failed batch is read again from the same place: the same lines, or after a refusal for its size at most half as many as might travel, and at least one |
| `ExportProtocol.StepInv` | apps/ai-gateway/src/theygent_ai_gateway/requestlog.py:211-265 | Every step of the spool, the exporter, the sink and a crash keeps the protocol's invariant |
| `ExportProtocol.PendingIsTail` | apps/ai-gateway/src/theygent_ai_gateway/requestlog.py:282-317 | What a read finds is the tail of everything ever appended, from the line after the cursor |
| `ExportProtocol.PrunedSafe` | apps/ai-gateway/src/theygent_ai_gateway/requestlog.py:224-236 | Every line of a removed segment was behind the cursor and accounted for, or is in a segment recorded as removed, counted or not |
| `ExportProtocol.CommitInv` | apps/ai-gateway/src/theygent_ai_gateway/requestlog.py:505-518 | Committing an acknowledged batch leaves no record behind the cursor that the sink has not received, but those of removed segments |
| `Exporter.Parse` | apps/ai-gateway/src/theygent_ai_gateway/requestlog.py:486-503 | The records of the leading run of one gateway, how many lines it spans, and how many were no record |
| `Exporter.RunIsMaximal` | apps/ai-gateway/src/theygent_ai_gateway/requestlog.py:486-503 | The run has one gateway, and ends early only at another gateway's record |
| `Exporter.ExportOnce` | apps/ai-gateway/src/theygent_ai_gateway/requestlog.py:505-518 | An acknowledged batch moves the cursor past exactly the consumed lines; a failed one leaves it |
| `Spool.Spool.Open` | apps/ai-gateway/src/theygent_ai_gateway/requestlog.py:187-203 | Opening ends a torn last line, once per process, and changes nothing else |
| `Spool.Spool.Append` | apps/ai-gateway/src/theygent_ai_gateway/requestlog.py:211-222 | The bytes go to the newest segment while that holds fewer than the maximal bytes, else to the next number; no segment goes unless more than max(1, bound) are there, and then exactly the newest of these stay, with their data; what is dropped past the cursor is counted |
| `Spool.Spool.Prune` | apps/ai-gateway/src/theygent_ai_gateway/requestlog.py:224-236 | Exactly the newest max(1, bound) segments stay, with their data, and all if there are no more; each dropped one not behind the cursor is counted when exporting |
| `Spool.AppendKeepsNewest` | apps/ai-gateway/src/theygent_ai_gateway/requestlog.py:187-236 | What opening, writing and pruning leave together, told from what was there |
| `Spool.Spool.Backlog` | apps/ai-gateway/src/theygent_ai_gateway/requestlog.py:267-280 | The count of newline-terminated lines past the cursor |
| `Spool.Spool.Read` | apps/ai-gateway/src/theygent_ai_gateway/requestlog.py:282-317 | Exactly the first min(limit, backlog) complete lines past the cursor, each with the cursor after it |
| `Spool.ReadFrom` | apps/ai-gateway/src/theygent_ai_gateway/requestlog.py:282-317 | The windowed loop over segments computes that prefix; it ends by segments left, then bytes left |
| `Spool.TakeLines` | apps/ai-gateway/src/theygent_ai_gateway/requestlog.py:296-310 | One window yields its complete lines up to the limit, and the offset after the last |
| `Spool.SkipWindow` | apps/ai-gateway/src/theygent_ai_gateway/requestlog.py:304-316 | Skipping a window without a newline changes nothing that is still to be read |
| `Spool.Resume` | apps/ai-gateway/src/theygent_ai_gateway/requestlog.py:282-317 | Committing any returned cursor makes the next read continue with the very next line |
| `Spool.AllOrdered` | apps/ai-gateway/src/theygent_ai_gateway/requestlog.py:149-154 | Cursors of successive lines ascend lexicographically across segments |
| `Spool.AppendKeepsLines` | apps/ai-gateway/src/theygent_ai_gateway/requestlog.py:187-209 | An append reads back as its own lines exactly when the segment did not end in a torn line |
| `Spool.AppendGlues` | apps/ai-gateway/src/theygent_ai_gateway/requestlog.py:187-209 | What an append reads back as in general: its first line glued to a torn tail |
| `Routing.SplicesExactly` | apps/ai-gateway/src/theygent_ai_gateway/routing.py:69-80 | A body is routed exactly when it is the text of one JSON object with exactly one top-level key decoding to `model`, a string, that the decoder reads |
| `Routing.RfcRouted` | apps/ai-gateway/src/theygent_ai_gateway/routing.py:69-80 | Of the documents of section 4 of RFC 8259 with exactly one `model`, a string, exactly those are routed with no integer of more than 4300 digits anywhere |
| `Routing.RoutedBeyondRfc` | apps/ai-gateway/src/theygent_ai_gateway/routing.py:69-80 | A routed text is a document of RFC 8259 exactly when it holds none of NaN, Infinity and -Infinity anywhere |
| `Routing.SpliceRoutes` | apps/ai-gateway/src/theygent_ai_gateway/routing.py:69-80 | The output is the text of the same document with that one value replaced; it is routable again |
| `Routing.SpliceKeepsMeaning` | apps/ai-gateway/src/theygent_ai_gateway/routing.py:69-80 | The decoder reports the same members in order, with only the `model` value changed, to the model asked for |
| `Routing.SpliceTwice` | apps/ai-gateway/src/theygent_ai_gateway/routing.py:69-80 | Splicing twice equals splicing the last model once |
| `Routing.FindModel` | apps/ai-gateway/src/theygent_ai_gateway/routing.py:35-66 | The walk over the text finds the span that the grammar assigns to the `model` value |
| `Routing.SkipLoop` | apps/ai-gateway/src/theygent_ai_gateway/routing.py:29-32 | Skips exactly the blanks |
| `Routing.SpliceMembers` | apps/ai-gateway/src/theygent_ai_gateway/routing.py:69-80 | Replacing the span leaves every byte outside it, and is the text of the members with that value replaced |
| `Routing.DumpDecodes` | apps/ai-gateway/src/theygent_ai_gateway/routing.py:79-80 | A model name written as JSON decodes to itself |
| `Routing.DocSound` | apps/ai-gateway/src/theygent_ai_gateway/routing.py:35-66 | Whatever the walk accepts is a document of the grammar, with exactly that text |
| `Routing.DocExact` | apps/ai-gateway/src/theygent_ai_gateway/routing.py:35-66 | Every document of the grammar is read as itself, unless an integer in it is too long: then it is refused |
| `Routing.DocUnique` | apps/ai-gateway/src/theygent_ai_gateway/routing.py:35-66 | A text that is read has one reading in the grammar |
| `Routing.NotANumberRouted` | apps/ai-gateway/src/theygent_ai_gateway/routing.py:35-66 | Beyond section 4 of RFC 8259: a body with a NaN member is routed |
| `Routing.LongIntegerRefused` | apps/ai-gateway/src/theygent_ai_gateway/routing.py:35-66 | A whole body of RFC 8259 that is not routed: arrays to any depth around an integer of more than 4300 digits |
| `JsonScan.ValueSound` | apps/ai-gateway/src/theygent_ai_gateway/routing.py:35-66 | A scanned value is valid and its text is what was scanned |
| `JsonScan.ValueExact` | apps/ai-gateway/src/theygent_ai_gateway/routing.py:35-66 | A valid value's text scans to it and ends where it ends, unless an integer anywhere in it is too long: then the scan fails |
| `JsonScan.MembersSound` | apps/ai-gateway/src/theygent_ai_gateway/routing.py:35-66 | Scanned members are valid, with exactly their text |
| `JsonScan.MembersExact` | apps/ai-gateway/src/theygent_ai_gateway/routing.py:35-66 | The text of valid members scans to them, up to the closing brace, or fails for a long integer |
| `ThinkSplitter.ChunksDoNotMatter` | apps/control-plane/src/theygent_control_plane/reasoning.py:63-128 | For every chunking, what pushes and the flush release adds up to the split of the whole text |
| `ThinkSplitter.PushHolds` | apps/control-plane/src/theygent_control_plane/reasoning.py:74-119 | What is held back is always shorter than the tag sought |
| `ThinkSplitter.Splitter.PushChunk` | apps/control-plane/src/theygent_control_plane/reasoning.py:74-119 | The loop computes one step of the specification, state and held tail included |
| `ThinkSplitter.Splitter.FlushHeld` | apps/control-plane/src/theygent_control_plane/reasoning.py:121-128 | The held tail is released, as an answer or as reasoning |
| `ThinkSplitter.PartialTagTail` | apps/control-plane/src/theygent_control_plane/reasoning.py:53-60 | The length of the longest tail that is a proper prefix of the tag |
| `ThinkSplitter.SplitThink` | apps/control-plane/src/theygent_control_plane/reasoning.py:131-138 | A whole message splits as the declarative split says |
| `ThinkFilter.PiecesDoNotMatter` | apps/ai-gateway/src/theygent_ai_gateway/local.py:206-235 | For every chunking the output concatenates to one function of the whole text |
| `ThinkFilter.FilterAgrees` | apps/ai-gateway/src/theygent_ai_gateway/local.py:206-235 | The filter and the splitter show the same answer, up to leading blanks, exactly when the text is not just the beginning of a tag |
| `ThinkFilter.Filter.FeedPiece` | apps/ai-gateway/src/theygent_ai_gateway/local.py:215-229 | The filter's buffer and output follow the specification |
| `Writer.StreamReadsBack` | apps/ai-gateway/src/theygent_ai_gateway/local.py:268-409 | For every chunk sequence not found unusable the events are well-formed blocks numbered from 0, closed properly, and fold back to the content, usage and stop reason, which `WriterContent` tells from the chunks |
| `Writer.FallbackIsClean` | apps/ai-gateway/src/theygent_ai_gateway/local.py:268-409 | In every reachable state: not committed means nothing emitted and no content; after committing nothing is unusable; an answer that opens with a tool call opens with one that names an offered tool and has object arguments, its own |
| `Writer.FinishReads` | apps/ai-gateway/src/theygent_ai_gateway/local.py:383-409 | Finishing closes every block and reads back to the writer's own content |
| `Writer.MessageReadsBack` | apps/ai-gateway/src/theygent_ai_gateway/local.py:165-203 | A message written as a stream folds back to that message |
| `WriterContent.TextIsVisible` | apps/ai-gateway/src/theygent_ai_gateway/local.py:268-333 | The text blocks join to what is visible of all the text that arrived, whatever the chunks |
| `WriterContent.EndIsTold` | apps/ai-gateway/src/theygent_ai_gateway/local.py:268-296 | Of every chunk sequence that finishes: the stop reason a reader gets is tool_use exactly when a piece of a tool call arrived, and then a tool block was sent; else max_tokens exactly when the last finish reason given is length; else end_turn; input and cache reads are the prompt of the last usage, cache reads its cached tokens clipped to the prompt, output its completion |
| `WriterContent.CallsAreTaken` | apps/ai-gateway/src/theygent_ai_gateway/local.py:335-381 | Each tool block is of one call, in the order the calls began: the id of its first piece, its first name, and the input of what had arrived of it when the next one began, or the stream ended |
| `WriterContent.LateIsLost` | apps/ai-gateway/src/theygent_ai_gateway/local.py:335-352 | What arrived for a call is what it is emitted with and then what came late: it is emitted whole exactly when nothing came late |
| `Writer.RelayReads` | apps/ai-gateway/src/theygent_ai_gateway/local.py:566-667 | Whatever is relayed keeps a reader in step and opens with no tool call but one that checks; unless the engine breaks off it ends with at least one block |
| `Writer.RelayIsClean` | apps/ai-gateway/src/theygent_ai_gateway/local.py:577-618 | From the start: nothing is sent, or a well-formed stream, complete unless broken off, that opens with no tool call but one that names an offered tool and has object arguments |
| `WriterContent.RelayIsTheStream` | apps/ai-gateway/src/theygent_ai_gateway/local.py:577-661 | What the client gets is, but for pings, everything the writer emits of the chunks that arrive, with the closing events unless the engine broke off; it gets nothing exactly when the engine is late, breaks off or proves unusable before the answer commits |
| `Writer.Relay` | apps/ai-gateway/src/theygent_ai_gateway/local.py:577-661 | The loops of the relay send exactly what the specification says |
| `Writer.Writer.FeedChunk` | apps/ai-gateway/src/theygent_ai_gateway/local.py:268-296 | The writer's fields and events follow the specification |
| `Writer.Writer.AddText` | apps/ai-gateway/src/theygent_ai_gateway/local.py:298-325 | Text opens a block or extends the open one, once anything is worth showing |
| `Writer.Writer.AddPiece` | apps/ai-gateway/src/theygent_ai_gateway/local.py:335-352 | A new call completes the one before it |
| `Writer.Writer.FlushCall` | apps/ai-gateway/src/theygent_ai_gateway/local.py:354-381 | A whole call is emitted, or the answer is unusable before it is committed |
| `Writer.Writer.FinishStream` | apps/ai-gateway/src/theygent_ai_gateway/local.py:383-409 | The end of a stream: the call being written and the open block are closed, and the message ends for tool use if there was a call, else for its length if that was the finish reason, else ordinarily |
| `Writer.StreamMessage` | apps/ai-gateway/src/theygent_ai_gateway/local.py:165-203 | The list built in a loop is the stream of the message |
| `Observe.ChunksDoNotMatter` | apps/ai-gateway/src/theygent_ai_gateway/observe.py:115-123 | Without CR CR LF and within the event limit, every chunking sees the same events as one feed, first failure included, and leaves the same rest |
| `Observe.DoubleCrDepends` | apps/ai-gateway/src/theygent_ai_gateway/observe.py:115-123 | The condition is needed: for every text with CR CR LF that one feed takes within the limit, some other chunking leaves another state |
| `Observe.CutChangesEvents` | apps/ai-gateway/src/theygent_ai_gateway/observe.py:115-123 | Cutting after a CR CR LF changes the events themselves exactly when the second part completes one |
| `Observe.NormTwice` | apps/ai-gateway/src/theygent_ai_gateway/observe.py:115-123 | A CR and LF split across chunks normalise once both are here |
| `Observe.DrainPrefix` | apps/ai-gateway/src/theygent_ai_gateway/observe.py:115-123 | Draining a prefix leads to the same place whatever comes after |
| `Observe.PendingBounded` | apps/ai-gateway/src/theygent_ai_gateway/observe.py:102-123 | Whatever was fed, the buffer is within the limit, or holds what followed the first unreadable event in its feed, less than the limit and that chunk |
| `Observe.UnreadableThenMore` | apps/ai-gateway/src/theygent_ai_gateway/observe.py:102-123 | Inputs that exceed the limit: an unreadable event and more than the limit after it in one feed |
| `Observe.Observer.FeedChunk` | apps/ai-gateway/src/theygent_ai_gateway/observe.py:102-123 | The draining loop follows the specification and never raises |
| `Observe.DrainLoop` | apps/ai-gateway/src/theygent_ai_gateway/observe.py:118-120 | The loop drains exactly the whole events |
| `Observe.ObserverReads` | apps/ai-gateway/src/theygent_ai_gateway/observe.py:139-157 | Of any well-formed stream: the model, usage, stop reason and tool names of the message it reads back to |
| `Observe.StreamTellsWhatBodyTells` | apps/ai-gateway/src/theygent_ai_gateway/observe.py:139-200 | Every message gives the same summary streamed as whole, whatever its stop reason |
| `PolicyRuns.StickyRun` | apps/ai-gateway/src/theygent_ai_gateway/policy.py:265-298 | Across interleaved conversations and configuration changes, a conversation that stays held and meets no cold boundary, other requested model, worthwhile warm switch, outgrown model, refusal or failure keeps its model |
| `PolicyRuns.StaysOrMayMove` | apps/ai-gateway/src/theygent_ai_gateway/policy.py:265-321 | Such a request stays with its decision's target, and a continuation leaves what is held untouched |
| `PolicyRuns.FreshDecision` | apps/ai-gateway/src/theygent_ai_gateway/policy.py:323-355 | At a cold boundary, or where another model is asked for, the target is local exactly when the request falls in the share of its own kind, its type is let in and a listed model from the chosen one on takes it, and then the first such; it is an Anthropic model exactly when no local one serves it, that model is configured for its kind and it is worth it |
| `PolicyRuns.HeldDecision` | apps/ai-gateway/src/theygent_ai_gateway/policy.py:265-321 | Between those a request stays, but a new prompt goes where it would go if decided afresh when serving its cached prefix here costs at least the margin times writing it there; a request too large for its local model goes to the first later one that takes it, else to the Anthropic model of its kind that is worth it |
| `PolicyRuns.ForgottenStays` | apps/ai-gateway/src/theygent_ai_gateway/policy.py:265-298 | A conversation that is no longer held stays on the model asked for while its cache may be warm |
| `PolicyRuns.OnlyMainTargets` | apps/ai-gateway/src/theygent_ai_gateway/policy.py:188-377 | Over every run, an Anthropic model that serves a main conversation without being asked for was named as main target by some configuration so far; with none named, a main conversation never moves to one, compactions and failures included |
| `PolicyRuns.CompactionServes` | apps/ai-gateway/src/theygent_ai_gateway/policy.py:188-224 | Where a compaction is served, for everything that may be held: by the held Anthropic model that takes its shape, by the first listed model from the held local one on that takes it, else by the main target that is worth it |
| `PolicyRuns.FailureServes` | apps/ai-gateway/src/theygent_ai_gateway/policy.py:357-377 | After a local failure: the Anthropic model of its kind exactly when that is worth it, held; only for turns of a configured gateway |
| `PolicyRuns.SideServesLocally` | apps/ai-gateway/src/theygent_ai_gateway/policy.py:226-259 | A side request allowed local models is served, within its share, by the first listed model from the chosen one on that takes it, or by a chosen one that no list describes if it has no tools and fits 32768 tokens |
| `PolicyRuns.SideServesCheaper` | apps/ai-gateway/src/theygent_ai_gateway/policy.py:226-263 | Any other side request moves exactly when its fingerprint allows a cheaper model, it does not ride the main cache, and the subagent target is worth it |
| `PolicyRuns.RefusedStaysPinned` | apps/ai-gateway/src/theygent_ai_gateway/policy.py:448-452 | A conversation whose target refused it is served by the model asked for until something lets it move |
| `PolicyRuns.RemembersTheMostRecent` | apps/ai-gateway/src/theygent_ai_gateway/policy.py:454-458 | After any run the held conversations are exactly the newest `max_conversations`, in order |
| `PolicyRuns.LocalRoutesFit` | apps/ai-gateway/src/theygent_ai_gateway/policy.py:154-355 | Every local route names a model whose context holds the prompt |
| `PolicyRuns.ClimbRun` | apps/ai-gateway/src/theygent_ai_gateway/policy.py:300-321 | Between fresh decisions a conversation's local model only moves up the list, and never returns to local |
| `PolicyRuns.FailedStaysOffLocal` | apps/ai-gateway/src/theygent_ai_gateway/policy.py:357-377 | A conversation whose local model failed is off local models until it is decided afresh |
| `PolicyRuns.LargerIsFurther` | apps/ai-gateway/src/theygent_ai_gateway/policy.py:484-503 | A larger model that takes the request stands strictly further up the list |
| `PolicyRuns.WarmClimbs` | apps/ai-gateway/src/theygent_ai_gateway/policy.py:379-425 | With unpriced local models a warm prompt never moves into or between them |
| `PolicyRuns.CompactionClimbs` | apps/ai-gateway/src/theygent_ai_gateway/policy.py:188-224 | A compaction runs where its conversation does, or above |
| `PolicyRuns.RaisingServesTheTried` | apps/ai-gateway/src/theygent_ai_gateway/policy.py:323-355 | Raising a share by its trial serves exactly the conversations tried as well, each on the model it was tried on |
| `PolicyRuns.RaisingServesTheTriedSide` | apps/ai-gateway/src/theygent_ai_gateway/policy.py:244-259 | The same for side requests |
| `PolicyRuns.TrialIsTheSlice` | apps/ai-gateway/src/theygent_ai_gateway/policy.py:461-477 | In the raised share exactly when in the share or in the trial |
| `PolicyRuns.NeverRouted` | apps/ai-gateway/src/theygent_ai_gateway/policy.py:154-263 | A route is only for a labelled message request outside passthrough that is no safety check and no quota probe but in a compaction; of a side request only one that is reviewed, of a compaction only one that is held |
| `PolicyRuns.ConsideredExactly` | apps/ai-gateway/src/theygent_ai_gateway/policy.py:154-186 | Which requests are considered at all: labelled message requests outside passthrough that are no safety check, and no quota probe unless a compaction |
| `PolicyRuns.AnthropicRoutesAreWorth` | apps/ai-gateway/src/theygent_ai_gateway/policy.py:427-446 | An Anthropic route follows what is held, or is known to cost less, takes the request's shape, its size and its cached prefix, and is not the model asked for |
| `Policy.Policy.Decide` | apps/ai-gateway/src/theygent_ai_gateway/policy.py:154-186 | The plan and what is held after it; `PolicyRuns.FreshDecision`, `PolicyRuns.HeldDecision` and those beside them say which plan that is, for every request |
| `Policy.Policy.Remember` | apps/ai-gateway/src/theygent_ai_gateway/policy.py:454-458 | The newest entries within the bound stay |
| `Policy.FirstTaking` | apps/ai-gateway/src/theygent_ai_gateway/policy.py:484-503 | The first listed model that takes the request; none only if none does |
| `OrderedMap.HoldsTheMostRecent` | apps/ai-gateway/src/theygent_ai_gateway/policy.py:454-458 | After any puts the keys held are the most recently put ones, oldest first |
| `OrderedMap.PutFind` | apps/ai-gateway/src/theygent_ai_gateway/policy.py:454-458 | A put changes no other key's value, except by dropping it |
| `OrderedMap.PutNewest` | apps/ai-gateway/src/theygent_ai_gateway/policy.py:454-458 | The popping loop keeps the newest |
| `Costs.ColdCostsTheMove` | apps/ai-gateway/src/theygent_ai_gateway/costs.py:170-203 | Going cold keeps the prompt size and so the tier, and differs by the moved reads times write rate minus read rate |
| `Costs.RatesExactly` | apps/ai-gateway/src/theygent_ai_gateway/costs.py:170-188 | A request is charged at the fast rates if it is fast and there are some, however long; else at the long-context rates exactly when its whole prompt is over the threshold; else at the base rates; and a model without prices has no cost |
| `Costs.ContractKeepsRatios` | apps/ai-gateway/src/theygent_ai_gateway/costs.py:71-103 | A contracted override keeps every tier-to-base ratio and threshold; the list's own rates are the identity |
| `Costs.RatioTwice` | apps/ai-gateway/src/theygent_ai_gateway/costs.py:71-84 | Exactly when contracting twice comes to contracting once |
| `Costs.OverridesAreIndependent` | apps/ai-gateway/src/theygent_ai_gateway/costs.py:145-156 | Each model keeps its list price or is contracted from it, whatever the order of overrides |
| `Costs.ListRatesChangeNothing` | apps/ai-gateway/src/theygent_ai_gateway/costs.py:145-156 | Overriding with the list's own rates leaves the book as it is |
| `Costs.SuffixedOverrideUnused` | apps/ai-gateway/src/theygent_ai_gateway/costs.py:145-156 | An override under a suffixed or dated id never changes a cost |
| `Costs.WithOverrides` | apps/ai-gateway/src/theygent_ai_gateway/costs.py:145-156 | The merging loop |
| `Costs.CostsLessIsLess` | apps/ai-gateway/src/theygent_ai_gateway/policy.py:529-537 | No rate higher and one lower, exactly when no usage costs more at base rates and one costs less |
| `Costs.CheaperCostsNoMore` | apps/ai-gateway/src/theygent_ai_gateway/policy.py:529-537 | A target known to cost less costs no more for usages priced at both base tiers |
| `Costs.TargetNeverCostsMore` | apps/ai-gateway/src/theygent_ai_gateway/policy.py:529-537 | A priced target costs no more for every usage and either speed exactly when none of its rates is higher at any prompt size and either speed, and with no prompt its output rate is not |
| `Costs.NeverDearerExactly` | apps/ai-gateway/src/theygent_ai_gateway/costs.py:170-188 | The same of two models' prices, tiers and fast rates included |
| `Costs.FourSizesDecide` | apps/ai-gateway/src/theygent_ai_gateway/costs.py:170-188 | That condition need only be looked at for no prompt, for one token, and just past each threshold |
| `Costs.CheaperMayCostMoreLong` | apps/ai-gateway/src/theygent_ai_gateway/policy.py:529-537 | A book in which a target known to cost less costs more past its threshold (`Costs.TargetNeverCostsMore` is exact) |
| `Costs.CheaperMayCostMoreFast` | apps/ai-gateway/src/theygent_ai_gateway/policy.py:529-537 | A book in which a target known to cost less costs more in fast mode, with no long prompt |
| `Conversations.RunKeeps` | apps/ai-gateway/src/theygent_ai_gateway/conversations.py:114-190 | After any run: sorted by when last started, within the bound, and `segment` and `requests` count the boundaries and requests since the start; which request is which boundary, `ConversationRuns.BoundaryIsTold` says from the events |
| `ConversationRuns.BoundaryIsTold` | apps/ai-gateway/src/theygent_ai_gateway/conversations.py:114-176 | After any run, of a conversation not tracked a request is a start; of one that is: after compaction exactly when its context was compacted, else expired exactly when no marker of its last request lives, else a new prompt exactly when it names another than the last named since it started, else a continuation; and what index and cached prefix it is given |
| `ConversationRuns.TrackedExactly` | apps/ai-gateway/src/theygent_ai_gateway/conversations.py:202-213 | Tracked are exactly those among the most recently asked of, as many as fit, whose last request is not longer ago than the idle time |
| `ConversationRuns.SideIsTold` | apps/ai-gateway/src/theygent_ai_gateway/conversations.py:192-200 | A side request rides the main cache exactly when it begins with the first message told in the main conversation since its last compaction |
| `Conversations.BeginForgets` | apps/ai-gateway/src/theygent_ai_gateway/conversations.py:202-213 | A conversation goes exactly when idle, or when it is the least recently started of a full tracker |
| `Conversations.ForgetIdle` | apps/ai-gateway/src/theygent_ai_gateway/conversations.py:208-213 | The front-only scan removes exactly the idle conversations |
| `Conversations.ColdIsNoWarmCache` | apps/ai-gateway/src/theygent_ai_gateway/conversations.py:73-76 | Cold exactly for a tracked request that finds no warm cache |
| `Conversations.ConversationTracker.Begin` | apps/ai-gateway/src/theygent_ai_gateway/conversations.py:114-176 | The position reported and the tracker after it, which `ConversationRuns.BoundaryIsTold` tells from the run so far |
| `Conversations.ConversationTracker.Complete` | apps/ai-gateway/src/theygent_ai_gateway/conversations.py:178-190 | Only the finished conversation changes, in its place and only in the tokens cached, and only for an answered request that left some |
| `Conversations.Longest` | apps/ai-gateway/src/theygent_ai_gateway/conversations.py:92-95 | The longest-lived marker's lifetime, and no longer |
| `ShadowProtocol.RunKeeps` | apps/ai-gateway/src/theygent_ai_gateway/shadow.py:165-247 | In every interleaving: each assembled observation is with its shadow, lost with it, or delivered, once; counters are the shadows in flight, within 1 local and 2 cloud |
| `ShadowProtocol.DeliveredOnceUnlessLost` | apps/ai-gateway/src/theygent_ai_gateway/proxy.py:515-587 | Once its shadow is over an observation was delivered exactly once, unless the shadow was cancelled before its first step |
| `ShadowProtocol.LostAtFirstStep` | apps/ai-gateway/src/theygent_ai_gateway/shadow.py:225-247 | An observation is lost exactly at the first step of a shadow already cancelled |
| `ShadowProtocol.CancelledBeforeItBegan` | apps/ai-gateway/src/theygent_ai_gateway/shadow.py:171-247 | The gap: such a shadow delivers nothing and stays in flight for good |
| `ShadowProtocol.LocalShadowsMakeWay` | apps/ai-gateway/src/theygent_ai_gateway/shadow.py:171-195 | No local shadow starts while a request is served locally, or ever after one was lost; serving cancels those there |
| `ShadowProtocol.OnlyLocalShadowsMakeWay` | apps/ai-gateway/src/theygent_ai_gateway/shadow.py:171-176 | Serving a request locally cancels the local shadows and no other; stopping cancels all |
| `ShadowProtocol.SpendingIsBounded` | apps/ai-gateway/src/theygent_ai_gateway/shadow.py:165-169 | On no day do shadows cost more than the daily limit and two shadows, across day resets |
| `ShadowProtocol.PausedMeansNone` | apps/ai-gateway/src/theygent_ai_gateway/shadow.py:180-195 | No cloud shadow starts within a pause |
| `ShadowProtocol.ShadowsAreWarranted` | apps/ai-gateway/src/theygent_ai_gateway/proxy.py:340-354 | A shadow is only of a complete, successful exchange, of a target it did not use |
| `ShadowProtocol.ShadowStartsExactly` | apps/ai-gateway/src/theygent_ai_gateway/proxy.py:340-354 | After any run a shadow starts exactly when an exchange first ends complete and well and one may run of the target it decided on and did not use, else of the local model it was to try: local ones while nothing local is served or in flight, cloud ones within two in flight, no pause and what was paid that day; otherwise its observation is delivered at once |
| `ShadowProtocol.AnyStartedIs` | apps/ai-gateway/src/theygent_ai_gateway/proxy.py:566-587 | Trying the jobs launches one at most, and one that was allowed |
| `Shadows.Shadows.Start` | apps/ai-gateway/src/theygent_ai_gateway/shadow.py:197-223 | Starts exactly when a shadow may run, and counts it |
| `Shadows.Shadows.End` | apps/ai-gateway/src/theygent_ai_gateway/shadow.py:245-247 | A begun shadow's end, however it comes, uncounts it and delivers |
| `Shadows.Exchange.Finish` | apps/ai-gateway/src/theygent_ai_gateway/proxy.py:515-562 | The first call ends the exchange; later ones do nothing |
| `Shadows.Exchange.ServingLocally` | apps/ai-gateway/src/theygent_ai_gateway/proxy.py:356-360 | An exchange counts as serving once |
| `Settings.NoChangeIsLost` | apps/control-plane/src/theygent_control_plane/settings.py:842-862 | After a refresh a key's applied token is its resolved token unless a hook of it raised; then it keeps its baseline and is run again |
| `Settings.HookIsLive` | apps/control-plane/src/theygent_control_plane/settings.py:842-862 | A hook has a key's resolved token live after a refresh exactly when it ran and did not raise, or the key resolved to the same at its last clean run |
| `Settings.LiveIsLastClean` | apps/control-plane/src/theygent_control_plane/settings.py:694-703 | After any run a hook has live what was resolved when it last ran clean |
| `Settings.UndoneBeforeRetried` | apps/control-plane/src/theygent_control_plane/settings.py:842-862 | A change half applied and undone before the retry is not undone in the hook that took it |
| `Settings.HooksFor` | apps/control-plane/src/theygent_control_plane/settings.py:675-692 | Each hook at most once, for exactly the changed keys it matches |
| `Settings.CoversExactly` | apps/control-plane/src/theygent_control_plane/settings.py:668-692 | A registration covers the key it names, or, where it ends in a dot, every key that begins so |
| `Settings.RunHooks` | apps/control-plane/src/theygent_control_plane/settings.py:694-703 | The keys of exactly the hooks that raised |
| `Settings.SettingsService.Refresh` | apps/control-plane/src/theygent_control_plane/settings.py:842-862 | What is resolved, run, reported and applied |
| `Settings.CapsHold` | apps/control-plane/src/theygent_control_plane/settings.py:490-494 | A capped value never exceeds its cap, and is the chosen one exactly below it; a pinned one is the environment's |
| `Settings.ResolvesExactly` | apps/control-plane/src/theygent_control_plane/settings.py:550-622 | What every key resolves to: pinned or capped by its environment, else the stored value where that is valid, else the default; of a secret only names are read and its reference is what is compared |
| `Settings.InvalidNeverApplies` | apps/control-plane/src/theygent_control_plane/settings.py:550-622 | An invalid stored value resolves as if nothing were stored |
| `Settings.RotationShows` | apps/control-plane/src/theygent_control_plane/settings.py:550-622 | A rotated secret is a new token while its masked value is the same |
| `Patches.Database.Patch` | apps/control-plane/src/theygent_control_plane/settings.py:782-838 | All of a patch is stored or, with any error, nothing |
| `Patches.AppliedExactly` | apps/control-plane/src/theygent_control_plane/settings.py:782-811 | A patch is applied exactly when each change resets a key or gives a known one, not locked by its environment, a valid value |
| `Patches.PatchTakes` | apps/control-plane/src/theygent_control_plane/settings.py:782-838 | Each changed key holds what its change says, a secret the names of its parts under a fresh reference; every other key is untouched |
| `Patches.PatchSound` | apps/control-plane/src/theygent_control_plane/settings.py:812-836 | Every envelope row has its secret, no two share one, and no secret is left without its row |
| `Patches.SecretLeftBehind` | apps/control-plane/src/theygent_control_plane/settings.py:818-832 | A key that stopped being sensitive and is given a value leaves its old secret without a row |
| `Retention.RunKeeps` | apps/control-plane/src/theygent_control_plane/retention.py:99-153 | Over sweeps by replicas with differing periods: each row is detailed or archived, once; chunks are one day's rows, counted; archived rows started before the mark |
| `Retention.MarkNeverBack` | apps/control-plane/src/theygent_control_plane/retention.py:99-112 | `archived_before` never moves back |
| `Retention.ReportsCountOnce` | apps/control-plane/src/theygent_control_plane/retention.py:99-112 | A report split at the mark counts each row once |
| `Retention.ByDayHolds` | apps/control-plane/src/theygent_control_plane/retention.py:132-150 | A batch's chunks hold its rows, one chunk per UTC day, with the right count |
| `Retention.ChunksAreDue` | apps/control-plane/src/theygent_control_plane/retention.py:118-130 | A batch writes only days before its cutoff |
| `Retention.ArchivedAreOld` | apps/control-plane/src/theygent_control_plane/retention.py:79-83 | Over every run a row is only ever archived by a sweep whose retention days it had outlived, whole days and more |
| `Retention.OldAreArchived` | apps/control-plane/src/theygent_control_plane/retention.py:79-83 | A sweep that moves all it may leaves exactly the rows of the retention days and of its own day; a period of no days changes nothing |
| `Retention.Database.ArchiveBatch` | apps/control-plane/src/theygent_control_plane/retention.py:115-153 | The rows moved, the chunks written |
| `Retention.Database.Sweep` | apps/control-plane/src/theygent_control_plane/retention.py:173-191 | A sweep moves every due row up to its bound, unless it loses the lock |
| `Retention.ArchivedKeepsEvery` | apps/control-plane/src/theygent_control_plane/retention.py:115-153 | A batch leaves the union of detailed and archived rows as it was |
| `Transfer.Importer.Apply` | apps/control-plane/src/theygent_control_plane/transfer.py:557-628 | The import is its transactions in the fixed order of sections, and every reference resolves after it; `TransferContent` says what rows that leaves |
| `Transfer.EveryStepIsSound` | apps/control-plane/src/theygent_control_plane/transfer.py:999-1315 | Every reference resolves after every transaction of an import, whichever fail, a compensation included |
| `Transfer.ImportIsItsSteps` | apps/control-plane/src/theygent_control_plane/transfer.py:557-628 | An import in which no transaction fails is the sequence of those transactions |
| `Transfer.ImportTwice` | apps/control-plane/src/theygent_control_plane/transfer.py:999-1315 | A second import of the same bundle leaves the store unchanged |
| `TransferContent.RunsKeepTheirSessions` | apps/control-plane/src/theygent_control_plane/transfer.py:1152-1203 | Every run an import makes has what the first storable entry with its id says, and that entry's session exactly when it is in the store afterwards, there before or made and kept; each such entry has its run |
| `TransferContent.MessagesAreTheEntries` | apps/control-plane/src/theygent_control_plane/transfer.py:1043-1124 | Every message an import makes is the first of its id in the entry of its session, in its position, with its data and the run it names if that is there |
| `TransferContent.SpansAreTheEntries` | apps/control-plane/src/theygent_control_plane/transfer.py:1206-1315 | Every span and node I/O an import makes is that of the first storable entry of a run that is there whose id, and whose run's node, is not taken |
| `TransferContent.SessionsAreTheEntries` | apps/control-plane/src/theygent_control_plane/transfer.py:999-1149 | Every session an import makes has the data of the first storable entry with its id, and is kept exactly when its messages can be |
| `TransferContent.EarlierRowsStay` | apps/control-plane/src/theygent_control_plane/transfer.py:999-1315 | Every row that was there before an import is there after it as it was, of every table: what a compensation detaches or deletes came with the import |
| `Transfer.SessionsAreWhole` | apps/control-plane/src/theygent_control_plane/transfer.py:1043-1149 | A session made by an import is kept exactly when its messages are well formed and the new ones have positions of their own; then it has all of them as its own exactly when none of their ids was taken before; otherwise nothing refers to it |
| `Transfer.TakenIdIsSkipped` | apps/control-plane/src/theygent_control_plane/transfer.py:1096-1118 | A message whose id another session holds is skipped, and its session stays without it |
| `Transfer.StuckWithoutMessages` | apps/control-plane/src/theygent_control_plane/transfer.py:1127-1149 | A session whose undoing failed stays without messages, and no later import brings them |
| `Transfer.MessageSound` | apps/control-plane/src/theygent_control_plane/transfer.py:1043-1149 | Landing a session's messages or compensating keeps every reference sound and no other session is touched |
| `Transfer.CompensatedSound` | apps/control-plane/src/theygent_control_plane/transfer.py:1127-1149 | Compensation detaches runs and leaves no dangling reference |
| `Transfer.KeepsSessions` | apps/control-plane/src/theygent_control_plane/transfer.py:999-1149 | No session that was there before is ever undone |
| `Transfer.RunSound` | apps/control-plane/src/theygent_control_plane/transfer.py:1152-1203 | A run arrives with its data and with the session it names exactly when that exists, detached otherwise; other runs are untouched |
| `Transfer.StillFails` | apps/control-plane/src/theygent_control_plane/transfer.py:1043-1124 | Messages that could not land cannot land after the other sessions' either |
| `ConnectionConfig.CleanTwice` | apps/control-plane/src/theygent_control_plane/transfer.py:138-157 | Sanitizing is idempotent |
| `ConnectionConfig.StrippedExactly` | apps/control-plane/src/theygent_control_plane/transfer.py:124-135 | What is stored is always an object with nothing to strip, and the configuration itself exactly when that was one; no other top-level name is dropped |
| `ConnectionConfig.HarmlessExactly` | apps/control-plane/src/theygent_control_plane/transfer.py:138-157 | Sanitizing leaves no secret's name, but as a name in an env or headers map, and no string in such a map, at any depth; and it changes nothing exactly where there were none |
| `ConnectionConfig.NamesAreKept` | apps/control-plane/src/theygent_control_plane/transfer.py:138-157 | Of an object every name that is no secret's stays, in order; of an env or headers map every name |
| `ConnectionConfig.ReentryIs` | apps/control-plane/src/theygent_control_plane/transfer.py:160-176 | What is told of the sanitized configuration, for every configuration |
| `ConnectionConfig.ReentryIsTold` | apps/control-plane/src/theygent_control_plane/transfer.py:160-176 | Told exactly when a surviving env or headers map held a string, exactly unless all such strings are values of a map directly inside another |
| `ConnectionConfig.ValuesAreBlanked` | apps/control-plane/src/theygent_control_plane/transfer.py:138-157 | No value survives in an env or headers map exactly when none sits directly inside another with a value |
| `ConnectionConfig.NestedValueSurvives` | apps/control-plane/src/theygent_control_plane/transfer.py:138-157 | A value under `headers` directly under `env` survives and is not told of |

## Left out

- HTTP, sockets, header filtering, authentication and error bodies: plumbing around the modelled decisions.
- File handles, permissions and atomic renames: a commit is one step, and a write is whole except at a crash. A file operation that fails without ending the process is not modelled.
- ExportProtocol.NoSilentLoss: appended lines are records shorter than a read window (`READ_BYTES`); a longer line is read without its front, which no record survives.
- Back-off delays and polling of the exporter's loop: they decide when a step happens, not which steps may.
- UTF-8 decoding and the decoder's recursion limit: the routing model reads characters, and nesting is unbounded.
- Routing.SplicesExactly: does not model that the decoder raises on very deep nesting, an error that the splice lets through, because that depth belongs to the interpreter and its stack.
- Deadlines of the local route: a deadline that passes is a step of the relay, its length is not modelled.
- Writer.StreamReadsBack: requires the JSON codec to read back what it writes, which the library promises.
- Observe.Observer.FeedChunk: what one event does is a parameter (it may fail half-way), so the fields of an event's data are not decoded; JSON bodies and encoded bodies, which are only collected, are not modelled.
- Counterfactual costs, wire decisions and reason texts on the wire: sums and renamings.
- Rounding in costs, shares and spending: amounts are real numbers. The checks that a configuration passes when saved are assumed where a statement needs them (no local model listed twice, no negative trial).
- Policy.Policy.Decide: the reasons a plan gives are computed as the original does, but the statements are about where a request goes, not about the reasons.
- PolicyRuns.ClimbRun: assumes local models have no price in the book, as the ids an admin lists for the inference plane do not.
- The model a conversation last ran on, which the tracker keeps and nothing reads.
- Conversations.RunKeeps: assumes a clock that never goes back, as the original's monotonic one promises, and room for at least one conversation; so do the statements about runs of the policy and of `ConversationRuns`.
- ShadowProtocol.RunKeeps: exceptions inside a shadow's body are ends like any other; what rate-limit headers count as pressure is not modelled.
- PolicyRuns.OnlyMainTargets: a main conversation is one that no subagent's or workflow's request shares a key with, as the tracker's keys ensure where agents have ids of their own.
- ShadowProtocol.SpendingIsBounded: the daily limit is the largest in force during the run, and the largest cost of one shadow a parameter.
- Settings.NoChangeIsLost: refreshes do not overlap in one process; the lock of the original covers only the reading, so a patch's refresh and the background one may.
- Patches.PatchSound: assumes that a key with an envelope is still sensitive; `Patches.SecretLeftBehind` says what happens otherwise.
- Parsing and validating a setting's text: what the environment parses to and what a value validates to are parameters.
- Retention.RunKeeps: rows arrive once, with the aggregates of their day; deduplication when records are ingested is in a store that is not part of this model. Expiry of run I/O, one delete with no state of its own, is left out.
- Transfer.ImportTwice: messages of different sessions have different ids; agents, drafts, connections, servers and sources are imported by steps of the same shape with no references between them that are enforced, and are left out, as are the counts and warnings of the report.
- Other writers during an import: its transactions follow each other. An import that is cut off is a prefix of them.
- `translation.py`, `report.py`, `dispatcher.py`, `gates.py`, `admin.py`, `auth.py`, `identity.py`, `configsync.py`, the interface and the price-page scripts: mapping, sums and presentation around these cores.
