# better-codex core, modelled in Dafny

This project models the core of better-codex, a fork of the Codex command-line coding agent (the `codex-rs` workspace), and proves properties of that model. It covers these parts:

- **Sub-agent lifecycle.** `AgentControl` holds the registry of spawned agents. It covers spawning, sending input and status lookup. It also covers the discovery of a thread's active descendants and the cascading shutdown that closes the deepest descendants first.
- **Collaboration tools.** `Collab` models the tools a model calls to drive sub-agents: `spawn_agent` with its depth and fan-out limits, `wait` / `wait_agents`, `list_agents`, `close_agent` and `close_agents`. `CollabBatch` models the `task_batch` and `task_send_batch` tools, which run operations in order with optional fail-fast.
- **Claude-style tool aliases.** `ClaudeToolAdapter` maps alias arguments to internal tool payloads. Three aliases have their own modules: `ClaudeEdit` (Edit), `NotebookEdit` (NotebookEdit on nbformat 4 notebooks) and `ClaudeGlob` (Glob).
- **SDD git task.** `SddGit` validates `sdd/` branch names. It also gives the git command plan of each branch action and the outcome of each logged command.
- **Tool catalogue.** `ToolSpec` covers the JSON-schema sanitiser, the tools configuration and the approval parameters. `ToolRegistry` covers the ordered tool list that `build_specs` assembles.
- **Terminal interface units.**
  - `ChatWidget`: helpers of the chat widget.
  - `RequestUserInput`: the question overlay.
  - `OnboardingAuth`: the sign-in step of onboarding.
  - `StatusIndicator`: the status row's timer and details.
  - `StatusLineSetup`: the status-line picker.
  - `SlashCommandTui` and `SlashCommandTui2`: the slash commands of both interfaces.
  - `Tooltips`: start-up tooltips.
  - `UpdateActionTui` and `UpdateActionTui2`: update actions.
- **Command-line front door.** `CliMain` covers feature toggles, resume/fork flag merging, override precedence and prompt newline normalisation.

**Modelling conventions**

- Code that updates fields in place is modelled as a class. This applies to the agent registry, the notebook, the question overlay, the sign-in widget, the status timer and the interactive command line. Its methods carry `modifies` clauses and state the whole new state.
- Pure code is modelled as functions and lemmas.
- I/O, git, the random draw, the clock, regex matching and TOML parsing become parameters.
- Shared helpers:
  - `Wrappers`: Option and Result.
  - `Text`: Unicode whitespace, trimming, ASCII case mapping, search and joining.
  - `Json`: JSON values.
  - `Order`: Rust's `str` order and sorting.
  - `Casing`: strum's kebab-case.
  - `CommandList`: listing filtered enum variants.

## Model

| member | source | states |
|---|---|---|
| AgentControl.Control.constructor | codex-rs/core/src/agent/control.rs:36-41 | a new control starts with the given manager state and no spawn slot taken |
| AgentControl.Control.SpawnAgent | codex-rs/core/src/agent/control.rs:80-110 | a dropped manager, a full slot limit (`AgentLimitReached(max)`) or a failed thread creation returns that error and changes nothing; otherwise the thread is registered with a PendingInit record appended in listing order, the slot is committed, and the initial input's outcome is returned, with a thread found dead dropped again together with its slot |
| AgentControl.Control.InterruptAgent | codex-rs/core/src/agent/control.rs:139-142 | a dropped manager gives the "thread manager dropped" error, an unknown thread `ThreadNotFound`, and a live thread its own reply |
| AgentControl.Control.SendInput | codex-rs/core/src/agent/control.rs:145-166 | returns the op's outcome; only when that outcome is `InternalAgentDied` is the thread removed and its spawn slot released, and the registry is never touched |
| AgentControl.Control.ShutdownAgent | codex-rs/core/src/agent/control.rs:187-189 | is the cascading shutdown with auto-close on: descendants deepest first, then the target, with the combined report |
| AgentControl.Control.ShutdownAgentWithDescendants | codex-rs/core/src/agent/control.rs:192-215 | with auto-close the active descendants (deepest first) and then the target are shut down; without it only the target; every shut-down id loses its thread and slot, successful ones are marked closed, and the result is the target's own result when nothing failed and otherwise one Fatal error |
| AgentControl.Control.CloseEach | codex-rs/core/src/agent/control.rs:196-203 | shuts the ids down in order, each after the earlier ones were removed, and collects exactly the failure messages of `DescendantFailures` |
| AgentControl.Control.CloseTree | codex-rs/core/src/agent/control.rs:196-214 | the part of the cascade after the manager is reached: descendant sweep, target shutdown and the combined report |
| AgentControl.DescendantFailures | codex-rs/core/src/agent/control.rs:198-202 | at most one "failed to close descendant" message per descendant |
| AgentControl.DescendantFailuresEmpty | codex-rs/core/src/agent/control.rs:198-211 | no descendant message is collected exactly when every descendant shutdown succeeded |
| AgentControl.DescendantFailuresMention | codex-rs/core/src/agent/control.rs:198-202 | every failed descendant shutdown contributes its own message naming the descendant and its error |
| AgentControl.CloseReportOk | codex-rs/core/src/agent/control.rs:205-214 | the cascade succeeds exactly when every descendant and the target were shut down, and then it returns the target's reply |
| AgentControl.CloseReportNamesTarget | codex-rs/core/src/agent/control.rs:205-214 | a failed target shutdown yields a Fatal error whose message contains "failed to close agent <id>: <err>" |
| AgentControl.CloseReportNamesDescendant | codex-rs/core/src/agent/control.rs:198-214 | a failed descendant shutdown yields a Fatal error naming that descendant, even when the target itself closed |
| AgentControl.SweepRecords | codex-rs/core/src/agent/control.rs:260-271 | the sweep keeps the registry's length and its ids, in place |
| AgentControl.SweepLeavesOthers | codex-rs/core/src/agent/control.rs:260-271 | records of ids that are not shut down stay exactly as they were |
| AgentControl.SweepClosesSuccesses | codex-rs/core/src/agent/control.rs:262-269 | a successful shutdown leaves every record of that id closed with status Shutdown |
| AgentControl.MarkClosed | codex-rs/core/src/agent/control.rs:265-268 | marking a record closed keeps the registry's length and the id at every position |
| AgentControl.Control.GetStatus | codex-rs/core/src/agent/control.rs:217-227 | NotFound when the manager is gone or the thread unknown, otherwise the thread's current status |
| AgentControl.Control.SubscribeStatus | codex-rs/core/src/agent/control.rs:229-236 | succeeds exactly for a live thread under a live manager, with the current status; otherwise the manager-dropped or `ThreadNotFound` error |
| AgentControl.Control.ListAgents | codex-rs/core/src/agent/control.rs:238-241 | succeeds exactly when the manager is alive, with the records in listing order |
| AgentControl.Control.GetAgentRecord | codex-rs/core/src/agent/control.rs:243-249 | succeeds exactly when the manager is alive; a found record is in the registry under that id, and none is found only when the registry holds no record for the id |
| AgentControl.FindRecord | codex-rs/core/src/agent/control.rs:243-249 | a record found is in the registry and has the id; none found means no record has it |
| AgentControl.Control.ShutdownAgentOnly | codex-rs/core/src/agent/control.rs:260-271 | a dropped manager changes nothing; otherwise the Shutdown op's outcome is returned, the thread is removed and its slot released either way, and the record is marked closed only on success |
| AgentControl.Control.CollectActiveDescendantIds | codex-rs/core/src/agent/control.rs:273-309 | fails exactly when the manager is gone; otherwise returns the active descendants deepest first: no id twice, each id an active child of the target or of an id listed after it, and every active child of the target or of a listed id listed |
| AgentControl.ActiveDescendants | codex-rs/core/src/agent/control.rs:276-307 | the grouping, the stack walk and the final reversal yield exactly such a deepest-first descendant list |
| AgentControl.GroupByCreator | codex-rs/core/src/agent/control.rs:277-289 | the map built lists, under every parent, the ids of the non-closed records that name it as creator, in registry order |
| AgentControl.ChildrenOfSound | codex-rs/core/src/agent/control.rs:280-287 | only non-closed records naming the parent as creator are grouped under it |
| AgentControl.ChildrenOfComplete | codex-rs/core/src/agent/control.rs:280-287 | every non-closed record naming the parent as creator is grouped under it |
| AgentControl.Walk | codex-rs/core/src/agent/control.rs:291-303 | the stack walk discovers each id once, each from the target or from an id discovered earlier, and discovers every child of the target and of every discovered id |
| AgentControl.VisitChildren | codex-rs/core/src/agent/control.rs:296-302 | pushing the unseen children of a popped parent keeps the walk's bookkeeping and leaves the parent fully expanded |
| AgentControl.DiscoverInOrder | codex-rs/core/src/agent/control.rs:297-300 | a newly discovered child of a reached parent keeps every discovered id reached from an earlier one |
| AgentControl.DiscoverStep | codex-rs/core/src/agent/control.rs:297-300 | `seen.insert` of a new child, with the push to the stack and to the descendants, keeps the walk invariant |
| AgentControl.VisitStep | codex-rs/core/src/agent/control.rs:296-302 | visiting one more child keeps the invariant whether or not the child was seen before |
| AgentControl.VisitDone | codex-rs/core/src/agent/control.rs:296-302 | after the last child the popped parent is expanded |
| AgentControl.PopStep | codex-rs/core/src/agent/control.rs:294 | the popped id was reached, and every other reached id stays as expanded as before |
| AgentControl.WalkDone | codex-rs/core/src/agent/control.rs:294-303 | with the stack empty the discovered ids are distinct, in discovery order, and closed under children |
| AgentControl.Reverse | codex-rs/core/src/agent/control.rs:306 | position `i` of the reversal holds position `n-1-i` of the input |
| AgentControl.ReverseDistinct | codex-rs/core/src/agent/control.rs:305-306 | reversing keeps the ids distinct |
| AgentControl.ReverseParents | codex-rs/core/src/agent/control.rs:305-306 | after the reversal every id is listed before the id it was discovered from (deepest first) |
| AgentControl.ReverseParentAt | codex-rs/core/src/agent/control.rs:305-306 | the id at position `k` of the reversal is a child of the target or of an id at a later position |
| AgentControl.ReverseComplete | codex-rs/core/src/agent/control.rs:305-306 | reversing a complete discovery keeps it closed under children |
| Collab.ResolveWaitTimeoutMs | codex-rs/core/src/tools/handlers/collab.rs:1353-1365 | the requested timeout (else the configured default) is refused exactly when negative, zero stays zero, and any positive value lands in [100, 300000]: unchanged inside that range, raised to 100 below it and lowered to 300000 above it |
| Collab.ResolveWaitTimeoutStable | codex-rs/core/src/tools/handlers/collab.rs:1353-1365 | resolving an already resolved timeout gives it back, whatever the default |
| Collab.CollabAgentError | codex-rs/core/src/tools/handlers/collab.rs:1326-1339 | a missing thread is reported as "agent with id … not found", a dead agent as "… is closed", a dropped manager as "collab manager unavailable" |
| Collab.CollabSpawnError | codex-rs/core/src/tools/handlers/collab.rs:1317-1324 | a dropped manager is "collab manager unavailable"; every other error is "collab spawn failed: " followed by the error |
| Collab.SelectWaitIds | codex-rs/core/src/tools/handlers/collab.rs:524-530 | a non-empty `agent_ids` wins, else the single `agent_id`; the selection is empty exactly when neither is given |
| Collab.ParseAgentId | codex-rs/core/src/tools/handlers/collab.rs:1312-1315 | an id the thread-id parser accepts gives that id; a refused one gives "invalid agent id <id>: <parser error>" |
| Collab.FirstRefused | codex-rs/core/src/tools/handlers/collab.rs:535-538 | the position of the first id the parser refuses, or the length when it refuses none; every id before it parses |
| Collab.ParseAgentIds | codex-rs/core/src/tools/handlers/collab.rs:535-538 | collecting the parsed ids succeeds exactly when every id parses, and then holds them in order; otherwise it is the error of the first refused id |
| Collab.InitialFinalStatuses | codex-rs/core/src/tools/handlers/collab.rs:556-585 | holds exactly the targets whose status is already final when subscribed, an unknown thread counting as final with NotFound, and is empty exactly when no target is final |
| Collab.FinalEntries | codex-rs/core/src/tools/handlers/collab.rs:661-684 | keeps exactly the entries whose status is final, and is empty exactly when no entry is final |
| Collab.EntriesMap | codex-rs/core/src/tools/handlers/collab.rs:626 | the status map of the returned entries: its keys are exactly the entries' ids, each with a status listed for it, and it is empty exactly when there are no entries |
| Collab.WaitOutcome | codex-rs/core/src/tools/handlers/collab.rs:589-636 | the result timed out exactly when its status map is empty, with the wake-up reason Timeout or AnyCompleted to match; already-final targets are returned as they are, a zero timeout returns nothing, and otherwise the map of the statuses the race returned |
| Collab.RaceToFinal | codex-rs/core/src/tools/handlers/collab.rs:594-623 | the race returns the final targets at the first poll where any target is final, and only final targets; no earlier poll had a final target, and it returns nothing only at the deadline |
| Collab.Wait | codex-rs/core/src/tools/handlers/collab.rs:517-659 | no target gives "agent_ids must be non-empty"; then the first malformed id its parse error, a bad timeout its error and a dropped manager "collab manager unavailable"; otherwise it succeeds with final statuses of targets only, namely the outcome of the initial final statuses, the timeout and the race, where the race found no final target at any earlier poll and returned nothing only at the deadline |
| Collab.FinalIds | codex-rs/core/src/tools/handlers/collab.rs:868-872 | the completed ids are exactly the ids of final entries, no more of them than entries |
| Collab.FinalIdsAll | codex-rs/core/src/tools/handlers/collab.rs:868-873 | every entry is final exactly when every entry is counted as completed |
| Collab.Snapshot | codex-rs/core/src/tools/handlers/collab.rs:904-913 | one entry per target, in target order, with the target's status at that poll |
| Collab.CollectStatuses | codex-rs/core/src/tools/handlers/collab.rs:904-913 | the loop builds exactly the snapshot of the targets |
| Collab.WaitForAgents | codex-rs/core/src/tools/handlers/collab.rs:850-902 | no target returns `no_targets` at once; otherwise the result is the snapshot at the poll where it stops, no earlier poll released the mode, it timed out exactly when the last snapshot does not release the mode (and then at the deadline), and the completed ids and wake-up reason follow from that snapshot and the mode |
| Collab.DedupSkippingSpec | codex-rs/core/src/tools/handlers/collab.rs:826-834 | the de-duplicated target list holds exactly the given ids that are not skipped, each once, and is no longer than the input |
| Collab.CreatedBy | codex-rs/core/src/tools/handlers/collab.rs:814-823 | the ids of the caller's children, in registry order, no more than there are records |
| Collab.NotFinal | codex-rs/core/src/tools/handlers/collab.rs:840-847 | keeps exactly the ids whose current status is not final |
| Collab.ResolveTargetIds | codex-rs/core/src/tools/handlers/collab.rs:791-848 | explicit ids fail with the first malformed id's error, and are otherwise parsed and de-duplicated with the caller's own id removed; without them, a dropped manager is an error, and otherwise the result is the caller's children that are not final yet |
| Collab.WaitAgents | codex-rs/core/src/tools/handlers/collab.rs:722-789 | a bad timeout, then a malformed explicit id, fails; on success the explicit targets are the parsed ids, de-duplicated without the caller, with one status per target in order; no target wakes with `no_targets`, mode Any wakes with AnyCompleted and mode All with AllCompleted once every target completed, and the call succeeds exactly when it did not time out and no target errored |
| Collab.StatusKind | codex-rs/core/src/tools/handlers/collab.rs:1016-1025 | Completed and Errored statuses map to exactly their own kinds |
| Collab.StatusKindSeparates | codex-rs/core/src/tools/handlers/collab.rs:1016-1025 | two statuses with the same kind have the same variant |
| Collab.ListedRecords | codex-rs/core/src/tools/handlers/collab.rs:980-995 | keeps exactly the records that pass the closed, creator and status filters, in registry order |
| Collab.ListAgents | codex-rs/core/src/tools/handlers/collab.rs:959-1014 | a malformed `agent_id` gives its parse error and a dropped manager "collab manager unavailable"; otherwise the registry filtered by the parsed creator, by status kinds when that list is not empty, and without closed records unless `include_closed` |
| Collab.CloseAgent | codex-rs/core/src/tools/handlers/collab.rs:1080-1175 | a malformed id is refused before any event and changes nothing; a dropped manager or an unknown agent is reported NotFound with its error and changes nothing; an agent already Shutdown is reported closed and changes nothing; otherwise the agent's thread is gone (its descendants closed first, deepest first, under auto-close), and the close reports Shutdown on success, or else the closed record's or live status with the error |
| Collab.CloseAgents | codex-rs/core/src/tools/handlers/collab.rs:1202-1309 | an empty list, or a malformed id, is refused and changes nothing; otherwise one entry per distinct id in first-seen order, each the report of closing that id against the registry left by the earlier ones; every id that was present has lost its thread at the end, an unknown id gets the missing entry (an error only when missing ids are not ignored), and the batch succeeds exactly when no entry has an error |
| Collab.Dedup | codex-rs/core/src/tools/handlers/collab.rs:1215-1222 | the `seen` loop keeps the first occurrence of each id in order |
| Collab.CloseOne | codex-rs/core/src/tools/handlers/collab.rs:1225-1298 | an id not found gets the missing entry and changes nothing; any other loses its thread (after its descendants, deepest first, under auto-close) and is closed exactly when the shutdown succeeded, otherwise carrying "collab close failed: …" |
| Collab.ChainDepthFuel | codex-rs/core/src/tools/handlers/collab.rs:1419-1438 | once the creator chain ends within some number of lookups, more lookups give the same depth |
| Collab.ChainDepthStep | codex-rs/core/src/tools/handlers/collab.rs:1425-1436 | the depth of an agent with a creator is one more than its creator's |
| Collab.SpawnDepth | codex-rs/core/src/tools/handlers/collab.rs:1419-1438 | a dropped manager is an error; otherwise the number of creator links from the agent up to an agent without a creator |
| Collab.ActiveChildCount | codex-rs/core/src/tools/handlers/collab.rs:1393-1407 | counts the caller's open children that are starting or running, at most the number of records |
| Collab.ValidateSpawnLimits | codex-rs/core/src/tools/handlers/collab.rs:1367-1417 | a dropped manager gives "collab manager unavailable"; otherwise the verdict of the nesting, depth and fan-out limits on the registry |
| Collab.SpawnLimitVerdict | codex-rs/core/src/tools/handlers/collab.rs:1367-1417 | spawning is allowed exactly when the caller's record allows nesting, its depth is below the maximum and its active children are below the maximum; each refusal carries its own message, checked in that order |
| Collab.ParseCollabInput | codex-rs/core/src/tools/handlers/collab.rs:1524-1534 | succeeds exactly on present, non-empty items and returns them; missing items and empty items have their own messages |
| Collab.PreviewParts | codex-rs/core/src/tools/handlers/collab.rs:1536-1551 | one preview per input item, in order |
| Collab.InputPreview | codex-rs/core/src/tools/handlers/collab.rs:1536-1552 | no items preview as the empty text and a single item as its own preview |
| Collab.InputPreviewMentionsEach | codex-rs/core/src/tools/handlers/collab.rs:1536-1552 | every item's preview appears in the joined preview |
| Collab.ParseSpawnPreset | codex-rs/core/src/tools/handlers/collab.rs:1554-1572 | a missing or blank preset is none; a preset is found exactly when its name equals the trimmed text; it fails exactly when the trimmed text is not blank and names none of the five presets |
| Collab.PresetRoundTrip | codex-rs/core/src/tools/handlers/collab.rs:1554-1572 | every preset's name parses back to that preset |
| Collab.SandboxModeRoundTrip | codex-rs/core/src/tools/handlers/collab.rs:1735-1751 | turning a sandbox mode into a policy and back gives the same mode |
| Collab.ApplyPermissionOverrides | codex-rs/core/src/tools/handlers/collab.rs:1680-1716 | succeeds exactly when escalation is allowed or neither override is more permissive than the parent's setting; the result carries each override when given and the configured setting otherwise |
| Collab.NoEscalationBeyondParent | codex-rs/core/src/tools/handlers/collab.rs:1680-1733 | without escalation, a child starting from its parent's permissions is never more permissive than the parent |
| Collab.SpawnHandle | codex-rs/core/src/tools/handlers/collab.rs:149-255 | the legacy `label`, a bad preset, bad items and the session depth limit are refused in that order and change nothing; then a dropped manager, the spawn limits, the configuration and the role are checked in that order, each refusal with its own error; once all pass, a full thread registry or a failed thread creation is a spawn error that changes nothing, and otherwise the child's record is appended and the new id is returned, or the spawn error of the thread's reply; success means every check passed |
| Collab.SpawnPermissions | codex-rs/core/src/tools/handlers/collab.rs:1440-1480 | a failed configuration build is that error; otherwise the parent's permissions with the requested approval policy and sandbox mode applied, never more permissive than the parent's without escalation |
| Collab.SpawnedRecord | codex-rs/core/src/tools/handlers/collab.rs:200-207 | the child's record: created by the caller, with its name, the input preview as goal, the acceptance criteria and test commands (empty when omitted), nesting only when explicitly allowed, PendingInit and not closed |
| Collab.SendInputHandle | codex-rs/core/src/tools/handlers/collab.rs:275-339 | a malformed id, then bad items, is refused and changes nothing; with `interrupt` a failed interrupt stops the call with that agent error; otherwise the submission id is returned, or the agent error, and an agent found dead is removed |
| CollabBatch.ParseBatchArgs | codex-rs/core/src/tools/handlers/collab_batch.rs:276-284 | fails exactly on an empty operation list, with "operations must not be empty"; otherwise keeps the operations, and `fail_fast` holds only when given as true |
| CollabBatch.Summarize | codex-rs/core/src/tools/handlers/collab_batch.rs:268-274 | keeps the total and the successes; `failed` is the saturating difference, so successes plus failures make the total whenever successes do not exceed it, and failures are zero otherwise |
| CollabBatch.OperationCallId | codex-rs/core/src/tools/handlers/collab_batch.rs:133 | every operation's call id starts with the batch's call id and a colon |
| CollabBatch.OperationCallIdInjective | codex-rs/core/src/tools/handlers/collab_batch.rs:133 | two operations of one batch never share a call id |
| CollabBatch.Outcomes | codex-rs/core/src/tools/handlers/collab_batch.rs:132-142 | one outcome per operation, that operation's call made under its own call id |
| CollabBatch.Attempted | codex-rs/core/src/tools/handlers/collab_batch.rs:132-180 | never more operations are attempted than there are |
| CollabBatch.AttemptedAll | codex-rs/core/src/tools/handlers/collab_batch.rs:132-180 | without fail-fast every operation is attempted |
| CollabBatch.AttemptedFailFast | codex-rs/core/src/tools/handlers/collab_batch.rs:157-179 | with fail-fast every attempted operation but the last succeeded, the batch stops early only right after a failure, and a batch without failures runs to the end |
| CollabBatch.AttemptedStep | codex-rs/core/src/tools/handlers/collab_batch.rs:132-180 | after attempt k, a failure under fail-fast ends the batch, and anything else goes on to the next operation when there is one |
| CollabBatch.AttemptedPositive | codex-rs/core/src/tools/handlers/collab_batch.rs:132-180 | a non-empty batch attempts its first operation, and its second one unless the first failed under fail-fast |
| CollabBatch.CountSpawnSucceeded | codex-rs/core/src/tools/handlers/collab_batch.rs:182-185 | the number of successful spawn entries equals the number of entries exactly when every entry succeeded |
| CollabBatch.CountSendSucceeded | codex-rs/core/src/tools/handlers/collab_batch.rs:252-255 | the number of successful send entries equals the number of entries exactly when every entry succeeded |
| CollabBatch.RunTaskBatch | codex-rs/core/src/tools/handlers/collab_batch.rs:131-180 | the loop records exactly the attempted operations, each as the entry of its own spawn outcome with the operation's id |
| CollabBatch.RunTaskSendBatch | codex-rs/core/src/tools/handlers/collab_batch.rs:199-250 | the loop records exactly the attempted operations, each as the entry of its own send outcome echoing `params.agent_id` |
| CollabBatch.HandleTaskBatch | codex-rs/core/src/tools/handlers/collab_batch.rs:123-189 | no operation is an error; otherwise the attempted entries in order, a summary whose successes and failures add up to the total, and success exactly when no entry failed |
| CollabBatch.HandleTaskSendBatch | codex-rs/core/src/tools/handlers/collab_batch.rs:191-266 | the same for `task_send_batch`: entries of the attempted sends, a consistent summary, success exactly when no entry failed |
| CollabBatch.FailFastFirstFailure | codex-rs/core/src/tools/handlers/collab_batch.rs:191-266 | a fail-fast send batch whose first operation fails attempts only that one and reports 1 total, 0 succeeded, 1 failed |
| CollabBatch.ParseBatchTool | codex-rs/core/src/tools/handlers/collab_batch.rs:111-119 | `task_batch` and `task_send_batch` are dispatched to their own handlers, and any other name is "unsupported collab batch tool …" |
| ClaudeToolAdapter.NormalizeText | codex-rs/core/src/tools/handlers/claude_tool_adapter.rs:584-589 | present text is kept, trimmed, exactly when it is not blank, and the kept text is never empty |
| ClaudeToolAdapter.NormalizeTextIdempotent | codex-rs/core/src/tools/handlers/claude_tool_adapter.rs:584-589 | normalising normalised text changes nothing |
| ClaudeToolAdapter.RequiredNonEmptyText | codex-rs/core/src/tools/handlers/claude_tool_adapter.rs:576-582 | fails with the given message exactly when the normalised text is absent, and otherwise returns the normalised text |
| ClaudeToolAdapter.SlugCharsChars | codex-rs/core/src/tools/handlers/claude_tool_adapter.rs:591-610 | the characters the slug loop pushes are only lower-case ASCII letters, digits and `_`, and after a `_` the next pushed character is not a `_` |
| ClaudeToolAdapter.SlugCharsNoDoubleSep | codex-rs/core/src/tools/handlers/claude_tool_adapter.rs:591-610 | the slug loop never pushes two `_` in a row |
| ClaudeToolAdapter.SlugCharsAlnums | codex-rs/core/src/tools/handlers/claude_tool_adapter.rs:591-610 | the letters and digits of the loop's output are exactly those of the text, lower-cased and in order |
| ClaudeToolAdapter.SlugOfSpec | codex-rs/core/src/tools/handlers/claude_tool_adapter.rs:591-610 | a text has a slug exactly when it holds an ASCII letter or digit; the slug is a well-formed identifier (lower-case letters, digits and single inner `_`) whose letters and digits are the text's, lower-cased |
| ClaudeToolAdapter.SlugifyToIdentifier | codex-rs/core/src/tools/handlers/claude_tool_adapter.rs:591-610 | blank text has no slug; otherwise the loop followed by trimming `_` gives exactly the specified slug |
| ClaudeToolAdapter.ResolveAlias | codex-rs/core/src/tools/handlers/claude_tool_adapter.rs:168-226 | the twelve alias names are dispatched, Task and Skill both to `spawn_agent`, and any other name fails with the bilingual "unsupported Claude tool alias" message |
| ClaudeToolAdapter.InsertIfSome | codex-rs/core/src/tools/handlers/claude_tool_adapter.rs:259-276 | an optional field sets its key only when present and leaves every other key as it was |
| ClaudeToolAdapter.SpawnFields | codex-rs/core/src/tools/handlers/claude_tool_adapter.rs:232-279 | each of items, agent_type, name, model and preset holds its own value and no other key is set |
| ClaudeToolAdapter.MapTaskToSpawnPayload | codex-rs/core/src/tools/handlers/claude_tool_adapter.rs:232-279 | fails exactly when the prompt is blank; otherwise the payload holds the prompt as its one text item, `agent_type` only when supported, `name` from the name or else the description, and the normalised model and preset, and nothing else |
| ClaudeToolAdapter.MapTaskOutputToWaitPayload | codex-rs/core/src/tools/handlers/claude_tool_adapter.rs:281-299 | a blank agent id fails; a blocking call with a negative timeout fails; otherwise the payload targets that one agent, waits 0 ms when not blocking, forwards the timeout when blocking, and has no other key |
| ClaudeToolAdapter.MapTaskStopToClosePayload | codex-rs/core/src/tools/handlers/claude_tool_adapter.rs:301-307 | fails exactly when the agent id is blank; otherwise the payload is just that agent id |
| ClaudeToolAdapter.MapToolSearchPayload | codex-rs/core/src/tools/handlers/claude_tool_adapter.rs:309-325 | a blank query fails; otherwise it fails exactly when `max_results` is zero, and on success carries the query and `max_results` as `limit` |
| ClaudeToolAdapter.MapSkillToSpawnPayload | codex-rs/core/src/tools/handlers/claude_tool_adapter.rs:327-347 | fails exactly when the skill is blank; otherwise the spawn is named `skill:<name>` and its items are the skill item with its `skill://` path, then the arguments as a text item when present |
| ClaudeToolAdapter.FirstFailing | codex-rs/core/src/tools/handlers/claude_tool_adapter.rs:362-366 | the position of the first element that fails the check, or the length when none does: everything before it passes and the element there fails |
| ClaudeToolAdapter.MapOption | codex-rs/core/src/tools/handlers/claude_tool_adapter.rs:403-419 | an option maps exactly when its label and description are both present, to those texts normalised; a blank label gives the label error, and a present label with a blank description gives the description error |
| ClaudeToolAdapter.MapOptions | codex-rs/core/src/tools/handlers/claude_tool_adapter.rs:403-419 | the options map exactly when each does, one mapped option per option in order |
| ClaudeToolAdapter.MapOptionsFirstError | codex-rs/core/src/tools/handlers/claude_tool_adapter.rs:403-419 | when some option does not map, the options' error is that of the first option that does not map |
| ClaudeToolAdapter.MapSingleQuestion | codex-rs/core/src/tools/handlers/claude_tool_adapter.rs:371-430 | maps exactly the questions with a header, a text and valid non-empty options; the errors come in order: header, text, a missing or empty option list, then the first bad option's error, matching `QuestionRefusal`; the id is the explicit id, else the header's slug, else `question_{index+1}` |
| ClaudeToolAdapter.QuestionRefusal | codex-rs/core/src/tools/handlers/claude_tool_adapter.rs:371-419 | no error exactly when `map_single_question` accepts the question |
| ClaudeToolAdapter.MapAskUserQuestion | codex-rs/core/src/tools/handlers/claude_tool_adapter.rs:349-369 | a missing or empty list fails; it maps exactly when every question does, each with its own position; otherwise the error is the first refused question's `QuestionRefusal` |
| ClaudeToolAdapter.MapBashToExecPayload | codex-rs/core/src/tools/handlers/claude_tool_adapter.rs:432-460 | a blank command fails, then a negative timeout; on success the payload carries the command as `cmd`, the timeout as `yield_time_ms`, the description and the background flag |
| ClaudeToolAdapter.MapReadToReadFilePayload | codex-rs/core/src/tools/handlers/claude_tool_adapter.rs:462-502 | `pages`, a zero offset, a zero limit and a blank path are refused in that order, each with its own message; success carries the path, offset, limit, mode and indentation |
| ClaudeToolAdapter.MapGrepToGrepFilesPayload | codex-rs/core/src/tools/handlers/claude_tool_adapter.rs:504-536 | succeeds exactly with no output mode other than `files_with_matches`, no positive offset and a pattern; the errors come in that order (output mode, then offset, then the blank pattern); success carries `glob` as `include` and `head_limit` as `limit`, never the Claude-side keys |
| ClaudeToolAdapter.TodoRefusal | codex-rs/core/src/tools/handlers/claude_tool_adapter.rs:546-566 | no error exactly when the entry is accepted; a missing step gives the step error, and a step with an unsupported status gives that status's message |
| ClaudeToolAdapter.MapTodoWriteToUpdatePlan | codex-rs/core/src/tools/handlers/claude_tool_adapter.rs:538-574 | a missing or empty list fails; it maps exactly when every entry has a step and one of the three plan statuses, one plan step per entry in order; otherwise the error is the first refused entry's `TodoRefusal` |
| ClaudeEdit.CountMatchesZero | codex-rs/core/src/tools/handlers/claude_edit.rs:123-129 | the occurrence count is zero exactly when the text does not contain `old_string` |
| ClaudeEdit.ReplaceAllLength | codex-rs/core/src/tools/handlers/claude_edit.rs:137-138 | replacing every occurrence changes the length by the count times the difference in length |
| ClaudeEdit.ReplaceAllSelf | codex-rs/core/src/tools/handlers/claude_edit.rs:137-138 | replacing a pattern by itself leaves the text unchanged |
| ClaudeEdit.ReplaceAllNoMatch | codex-rs/core/src/tools/handlers/claude_edit.rs:137-138 | with no occurrence, replacing every occurrence leaves the text unchanged |
| ClaudeEdit.ReplaceAllSingle | codex-rs/core/src/tools/handlers/claude_edit.rs:137-141 | with at most one occurrence, replacing all and replacing the first give the same text |
| ClaudeEdit.ReplaceFirstAt | codex-rs/core/src/tools/handlers/claude_edit.rs:139-141 | replacing the first occurrence splices the new text in at the leftmost index where the pattern occurs |
| ClaudeEdit.ReplaceFirstAbsent | codex-rs/core/src/tools/handlers/claude_edit.rs:139-141 | without an occurrence, replacing the first occurrence leaves the text unchanged |
| ClaudeEdit.Preview | codex-rs/core/src/tools/handlers/claude_edit.rs:150-156 | the preview is the input's first `limit` characters, or all of them when the input is shorter |
| ClaudeEdit.PreviewText | codex-rs/core/src/tools/handlers/claude_edit.rs:150-156 | the loop pushes exactly the preview's characters |
| ClaudeEdit.ComputeEditedContent | codex-rs/core/src/tools/handlers/claude_edit.rs:111-148 | an empty `old_string` is refused, then a missing one with its 80-character preview; the edit succeeds exactly when the text contains `old_string` and either `replace_all` is set or it occurs once; `replace_all` replaces every occurrence and reports their count, and otherwise the single occurrence is replaced in place and one replacement reported |
| ClaudeEdit.SingleEditMatchesReplaceAll | codex-rs/core/src/tools/handlers/claude_edit.rs:131-141 | with a single occurrence the edit succeeds without `replace_all` and gives the same text as with it |
| ClaudeEdit.NotUniqueNamesCount | codex-rs/core/src/tools/handlers/claude_edit.rs:131-135 | several occurrences without `replace_all` give the not-unique error naming their number |
| ClaudeEdit.ValidateAbsolutePath | codex-rs/core/src/tools/handlers/claude_edit.rs:74-82 | accepts exactly the paths starting at the root, unchanged, and otherwise names the field in the bilingual error |
| NotebookEdit.NormalizeCellType | codex-rs/core/src/tools/handlers/claude_notebook_edit.rs:278-296 | an absent or blank type is none; a present type is trimmed and kept exactly when it is code, markdown or raw, and otherwise refused with the unsupported-type message |
| NotebookEdit.NormalizeCellTypeIdempotent | codex-rs/core/src/tools/handlers/claude_notebook_edit.rs:278-292 | normalising an accepted type again gives it back unchanged |
| NotebookEdit.FirstLineLength | codex-rs/core/src/tools/handlers/claude_notebook_edit.rs:363-373 | the first piece of a non-empty source is a non-empty line, ending in '\n' unless it runs to the end |
| NotebookEdit.SourceToJson | codex-rs/core/src/tools/handlers/claude_notebook_edit.rs:363-373 | the source becomes an array of strings, empty exactly when the source is empty |
| NotebookEdit.SourceRoundTrip | codex-rs/core/src/tools/handlers/claude_notebook_edit.rs:363-373 | concatenating the stored lines gives the source back |
| NotebookEdit.SourceLinesShape | codex-rs/core/src/tools/handlers/claude_notebook_edit.rs:363-373 | every stored piece is a line, and every piece but the last ends in '\n' |
| NotebookEdit.FindCellIndexById | codex-rs/core/src/tools/handlers/claude_notebook_edit.rs:266-276 | finds the first cell carrying that id, and fails with the not-found message exactly when no cell carries it |
| NotebookEdit.ResolveCellIndex | codex-rs/core/src/tools/handlers/claude_notebook_edit.rs:223-264 | an id selects its first cell (the slot after it when inserting) and a given number must agree with it; a number alone must be in bounds for the mode; with neither, an insert goes at the end and the other modes have no target; every resolved index is in bounds |
| NotebookEdit.ConfigureCellShape | codex-rs/core/src/tools/handlers/claude_notebook_edit.rs:330-361 | refuses exactly the unsupported types; otherwise the cell has that type, object metadata, and for code cells outputs and an execution count (kept when already of the right kind) while other cells lose them; other keys are untouched and an already well-shaped cell is unchanged |
| NotebookEdit.ReplaceCell | codex-rs/core/src/tools/handlers/claude_notebook_edit.rs:298-320 | a non-object cell is refused untouched; otherwise the source is replaced first, and the cell is reshaped for the given type, else its own type, else code, with an unsupported type refused after the source was already written |
| NotebookEdit.CreateCell | codex-rs/core/src/tools/handlers/claude_notebook_edit.rs:322-328 | refuses exactly the unsupported types; otherwise a well-shaped cell of that type with the given source, empty metadata, no id, and for code empty outputs and a null execution count |
| NotebookEdit.Notebook.constructor | codex-rs/core/src/tools/handlers/claude_notebook_edit.rs:200-221 | a notebook starts with the given `cells` array, or none |
| NotebookEdit.Notebook.ApplyNotebookEdit | codex-rs/core/src/tools/handlers/claude_notebook_edit.rs:133-198 | errors come in order (cell type, missing `cells`, target index, replace or delete without a target) and leave the cells as they were; insert adds one well-shaped cell with the new source at the index, delete removes the cell there; replace refuses a non-object cell untouched, otherwise writes the new source, then reshapes the cell for the given type, else its own, else code, keeping its other keys, or refuses an unsupported type with the source already written; the result reports the index and the new cell count |
| ClaudeGlob.CheckPattern | codex-rs/core/src/tools/handlers/claude_glob.rs:44-49 | a pattern passes exactly when it is not blank, trimmed; otherwise the bilingual "pattern must not be empty" |
| ClaudeGlob.CheckPatternIdempotent | codex-rs/core/src/tools/handlers/claude_glob.rs:44-49 | a checked pattern passes the check again unchanged |
| ClaudeGlob.JoinPath | codex-rs/core/src/tools/handlers/claude_glob.rs:114 | the joined path ends with the relative part |
| ClaudeGlob.BuildSearchPattern | codex-rs/core/src/tools/handlers/claude_glob.rs:109-116 | an absolute pattern is used as given; a relative one starts with the root's text and ends with the pattern |
| ClaudeGlob.JoinPathAppends | codex-rs/core/src/tools/handlers/claude_glob.rs:114 | joining relative components onto a root's text gives the text of the root with those components appended |
| ClaudeGlob.StripPrefix | codex-rs/core/src/tools/handlers/claude_glob.rs:119 | yields the remaining components exactly when the path is the root followed by them, and nothing when the path lies outside the root |
| ClaudeGlob.NormalizeMatchPath | codex-rs/core/src/tools/handlers/claude_glob.rs:118-124 | the reported path never holds a backslash |
| ClaudeGlob.NormalizeOutsideRoot | codex-rs/core/src/tools/handlers/claude_glob.rs:121-123 | a path outside the root is reported as its own text |
| ClaudeGlob.NormalizeRoundTrip | codex-rs/core/src/tools/handlers/claude_glob.rs:118-124 | a path strictly under the root is reported relative to it, and joining that report back onto the root gives the path again |
| ClaudeGlob.InvalidPatternNamesPattern | codex-rs/core/src/tools/handlers/claude_glob.rs:91-95 | the invalid-pattern error names the pattern in both languages |
| ClaudeGlob.Dedup | codex-rs/core/src/tools/handlers/claude_glob.rs:105 | dropping consecutive repeats keeps the same set of paths, leaves no two equal neighbours, and turns a sorted list into a strictly increasing one |
| ClaudeGlob.CollectMatches | codex-rs/core/src/tools/handlers/claude_glob.rs:88-107 | an invalid pattern gives its error; the first unreadable entry gives the read error; otherwise the result is strictly sorted and holds exactly the normalised paths of the walk's entries |
| SddGit.EnsureSddBranch | codex-rs/core/src/tasks/sdd_git.rs:246-277 | accepts exactly the names that start with `sdd/`, have more after it, hold no whitespace and no `..`; each failed check, in that order, has its own error |
| SddGit.AcceptedBranchSuffix | codex-rs/core/src/tasks/sdd_git.rs:246-277 | an accepted name is `sdd/` followed by a non-empty part free of whitespace |
| SddGit.RunGitSilent | codex-rs/core/src/tasks/sdd_git.rs:307-327 | succeeds exactly when git ran and succeeded, with its trimmed output; a failure carries the trimmed stderr, or the generic message when that is blank; a git that could not start gives the execution error |
| SddGit.CommandOutcome | codex-rs/core/src/tasks/sdd_git.rs:329-482 | a logged command succeeds exactly on exit code 0; cancellation, an execution failure and a non-zero exit each give their error, the last carrying the output unless it is blank |
| SddGit.CommandOutputNotBlank | codex-rs/core/src/tasks/sdd_git.rs:329-482 | a failure that carries the command's output never carries blank text |
| SddGit.CurrentBranch | codex-rs/core/src/tasks/sdd_git.rs:287-293 | a current branch, when found, is never empty |
| SddGit.MergePlanExtends | codex-rs/core/src/tasks/sdd_git.rs:142-215 | the finalising tail begins with the commands that put the branch in place |
| SddGit.PlanValidatesFirst | codex-rs/core/src/tasks/sdd_git.rs:99-103 | with an invalid branch name, no action issues a command and each fails |
| SddGit.PlanEndsWithAction | codex-rs/core/src/tasks/sdd_git.rs:102-240 | a successful create, finalise or abandon ends with its own command: `checkout -b`, `merge --no-ff` or `branch -D` of the branch |
| SddGit.FromBasePlanEnds | codex-rs/core/src/tasks/sdd_git.rs:102-125 | a successful create or abandon script ends with its final command |
| SddGit.MergePlanEnds | codex-rs/core/src/tasks/sdd_git.rs:165-214 | a successful finalising tail ends with the merge of the branch |
| SddGit.PlanNeedsCleanTree | codex-rs/core/src/tasks/sdd_git.rs:104 | creating or abandoning on a dirty tree issues nothing and fails with the dirty-workspace error |
| SddGit.FinalizeCommitsOnlyWhenDirty | codex-rs/core/src/tasks/sdd_git.rs:165-193 | a successful finalise commits exactly when the tree is dirty once on the branch |
| SddGit.RunAllFailFast | codex-rs/core/src/tasks/sdd_git.rs:108-239 | the commands issued are a prefix of the script, every one but a failing last succeeded, a failure is the last command's own outcome, and success means the whole script was issued |
| SddGit.RunAllAppend | codex-rs/core/src/tasks/sdd_git.rs:108-239 | issuing two command lists in turn is issuing their concatenation, the second reached only when the first succeeded |
| SddGit.RunAllSnoc | codex-rs/core/src/tasks/sdd_git.rs:108-239 | after a successful run, one more command is issued and its own outcome decides |
| SddGit.RunScriptStops | codex-rs/core/src/tasks/sdd_git.rs:108-239 | once a prefix of a script has failed, the rest of it is never issued |
| SddGit.RunSddGitAction | codex-rs/core/src/tasks/sdd_git.rs:92-244 | running an action issues exactly the commands of its script, stopping at the first failure, and returns that failure or the script's own ending |
| SddGit.RunFromBase | codex-rs/core/src/tasks/sdd_git.rs:102-126 | create and abandon: a clean tree, then `base` checked out when not already current, then the final command, as the script says |
| SddGit.RunSwitch | codex-rs/core/src/tasks/sdd_git.rs:127-141 | switching checks out the branch unless it is already current, as the script says |
| SddGit.RunFinalize | codex-rs/core/src/tasks/sdd_git.rs:142-164 | a dirty tree off the branch is refused; otherwise the branch is checked out if needed and the finalising tail follows, as the script says |
| SddGit.RunMerge | codex-rs/core/src/tasks/sdd_git.rs:165-214 | commit everything when dirty, check out `base` if needed, then merge the branch without fast-forward, as the script says |
| SddGit.RunLogged | codex-rs/core/src/tasks/sdd_git.rs:329-482 | one logged run issues exactly its command and returns that command's outcome |
| ChatWidget.ClassifyLimitWindow | codex-rs/tui2/src/chatwidget.rs:376-396 | negative windows count as zero; up to a day plus the three-minute bias the label is whole hours between 1 and 24, rounded down after adding the bias; then weekly, monthly and annual at the week, 30-day-month boundaries plus the same bias |
| ChatWidget.LimitWindowMonotone | codex-rs/tui2/src/chatwidget.rs:376-396 | a longer window never gets a shorter period's label, nor fewer hours |
| ChatWidget.LimitWindowTextInjective | codex-rs/tui2/src/chatwidget.rs:376-396 | different labels read differently, so the shown text determines the label |
| ChatWidget.Collapse | codex-rs/tui2/src/chatwidget.rs:3160-3168 | the collapse loop writes only lower-case letters, digits and dashes, never two dashes in a row, no more characters than it reads, and no dash right after a dash |
| ChatWidget.RawSlug | codex-rs/tui2/src/chatwidget.rs:3157-3172 | the scanned slug has at most 32 characters, all lower-case letters, digits or single dashes |
| ChatWidget.SlugIsSlug | codex-rs/tui2/src/chatwidget.rs:3157-3179 | every slug has 1 to 32 lower-case letters, digits and single inner dashes |
| ChatWidget.CollapseSlug | codex-rs/tui2/src/chatwidget.rs:3160-3168 | a string already of slug characters, with no double dash, collapses to itself |
| ChatWidget.SlugIdempotent | codex-rs/tui2/src/chatwidget.rs:3157-3179 | the slug of a slug is that slug |
| ChatWidget.SlugScanDone | codex-rs/tui2/src/chatwidget.rs:3157-3172 | the scan stops at the end of the input or once 32 characters are written, and either way has written the raw slug |
| ChatWidget.ScanSlug | codex-rs/tui2/src/chatwidget.rs:3157-3172 | the scanning loop with its break at 32 characters writes exactly the raw slug |
| ChatWidget.SddSlug | codex-rs/tui2/src/chatwidget.rs:3157-3179 | the loop, the trimming of edge dashes and the "task" fallback give exactly the specified slug, which is well formed |
| ChatWidget.SddBranchName | codex-rs/tui2/src/chatwidget.rs:3147-3150 | the branch name is `sdd/` followed by a well-formed slug |
| ChatWidget.SddCommitMessage | codex-rs/tui2/src/chatwidget.rs:3152-3155 | the commit message is "sdd: " and the same slug the branch name carries |
| ChatWidget.GeneratedBranchAccepted | codex-rs/tui2/src/chatwidget.rs:3147-3150 | every branch name the widget generates passes the git task's branch check |
| ChatWidget.FirstBoldShape | codex-rs/tui2/src/chatwidget.rs:6355-6381 | a bold span found is non-blank, has nothing left to trim, and occurs in the input |
| ChatWidget.FirstBoldOfWrapped | codex-rs/tui2/src/chatwidget.rs:6355-6381 | a trimmed, star-free text wrapped in `**` markers is found as the first bold span |
| ChatWidget.ExtractFirstBold | codex-rs/tui2/src/chatwidget.rs:6355-6381 | the two nested scans find exactly the first opening marker, the next closing marker and the trimmed text between, and nothing for an unclosed span or a blank one |
| ChatWidget.MentionsSound | codex-rs/tui2/src/chatwidget.rs:6441-6455 | each skill found is mentioned as `$name` in the text, was not already taken, and is the first skill of its name in the list |
| ChatWidget.MentionsDistinct | codex-rs/tui2/src/chatwidget.rs:6441-6455 | no two skills found share a name |
| ChatWidget.MentionsComplete | codex-rs/tui2/src/chatwidget.rs:6441-6455 | every skill mentioned in the text is found under its name |
| ChatWidget.FindSkillMentions | codex-rs/tui2/src/chatwidget.rs:6441-6455 | the loop with its set of taken names finds exactly the specified mentions, in list order |
| ChatWidget.TimeoutIgnoresCase | codex-rs/tui2/src/chatwidget.rs:6502-6505 | a message and its lower-case form are judged alike |
| ChatWidget.TimeoutWordsDetected | codex-rs/tui2/src/chatwidget.rs:6502-6505 | any message containing "timed out" or "timeout" is a timeout error |
| ChatWidget.CreateInitialUserMessage | codex-rs/tui2/src/chatwidget.rs:612-624 | there is no message exactly when there is neither text nor an image; otherwise both are kept |
| ChatWidget.AutoModelOrder | codex-rs/tui2/src/chatwidget.rs:4490-4497 | the fast, balanced and thorough models come first, in that order, and every other model shares the last rank |
| ChatWidget.AutoPresetsSorted | codex-rs/tui2/src/chatwidget.rs:4407-4416 | the popup lists its automatic models by rank |
| ChatWidget.AutoPresetsPermutes | codex-rs/tui2/src/chatwidget.rs:4407-4416 | the popup lists exactly the automatic presets, each as often as it was given |
| ChatWidget.AutoPresetsStable | codex-rs/tui2/src/chatwidget.rs:4407-4416 | presets of equal rank keep their original order, as a stable sort keeps them |
| ChatWidget.SddReworkState.constructor | codex-rs/tui2/src/chatwidget.rs:2092-2093 | the widget starts with no pending rework prompt and the plan options disarmed |
| ChatWidget.SddReworkState.RequestPlanRework | codex-rs/tui2/src/chatwidget.rs:2968-2976 | a requested rework leaves its prompt waiting for the next submission |
| ChatWidget.SddReworkState.ClearPlanRework | codex-rs/tui2/src/chatwidget.rs:2639-2640 | starting or leaving a workflow drops a pending rework and disarms the plan options |
| ChatWidget.SddReworkState.ApplySddPlanReworkPrefix | codex-rs/tui2/src/chatwidget.rs:3465-3474 | a pending prompt is used once: it goes in front of the submitted text and arms the plan options; the shown text is the user's own either way |
| ChatWidget.SddReworkState.TakeOpenPlanOptions | codex-rs/tui2/src/chatwidget.rs:883-884 | on task completion the armed flag is reported once and then disarmed, leaving any pending prompt alone |
| ToolSpec.FirstSupportedType | codex-rs/core/src/tools/spec.rs:2412-2426 | the type picked from a union is a supported type named in it, and none is picked when no member names a supported type |
| ToolSpec.InferredType | codex-rs/core/src/tools/spec.rs:2428-2450 | `properties`, `required` or `additionalProperties` make an object; otherwise `items` or `prefixItems` an array; otherwise `enum`, `const` or `format` a string; otherwise a numeric keyword a number; and nothing is inferred exactly when none of these keywords is present |
| ToolSpec.SanitizeChildren | codex-rs/core/src/tools/spec.rs:2390-2406 | sanitising the nested holders keeps every key and leaves every key other than the holders unchanged |
| ToolSpec.SanitizeObject | codex-rs/core/src/tools/spec.rs:2389-2477 | every sanitised object schema has its `type` set to the declared, inferred or default type and keeps all its keys |
| ToolSpec.SanitizeBoolean | codex-rs/core/src/tools/spec.rs:2380-2383 | a boolean schema becomes `{"type": "string"}` |
| ToolSpec.SanitizeObjectType | codex-rs/core/src/tools/spec.rs:2408-2453 | a string `type` is kept, a union gives its first supported member, and otherwise the inferred type or "string" |
| ToolSpec.SanitizeEstablishes | codex-rs/core/src/tools/spec.rs:2378-2480 | whatever the input, the sanitised schema has no boolean schema left (a boolean `additionalProperties` aside), a string `type` on every object schema, `properties` on every object schema and `items` on every array schema, all the way down |
| ToolSpec.HoldersSanitizedInPlace | codex-rs/core/src/tools/spec.rs:2398-2406 | `items`, `oneOf`, `anyOf`, `allOf` and `prefixItems` each hold their sanitised schema |
| ToolSpec.PropertySchemasSanitized | codex-rs/core/src/tools/spec.rs:2391-2397 | an object `properties` keeps its names and holds each property's sanitised schema |
| ToolSpec.PropertiesNonObjectKept | codex-rs/core/src/tools/spec.rs:2391-2397 | a `properties` that is not an object is left as it was |
| ToolSpec.PropertiesDefaultEmpty | codex-rs/core/src/tools/spec.rs:2456-2462 | a `properties` the input lacked can only be the empty object added for object schemas |
| ToolSpec.ObjectSchemaGetsProperties | codex-rs/core/src/tools/spec.rs:2456-2462 | an object schema always ends with `properties` |
| ToolSpec.AdditionalPropertiesSanitized | codex-rs/core/src/tools/spec.rs:2463-2470 | in an object schema a schema-valued `additionalProperties` is sanitised and a boolean one kept |
| ToolSpec.ArraySchemaGetsItems | codex-rs/core/src/tools/spec.rs:2473-2476 | an array schema always ends with `items`, the string schema when the input had none |
| ToolSpec.SanitizeFixesSanitized | codex-rs/core/src/tools/spec.rs:2378-2480 | a schema that already meets the guarantees is left unchanged |
| ToolSpec.SanitizeIdempotent | codex-rs/core/src/tools/spec.rs:2378-2480 | sanitising twice is sanitising once |
| ToolSpec.NewToolsConfig | codex-rs/core/src/tools/spec.rs:46-93 | no shell feature disables the shell; with unified exec the shell is unified exec when the pseudo-console supports it and the shell command otherwise; else the model's shell type; the model's apply-patch type wins, else freeform exactly when that feature is on; every other flag mirrors its feature |
| ToolSpec.ShellToolGatesShell | codex-rs/core/src/tools/spec.rs:57-68 | the shell is disabled exactly when the shell feature is off, or unified exec is off and the model disables the shell |
| ToolSpec.CreateApprovalParameters | codex-rs/core/src/tools/spec.rs:152-192 | the parameters are `sandbox_permissions` and `justification`, both strings, plus `prefix_rule`, an array of strings, exactly when the prefix rule is included |
| ToolSpec.PrefixRuleOnlyAdds | codex-rs/core/src/tools/spec.rs:152-192 | including the prefix rule only adds `prefix_rule` and leaves the other parameters as they were |
| ToolRegistry.McpInputSchema | codex-rs/core/src/tools/spec.rs:2321-2338 | the schema an MCP tool is offered with is an object that always has a `properties` key |
| ToolRegistry.McpToolToOpenAiTool | codex-rs/core/src/tools/spec.rs:2311-2350 | converting an MCP tool succeeds exactly when its patched and sanitised schema deserialises, yields a function tool under the fully qualified name, and otherwise fails carrying that schema |
| ToolRegistry.ToolRegistryBuilder.constructor | codex-rs/core/src/tools/spec.rs:2513 | a new builder holds no specs and no handlers |
| ToolRegistry.ToolRegistryBuilder.PushSpec | codex-rs/core/src/tools/spec.rs:2579 | pushing a spec appends it without parallel-call support and leaves the handlers unchanged |
| ToolRegistry.ToolRegistryBuilder.PushSpecWithParallelSupport | codex-rs/core/src/tools/spec.rs:2572 | pushing a spec appends it with the given parallel-call flag and leaves the handlers unchanged |
| ToolRegistry.ToolRegistryBuilder.RegisterHandler | codex-rs/core/src/tools/spec.rs:2580 | registering a handler appends the name and handler and leaves the specs unchanged |
| ToolRegistry.AddShellTool | codex-rs/core/src/tools/spec.rs:2534-2562 | the builder gains exactly the shell tool of the configured shell type (shell, local shell, exec command with write stdin and their handlers, shell command, or nothing when disabled) |
| ToolRegistry.RegisterShellAliases | codex-rs/core/src/tools/spec.rs:2564-2570 | the four shell alias handlers are appended and no spec is pushed |
| ToolRegistry.AddShellTools | codex-rs/core/src/tools/spec.rs:2534-2570 | the builder gains the shell section: the selected shell tool, then the alias handlers whenever the shell is not disabled |
| ToolRegistry.AddResourceAndPlanTools | codex-rs/core/src/tools/spec.rs:2572-2580 | the three MCP resource tools and the plan tool are appended with their handlers, in this order |
| ToolRegistry.AddOptionalCoreTools | codex-rs/core/src/tools/spec.rs:2582-2592 | `request_user_input` is appended only with collaboration modes, then the BM25 search tool and its `ToolSearch` alias only with the search tool enabled |
| ToolRegistry.AddPatchAndReadTools | codex-rs/core/src/tools/spec.rs:2594-2607 | `apply_patch` is appended in freeform or function form when configured, then the batch file reader always |
| ToolRegistry.AddExperimentalTool | codex-rs/core/src/tools/spec.rs:2609-2616 | an experimental tool and its handler are appended exactly when the model lists its name |
| ToolRegistry.AddExperimentalTools | codex-rs/core/src/tools/spec.rs:2609-2644 | `grep_files`, `read_file`, `list_dir` and `test_sync_tool` are appended in this order, each only when listed |
| ToolRegistry.AddWebAndImageTools | codex-rs/core/src/tools/spec.rs:2646-2661 | the hosted web search is appended in cached or live form per the mode, then the image viewer and its handler always |
| ToolRegistry.PushCollabAgentSpecs | codex-rs/core/src/tools/spec.rs:2665-2675 | the eleven agent tool specs are appended in source order with their parallel flags and no handler |
| ToolRegistry.PushCollabSpecsBeforeAsk | codex-rs/core/src/tools/spec.rs:2665-2679 | the agent specs and then the `Task`, `TaskOutput`, `TaskStop` and `Skill` aliases are appended |
| ToolRegistry.PushCollabSpecsAfterAsk | codex-rs/core/src/tools/spec.rs:2683-2692 | the Bash, Read, Grep, TodoWrite, plan-mode, Write, Edit, Glob and NotebookEdit specs are appended in source order |
| ToolRegistry.RegisterCollabAgentHandlers | codex-rs/core/src/tools/spec.rs:2693-2703 | the eleven agent tool names are registered to the collab and batch handlers, with no spec pushed |
| ToolRegistry.RegisterCollabHandlersBeforeAsk | codex-rs/core/src/tools/spec.rs:2693-2707 | the agent handlers and then the four task alias handlers are registered |
| ToolRegistry.RegisterCollabHandlersAfterAsk | codex-rs/core/src/tools/spec.rs:2711-2720 | the remaining Claude-style names are registered to the adapter, write, edit, glob and notebook handlers |
| ToolRegistry.AddCollabTools | codex-rs/core/src/tools/spec.rs:2663-2721 | with collaboration tools on, the builder gains every collaboration spec and handler, `AskUserQuestion` only with collaboration modes too; with them off it is unchanged |
| ToolRegistry.AddMcpEntry | codex-rs/core/src/tools/spec.rs:2727-2736 | one MCP tool adds its function spec and the MCP handler when its schema converts, and nothing otherwise |
| ToolRegistry.AddMcpTools | codex-rs/core/src/tools/spec.rs:2723-2738 | the builder gains the MCP section: the tools sorted by name, each that converts |
| ToolRegistry.AddDynamicTool | codex-rs/core/src/tools/spec.rs:2741-2752 | one dynamic tool adds its function spec and the dynamic handler when its schema parses, and nothing otherwise |
| ToolRegistry.AddDynamicTools | codex-rs/core/src/tools/spec.rs:2740-2755 | the builder gains every dynamic tool whose schema parses, in the order given |
| ToolRegistry.BuildSpecs | codex-rs/core/src/tools/spec.rs:2483-2758 | the builder returned holds exactly the catalogue: shell, resource and plan, optional core, patch and read, experimental, web and image, collaboration, MCP and dynamic sections in this order |
| ToolRegistry.ThenAssociative | codex-rs/core/src/tools/spec.rs:2483-2758 | appending sections in sequence does not depend on how they are grouped |
| ToolRegistry.McpEntriesPaired | codex-rs/core/src/tools/spec.rs:2727-2736 | the MCP entries push a spec and register a handler under the same name, one for one |
| ToolRegistry.DynamicSectionPaired | codex-rs/core/src/tools/spec.rs:2741-2752 | the dynamic entries push a spec and register a handler under the same name, one for one |
| ToolRegistry.CollabSectionPaired | codex-rs/core/src/tools/spec.rs:2663-2721 | the collaboration section's specs and handlers name the same tools in the same order |
| ToolRegistry.MiddleSectionsPaired | codex-rs/core/src/tools/spec.rs:2572-2644 | the resource, plan, optional, patch, read and experimental sections pair every spec with a handler of the same name |
| ToolRegistry.ShellSectionCovered | codex-rs/core/src/tools/spec.rs:2534-2570 | every shell tool offered has a handler under its name (through the aliases or the unified exec handlers) |
| ToolRegistry.WebAndImageCovered | codex-rs/core/src/tools/spec.rs:2646-2661 | every tool of the web and image section except the hosted web search has a handler |
| ToolRegistry.BuiltinSectionsCovered | codex-rs/core/src/tools/spec.rs:2534-2721 | every built-in tool offered, except the hosted web search, has a handler registered under its name |
| ToolRegistry.EveryToolHasHandler | codex-rs/core/src/tools/spec.rs:2483-2758 | every tool `build_specs` offers, built-in, MCP or dynamic, except the hosted web search, has a handler registered under its name |
| ToolRegistry.CoreNameNotCollab | codex-rs/core/src/tools/spec.rs:2534-2661 | no name the core sections can offer is a collaboration tool or `AskUserQuestion` |
| ToolRegistry.CoreSectionsNames | codex-rs/core/src/tools/spec.rs:2534-2661 | every tool the core sections offer has a core name, and `request_user_input` among them implies collaboration modes are on |
| ToolRegistry.CollabSectionNames | codex-rs/core/src/tools/spec.rs:2663-2721 | a name is in the collaboration section exactly when collaboration tools are on and it is a collaboration tool, or it is `AskUserQuestion` and collaboration modes are on too |
| ToolRegistry.CollabToolsFollowFlag | codex-rs/core/src/tools/spec.rs:2663-2721 | each collaboration tool and Claude-style alias is offered exactly when `collab_tools` is set |
| ToolRegistry.AskUserQuestionNeedsBothFlags | codex-rs/core/src/tools/spec.rs:2680-2682 | `AskUserQuestion` is offered exactly when both collaboration tools and collaboration modes are on |
| ToolRegistry.RequestUserInputFollowsModes | codex-rs/core/src/tools/spec.rs:2582-2585 | `request_user_input` is offered exactly when collaboration modes are on |
| ToolRegistry.McpEntriesOnlyFunctionTools | codex-rs/core/src/tools/spec.rs:2730 | MCP entries only ever offer function tools |
| ToolRegistry.DynamicSectionOnlyFunctionTools | codex-rs/core/src/tools/spec.rs:2744 | dynamic entries only ever offer function tools |
| ToolRegistry.McpSectionOnlyFunctionTools | codex-rs/core/src/tools/spec.rs:2723-2738 | the MCP section offers only function tools |
| ToolRegistry.NoWebSearchBeforeWebSection | codex-rs/core/src/tools/spec.rs:2534-2644 | no section before the web search offers a tool called `web_search` |
| ToolRegistry.WebSectionKinds | codex-rs/core/src/tools/spec.rs:2646-2658 | the web section holds the hosted web search with external access off exactly in cached mode and with it on exactly in live mode |
| ToolRegistry.BuiltinWebSearch | codex-rs/core/src/tools/spec.rs:2646-2658 | the built-in sections offer the hosted web search exactly as the web search mode says |
| ToolRegistry.WebSearchFollowsMode | codex-rs/core/src/tools/spec.rs:2646-2658 | the full catalogue offers the hosted web search with external access off in cached mode, on in live mode, and not at all when disabled or unset |
| ToolRegistry.McpEntriesNames | codex-rs/core/src/tools/spec.rs:2727-2736 | the MCP entries name exactly the listed tools whose schemas convert |
| ToolRegistry.McpEntriesSorted | codex-rs/core/src/tools/spec.rs:2724-2727 | entries taken from strictly increasing names are themselves in strictly increasing name order |
| ToolRegistry.McpSectionInNameOrder | codex-rs/core/src/tools/spec.rs:2723-2738 | the MCP section names each tool whose schema converts exactly once, in increasing name order, and no other |
| ToolRegistry.McpSectionOrderIndependent | codex-rs/core/src/tools/spec.rs:2724-2725 | the MCP section is the same whatever order the map yields its entries in |
| RequestUserInput.OptionLabels | codex-rs/tui2/src/bottom_pane/request_user_input.rs:121-138 | a question's options are its own, followed by the "Other" option exactly when it allows one; there are options exactly when it lists some or allows "Other" |
| RequestUserInput.WrapUp | codex-rs/tui2/src/bottom_pane/request_user_input.rs:186-201 | moving up a non-empty list highlights an option within it, and an empty list has none highlighted |
| RequestUserInput.WrapDown | codex-rs/tui2/src/bottom_pane/request_user_input.rs:203-218 | moving down a non-empty list always highlights an option within it, and an empty list has none highlighted |
| RequestUserInput.WrapMovesAreInverse | codex-rs/tui2/src/bottom_pane/request_user_input.rs:186-218 | moving down undoes moving up, and moving up undoes moving down |
| RequestUserInput.StepQuestion | codex-rs/tui2/src/bottom_pane/request_user_input.rs:220-233 | the next question is the following one modulo the count, the previous one wraps from the first to the last, and without questions nothing moves |
| RequestUserInput.StepQuestionInverse | codex-rs/tui2/src/bottom_pane/request_user_input.rs:220-233 | stepping back undoes stepping forward, and stepping forward undoes stepping back |
| RequestUserInput.DigitValue | codex-rs/tui2/src/bottom_pane/request_user_input.rs:487-490 | a character has a digit value exactly when it is an ASCII digit, and that value is below ten |
| RequestUserInput.CountUnanswered | codex-rs/tui2/src/bottom_pane/request_user_input.rs:151-170 | the count of unanswered questions is zero exactly when every question is answered and the full count exactly when none is |
| RequestUserInput.FreshAnswersAllUnanswered | codex-rs/tui2/src/bottom_pane/request_user_input.rs:82-103 | right after a request is reset every question counts as unanswered |
| RequestUserInput.AnswerValues | codex-rs/tui2/src/bottom_pane/request_user_input.rs:330-342 | a question's answer values are the chosen option's label when one is committed, then the trimmed note when it is not blank, and nothing else |
| RequestUserInput.UnansweredIffNoValues | codex-rs/tui2/src/bottom_pane/request_user_input.rs:151-170 | for an answer that fits its question, no values are sent exactly when the question counts as unanswered |
| RequestUserInput.ResultAnswersKeys | codex-rs/tui2/src/bottom_pane/request_user_input.rs:326-349 | the answers map has exactly one key per question id |
| RequestUserInput.ResultAnswerOfQuestion | codex-rs/tui2/src/bottom_pane/request_user_input.rs:326-349 | a question whose id no later question reuses is answered with its own values |
| RequestUserInput.CommitAnswers | codex-rs/tui2/src/bottom_pane/request_user_input.rs:253-259 | committing the current answer to a question with options makes it answered and keeps every answer fitting its question |
| RequestUserInput.Overlay.constructor | codex-rs/tui2/src/bottom_pane/request_user_input.rs:63-76 | a new overlay shows the request fresh, with an empty queue, not done and nothing sent |
| RequestUserInput.Overlay.ResetForRequest | codex-rs/tui2/src/bottom_pane/request_user_input.rs:82-103 | a reset shows the first question with fresh answers, focus on the options unless there are none, and keeps the queue and the events |
| RequestUserInput.Overlay.EnsureFocusAvailable | codex-rs/tui2/src/bottom_pane/request_user_input.rs:180-184 | the focus moves to the notes exactly when the current question has no options, and nothing else changes |
| RequestUserInput.Overlay.MoveSelectionUp | codex-rs/tui2/src/bottom_pane/request_user_input.rs:186-201 | the current answer's highlight moves up with wrap-around and is no longer committed; without options nothing changes |
| RequestUserInput.Overlay.MoveSelectionDown | codex-rs/tui2/src/bottom_pane/request_user_input.rs:203-218 | the current answer's highlight moves down with wrap-around and is no longer committed; without options nothing changes |
| RequestUserInput.Overlay.MoveQuestion | codex-rs/tui2/src/bottom_pane/request_user_input.rs:220-233 | the question in view steps forward or back with wrap-around and the focus is made available; the answers are untouched |
| RequestUserInput.Overlay.ClearCurrentNote | codex-rs/tui2/src/bottom_pane/request_user_input.rs:235-239 | the current note is emptied and nothing else changes |
| RequestUserInput.Overlay.AppendNote | codex-rs/tui2/src/bottom_pane/request_user_input.rs:241-245 | the text is appended to the current note and nothing else changes |
| RequestUserInput.Overlay.PopNoteChar | codex-rs/tui2/src/bottom_pane/request_user_input.rs:247-251 | the last character of the current note is removed when there is one, and nothing else changes |
| RequestUserInput.Overlay.CommitCurrentAnswer | codex-rs/tui2/src/bottom_pane/request_user_input.rs:253-259 | the current answer is marked chosen when its question has options, and nothing else changes |
| RequestUserInput.Overlay.BuildResultAnswers | codex-rs/tui2/src/bottom_pane/request_user_input.rs:326-349 | the map returned holds, for each question id in order, its answer values, a later id overwriting an earlier one |
| RequestUserInput.Overlay.SubmitAnswers | codex-rs/tui2/src/bottom_pane/request_user_input.rs:351-367 | the answers are sent for the request's turn; then the oldest queued request is shown fresh, or the overlay is done when none is queued |
| RequestUserInput.Overlay.GoNextOrSubmit | codex-rs/tui2/src/bottom_pane/request_user_input.rs:261-273 | Enter commits the current answer, then shows the next question, or submits the committed answers after the last question (opening the next queued request, if any) |
| RequestUserInput.Overlay.ToggleFocus | codex-rs/tui2/src/bottom_pane/request_user_input.rs:462-473 | Tab moves the focus from the options to the notes, and back only when the question has options |
| RequestUserInput.Overlay.HandleNoteKey | codex-rs/tui2/src/bottom_pane/request_user_input.rs:296-324 | Backspace, Delete and plain characters are used (removing a character, clearing the note, appending the character) and every other key is left unused with the answers unchanged |
| RequestUserInput.Overlay.TypeOnOptions | codex-rs/tui2/src/bottom_pane/request_user_input.rs:479-506 | a digit naming an option commits it and moves on; any other character moves the focus to the notes and starts the note with it |
| RequestUserInput.Overlay.HandleKey | codex-rs/tui2/src/bottom_pane/request_user_input.rs:433-513 | the action taken is the one the key, the focus and the options call for, with that action's effect: switching question, moving the selection, switching focus, advancing or submitting, choosing or typing on the options, or editing the note; a key that calls for no action changes nothing |
| RequestUserInput.KeyActionFor | codex-rs/tui2/src/bottom_pane/request_user_input.rs:433-513 | key releases do nothing; Ctrl-N and Ctrl-P switch question; Up and Down move the selection only on the options or when there are options; a plain character on the options types an option; any other key edits the note when the notes have focus and is otherwise ignored |
| RequestUserInput.Overlay.OnCtrlC | codex-rs/tui2/src/bottom_pane/request_user_input.rs:515-528 | with a non-blank note in focus the note is cleared; otherwise an interrupt is sent and the overlay is done |
| RequestUserInput.Overlay.HandlePaste | codex-rs/tui2/src/bottom_pane/request_user_input.rs:534-546 | a non-empty paste moves the focus to the notes and is appended to the current note; an empty paste is not taken and changes nothing |
| RequestUserInput.Overlay.TryConsumeUserInputRequest | codex-rs/tui2/src/bottom_pane/request_user_input.rs:548-555 | a request arriving while one is on screen joins the back of the queue and is never handed back |
| OnboardingAuth.StepStateOf | codex-rs/tui2/src/onboarding/auth.rs:712-722 | the sign-in step is complete exactly once ChatGPT login has succeeded or an API key is configured |
| OnboardingAuth.TypeInto | codex-rs/tui2/src/onboarding/auth.rs:524-536 | a typed character replaces a key prefilled from the environment and is appended to a typed key; the result is never marked prefilled |
| OnboardingAuth.EraseFrom | codex-rs/tui2/src/onboarding/auth.rs:514-522 | Backspace discards a prefilled key whole and otherwise removes only the last character |
| OnboardingAuth.PasteInto | codex-rs/tui2/src/onboarding/auth.rs:554-570 | non-blank pasted text, trimmed, replaces a prefilled key and is appended to a typed one |
| OnboardingAuth.PrefillDiscardedWhole | codex-rs/tui2/src/onboarding/auth.rs:514-536 | after Backspace or a typed character, a prefilled key leaves nothing of the environment's value behind |
| OnboardingAuth.EraseUndoesType | codex-rs/tui2/src/onboarding/auth.rs:514-536 | erasing a character just typed into a typed key gives back the key as it was |
| OnboardingAuth.AuthModeWidget.constructor | codex-rs/tui2/src/onboarding/auth.rs:174-187 | the widget starts choosing a method, with ChatGPT highlighted and no error |
| OnboardingAuth.AuthModeWidget.DisallowApiLogin | codex-rs/tui2/src/onboarding/auth.rs:198-203 | refusing the API-key flow returns to choosing, highlights ChatGPT and shows the disabled message |
| OnboardingAuth.AuthModeWidget.StartApiKeyEntry | codex-rs/tui2/src/onboarding/auth.rs:578-606 | with API login allowed, the key field opens, prefilled from the environment unless it already holds a key; with ChatGPT forced the flow is refused |
| OnboardingAuth.AuthModeWidget.SaveApiKey | codex-rs/tui2/src/onboarding/auth.rs:608-646 | a saved key configures API-key login; a failed save keeps the key in the field with the error shown; with ChatGPT forced nothing is saved |
| OnboardingAuth.AuthModeWidget.HandleApiKeyEntryKey | codex-rs/tui2/src/onboarding/auth.rs:489-552 | the open key field takes every key: Esc returns to choosing, Enter on a blank key shows the empty-key error, Enter on a key saves it (or keeps it in the field with the save error), Backspace erases, a plain key press types and any other key changes nothing |
| OnboardingAuth.AuthModeWidget.HandleApiKeyEntryPaste | codex-rs/tui2/src/onboarding/auth.rs:554-576 | a non-blank paste into the open key field is taken; any other paste changes nothing |
| OnboardingAuth.AuthModeWidget.StartChatgptLogin | codex-rs/tui2/src/onboarding/auth.rs:648-709 | already signed in with ChatGPT goes straight to success; a login server that fails to start returns to choosing with its error |
| OnboardingAuth.AuthModeWidget.BrowserLoginOpened | codex-rs/tui2/src/onboarding/auth.rs:675-684 | once the login server runs, the step shows the browser URL |
| OnboardingAuth.AuthModeWidget.BrowserLoginFinished | codex-rs/tui2/src/onboarding/auth.rs:685-698 | a finished browser login shows the success message, and any other outcome returns to choosing |
| OnboardingAuth.AuthModeWidget.HandleKey | codex-rs/tui2/src/onboarding/auth.rs:93-166 | the open key field takes every key; otherwise Up/k and Down/j move the highlight to an allowed method, 1 and 2 start ChatGPT login and key entry (or refuse the disallowed one), Enter starts the highlighted method or completes the success message, Esc leaves the browser and device-code screens, and any other key changes nothing; a new key always means API-key login |
| OnboardingAuth.AuthModeWidget.HandlePaste | codex-rs/tui2/src/onboarding/auth.rs:168-170 | a non-blank paste into the open key field goes into it, and any other paste changes nothing |
| StatusIndicator.FmtElapsedCompact | codex-rs/tui/src/status_indicator_widget.rs:59-75 | under a minute the seconds alone; under an hour the minutes and two-digit seconds; otherwise hours, two-digit minutes and two-digit seconds, each with its unit suffix |
| StatusIndicator.RoundTripSeconds | codex-rs/tui/src/status_indicator_widget.rs:63-65 | an English rendering under a minute reads back as the seconds rendered |
| StatusIndicator.RoundTripMinutes | codex-rs/tui/src/status_indicator_widget.rs:66-70 | an English rendering under an hour reads back as the seconds rendered |
| StatusIndicator.RoundTripHours | codex-rs/tui/src/status_indicator_widget.rs:71-74 | an English rendering of an hour or more reads back as the seconds rendered |
| StatusIndicator.FmtElapsedRoundTrip | codex-rs/tui/src/status_indicator_widget.rs:59-75 | the English compact rendering loses nothing: reading it back gives the seconds rendered |
| StatusIndicator.FmtElapsedInjective | codex-rs/tui/src/status_indicator_widget.rs:59-75 | two durations with the same English rendering are equal |
| StatusIndicator.SaturatingSince | codex-rs/tui/src/status_indicator_widget.rs:162 | the time since an earlier instant is the difference, and zero when the clock reads earlier |
| StatusIndicator.ElapsedAt | codex-rs/tui/src/status_indicator_widget.rs:175-181 | the elapsed time is at least the banked time, and exactly it while paused |
| StatusIndicator.ElapsedMonotone | codex-rs/tui/src/status_indicator_widget.rs:175-181 | the elapsed time never goes backwards as the clock advances |
| StatusIndicator.CapitalizeFirst | codex-rs/tui/src/status_indicator_widget.rs:110-114 | capitalising keeps the length, upper-cases the first character and keeps the rest |
| StatusIndicator.NormalizeDetails | codex-rs/tui/src/status_indicator_widget.rs:110-114 | empty or missing details clear them; other text loses its leading whitespace, becomes empty only when it was all whitespace, and never starts with whitespace |
| StatusIndicator.NormalizeInlineMessage | codex-rs/tui/src/status_indicator_widget.rs:121-125 | the inline message is the trimmed text, or nothing when it is missing or blank |
| StatusIndicator.InlineMessageIdempotent | codex-rs/tui/src/status_indicator_widget.rs:121-125 | normalising an inline message twice gives the same as once |
| StatusIndicator.Take | codex-rs/tui/src/status_indicator_widget.rs:218 | taking characters keeps a prefix of at most the given count, and all of a shorter text |
| StatusIndicator.TruncateDetails | codex-rs/tui/src/status_indicator_widget.rs:208-220 | wrapped details of up to three lines are kept; longer ones are cut to three lines with the first two unchanged |
| StatusIndicator.TruncatedLineEndsInEllipsis | codex-rs/tui/src/status_indicator_widget.rs:208-220 | the last kept line keeps its spans, and its last span becomes a prefix that fits beside the indent followed by an ellipsis |
| StatusIndicator.DetailsLines | codex-rs/tui/src/status_indicator_widget.rs:192-223 | no lines without details or at width zero, and never more than three lines unless the wrapping itself has no more |
| StatusIndicator.StatusIndicatorWidget.constructor | codex-rs/tui/src/status_indicator_widget.rs:78-98 | a new widget shows the working header with no details or message, the interrupt hint shown, and the clock running from now |
| StatusIndicator.StatusIndicatorWidget.UpdateHeader | codex-rs/tui/src/status_indicator_widget.rs:105-107 | the header is replaced and nothing else changes |
| StatusIndicator.StatusIndicatorWidget.UpdateDetails | codex-rs/tui/src/status_indicator_widget.rs:110-114 | the details become the normalised text and nothing else changes |
| StatusIndicator.StatusIndicatorWidget.UpdateInlineMessage | codex-rs/tui/src/status_indicator_widget.rs:121-125 | the inline message becomes the normalised text and nothing else changes |
| StatusIndicator.StatusIndicatorWidget.SetInterruptHintVisible | codex-rs/tui/src/status_indicator_widget.rs:137-139 | the interrupt hint is shown exactly as asked and nothing else changes |
| StatusIndicator.StatusIndicatorWidget.PauseTimerAt | codex-rs/tui/src/status_indicator_widget.rs:158-164 | pausing banks the running time so the elapsed time stays frozen at its value now; pausing while paused does nothing |
| StatusIndicator.StatusIndicatorWidget.ResumeTimerAt | codex-rs/tui/src/status_indicator_widget.rs:166-173 | resuming restarts the clock from now on top of the banked time; resuming while running does nothing |
| StatusLineSetup.Ordinal | codex-rs/tui/src/bottom_pane/status_line_setup.rs:49-96 | every item has a position among the items in declaration order |
| StatusLineSetup.OrdinalIndex | codex-rs/tui/src/bottom_pane/status_line_setup.rs:49-96 | each item sits in the iteration order at its position |
| StatusLineSetup.IndexOrdinal | codex-rs/tui/src/bottom_pane/status_line_setup.rs:49-96 | the item at a position has that position |
| StatusLineSetup.FindItem | codex-rs/tui/src/bottom_pane/status_line_setup.rs:49-50 | a parsed item is one whose kebab-case id is exactly the text |
| StatusLineSetup.FindItemFinds | codex-rs/tui/src/bottom_pane/status_line_setup.rs:49-50 | the id of a listed item is always found |
| StatusLineSetup.ParseItem | codex-rs/tui/src/bottom_pane/status_line_setup.rs:49-50 | parsing gives only an item whose kebab-case id is exactly the text |
| StatusLineSetup.ItemIdInjective | codex-rs/tui/src/bottom_pane/status_line_setup.rs:49-50 | distinct items have distinct kebab-case ids |
| StatusLineSetup.ParseItemId | codex-rs/tui/src/bottom_pane/status_line_setup.rs:49-50 | every item's id parses back to that item |
| StatusLineSetup.Rows | codex-rs/tui/src/bottom_pane/status_line_setup.rs:317-329 | a row per item, in order, carrying the item's id and the given enabled flag |
| StatusLineSetup.ChosenDistinct | codex-rs/tui/src/bottom_pane/status_line_setup.rs:252-266 | no configured item is put in the picker twice |
| StatusLineSetup.ChosenMember | codex-rs/tui/src/bottom_pane/status_line_setup.rs:252-266 | an item is enabled at the start exactly when some configured id parses to it |
| StatusLineSetup.ChosenKeepsOrder | codex-rs/tui/src/bottom_pane/status_line_setup.rs:255-266 | configured ids that all parse and never repeat come out as their items in the configured order |
| StatusLineSetup.RestMembers | codex-rs/tui/src/bottom_pane/status_line_setup.rs:268-274 | the remaining items are exactly those not already configured |
| StatusLineSetup.RestInEnumOrder | codex-rs/tui/src/bottom_pane/status_line_setup.rs:268-274 | the remaining items follow the enum's iteration order |
| StatusLineSetup.RowsForCover | codex-rs/tui/src/bottom_pane/status_line_setup.rs:252-274 | every item gets a row, configured or not |
| StatusLineSetup.RowsForPairDistinct | codex-rs/tui/src/bottom_pane/status_line_setup.rs:252-274 | no two rows carry the same id |
| StatusLineSetup.SetupRowsEachItemOnce | codex-rs/tui/src/bottom_pane/status_line_setup.rs:240-274 | the picker opens with the configured items first and enabled, then the others disabled, and each item has exactly one row |
| StatusLineSetup.NewRows | codex-rs/tui/src/bottom_pane/status_line_setup.rs:247-274 | the rows the picker is filled with are exactly the configured items enabled followed by the rest disabled in enum order |
| StatusLineSetup.PreviewParts | codex-rs/tui/src/bottom_pane/status_line_setup.rs:288-293 | the preview has at most one part per row |
| StatusLineSetup.PreviewPartsSpec | codex-rs/tui/src/bottom_pane/status_line_setup.rs:288-293 | the preview parts are samples; there are none exactly when no enabled row names an item; each enabled row naming an item contributes its sample |
| StatusLineSetup.PreviewShowsEnabled | codex-rs/tui/src/bottom_pane/status_line_setup.rs:287-300 | with non-empty samples there is no preview exactly when no enabled row names an item, and otherwise it shows every enabled item's sample |
| StatusLineSetup.PreviewCharacters | codex-rs/tui/src/bottom_pane/status_line_setup.rs:294 | the corrected preview holds only sample text, spaces and middle dots |
| StatusLineSetup.TwoRowParts | codex-rs/tui/src/bottom_pane/status_line_setup.rs:288-293 | enabling the model name and git branch rows gives their two samples in row order |
| StatusLineSetup.SeparatorStrayCharacter | codex-rs/tui/src/bottom_pane/status_line_setup.rs:294 | the separator as written differs from a middle dot between spaces by an extra Â |
| StatusLineSetup.PreviewAsWrittenStrayCharacter | codex-rs/tui/src/bottom_pane/status_line_setup.rs:294 | as written, two enabled items preview with a stray Â that neither sample contains, where the corrected preview has none |
| StatusLineSetup.ConfirmItems | codex-rs/tui/src/bottom_pane/status_line_setup.rs:302-308 | a confirmation sends all the items when every id parses, in order, and none when any id does not |
| StatusLineSetup.IdsOf | codex-rs/tui/src/bottom_pane/status_line_setup.rs:317-329 | each row id is its item's id, in order |
| StatusLineSetup.ConfirmRoundTrip | codex-rs/tui/src/bottom_pane/status_line_setup.rs:302-308 | confirming the ids of some items sends exactly those items back |
| CliMain.Toggles | codex-rs/cli/src/main.rs:468-478 | one `features.<name>=<value>` override per feature, in order |
| CliMain.FirstUnknown | codex-rs/cli/src/main.rs:468-492 | the first unknown feature is one of the features the registry does not know, and there is none exactly when all are known |
| CliMain.FeatureOverridesSpec | codex-rs/cli/src/main.rs:468-492 | the toggles succeed exactly when every feature is known, and then give every enable as `=true` followed by every disable as `=false`; otherwise the error names an unknown feature |
| CliMain.FirstUnknownAfterKnown | codex-rs/cli/src/main.rs:468-478 | after a run of known features, the first unknown feature is the first unknown of the rest |
| CliMain.ToOverrides | codex-rs/cli/src/main.rs:468-478 | the overrides pushed one by one, stopping at the first unknown feature, are exactly the toggles' overrides or their error |
| CliMain.FoldFeatureToggles | codex-rs/cli/src/main.rs:538-540 | the toggles' overrides follow the root `-c` overrides unchanged, one per toggle, enables as `=true` then disables as `=false`; an unknown feature aborts with its message, exactly when some toggle is unknown |
| CliMain.ReplaceCrLf | codex-rs/cli/src/main.rs:870 | replacing carriage-return-newline pairs never lengthens the text |
| CliMain.NormalizePrompt | codex-rs/cli/src/main.rs:868-871 | a normalised prompt holds no carriage return |
| CliMain.NormalizePromptOnePass | codex-rs/cli/src/main.rs:870 | the two replacements together turn every line break, whichever of the three spellings, into a newline |
| CliMain.NormalizePromptKeepsPlainText | codex-rs/cli/src/main.rs:870 | text without carriage returns passes through unchanged |
| CliMain.NormalizePromptIdempotent | codex-rs/cli/src/main.rs:870 | normalising a prompt twice gives the same as once |
| CliMain.MergeNothing | codex-rs/cli/src/main.rs:1004-1046 | a subcommand that sets nothing leaves the command line as it was |
| CliMain.MergeSubcommandWins | codex-rs/cli/src/main.rs:1004-1046 | whatever the subcommand sets is the outcome whatever the root command line said, and a merged prompt holds no carriage return |
| CliMain.MergeAssociative | codex-rs/cli/src/main.rs:1004-1046 | merging two subcommands one after the other is merging their combination once |
| CliMain.SelectTuiFrontend | codex-rs/cli/src/main.rs:906-912 | the second interface is chosen exactly when its feature is on |
| CliMain.ChooseSession | codex-rs/cli/src/main.rs:961-965 | the session picker opens exactly when neither a session id nor `--last` was given, and the other choices are kept |
| CliMain.TuiCli.constructor | codex-rs/cli/src/main.rs:950-957 | the command line starts with its parsed flags and no resume or fork target |
| CliMain.TuiCli.MergeInteractiveCliFlags | codex-rs/cli/src/main.rs:1004-1046 | the subcommand's flags are merged in: those it sets win, directories and `-c` overrides are appended, images are replaced only by a non-empty list |
| CliMain.TuiCli.PrependConfigFlags | codex-rs/cli/src/main.rs:855-862 | the root overrides are put in front of the existing ones, so later ones win |
| CliMain.TuiCli.NormalizePromptField | codex-rs/cli/src/main.rs:868-871 | the prompt's line breaks are normalised, leaving no carriage return |
| CliMain.TuiCli.FinalizeResumeInteractive | codex-rs/cli/src/main.rs:950-973 | resume records how to pick the session, its flags win, and the overrides run root, then top level, then resume |
| CliMain.TuiCli.FinalizeForkInteractive | codex-rs/cli/src/main.rs:976-999 | fork records how to pick the session, its flags win, and the overrides run root, then top level, then fork |
| SlashCommandTui.VariantNamesWellFormed | codex-rs/tui/src/slash_command.rs:12-56 | every variant name is an upper-camel-case identifier, so the kebab-case spelling applies to it |
| SlashCommandTui.CommandIsKebab | codex-rs/tui/src/slash_command.rs:109-111 | every command string is lower-case words joined by hyphens |
| SlashCommandTui.AllCommandsComplete | codex-rs/tui/src/slash_command.rs:12-56 | iterating the enum yields every command |
| SlashCommandTui.QuitExitShareDescription | codex-rs/tui/src/slash_command.rs:60-105 | `/quit` and `/exit` have the same description in every language |
| SlashCommandTui.SupportsInlineArgs | codex-rs/tui/src/slash_command.rs:114-123 | exactly `/review`, `/rename`, `/plan`, `/sdd-develop` and `/sdd-develop-parallels` take inline arguments |
| SlashCommandTui.AvailableDuringTaskSpec | codex-rs/tui/src/slash_command.rs:126-166 | a command waits for the running task exactly when it is one of those that change the session or its settings |
| SlashCommandTui.InlineArgsDuringTask | codex-rs/tui/src/slash_command.rs:114-166 | of the commands that take inline arguments, only `/rename` may run during a task |
| SlashCommandTui.IsVisible | codex-rs/tui/src/slash_command.rs:168-173 | `/rollout` and `/test-approval` are visible only in a debug build, every other command always |
| SlashCommandTui.ReleaseBuiltInsMembers | codex-rs/tui/src/slash_command.rs:177-182 | a release build lists every command but `/rollout` and `/test-approval` |
| SlashCommandTui.BuiltInsInOrder | codex-rs/tui/src/slash_command.rs:177-182 | every build lists visible commands in declaration order, each paired with its own string |
| SlashCommandTui.DebugBuiltIns | codex-rs/tui/src/slash_command.rs:177-182 | a debug build lists every command in declaration order |
| SlashCommandTui.SpecIsBuiltIn | codex-rs/tui/src/slash_command.rs:189-197 | `/spec` is listed under its own name in every build |
| SlashCommandTui.SpecSpelling | codex-rs/tui/src/slash_command.rs:13 | the spec command is spelled `spec` |
| SlashCommandTui2.VariantNamesWellFormed | codex-rs/tui2/src/slash_command.rs:12-42 | every variant name is an upper-camel-case identifier, so the kebab-case spelling applies to it |
| SlashCommandTui2.CommandIsKebab | codex-rs/tui2/src/slash_command.rs:79-81 | every command string is lower-case words joined by hyphens |
| SlashCommandTui2.AllCommandsComplete | codex-rs/tui2/src/slash_command.rs:12-42 | iterating the enum yields every command |
| SlashCommandTui2.QuitExitShareDescription | codex-rs/tui2/src/slash_command.rs:46-75 | `/quit` and `/exit` have the same description in every language |
| SlashCommandTui2.AvailableDuringTaskSpec | codex-rs/tui2/src/slash_command.rs:84-110 | a command waits for the running task exactly when it is one of those that change the session or its settings |
| SlashCommandTui2.IsVisible | codex-rs/tui2/src/slash_command.rs:112-117 | `/rollout` and `/test-approval` are visible only in a debug build, every other command always |
| SlashCommandTui2.ReleaseBuiltInsMembers | codex-rs/tui2/src/slash_command.rs:121-126 | a release build lists every command but `/rollout` and `/test-approval` |
| SlashCommandTui2.BuiltInsInOrder | codex-rs/tui2/src/slash_command.rs:121-126 | every build lists visible commands in declaration order, each paired with its own string |
| SlashCommandTui2.DebugBuiltIns | codex-rs/tui2/src/slash_command.rs:121-126 | a debug build lists every command in declaration order |
| SlashCommandTui2.AgentSpelling | codex-rs/tui2/src/slash_command.rs:13 | the agent command is spelled `agent` |
| SlashCommandTui2.AgentIsBuiltIn | codex-rs/tui2/src/slash_command.rs:134-140 | `/agent` is listed under its own name in every build |
| SlashCommandTui2.NotASpelling | codex-rs/tui2/src/slash_command.rs:12-42 | the kebab spelling of a name no variant has is no command's string |
| SlashCommandTui2.SpecAbsent | codex-rs/tui2/src/slash_command.rs:141-147 | no command is spelled `spec` |
| SlashCommandTui2.PresetAbsent | codex-rs/tui2/src/slash_command.rs:141-147 | no command is spelled `preset` |
| SlashCommandTui2.CollabAbsent | codex-rs/tui2/src/slash_command.rs:141-147 | no command is spelled `collab` |
| SlashCommandTui2.SddDevelopSpelling | codex-rs/tui2/src/slash_command.rs:13 | the kebab spelling of `SddDevelop` is `sdd-develop` |
| SlashCommandTui2.SddDevelopParallelsSpelling | codex-rs/tui2/src/slash_command.rs:13 | the kebab spelling of `SddDevelopParallels` is `sdd-develop-parallels` |
| SlashCommandTui2.SddDevelopAbsent | codex-rs/tui2/src/slash_command.rs:141-147 | no command is spelled `sdd-develop` |
| SlashCommandTui2.SddDevelopParallelsAbsent | codex-rs/tui2/src/slash_command.rs:141-147 | no command is spelled `sdd-develop-parallels` |
| SlashCommandTui2.LegacyCommandsAbsent | codex-rs/tui2/src/slash_command.rs:134-148 | no build lists `spec`, `preset`, `collab`, `sdd-develop` or `sdd-develop-parallels` |
| Casing.KebabRoundTrip | codex-rs/tui/src/slash_command.rs:10-14 | reading a variant's kebab-case spelling back, as the derived parser does, gives the variant name |
| Casing.KebabInjective | codex-rs/tui/src/slash_command.rs:10-14 | two variant names never share a kebab-case spelling |
| Casing.KebabCaseIsKebab | codex-rs/tui/src/slash_command.rs:13 | the derived spelling of a variant name is lower-case words joined by single hyphens |
| Casing.KebabCaseAppend | codex-rs/tui/src/slash_command.rs:13 | the spelling of a name is built word by word |
| Casing.KebabWord | codex-rs/tui/src/slash_command.rs:13 | a capitalised first word is spelled in lower case |
| Casing.KebabTailWord | codex-rs/tui/src/slash_command.rs:13 | a later capitalised word is spelled as a hyphen and the word in lower case |
| CommandList.Entries | codex-rs/tui/src/slash_command.rs:177-182 | the listing has at most one entry per variant |
| CommandList.EntriesNamed | codex-rs/tui/src/slash_command.rs:177-182 | every listed entry is a variant that passes the filter, paired with its own name |
| CommandList.EntriesMembers | codex-rs/tui/src/slash_command.rs:177-182 | a variant is listed exactly when it passes the filter |
| CommandList.EntriesInOrder | codex-rs/tui/src/slash_command.rs:177-182 | the listing keeps declaration order, and leaves nothing out when every variant passes |
| CommandList.EntriesAllVisible | codex-rs/tui/src/slash_command.rs:177-182 | when every variant passes the filter, all are listed in order |
| Tooltips.BetaTooltips | codex-rs/tui2/src/tooltips.rs:27-32 | the beta tooltips are at most one per feature stage |
| Tooltips.BetaTooltipsMembers | codex-rs/tui2/src/tooltips.rs:27-32 | a tip is a beta tooltip exactly when some feature stage announces it |
| Tooltips.AllTooltips | codex-rs/tui2/src/tooltips.rs:13-24 | each language's list is its own tips followed by the beta tooltips |
| Tooltips.PickTooltip | codex-rs/tui2/src/tooltips.rs:43-55 | there is no tooltip exactly when the list is empty, and otherwise the one drawn is on the list |
| Tooltips.EveryTooltipCanBePicked | codex-rs/tui2/src/tooltips.rs:43-55 | every tooltip on the list is shown for some draw |
| Tooltips.RandomTooltip | codex-rs/tui2/src/tooltips.rs:35-41 | an announcement that applies wins; otherwise the tooltip drawn from the language's list |
| Tooltips.DateLeTotalOrder | codex-rs/tui2/src/tooltips.rs:145-146 | the order on dates is reflexive, total, antisymmetric and transitive |
| Tooltips.ReadDate | codex-rs/tui2/src/tooltips.rs:130-137 | a date is present exactly when it was given and reads as `%Y-%m-%d` |
| Tooltips.Resolve | codex-rs/tui2/src/tooltips.rs:128-143 | an entry keeps its content, defaults its target app to `codex-cli`, and keeps a version pattern only when it is a valid expression |
| Tooltips.ParseAnnouncementTip | codex-rs/tui2/src/tooltips.rs:123-124 | a document that does not parse gives no announcement |
| Tooltips.FirstApplyingSpec | codex-rs/tui2/src/tooltips.rs:123-154 | the announcement is the content of the first entry that passes every filter, and there is none exactly when no entry passes |
| Tooltips.TargetAppDefault | codex-rs/tui2/src/tooltips.rs:142-144 | an entry without a target app is meant for the CLI, and one for any other app is never shown |
| Tooltips.DateWindowInclusive | codex-rs/tui2/src/tooltips.rs:145-146 | an entry whose window starts and ends today is shown |
| Tooltips.DateWindowExcludes | codex-rs/tui2/src/tooltips.rs:145-146 | a start date after today or an end date before today keeps the entry back |
| Tooltips.UnreadableDateIsAbsent | codex-rs/tui2/src/tooltips.rs:130-137 | a date that cannot be read counts as no date |
| Tooltips.VersionPatternFilter | codex-rs/tui2/src/tooltips.rs:138-151 | an invalid version pattern counts as none, and a valid one that does not match the version keeps the entry back |
| UpdateActionTui.CommandArgs | codex-rs/tui/src/update_action.rs:14-21 | opening the releases page runs nothing; npm and bun install the package globally and brew upgrades the cask |
| UpdateActionTui.CommandArgsRoundTrip | codex-rs/tui/src/update_action.rs:14-21 | the program of an action's command gives the action back |
| UpdateActionTui.CommandArgsInjective | codex-rs/tui/src/update_action.rs:14-21 | no two actions share a command |
| UpdateActionTui.ReleaseUrl | codex-rs/tui/src/update_action.rs:11-12 | every action points at the fork's releases page |
| UpdateActionTui.ReleaseUrlSameForAll | codex-rs/tui/src/update_action.rs:23-25 | all actions give the same release URL |
| UpdateActionTui.GetUpdateAction | codex-rs/tui/src/update_action.rs:28-31 | a release build always offers an action, and it runs no command |
| UpdateActionTui2.ToTui | codex-rs/tui2/src/update_action.rs:8-16 | the conversion gives the first interface's action that runs nothing and points at the same page |
| UpdateActionTui2.ToTuiRoundTrip | codex-rs/tui2/src/update_action.rs:8-16 | converting and converting back gives the same action |
| UpdateActionTui2.FromTuiOnlyReleasePage | codex-rs/tui2/src/update_action.rs:8-16 | only the first interface's releases-page action converts back |
| UpdateActionTui2.ReleaseUrl | codex-rs/tui2/src/update_action.rs:19-24 | the release URL is the same page as the first interface's |
| UpdateActionTui2.GetUpdateAction | codex-rs/tui2/src/update_action.rs:27-30 | a release build always offers the releases page |

## Left out

- Concurrency is not modelled. The status `watch` channels, `FuturesUnordered`, the `timeout_at` / `sleep_until` polling and the `RwLock` guards (codex-rs/core/src/tools/handlers/collab.rs:556-623, 865-901; codex-rs/tui2/src/onboarding/auth.rs) become plain state. A wait is a predicate over status snapshots on an abstract clock that advances in 50 ms poll steps.
- The thread manager, `Guards::reserve_spawn_slot` and thread creation are not part of this model. They become an abstract registry: the live threads with their status, and the set of threads holding a spawn slot. A reply from a live thread (the outcome of a submitted op) is a parameter.
- Collab.SpawnDepth: requires that the creator chain from the agent ends within as many lookups as there are records (`ChainEnds`). Cyclic creator links, which the source would loop on, are outside the model.
- Event emission (`send_event`, begin/end events), `serde_json` serialisation of tool results and the text shape of tool outputs are left out. Results are datatypes.
- `resume_agent_from_rollout` (codex-rs/core/src/agent/control.rs:113-136) is left out because it needs the rollout lookup `find_thread_path_by_id_str`, which is file-system I/O. The `resume_agent` collaboration handler is left out for the same reason.
- `rename_agent` (codex-rs/core/src/agent/control.rs:251-258) and `send_prompt` (169-184) are left out. Each only forwards a value to the thread manager.
- `CodexErr` renderings are placeholders, except the one the source's tests pin ("unsupported operation: thread manager dropped"). Only message structure is modelled: which messages are joined, and in which order.
- File-system I/O is left out: `read_notebook_json`, `edit_file`, `write_content`, `validate_search_root` and the glob directory walk. File contents and glob results are inputs.
- The absolute-path-checked write of `claude_write.rs` is not part of this model.
- Process and git execution is left out: `run_git_silent`, `execute_exec_env` and the output aggregation of `run_git_logged`. Git answers are functions of the commands already issued, and a command's exit status and aggregated output are inputs.
- The network is left out: the login server, the device-code flow, the rate-limit poller, the announcement fetch with its cache, and the mock-server integration suites.
- Rendering is left out: ratatui layout, styling, and the word wrapping of details (`word_wrap_lines`), whose wrapped lines are an input.
- The `tr` / `tr_args` / `tr_list` translation lookups are left out. Localised strings are parameters or are identified by their message keys.
- Floating point is left out: `RateLimitWarningState::take_warnings` and the rate-limit switch thresholds, which use f64 percentages. JSON numbers are integers.
- Randomness and wall-clock time are parameters: the tooltip's random draw, today's date and the timer's instants. `example_prompt_placeholder`, `Utc::now` and the quit-shortcut expiry are left out.
- Config and model-catalog lookups are left out: TOML config loading, models.json and clap argument parsing.
- Collab.SpawnPermissions: models only the approval-policy and sandbox-mode overrides of `build_agent_spawn_config` (codex-rs/core/src/tools/handlers/collab.rs:1440-1480). A failure of the shared config, of the parent policy's `set` or of `apply_spawn_model_overrides` is the single `configError` input. The model, reasoning-effort and reasoning-summary overrides are left out, and so is the `set` constraint check on an override ("approval_policy is invalid").
- Collab.SpawnHandle: the role's `apply_to_config` (collab.rs:208-210) is the `roleError` input, because role files are configuration I/O.
- Collab.ParseAgentId: `ThreadId::from_string` is the `parse` parameter. The model does not fix the thread-id syntax or the parser's error text.
- Collab.RaceToFinal: the `FuturesUnordered` race and its drain (collab.rs:594-623) become the first 50 ms poll at which some target is final. Targets that turn final between polls, and the order results arrive in, are not captured.
- The forwarding handlers are left out: the `dispatch_to_*` functions and `switch_collaboration_mode`, which only re-dispatch to other handlers.
- UpdateActionTui.GetUpdateAction: models the release build only. The debug build's detection from the executable path and environment is I/O.
- UpdateActionTui2.GetUpdateAction: models the release build only, for the same reason.
- Text.AsciiLowerStr: maps ASCII letters only. `str::to_lowercase` also lowers non-ASCII letters.
- StatusIndicator.CapitalizeFirst: upper-cases an ASCII first letter only. Rust's `to_uppercase` also maps non-ASCII letters.
- Casing.KebabCase: follows strum's kebab-case for names whose capitals each start a word. Every variant name in the model is of this kind; runs of adjacent capitals are outside the model.
- In-place updates are modelled on values.
  - `sort` / `sort_unstable` plus `dedup` on a `Vec` become a sorted, duplicate-free sequence with the same elements.
  - The recursive in-place rewrite in `sanitize_json_schema` becomes a function from schema to schema.
  - The in-place edits of a cell map become updates of a map value.
- The TERM=dumb / terminal-capability checks and `codex-rs/tui/src/wrapping.rs` are not part of this model. Neither are `codex-rs/tui/src/text_formatting.rs`, `codex-rs/core/src/tools/registry.rs` and the login flow in `headless_chatgpt_login.rs`. Conpty support is an input of the tools configuration.

## Findings

| source | as written | input that shows it | evidently intended | confidence | as-written member | corrected member |
|---|---|---|---|---|---|---|
| codex-rs/tui/src/bottom_pane/status_line_setup.rs:294 | the preview joins enabled items with " Â· ", a UTF-8 middle dot read as Latin-1 | the items `model-name` and `git-branch` enabled: the preview shows a stray `Â` between the two samples | " · " (U+00B7 between spaces), the separator the status indicator uses at codex-rs/tui/src/status_indicator_widget.rs:273 | not executed | StatusLineSetup.PreviewAsWrittenStrayCharacter | StatusLineSetup.PreviewCharacters |
