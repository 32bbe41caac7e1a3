# Azents protocols and state machines in Dafny

This project models the parts of Azents whose correctness spans several calls or several
processes, and proves what they promise.  Each module stands for one component:

| module | component |
|---|---|
| `LeaderElection` | several electors sharing one Kubernetes Lease with optimistic concurrency |
| `TagLocks` | ordered acquisition of several file locks with timeouts |
| `V4APatch` | the parser of V4A patches, with a printer as its inverse |
| `ToolInput` | the JSON token formatter and the field splitter |
| `PendingMailbox` | the reducer of pending mailbox envelopes with its index and tombstones |
| `Transcript` | the projection of a chat's events into activity groups and messages |
| `SetupDag` | resolution of setup requirements and the stop-on-blocked chain |
| `ImageDownload` | the two-slot download scheduler with its failure drain |
| `DockerProvider` | the lifecycle of Runtime containers on a Docker host |
| `DottedState` | in-place nested dictionaries addressed by dotted keys |
| `History` | the deduplicated CI history |
| `CommentBudget` | the bounded CI comment |

`Basics` and `TextOrder` hold shared facts.  Code that changes state step by step is imperative
here too: classes whose fields are updated, loops with invariants; each is proved against a
specification function or relation, and the properties are proved about that.

The concurrent components are state machines over single steps.  For the Lease, reading the
clock, reading and deciding, the server processing a write, and the reply are four steps of
each elector, a write may be processed long after its elector gave up, and any number of
electors interleave.  Time is one integer clock.

## Where the code differs from its descriptions

- A setup whose execution is blocked after a successful reclaim is reported as `reclaimed`
  (`testenv/azents/testenv/setup_runner.py:198-207`), so its dependents still run.
  `SetupDag.ContinuesPastFailure` says exactly when in one run, `SetupDag.SafeInEveryRun` for
  which setups it can happen; `SetupDag.FailedDependencyDoesNotStopDependent` is a case.
- Promotion and baseline replacement commute only for correlations with a colon
  (`PendingMailbox.PromotionCommutesWithBaseline`).
- The renew time of the Lease can move back when an elector with a negative duration has a
  rival, or when a leftover Lease was renewed in the future
  (`LeaderElection.RenewTimesNeverDecrease`).
- The acquire time of the Lease survives a takeover (`leader.py:119`).
- The field splitter's cursor stays before the closing brace of an empty object.
- A container that is reused keeps the Provider generation it was created with, so a scan can
  report an older one (`DockerProvider.ProviderGenerationMayBeStale`).
- Starting with a profile that names no network can remove the old container before it raises
  (`DockerProvider.Provider.EnsureContainer`).
- The comment budget reserves 300 characters for each terse form, while one can have 1076, so
  `combine` can raise from four summaries on (`CommentBudget.FourSummariesCanRaise`).
  `CommentBudget.NeverRaisesExactly` says exactly when it cannot.

## Model

| member | source | states |
|---|---|---|
| LeaderElection.ProposalSurvives | python/apps/azents-runtime-provider-kubernetes/src/azents_runtime_provider_kubernetes/leader.py:62-79 | A write decided on a stored version is accepted after any writes of others exactly when none of them got through: every accepted write was decided on the version immediately before it |
| LeaderElection.LeaseApi.ApplyLease | python/apps/azents-runtime-provider-kubernetes/src/azents_runtime_provider_kubernetes/kubernetes_api.py:607-612 | A write without a version creates only where nothing is stored; one with a version replaces only that version; anything else is a conflict and changes nothing |
| LeaderElection.KubernetesLeaderElector.TryAcquire | python/apps/azents-runtime-provider-kubernetes/src/azents_runtime_provider_kubernetes/leader.py:46-79 | One call with any writes of others between its read and its write: success exactly when it may hold and nobody else got through, and then the stored Lease is its result and names it; a refusal or a conflict leaves what the others wrote, and a conflict reports what is stored now |
| LeaderElection.LandKeepsElector | python/apps/azents-runtime-provider-kubernetes/src/azents_runtime_provider_kubernetes/leader.py:46-90 | A write accepted by the server never cuts short the term of another elector, although its reply may be late or lost: an elector's last success stays backed by the stored Lease while its term lasts |
| LeaderElection.AtMostOneLeader | python/apps/azents-runtime-provider-kubernetes/src/azents_runtime_provider_kubernetes/leader.py:46-90 | In every run of any number of electors with different durations, late writes and lost replies, at most one elector is inside the term of its last success, and then the stored Lease names it and expires no earlier than its own result |
| LeaderElection.LeaseLineage | python/apps/azents-runtime-provider-kubernetes/src/azents_runtime_provider_kubernetes/leader.py:92-124 | In every run each stored Lease follows from the one before it; the transition count grew by exactly the number of holder changes; the acquire time, once set, keeps its first value, takeovers included. On a server that was empty the count is exactly the holder changes since creation and the acquire time is the creation time |
| LeaderElection.LineageCounts | python/apps/azents-runtime-provider-kubernetes/src/azents_runtime_provider_kubernetes/leader.py:109-124 | The transition count and the acquire time over any chain of successive Leases |
| LeaderElection.UndisturbedCallSucceeds | python/apps/azents-runtime-provider-kubernetes/src/azents_runtime_provider_kubernetes/leader.py:46-90 | From any reachable state a call nobody disturbs takes or renews the Lease exactly when no other holder's Lease is still live, and ends every other elector's term; otherwise it changes nothing |
| LeaderElection.RenewTimesNeverDecrease | python/apps/azents-runtime-provider-kubernetes/src/azents_runtime_provider_kubernetes/leader.py:52-79 | From an empty server or any leftover Lease the renew time never decreases in any run if and only if nobody can write, or no elector with a negative configured duration has a rival and the leftover Lease cannot be renewed to an earlier time |
| LeaderElection.NegativeDurationMovesBack | python/apps/azents-runtime-provider-kubernetes/src/azents_runtime_provider_kubernetes/leader.py:81-90 | The run that shows it: a Lease with a negative duration is taken over by a caller whose clock reading is older, and the renew time moves back |
| LeaderElection.FutureLeaseMovesBack | python/apps/azents-runtime-provider-kubernetes/src/azents_runtime_provider_kubernetes/leader.py:81-90 | The run that shows the other case: a leftover Lease with a renew time after the clock is renewed by an elector that may hold it |
| TagLocks.SortedUniqueCorrect | testenv/azents/testenv/lock.py:52-53 | The lock order: strictly ascending by code point, with exactly the tags that were asked for |
| TagLocks.AcquireInOrder | testenv/azents/testenv/lock.py:57-66 | Takes the longest free prefix of the ascending tags, in order, and stops at the first tag someone holds |
| TagLocks.ReleaseReversed | testenv/azents/testenv/lock.py:68-73 | Releases exactly what was acquired, last first |
| TagLocks.ExclusiveResource | testenv/azents/testenv/lock.py:37-73 | The body is entered exactly when all tags are free, with all of them held; every exit, a part-way timeout included, restores the locks it found and released in reverse what it acquired |
| TagLocks.StepKeepsInv | testenv/azents/testenv/lock.py:52-73 | Every step of every process keeps: each holds exactly a prefix of its ascending tags, no tag has two holders, no tag is held by nobody's prefix |
| TagLocks.MutualExclusion | testenv/azents/testenv/lock.py:37-73 | In every run of any number of processes with any tag lists no tag has two holders, a process in its body holds all its tags, and a finished one holds none |
| TagLocks.SomeoneCanMove | testenv/azents/testenv/lock.py:52-67 | While a process is unfinished some process can take a step that is not a timeout |
| TagLocks.RunsAreBounded | testenv/azents/testenv/lock.py:56-73 | Every step uses up work: no run is longer than the work its start state holds |
| TagLocks.EveryoneCanFinish | testenv/azents/testenv/lock.py:37-73 | From any reachable state there is a run without a timeout in which everyone finishes and every lock is free |
| TagLocks.NoDeadlock | testenv/azents/testenv/lock.py:52-73 | For any requests and any run so far: not all done means someone can move without a timeout, and a timeout-free completion exists |
| V4APatch.SplitJoin | typescript/packages/azents-session-core/src/v4aPatchPresentation.ts:51-58 | Splitting joined lines gives the lines back; a final newline adds one empty line |
| V4APatch.LinesOfText | typescript/packages/azents-session-core/src/v4aPatchPresentation.ts:51-58 | The lines of a text are the lines it is made of, each ended by a newline with or without a carriage return, the last one terminated or not |
| V4APatch.TrimMeans | typescript/packages/azents-session-core/src/v4aPatchPresentation.ts:26 | Trimming removes exactly the white space at both ends |
| V4APatch.SpacesAre | typescript/packages/azents-session-core/src/v4aPatchPresentation.ts:26 | White space, code point by code point |
| V4APatch.PrintedTexts | typescript/packages/azents-session-core/src/v4aPatchPresentation.ts:25-49 | How each header, hunk start and body line reads, letter by letter |
| V4APatch.Classification | typescript/packages/azents-session-core/src/v4aPatchPresentation.ts:25-49 | The parser's overlapping prefix tests on a line are decided by one token, whatever order they are made in |
| V4APatch.ParseV4APatch | typescript/packages/azents-session-core/src/v4aPatchPresentation.ts:60-182 | The nested index loops terminate and compute the grammar `ParseText`, which the next rows characterise |
| V4APatch.ParseHunkLinesLoop | typescript/packages/azents-session-core/src/v4aPatchPresentation.ts:142-168 | The hunk-line loop consumes exactly the body lines and an optional end-of-file marker |
| V4APatch.ParseHunksLoop | typescript/packages/azents-session-core/src/v4aPatchPresentation.ts:128-173 | The hunk loop consumes exactly the hunks of one file, each with at least one line, or rejects |
| V4APatch.AcceptedExactly | typescript/packages/azents-session-core/src/v4aPatchPresentation.ts:60-182 | A text is accepted as a patch if and only if its lines are the two fences around a rendering of the patch's files: padded non-blank paths, non-empty updates and hunks, optional end-of-file markers |
| V4APatch.PrintThenParse | typescript/packages/azents-session-core/src/v4aPatchPresentation.ts:60-182 | Parsing the printed form of any well-formed patch returns that patch, with or without a final newline |
| V4APatch.ParseThenPrint | typescript/packages/azents-session-core/src/v4aPatchPresentation.ts:60-182 | Whatever is accepted is well formed, and printing it gives back the input lines without end-of-file markers and path padding: every other line is consumed exactly once |
| ToolInput.LexemeIsScalar | typescript/packages/azents-session-core/src/toolInputPresentation.ts:47-50 | The expression matches every JSON scalar in full: the three literals, every number and every string of the grammar in sections 3, 6 and 7 of RFC 8259 |
| ToolInput.LexSpelling | typescript/packages/azents-session-core/src/toolInputPresentation.ts:47-50 | A text with any white space around its tokens lexes to those tokens |
| ToolInput.FormatTokens | typescript/packages/azents-session-core/src/toolInputPresentation.ts:10-37 | The loop computes the formatter `FormatFrom`; a negative depth at `repeat` is its only failure |
| ToolInput.IndentIsSpaces | typescript/packages/azents-session-core/src/toolInputPresentation.ts:17-30 | An indented line starts with two spaces for every level |
| ToolInput.FormatThenLex | typescript/packages/azents-session-core/src/toolInputPresentation.ts:10-37 | Lexing the formatter's output gives back exactly the tokens it was given, for every punctuated token list that formats |
| ToolInput.JsonFormats | typescript/packages/azents-session-core/src/toolInputPresentation.ts:10-37 | The tokens of any JSON value format to its indented text; the depth is never negative and ends at zero |
| ToolInput.JsonPunctuated | typescript/packages/azents-session-core/src/toolInputPresentation.ts:10-37 | In the tokens of a JSON value no two scalars are adjacent, which is what lexing back needs |
| ToolInput.PrettyThenLex | typescript/packages/azents-session-core/src/toolInputPresentation.ts:10-50 | Lexing the indented text of any JSON value gives the value's own tokens |
| ToolInput.ScanValue | typescript/packages/azents-session-core/src/toolInputPresentation.ts:63-78 | The depth scan passes over any value, however deeply nested, without stopping inside it |
| ToolInput.MemberSlice | typescript/packages/azents-session-core/src/toolInputPresentation.ts:63-79 | A field's slice is exactly the member's value tokens |
| ToolInput.ObjectSplits | typescript/packages/azents-session-core/src/toolInputPresentation.ts:51-92 | The tokens of any JSON object, duplicate names included, give one field per member in order; the cursor ends past the closing brace, except that it stays before it for the empty object |
| ToolInput.SplitFields | typescript/packages/azents-session-core/src/toolInputPresentation.ts:51-92 | The cursor loop terminates and computes `FieldsFrom`, which the row above characterises |
| ToolInput.ObjectTextSplits | typescript/packages/azents-session-core/src/toolInputPresentation.ts:40-92 | The same from the text: any object text, with any white space, shows its members, and shows none exactly when a name or a member's value cannot be shown |
| ToolInput.ToolInputPresentation | typescript/packages/azents-session-core/src/toolInputPresentation.ts:40-96 | Fields for an object that splits; the input itself when parsing fails, when the value is no object, or when splitting or decoding fails |
| PendingMailbox.RejoinExact | typescript/packages/azents-session-core/src/pendingMailboxState.ts:132-148 | Splitting a correlation at its first colon and joining it again is the identity exactly when it has a colon |
| PendingMailbox.CorrelationInjective | typescript/packages/azents-session-core/src/pendingMailboxState.ts:34-39 | Different items have different correlations when mailbox ids have no colon |
| PendingMailbox.PendingMailboxReducer | typescript/packages/azents-session-core/src/pendingMailboxState.ts:167-229 | The in-place updates of each action compute `Reduce`, which the rows below characterise |
| PendingMailbox.PutItemsSpec | typescript/packages/azents-session-core/src/pendingMailboxState.ts:75-114 | The item loop enters exactly the unsuppressed items, the last one for a repeated key, all with the mailbox's flag |
| PendingMailbox.WithoutKeepsOrder | typescript/packages/azents-session-core/src/pendingMailboxState.ts:176-191 | Taking an envelope out keeps the others in their order |
| PendingMailbox.StepKeepsInv | typescript/packages/azents-session-core/src/pendingMailboxState.ts:167-229 | Every action keeps: the order lists each current envelope once and nothing else, no entry is stale or missing, one deleting flag per mailbox |
| PendingMailbox.StepRefines | typescript/packages/azents-session-core/src/pendingMailboxState.ts:167-229 | Every action is the action of a simple model that has no index, only envelopes, tombstones and deleting mailboxes |
| PendingMailbox.IndexAgreesWithView | typescript/packages/azents-session-core/src/pendingMailboxState.ts:116-248 | After any actions from the empty state what is selected through the index is exactly the unsuppressed items of the current envelopes in envelope order |
| PendingMailbox.DistinctKeysShowEveryItem | typescript/packages/azents-session-core/src/pendingMailboxState.ts:231-248 | With item keys distinct within each envelope the view is each unsuppressed item itself, once |
| PendingMailbox.SuppressionIsPermanent | typescript/packages/azents-session-core/src/pendingMailboxState.ts:51-62 | After an item is promoted, or its mailbox owned by an action or deleted, no later actions make it selected again |
| PendingMailbox.PromotionCommutesWithBaseline | typescript/packages/azents-session-core/src/pendingMailboxState.ts:116-148 | Promotion of a correlation commutes with every baseline in every state if and only if the correlation has a colon |
| PendingMailbox.ColonlessPromotionDiffers | typescript/packages/azents-session-core/src/pendingMailboxState.ts:132-148 | A concrete baseline on which promotion without a colon does not commute |
| PendingMailbox.PromotionCommutesWithUpsert | typescript/packages/azents-session-core/src/pendingMailboxState.ts:75-148 | Promotion and upsert commute up to deleting flags; and exactly if and only if the promoted item was not the mailbox's only flagged entry or the new envelope shows nothing |
| PendingMailbox.ArrivalOrderIsInvisible | typescript/packages/azents-session-core/src/pendingMailboxState.ts:231-248 | The arrival order of a promotion and an upsert does not change the visible items |
| Transcript.TimelineEvents | typescript/packages/azents-session-core/src/toolActivityPresentation.ts:343-573 | The passes over the events with their result map and seen set compute `Timeline` |
| Transcript.TimelineKeepsEvents | typescript/packages/azents-session-core/src/toolActivityPresentation.ts:343-573 | The timeline is, in order and one entry each, the events that are no tool result, whose tool call some message has, and that are the first provider call with their key |
| Transcript.LastResultAnswers | typescript/packages/azents-session-core/src/toolActivityPresentation.ts:347-355 | A client call is answered by the last tool result with its id |
| Transcript.EntriesAre | typescript/packages/azents-session-core/src/toolActivityPresentation.ts:343-573 | Every entry of the timeline, from its event's kind and the messages: exactly when it is a boundary, hidden or an activity, with which message, call and usage; a tool call is a boundary exactly when it or its message has attachments |
| Transcript.MessageMeans | typescript/packages/azents-session-core/src/toolActivityPresentation.ts:157-170 | An event's message is the first with its id or its render key |
| Transcript.CallMeans | typescript/packages/azents-session-core/src/toolActivityPresentation.ts:172-214 | Otherwise it is the first message that holds the event's call, and the call is found there, among the client calls first |
| Transcript.RenderKeys | typescript/packages/azents-session-core/src/toolActivityPresentation.ts:133-150 | The render key of each kind of event |
| Transcript.MessageIndexMeans | typescript/packages/azents-session-core/src/toolActivityPresentation.ts:152-155 | A message's index is the first place it stands at, or the number of messages |
| Transcript.TimelineIsOk | typescript/packages/azents-session-core/src/toolActivityPresentation.ts:343-573 | Every message on the timeline is an input message, and an activity event carries the message of its place |
| Transcript.ProviderCallsOnce | typescript/packages/azents-session-core/src/toolActivityPresentation.ts:343-573 | No two provider calls on the timeline share a semantic key |
| Transcript.GroupTimeline | typescript/packages/azents-session-core/src/toolActivityPresentation.ts:602-641 | The grouping loop: conservation, order, coverage and ownership at its end |
| Transcript.ProjectChatPresentationItems | typescript/packages/azents-session-core/src/toolActivityPresentation.ts:575-648 | Taken apart, the items are exactly the non-boundary activity events and visible messages of the timeline in timeline order, then the messages still missing in input order; each group covers a range without a cut and ends only at one; nothing repeats; every input message is accounted for |
| Transcript.ProjectionMeans | typescript/packages/azents-session-core/src/toolActivityPresentation.ts:575-648 | So groups are never empty and span no boundary and no action-boundary message; items follow timeline order; a message owned by an earlier item is never shown again; every input message is shown or inside a group |
| Transcript.AttachmentsStayOutside | typescript/packages/azents-session-core/src/toolActivityPresentation.ts:412-428 | A tool call with attachments is in no group, and no group spans one, a run or compaction marker, an action result or an event of another kind |
| Transcript.AttachmentsAreShown | typescript/packages/azents-session-core/src/toolActivityPresentation.ts:620-647 | The message shown for a call with attachments is shown or owned by an item |
| SetupDag.CollectNeeded | testenv/azents/testenv/setup_runner.py:71-81 | The worklist terminates and computes exactly the ids reachable from `wanted`, or names a reachable unknown id |
| SetupDag.StuckHasCycle | testenv/azents/testenv/setup_runner.py:83-94 | Nodes that can never become ready contain a cycle |
| SetupDag.TopologicalHasNoCycle | testenv/azents/testenv/setup_runner.py:83-94 | A graph with a dependency order has no cycle |
| SetupDag.StaticOrder | testenv/azents/testenv/setup_runner.py:83-94 | A dependency order exactly when there is no cycle, whatever order ready nodes come out in |
| SetupDag.ResolveSetupDag | testenv/azents/testenv/setup_runner.py:59-96 | Raises for an unknown id if and only if one is reachable, otherwise for a cycle if and only if one is reachable, otherwise lists each reachable id once after all it needs |
| SetupDag.RunSetup | testenv/azents/testenv/setup_runner.py:102-211 | The branches of the three cases decide as their guards say: when verify is asked, what is skipped, blocked, run or relabelled, and which store is left |
| SetupDag.FreshSetupIsSkipped | testenv/azents/testenv/setup_runner.py:149-191 | Keys that are all there, and fresh or without a verify: skipped, nothing executed and the state unchanged, whatever the world |
| SetupDag.StaleSetupIsVerified | testenv/azents/testenv/setup_runner.py:161-186 | Keys that are all there, one of them stale, with a verify: a passing verify skips and refreshes the keys, a failing one blocks or, if idempotent, runs the handler |
| SetupDag.MissingKeyRunsHandler | testenv/azents/testenv/setup_runner.py:193-208 | A missing key: the handler runs, its exit decides the state left, and a successful reclaim names the outcome |
| SetupDag.KeylessSetup | testenv/azents/testenv/setup_runner.py:127-147 | Without provided keys: verify, if there is one, is always asked, and decides |
| SetupDag.SecondRunIsSkipped | testenv/azents/testenv/setup_runner.py:102-211 | A setup that succeeded or was skipped is skipped the next time in every world while its keys are there |
| SetupDag.RunRequiredSetups | testenv/azents/testenv/setup_runner.py:366-384 | Raises exactly when the resolution does; otherwise the reports and the final store are those of the chain over a dependency order, each setup running from the store the one before it left |
| SetupDag.ChainAt | testenv/azents/testenv/setup_runner.py:366-384 | Each attempt is its setup run from the store left by those before it, and the next one is attempted exactly when this one is not reported as blocked |
| SetupDag.AttemptsAreClosed | testenv/azents/testenv/setup_runner.py:366-384 | Everything an attempted setup needs was attempted before it and not reported as blocked; its execution failed if and only if the guard of the relabelling held for it and its handler did not succeed |
| SetupDag.ContinuesPastFailure | testenv/azents/testenv/setup_runner.py:193-207 | The chain runs on past a failed execution if and only if, on that setup's turn, a provided key was missing and its reclaim succeeded |
| SetupDag.DependentsStopExactly | testenv/azents/testenv/setup_runner.py:193-207 | A run attempts nothing whose dependency's execution failed if and only if that guard hid no failure of a dependency of an attempted setup |
| SetupDag.SafeInEveryRun | testenv/azents/testenv/setup_runner.py:102-211 | For setups with handlers: every run of a resolution, from any store in any world, keeps dependents from running after a failure if and only if no setup that another one needs both provides keys and has a reclaim |
| SetupDag.SafeWithoutRisk | testenv/azents/testenv/setup_runner.py:102-211 | The same without any assumption on handlers, from the static condition to every run |
| SetupDag.FailedDependencyDoesNotStopDependent | testenv/azents/testenv/setup_runner.py:193-207 | The case that shows it, through the whole chain: `app` runs although the execution of `base`, which it needs, failed |
| ImageDownload.RunningOrFiled | scripts/ci/e2e_images.py:127-169 | At every moment each started image is running or has its one result, not both, and at most two are running |
| ImageDownload.NeverMoreThanTwo | scripts/ci/e2e_images.py:127-169 | Two slots at every moment of a whole history |
| ImageDownload.ResultsTellCodes | scripts/ci/e2e_images.py:109-121 | A result is passed exactly when the child of its image was reaped with exit code 0, and cancelled exactly when it died of the kill signal it was sent |
| ImageDownload.UnfailedPassed | scripts/ci/e2e_images.py:109-121 | No failure was seen exactly when every recorded result passed |
| ImageDownload.Refill | scripts/ci/e2e_images.py:133-141 | Starts images in selection order only while no failure is recorded, until the slots or the images run out |
| ImageDownload.Drain | scripts/ci/e2e_images.py:151-169 | Every exit reaps every child, files each once and starts nothing |
| ImageDownload.DownloadAll | scripts/ci/e2e_images.py:123-173 | Every exit leaves no child running and an orderly history: no start after a failure, one result per started image. A normal return has one result per image in selection order, `not_started` exactly for the images never started, and anything but `passed` only if some image is `failed` |
| DockerProvider.MatchesIsCarries | python/apps/azents-runtime-provider-docker/src/azents_runtime_provider_docker/provider.py:422-476 | A container is reused if and only if it agrees with the command and the configuration in image, labels, environment, mounts and hardening, field by field, and is not terminal |
| DockerProvider.KeptOrCreated | python/apps/azents-runtime-provider-docker/src/azents_runtime_provider_docker/provider.py:337-366 | A start keeps the old container exactly then and changes nothing but its state, and otherwise removes it and creates one with the command's generations; either way the container agrees in all these fields and runs |
| DockerProvider.ValidityMeans | python/apps/azents-runtime-provider-docker/src/azents_runtime_provider_docker/provider.py:649-682 | Which commands, cleanup commands and runtime ids are valid, by their fields and characters |
| DockerProvider.ReportMeans | python/apps/azents-runtime-provider-docker/src/azents_runtime_provider_docker/provider.py:618-647 | Which containers a scan lists and can report, and each field of the report with the observed state |
| DockerProvider.RemovalMeans | python/apps/azents-runtime-provider-docker/src/azents_runtime_provider_docker/provider.py:257-263 | Removing and wiping touch one Runtime only |
| DockerProvider.NewIsReusable | python/apps/azents-runtime-provider-docker/src/azents_runtime_provider_docker/provider.py:386-476 | A container the Provider has just created passes its own reuse test |
| DockerProvider.StartConverges | python/apps/azents-runtime-provider-docker/src/azents_runtime_provider_docker/provider.py:337-366 | Reused or recreated, the container is reported as running with the command's desired generation and evidence; other Runtimes and all existing workspaces are unchanged |
| DockerProvider.ConvergesExactly | python/apps/azents-runtime-provider-docker/src/azents_runtime_provider_docker/provider.py:337-476 | Whoever created the containers, start converges if and only if it does not keep a container whose generation label, which reuse does not recheck, is another one |
| DockerProvider.SecondStartIsQuiet | python/apps/azents-runtime-provider-docker/src/azents_runtime_provider_docker/provider.py:337-366 | An immediate second start removes nothing, creates nothing and changes nothing |
| DockerProvider.ProviderGenerationMayBeStale | python/apps/azents-runtime-provider-docker/src/azents_runtime_provider_docker/provider.py:422-476 | The reported Provider generation is the command's if and only if the container was created anew or already carried it: reuse does not refresh it |
| DockerProvider.OldGenerationReported | python/apps/azents-runtime-provider-docker/src/azents_runtime_provider_docker/provider.py:422-476 | The case that shows it: a start under another Provider generation keeps the container just created and its old generation |
| DockerProvider.Provider.EnsureContainer | python/apps/azents-runtime-provider-docker/src/azents_runtime_provider_docker/provider.py:337-366 | The whole effect in every case, error paths included: without a network in the profile the old container can be gone although the call raises |
| DockerProvider.Provider.Start | python/apps/azents-runtime-provider-docker/src/azents_runtime_provider_docker/provider.py:174-183 | Succeeds exactly for a readable CA, a valid command, id and network; then the container is kept or created as said above, and has converged when the Provider is the sole creator; only this Runtime is affected and every existing workspace is kept |
| DockerProvider.Provider.Stop | python/apps/azents-runtime-provider-docker/src/azents_runtime_provider_docker/provider.py:185-201 | Removes this Runtime's container and nothing else, or changes nothing on an invalid command |
| DockerProvider.Provider.Restart | python/apps/azents-runtime-provider-docker/src/azents_runtime_provider_docker/provider.py:203-219 | Removes the container only if its labels name this Runtime and Provider |
| DockerProvider.Provider.Reset | python/apps/azents-runtime-provider-docker/src/azents_runtime_provider_docker/provider.py:221-246 | The workspace is emptied and the container removed or created anew as asked, converged when the Provider is the sole creator; exact error cases with the host each leaves, wiped when creating anew fails; no other Runtime is touched |
| DockerProvider.Provider.TerminalDelete | python/apps/azents-runtime-provider-docker/src/azents_runtime_provider_docker/provider.py:257-277 | Container and workspace of this Runtime are gone, nothing else changes |
| DockerProvider.Provider.ObserveKnownRuntimes | python/apps/azents-runtime-provider-docker/src/azents_runtime_provider_docker/provider.py:305-335 | One report for each listed container with complete evidence, and no other |
| DockerProvider.StartThenScan | python/apps/azents-runtime-provider-docker/src/azents_runtime_provider_docker/provider.py:305-335 | After a successful start the scan reports this Runtime as running with the command's generation and evidence |
| DottedState.GetDotted | testenv/azents/testenv/state.py:337-344 | Reads what stands at the key's path in the nested dictionaries, and nothing when the path breaks off |
| DottedState.SplitThenJoin | testenv/azents/testenv/state.py:340 | Splitting a key at its dots and joining the parts again gives the key, and no part has a dot |
| DottedState.KeyOfParts | testenv/azents/testenv/state.py:340 | A key joined from parts without dots splits into exactly these parts |
| DottedState.FindIsLookup | testenv/azents/testenv/state.py:337-344 | Reading at a path is looking up part after part in the nested dictionaries |
| DottedState.GetParts | testenv/azents/testenv/state.py:337-344 | `_get_dotted` for parts a, b, c is `bucket[a][b][c]`, or nothing when a lookup fails |
| DottedState.SetParts | testenv/azents/testenv/state.py:347-357 | `_set_dotted` read back by the parts of any key: the key gives the value, a longer key reads into it, a shorter one gives a dictionary, and any other key is as before |
| DottedState.NotFound | testenv/azents/testenv/state.py:337-344 | When the walk breaks off, nothing stands at the whole path |
| DottedState.StoreKeepsTree | testenv/azents/testenv/state.py:347-357 | A store keeps the dictionaries a tree: no dictionary ends up at two paths |
| DottedState.FindAfterStore | testenv/azents/testenv/state.py:357 | What stands at every path after the last assignment |
| DottedState.SetDotted | testenv/azents/testenv/state.py:347-357 | In place: the key reads the value; a key extending it reads into the value; a key on the way to it reads a dictionary; every other key reads as before, even when an atom on the way gave way to a dictionary |
| DottedState.ScopedState.HasProvide | testenv/azents/testenv/state.py:90-100 | True exactly when the test case's bucket, if any, or the run scope has the key |
| DottedState.ScopedState.SetRun | testenv/azents/testenv/state.py:77-79 | The dotted-key laws in the run scope; every test case's bucket reads as before; the key is then provided everywhere |
| DottedState.ScopedState.SetTc | testenv/azents/testenv/state.py:85-88 | The dotted-key laws in one test case's bucket, made when missing; the run scope and other buckets read as before |
| History.OrderTellsKeysApart | scripts/ci/history.py:25-30 | Within one cohort rows with equal `order` have equal `key`, although numbers are ordered as text |
| TextOrder.StrLeMeans | scripts/ci/history.py:29-30 | Texts are ordered by the first code point in which they differ, a prefix first |
| History.OrderMeans | scripts/ci/history.py:29-30 | Rows are ordered by creation time upward, then workflow, then run id and attempt as text |
| History.DecimalText | scripts/ci/history.py:30 | Numbers are written in decimal digits, without leading zeros, after a minus if negative |
| History.KeysAndEvidenceMean | scripts/ci/history.py:25-27 | Two rows have one key exactly when workflow, run id, attempt and cohort agree, and the same evidence exactly when everything but the collection directory agrees |
| History.SortCorrect | scripts/ci/history.py:102 | The sort gives an ordered permutation in which rows with equal order keep their relative positions |
| History.ReadBack | scripts/ci/history.py:76-85 | A written file reads back as the dictionary it was written from |
| History.HistoryFile.Append | scripts/ci/history.py:69-108 | The loop over the records computes `Appended`; the file is replaced only when every record is accepted |
| History.AcceptedExactly | scripts/ci/history.py:69-100 | An append is accepted if and only if the analysis suits the history, no record is foreign to the main history, and no record contradicts a row or another record about the same attempt |
| History.RefusalsMean | scripts/ci/history.py:71-74 | Which analyses are refused for their cohort |
| History.AppendMerges | scripts/ci/history.py:69-108 | The result is sorted with unique keys; every row of the file is kept with its first source; every record is there with its evidence; nothing else is |
| History.AppendIsIdempotent | scripts/ci/history.py:89-100 | Appending the same analysis again changes nothing |
| History.AgreeingRecordsMerge | scripts/ci/history.py:89-100 | Records that agree with one body of evidence never conflict, whatever came before, and add exactly their keys |
| History.AppendsCommute | scripts/ci/history.py:69-108 | Two appends in one order are accepted if and only if they are in the other, and then the files hold the same evidence, place by place up to the order of ties, and exactly the same when the file keeps one cohort |
| CommentBudget.HeadingEndsAtFirstMarker | scripts/ci/build_comment.py:31 | The heading is what stands before the first `<details>` |
| CommentBudget.BriefMeans | scripts/ci/build_comment.py:31-36 | The terse form is the first 1000 characters of the heading followed by the note |
| CommentBudget.ChosenMeans | scripts/ci/build_comment.py:23-30 | Each summary is shown whole exactly when, after everything before it, it leaves 300 characters for each summary not yet shown and 2000 for the end |
| CommentBudget.PartsMean | scripts/ci/build_comment.py:14-37 | The parts in their order: workflow, duration, heading, the summaries or the notice that there are none, footer |
| CommentBudget.JoinMeans | scripts/ci/build_comment.py:38 | One line break between two parts |
| CommentBudget.Combine | scripts/ci/build_comment.py:13-40 | The budget loop computes `AllParts`; it raises exactly when the joined output is too long |
| CommentBudget.OutputLength | scripts/ci/build_comment.py:23-40 | For any summaries the output outgrows the budget only by what the terse forms exceed their 300 characters |
| CommentBudget.NeverRaises | scripts/ci/build_comment.py:23-40 | With terse forms of at most 300 characters and initial parts within their share it never raises, for any number of summaries of any length |
| CommentBudget.NeverRaisesExactly | scripts/ci/build_comment.py:13-40 | The exact threshold: for any initial parts, any number of summaries and any bound on terse forms from 300 characters to the largest possible, it never raises if and only if the furthest the summaries can reach, with footer and line breaks, is within the limit |
| CommentBudget.ChosenWithinReach | scripts/ci/build_comment.py:23-37 | No summaries with terse forms within the bound reach further than the first one filling the reserve, or being terse, and all others being terse |
| CommentBudget.FurthestReaches | scripts/ci/build_comment.py:23-37 | Summaries that reach exactly that far |
| CommentBudget.FourSummariesCanRaise | scripts/ci/build_comment.py:31-40 | With the headings the code allows, four or more summaries can make it raise, however short the initial parts |
| CommentBudget.ThreeSummariesNeverRaise | scripts/ci/build_comment.py:23-40 | Up to three summaries never make it raise while the initial parts stay within 56000 characters |
| CommentBudget.NothingOmitted | scripts/ci/build_comment.py:23-32 | Summaries that fit together are all shown whole |
| CommentBudget.LongHeadingsRaise | scripts/ci/build_comment.py:31-40 | A concrete case: sixty long summaries with long headings raise although the initial parts keep to their share |

## Left out

- Distinct elector identities, and no edits of the Lease by anything but electors, are assumed.
- A call of an elector counts its term from the Lease of its last success and reads the clock before it reads the Lease, as the callers do; clock skew between processes is not modelled.
- TagLocks.ExclusiveResource: the sequential form sees locks held by others as fixed during the call; how they change meanwhile is in the step model.
- Nested calls of `exclusive_resource` in one process, failures of `release` and the creation of the lock directory.
- V4APatch.PrintThenParse: line contents must be free of newlines and of a final carriage return, which no single line can carry; characters are code points, so a line is trimmed by ECMAScript's set of white space and line terminators.
- ToolInput.ToolInputPresentation: the verdict and the value of `JSON.parse`, and the decoding of a string token, are parameters; the grammar of values and scalars is that of RFC 8259, and an input is related to its tokens by any spelling with white space between them.
- PendingMailbox.IndexAgreesWithView: mailbox ids with a colon are excluded, because correlations of different items could then be equal; envelopes carry only what the reducer reads.
- JavaScript objects as dictionaries keep no inherited or integer-like key order here; mailbox maps are looked up by key only.
- Transcript.TimelineEvents: tool categories, statuses, titles and failure details of events are not modelled; calls carry only identity and attachments.
- Transcript.ProjectChatPresentationItems: messages are compared by value where the code looks them up by reference, so two equal messages in the input share the first one's index.
- `durableMailboxCorrelation`, `actionMailboxItemId` and `pendingMailboxWaitsForModel`: flat decoding of payloads.
- SetupDag.RunSetup: subprocesses, verification and reclaim are answers of an arbitrary world; a reclaim does not change the stored provides in memory; stale means what the freshness check says. Batches of ready nodes come out in an arbitrary order.
- SetupDag.SafeInEveryRun: a setup without a handler is blocked whenever it is executed, so it can stop every run before a dependent; such setups are in SetupDag.SafeWithoutRisk and SetupDag.DependentsStopExactly only.
- ImageDownload.DownloadAll: the selected images are distinct, as the selection is; process start, exit codes and the order of completion are arbitrary; timestamps and log files are left out. An exception while the result of an ended child is read, or while children are drained, is not modelled. The outer loop is bounded by the number of images because each round waits until one child ends.
- DockerProvider.StartConverges: assumes a positive evidence sequence, without which a sequence cannot be serialized; labels and environment inherited from the image are left out.
- DockerProvider.Provider.EnsureContainer: a container that was started is running; directory permissions, the CA file's contents and paths are left out, and container names are injective in runtime ids.
- `observe`, `update_configuration` and diagnostics of the Docker Provider, and the other Providers.
- DottedState.SetDotted: the value's own dictionaries share none with the state; a value that aliases part of the state is not modelled.
- DottedState.ScopedState.SetRun: the same; the value shares no dictionary with any scope.
- DottedState.ScopedState.SetTc: the same; the value shares no dictionary with any scope.
- The finalizer stack, verification timestamps and file format of the setup state.
- History.HistoryFile.Append: one JSON line per row is taken to round-trip, and the temporary file and rename are one step; values that are unequal to themselves are left out.
- CommentBudget.Combine: lengths count characters as the code does; collecting the summaries from files is left out.
- Kubernetes, Docker, HTTP and gRPC clients, LLM provider hooks, seed and live API clients, devserver commands, rendering and label tables: mostly calls into unseen code or flat tables.
