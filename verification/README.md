# PilotDeck: a model of routing, sessions, transcripts, statistics and parsers, with proofs

This project models the parts of PilotDeck whose behaviour spans many calls, and proves what they promise over
all inputs, all runs and all environments.

* **Routing, execution** (`ModelStream`, `RouterExecute`, `RouterRuns`, `RouterTheorems`, `RouterWorstCase`,
  `RouterConsumer`, `RouterBooking`, `RouterMonitor`). One `execute` is a nested machine of fallbacks, transient
  retries and zero-usage retries over an arbitrary provider. The imperative `Execute` streams event by event with its
  queue of framing events; its contract says that its effects are those of `Buffered`, which looks at whole answers
  only. The theorems are about `Buffered`; among them, that a monitor which reads nothing but the trace and the
  provider's answers accepts every run.
* **Routing, decisions** (`RouterStore`, `RouterDecide`, `RouterRouting`, `RouterCapacity`, `RouterEpochs`,
  `RouterOrchestration`). `decide` and `invalidateSticky` on the real store, which expires and evicts. The theorems
  say what a decision says, what one session's main agent can be influenced by, how often it is judged, and when it
  orchestrates.
* **Sessions and project runtimes** (`Gateway`, `GatewayFreshness`, `GatewayAccounting`, `GatewayProjects`,
  `GatewayServers`, `GatewayTurns`, `GatewayRecords`, `GatewayObjects`, `MemoryMaintenance`). `Gateway` is the state
  machine, `GatewayObjects` the two classes whose methods are proved to follow it. A clock counts configuration
  changes; a runtime remembers at which count it was loaded.
* **Transcripts** (`Transcript`, `TranscriptContent`). Pairing of tool calls and results, what the model reads of
  them, and what the ways of cutting a conversation do to it.
* **Statistics** (`Buckets`, `Dashboard`, `DashboardFigures`, `RequestLog`). Buckets, sessions, projects and lifetime
  summary; the attribution of logged requests to user turns.
* **Parsers, normalisers, identifiers** (`Text`, `Markdown`, `MarkdownRoundTrip`, `MarkdownLines`, `ProjectSlugs`,
  `ProjectIds`, `ProjectIdRuns`, `GitStatus`, `GitQuoting`, `GitStatusRoundTrip`, `Permissions`).

`Options` and `Sets` hold what several modules share.

Several natural expectations do not hold of the code in general. For each of them there is a statement that says
exactly when it holds:

* Sessions are isolated in routing unless a session id ends in `:sub` (`AliasIsExact`) or a run uses more keys than
  the store has slots (`RoomIsExact`).
* A session that orchestrates stops doing so at a decision for which there is nothing to inject or to strip, and
  starts again only at a trigger tier (`OrchestratesFromTrigger`).
* A failed `execute` whose provider reported its error as an event is never booked when the agent loop is the
  consumer, because the loop leaves at that event (`LoopBooksFailureIffThrown`, `RefusalIsNotBooked`).
* A change of one project's extensions misses sessions that got the project by default or under another spelling
  (`ProjectChangeSeenIffMissed`, `DefaultProjectGoesStale`).
* Replacing the subsystems, which a reload does some time after it has marked the sessions, marks none itself and so
  misses every session built since (`SubsystemsSeenIffNotDirty`, `SubsystemsGoStale`); runs in which no request comes
  between the marking and the replacing are fresh (`MarkedRunsAreFresh`).
* A session built for the default project is handed to a later request for another project, whose name its record then
  bears (`RequestMatchesIff`, `RunMatchesIff`, `DefaultSessionIsAdopted`).
* A change of one project's extensions stops the tool servers of all sessions, and those of other projects go on with
  tools whose servers are gone (`StepServesIff`, `RunServesIff`, `OtherProjectIsStranded`).
* A session that fails to build after its tool servers started leaves them without an owner (`GetKeepsOwnedIffNoLeak`,
  `FailedRequestLeaks`).
* `toolPairSafeSlice` reads before the start of a transcript that consists of result messages up to the cut
  (`SafeSliceMeaning`, `ResultsOnlyReadBeforeStart`). No conversation of the agent loop is such a transcript, so only
  other callers can reach that read (`ConversationsArePaired`, `ApartIsSliced`).
* The truncation by ratio can separate calls from results (`TruncateHeadPairedIff`, `HalfAPairIsUnpaired`).
* A path whose `.cwd` marker reads back differently, such as one with a trailing blank, changes its project id when it
  is added again (`ReAddIffStable`) and loses its directory to the path its marker reads back as, if both have one
  slug (`TakenOverIff`, `NobodyLosesIffNoClash`, `AdditionsLoseNobodyIff`).
* Deleting a project can move another one, which then has two directories (`DeletionMovesIff`, `DeletionDuplicates`,
  `DashMoves`). Deleting a path that was never added takes the directory of the path that has its slug
  (`DeletionTakesOthersIff`).
* A slug is one dot or two for paths such as `/-..` (`LegacyIdIsSegment`), and so names the directory of projects or
  the home itself. A path gets such an id iff that directory does not exist yet or is marked with it; it is then not
  found again (`DotsAllocatedIff`, `FoundAfterAddingIff`, `AllFoundIffDotsTaken`); deleting one without a marker
  removes everything (`UnmarkedDotsRemoveAll`, `DeletedTwiceLeavesNothing`).
* Git status shows a quoted name for every file whose path git quotes, keeps the similarity score in the path of
  renamed files, drops unmerged ones, and trims the branch name (`ReportReadsBackIff`).
* A permission rule turns back into its entry only for well-cut entries (`RuleInvertsIff`,
  `IndentedPatternDoesNotInvert`).

## Model

| member | source | states |
|---|---|---|
| ModelStream.LastError | src/router/RouterRuntime.ts:712-726 | an answer has an error exactly if it holds an error event |
| ModelStream.ZeroUsageMeaning | src/router/retry/zeroUsageRetry.ts:18-53 | an answer is retried for zero usage iff it finished without error, showed no text or tool input, and its last usage report, if any, counts no tokens |
| RouterExecute.Pump | src/router/RouterRuntime.ts:420-444 | reading an answer event by event: everything is shown once there is content and everything is held back otherwise, and the state, error and content flag are those of the whole answer |
| RouterExecute.LiveTry | src/router/RouterRuntime.ts:410-567 | one pass of the inner loop has exactly the effects and the continuation that the answer as a whole calls for |
| RouterExecute.LiveAttempt | src/router/RouterRuntime.ts:409-567 | all calls of one attempt are the next part of the buffered run |
| RouterExecute.Execute | src/router/RouterRuntime.ts:356-609 | live streaming terminates and refines the buffered run: same events, calls, retries, waits and records, in the same order, with the same result |
| RouterExecute.OneTry | src/router/RouterRuntime.ts:410-567 | a call that is not the last moves to the next attempt or uses up one of the retries left |
| RouterTheorems.OutputIsLastAnswer | src/router/RouterRuntime.ts:411-567 | in every run, answers that are retried or fallen back from contribute no event; success shows exactly the last answer; failure shows it and ends with the error |
| RouterTheorems.FailureKeepsContent | src/router/RouterRuntime.ts:504-511 | although framing events of a failed answer are emitted twice, no content event is, and the last event is the error |
| RouterRuns.CallBound | src/router/RouterRuntime.ts:362-412 | a run of n attempts makes at most n * Z + T provider calls |
| RouterWorstCase.CallBoundIsReached | src/router/RouterRuntime.ts:458-533 | for every configuration some provider makes a run reach that bound |
| RouterRuns.BackOffBound | src/router/RouterRuntime.ts:480-533 | the waits of a run add up to at most n * 250 * Z * (Z - 1) + T * maxDelay milliseconds |
| RouterTheorems.RunIsBookedOnce | src/router/RouterRuntime.ts:544-607 | statistics are recorded once for every run that succeeds or fails and never otherwise; the usage cache is updated exactly on success |
| RouterTheorems.SameMessages | src/router/RouterRuntime.ts:339-354 | all attempts send the same messages to their own provider and model, so the budget excludes all of them or none |
| RouterTheorems.BudgetStopsFirst | src/router/RouterRuntime.ts:396-407 | a run stops for the sub-agent budget iff its first request exceeds it, and then before any provider call |
| RouterTheorems.RunWalksAttempts | src/router/RouterRuntime.ts:382-478 | fallback events form a chain from attempt 0; every call and record belongs to the attempt reached so far; transient retries happen in the last attempt only |
| RouterConsumer.LoopBooksFailureIffThrown | src/agent/loop/AgentLoop.ts:266-277 | read by the agent loop, a successful run is booked once, a failed one iff its last answer held no error event |
| RouterConsumer.RefusalIsNotBooked | src/agent/loop/AgentLoop.ts:266-277 | under every configuration, a provider that answers with an error event makes a run that `execute` would book and the loop does not |
| RouterBooking.RunBooksLastAnswer | src/router/RouterRuntime.ts:543-607 | in every run the usage cache and the statistics receive what the last answer reported last, if that counts input or output, and otherwise the estimates for the messages sent, or, if the run failed, those of the request, and for the answer |
| RouterMonitor.EveryRunIsAccepted | src/router/RouterRuntime.ts:356-609 | a monitor that reads the trace accepts every run: each call goes to the model due in its attempt and carries the decision's patch; each fallback and retry has its reason in the last answer, of which nothing was shown, and is within its limit; each wait is as long as it has to be; records name the attempt and come after the whole answer; and a run ends only where no fallback or retry is left |
| RouterMonitor.LastErrorMeaning | src/router/RouterRuntime.ts:712-726 | the error of an answer is that of its last error event |
| RouterMonitor.FailedOutputMeaning | src/router/RouterRuntime.ts:500-607 | what a failed answer shows: all its events, once more all but its errors if it showed nothing live, and the error |
| RouterMonitor.BudgetNotice | src/router/RouterRuntime.ts:396-407 | a run over budget names the tokens counted and the budget, ends the message, and does nothing else |
| RouterStore.SharedKey | src/router/session/SessionRouterStore.ts:79-81 | two owners share a slot iff they are equal, or one is the main agent of the other's sub-agent id followed by ":sub" |
| RouterStore.SessionRouterStore.Get | src/router/session/SessionRouterStore.ts:30-43 | returns a live state and makes it the most recently used; forgets an expired one |
| RouterStore.SessionRouterStore.Set | src/router/session/SessionRouterStore.ts:45-65 | stores the newest slot last, keeps keys distinct and the size within capacity |
| RouterStore.LookupAfterGet | src/router/session/SessionRouterStore.ts:30-43 | a read changes no lookup except that of an expired key |
| RouterStore.LookupAfterSet | src/router/session/SessionRouterStore.ts:45-65 | a written slot is found again |
| RouterStore.WriteKeepsOthers | src/router/session/SessionRouterStore.ts:52-63 | a write leaves another key alone iff that key has no slot, or the written one has, or there is room, or the other one is not among the oldest |
| RouterStore.UseMakesYoungest | src/router/session/SessionRouterStore.ts:30-65 | a key that is read while live, or written again, becomes the youngest, and the others stay in their order |
| RouterDecide.FirstOfferWins | src/router/RouterRuntime.ts:155-268 | the chosen model is the first offered by remembered model, judge, custom router, scenario, hint and default; there is none iff none offers one; a tier needs the token saver |
| RouterDecide.RouterRuntime.ChooseModel | src/router/RouterRuntime.ts:150-244 | custom route, scenario, sticky model and judge are combined as `SaverChoice` says, reading the store only when a sticky model is looked for |
| RouterDecide.RouterRuntime.Decide | src/router/RouterRuntime.ts:135-337 | the decision and the whole store afterwards are those of `DecideOn` |
| RouterDecide.RouterRuntime.InvalidateSticky | src/router/RouterRuntime.ts:624-649 | the answer and the whole store afterwards are those of `InvalidateOn` |
| RouterRouting.StepFromReads | src/router/RouterRuntime.ts:135-337 | in a store with room, a call's outcome and its new slot depend on its own two reads only |
| RouterRouting.OtherStep | src/router/RouterRuntime.ts:319-328 | in a store with room, a call of another key leaves a session's slot alone |
| RouterRouting.StoreRefinesCell | src/router/RouterRuntime.ts:135-201 | in a run that fits the store, the shared store acts for each main agent like a cell of its own |
| RouterRouting.NonInterference | src/router/RouterRuntime.ts:135-201 | a main agent's outcomes equal those of the run with all other calls deleted |
| RouterRouting.AliasInterferes | src/router/session/SessionRouterStore.ts:79-81 | a sub-agent of session a changes what the main agent of session a:sub gets |
| RouterCapacity.RoomIsExact | src/router/session/SessionRouterStore.ts:45-65 | all runs of up to n keys are free of interference iff the store has n slots |
| RouterCapacity.AliasIsExact | src/router/session/SessionRouterStore.ts:79-81 | in runs that fit the store a session is never interfered with iff its id does not end in ":sub" |
| RouterEpochs.DecideCommits | src/router/RouterRuntime.ts:167-226 | with the token saver on, a decision remembers its tier and model and is judged exactly if none was remembered |
| RouterEpochs.JudgeAtMostOncePerEpoch | src/router/RouterRuntime.ts:167-328 | between clearing invalidations a main agent is judged at most once, all decisions have one tier, and one model unless orchestration overrides it |
| RouterEpochs.InvalidationEndsEpochIffClearing | src/router/RouterRuntime.ts:624-649 | after an invalidation the next decision is judged again iff the session was not orchestrating with a tier |
| RouterOrchestration.HintMeaning | src/router/RouterRuntime.ts:228-238 | a hint names a model iff it is a provider without slash, a slash and a model, neither of them empty |
| RouterOrchestration.DecideMeaning | src/router/RouterRuntime.ts:135-337 | for every store, what each field of a decision says and what the slot holds afterwards: it orchestrates iff that is on, the agent is the main one, something is injected or stripped, and it did before or the tier triggers; the model is that of the sub-agents, or of the main agent while orchestrating, or else the first offer |
| RouterOrchestration.InvalidateMeaning | src/router/RouterRuntime.ts:624-649 | an invalidation answers with what it finds, and leaves model and tier behind only while the session orchestrates with a tier |
| RouterOrchestration.OrchestratesFromTrigger | src/router/RouterRuntime.ts:260-328 | in every run of a store with room, a session orchestrates from its first decision with a trigger tier on, through later tiers and invalidations, as long as every decision has something to inject or strip, and never otherwise |
| GatewayFreshness.StepKeepsFresh | src/gateway/SessionRouter.ts:50-71 | every step keeps all cached runtimes and all non-dirty records current, and hands out current sessions only |
| GatewayFreshness.ProjectChangeKeepsFreshIffMarked | src/cli/createLocalGateway.ts:1074-1079 | a change of one project's extensions keeps that invariant iff every session built for the project names it verbatim in its context |
| GatewayFreshness.ProjectChangeSeenIffMissed | src/gateway/SessionRouter.ts:116-126 | after a change of one project's extensions some request is handed a stale session iff the change missed one |
| GatewayFreshness.SubsystemsKeepFreshIffDirty | src/cli/createLocalGateway.ts:476-483 | replacing the subsystems keeps the invariant iff all sessions are dirty already |
| GatewayFreshness.SubsystemsSeenIffNotDirty | src/cli/createLocalGateway.ts:476-483 | after the subsystems were replaced some request is handed a stale session iff some session was not dirty |
| GatewayFreshness.ReloadFindsDirty | src/cli/pilotdeck.ts:129-175 | a reload that replaces the subsystems later finds all sessions dirty if none is requested in between |
| GatewayFreshness.SubsystemsGoStale | src/cli/createLocalGateway.ts:476-483 | a session that names its project by the resolved path is handed out stale after the subsystems were replaced |
| GatewayFreshness.RunStaysFresh | src/cli/createLocalGateway.ts:183-213 | in every run whose changes find the sessions they concern, every session handed out was loaded no earlier than the last change |
| GatewayFreshness.ConfigFreshness | src/cli/createLocalGateway.ts:183-213 | in every run of requests, turns, closes, sweeps and global changes, with subsystems replaced only while all sessions are dirty, every session handed out is current |
| GatewayFreshness.MarkedRunsAreFresh | src/cli/pilotdeck.ts:125-175 | the same for every list of events, whatever states it leads to, in which each replacement comes before the first request, or after a change that marks all sessions with no request in between |
| GatewayFreshness.GlobalChangesAreSeen | src/cli/createLocalGateway.ts:183-213 | in particular, for every list of events without changes of single projects and without replacements |
| GatewayFreshness.NamedRunsAreFresh | src/cli/createLocalGateway.ts:497-503 | if every request names its project by the resolved path, and subsystems are replaced only while all sessions are dirty, no change is missed |
| GatewayFreshness.NamedMarkedRunsAreFresh | src/cli/createLocalGateway.ts:497-503 | if every request names its project by the resolved path, and replacements come after marking in the list of events, no change is missed, those of single projects included |
| GatewayFreshness.DefaultProjectGoesStale | src/gateway/SessionRouter.ts:116-126 | a session that got the default project is handed out stale after that project's extensions changed |
| GatewayAccounting.ToolServersBalance | src/cli/createLocalGateway.ts:685-705 | over every run, started per-session runtimes are the live ones plus the stopped ones, each stopped once, and the live ones stay within the limit |
| GatewayAccounting.GetKeepsOwnedIffNoLeak | src/cli/createLocalGateway.ts:640-732 | a request keeps live runtimes owned by live sessions iff it does not fail between starting servers and recording a new session |
| GatewayAccounting.FailedRequestLeaks | src/cli/createLocalGateway.ts:640-732 | a first request that fails after its tool servers started leaves them running for a session that is not there |
| GatewayAccounting.ServersBelongToSessions | src/cli/createLocalGateway.ts:378-384 | in every run without such a failure, the key of every live runtime is a live session |
| GatewayAccounting.SweepIsExact | src/gateway/SessionRouter.ts:169-180 | a sweep removes exactly the records idle past the timeout and not in flight, and evicts each once |
| GatewayAccounting.StepEvictions | src/gateway/SessionRouter.ts:50-105 | every step removes and adds exactly the named sessions, and evicts once per removal and per rebuild of a dirty record |
| GatewayAccounting.SessionsBalance | src/gateway/SessionRouter.ts:50-105 | over every run, live sessions = added - removed, and evict callbacks = removals + rebuilds |
| GatewayAccounting.ProjectKeyIsStable | src/gateway/SessionRouter.ts:187-196 | the project of a live record never changes once it is set |
| GatewayAccounting.TurnHoldsUntilReleased | src/gateway/SessionRouter.ts:73-91 | over every run a turn keeps its slot, its session and its exclusion until an end with its own run id, or with none |
| GatewayAccounting.TurnsExclude | src/gateway/SessionRouter.ts:73-91 | between two admitted turns of one session the first was released |
| GatewayTurns.SlotAfter | src/gateway/SessionRouter.ts:73-91 | a run holds the slot of a session after an event iff it did before and the event does not release it, or the event begins its turn in a free slot |
| GatewayTurns.AdmittedIffReleased | src/gateway/SessionRouter.ts:73-91 | in every run a turn is admitted iff the turn of its session that was admitted last, if any, was released since, by an end with its run id or with none |
| GatewayRecords.RecordAfter | src/gateway/SessionRouter.ts:50-126 | what an event makes of a record it does not remove: its session, its last use, its context, and whether it has to be built again |
| GatewayRecords.RecordMade | src/gateway/SessionRouter.ts:50-71 | where there is no record, only a request that builds the session makes one |
| GatewayRecords.RecordsBearLastUse | src/gateway/SessionRouter.ts:50-105 | in every run the record of a live session bears the time of its last use: a request that got it, an end of a turn or an abort |
| GatewayRecords.PrepareMeaning | src/cli/createLocalGateway.ts:640-732 | building a session loads the runtime of its project if there is none, gives it tool servers of its own iff the project wants them and the limit leaves room, and succeeds iff nothing fails |
| GatewayRecords.PrepareServers | src/cli/createLocalGateway.ts:685-705 | exactly then one more runtime is started for the session, and the one it had is stopped |
| GatewayRecords.RuntimeAfter | src/cli/createLocalGateway.ts:444-520 | a project's runtime stays until a change drops it, and is loaded only when there is none |
| GatewayRecords.ChangeIsCounted | src/cli/createLocalGateway.ts:444-483 | every change is counted for exactly the projects it concerns, and drops their runtimes |
| GatewayProjects.RequestMatchesIff | src/gateway/SessionRouter.ts:50-71 | where records and sessions agree, a request hands out the session of the project its record names, and keeps them in agreement, iff it does not name a project for a session built without |
| GatewayProjects.RunMatchesIff | src/gateway/SessionRouter.ts:187-196 | in a run, all sessions that are not dirty were built for the project their record names, at all times, iff no request does that |
| GatewayProjects.DefaultSessionIsAdopted | src/gateway/SessionRouter.ts:187-196 | a session of the default project is handed to a request for another project |
| GatewayServers.StepServesIff | src/cli/createLocalGateway.ts:444-468 | every step keeps the tool servers of all sessions that are not dirty live, iff it does not stop all of them and leave a session that has some unmarked |
| GatewayServers.RunServesIff | src/cli/createLocalGateway.ts:685-705 | in a run, all sessions that are not dirty have their tool servers, at all times, iff no event does that |
| GatewayServers.OtherProjectIsStranded | src/cli/createLocalGateway.ts:444-468 | a change of one project's extensions takes the tool servers from a session of another project |
| GatewayObjects.ProjectRuntimeRegistry.constructor | src/cli/createLocalGateway.ts:334-371 | a new registry is empty |
| GatewayObjects.ProjectRuntimeRegistry.EvictSessionMcp | src/cli/createLocalGateway.ts:378-384 | stops and forgets the runtime of one session, if it has one |
| GatewayObjects.ProjectRuntimeRegistry.StopAllSessions | src/cli/createLocalGateway.ts:445-448 | stops every per-session runtime once |
| GatewayObjects.ProjectRuntimeRegistry.InvalidateRuntimes | src/cli/createLocalGateway.ts:444-468 | stops all per-session runtimes and drops one project's runtime or all |
| GatewayObjects.ProjectRuntimeRegistry.UpdateSubsystems | src/cli/createLocalGateway.ts:476-483 | stops all per-session runtimes and drops all runtimes |
| GatewayObjects.ProjectRuntimeRegistry.ResolveProject | src/cli/createLocalGateway.ts:497-573 | returns the cached runtime, or loads and caches one |
| GatewayObjects.ProjectRuntimeRegistry.PrepareSessionRuntime | src/cli/createLocalGateway.ts:679-732 | the state and the result are those of `Prepare`, for every way building can fail |
| GatewayObjects.SessionRouter.constructor | src/gateway/SessionRouter.ts:45-48 | a new router has no sessions and no turns |
| GatewayObjects.SessionRouter.SweepIdle | src/gateway/SessionRouter.ts:169-180 | visiting the records one by one removes the idle ones all at once, in any order |
| GatewayObjects.SessionRouter.GetOrCreate | src/gateway/SessionRouter.ts:50-71 | session, records, runtimes and evictions are those of the state machine |
| GatewayObjects.SessionRouter.BeginTurn | src/gateway/SessionRouter.ts:73-80 | sweeps, and admits the turn iff none is in flight |
| GatewayObjects.SessionRouter.EndTurn | src/gateway/SessionRouter.ts:82-91 | frees the slot iff no run id is given or the run holds it, and touches the record |
| GatewayObjects.SessionRouter.Close | src/gateway/SessionRouter.ts:101-105 | removes the record and stops its tool servers, if there is one |
| GatewayObjects.SessionRouter.MarkAllDirty | src/gateway/SessionRouter.ts:107-114 | marks every record and counts them |
| GatewayObjects.SessionRouter.MarkProjectDirty | src/gateway/SessionRouter.ts:116-126 | marks exactly the records whose context names the project and counts them |
| GatewayObjects.HandleConfigChange | src/cli/createLocalGateway.ts:183-204 | an empty change or one that only a restart applies changes nothing; any other invalidates and marks everything |
| GatewayObjects.HandleExtensionChange | src/cli/createLocalGateway.ts:1060-1080 | a global change invalidates and marks everything, a project's change that project |
| MemoryMaintenance.ProjectRuntime.ScheduleMemoryMaintenance | src/cli/createLocalGateway.ts:575-582 | a request sets the flag and starts the loop iff there is none |
| MemoryMaintenance.ProjectRuntime.RunLoop | src/cli/createLocalGateway.ts:581-593 | the loop up to its next await: one run if requested, which may fail at once |
| MemoryMaintenance.ProjectRuntime.RunSettled | src/cli/createLocalGateway.ts:582-594 | the end of a run goes back to the head of the loop |
| MemoryMaintenance.ProjectRuntime.Finally | src/cli/createLocalGateway.ts:595-600 | the callback clears the loop and schedules again iff a request is pending |
| MemoryMaintenance.OneRunAtATime | src/cli/createLocalGateway.ts:575-600 | under every interleaving at most one run is active and there are never more runs than requests |
| MemoryMaintenance.LoopNeverSticks | src/cli/createLocalGateway.ts:581-600 | while there is a loop, exactly one event other than a request can happen next |
| MemoryMaintenance.NoLostWakeUp | src/cli/createLocalGateway.ts:575-600 | every request is followed by a run that starts with it or later, at the latest at the next event that is not a request |
| MemoryMaintenance.StepMeaning | src/cli/createLocalGateway.ts:575-600 | a run starts iff one is requested where the loop is at its head; the loop is gone iff its callback finds nothing requested; a request is kept pending iff the loop is there |
| MemoryMaintenance.RequestsAreRunsOrJoined | src/cli/createLocalGateway.ts:575-600 | in every run of events each request has a run of its own, or is pending, or was joined to one that was pending |
| Transcript.EnsureToolResultPairing | src/agent/loop/ensureToolResultPairing.ts:4-18 | the loops with their map return `Pairing` |
| Transcript.PairingMeaning | src/agent/loop/ensureToolResultPairing.ts:10-17 | one result per call, in order: the last one returned for its id, or the error result iff there is none |
| Transcript.ProjectToolResults | src/agent/loop/projectToolResults.ts:28-46 | one message with every result in order, then the supplemental messages in order |
| Transcript.SupplementsArePlain | src/agent/loop/projectToolResults.ts:36-43 | supplemental messages hold neither calls nor results |
| Transcript.AppendTurn | src/agent/loop/AgentLoop.ts:536-562 | the assistant message and, iff it calls tools, the projection of the paired results are appended |
| Transcript.TurnKeepsPaired | src/agent/loop/AgentLoop.ts:536-562 | whatever results came back, a turn keeps "every call has exactly one result, in order, in the next message, and there are no others" |
| TranscriptContent.ProjectionShowsResults | src/agent/loop/projectToolResults.ts:28-46 | the first message holds each result's call id, error flag and output, or the text for no output iff there is none, in order; each supplemental message follows at its place with its words and data |
| TranscriptContent.TurnAnswersCalls | src/agent/loop/AgentLoop.ts:536-562 | after a turn each call is answered with the output of the last result for its id, or with an error if there is none, and the messages before are as they were |
| TranscriptContent.CallsAppend | src/agent/loop/collectToolCalls.ts:3-11 | the calls of a message are its call blocks, in order |
| Transcript.ToolPairSafeSlice | src/context/NullContextRuntime.ts:49-57 | the loop returns `SafeSlice`, where the code's read of messages[-1] is an outcome of its own |
| Transcript.SafeSliceMeaning | src/context/NullContextRuntime.ts:45-57 | the shortest suffix of at least max messages that does not start with a result message, or a read before the start iff there is none |
| Transcript.SuffixPairedIff | src/context/NullContextRuntime.ts:45-57 | a suffix of a paired transcript is paired iff it does not start with a result message |
| Transcript.SlicePaired | src/context/NullContextRuntime.ts:45-61 | slicing a paired transcript never fails, keeps it paired and keeps at least max messages |
| Transcript.TruncateHeadPairedIff | src/agent/loop/AgentLoop.ts:1249-1253 | truncation by ratio keeps pairing iff the cut is not before a result message |
| Transcript.HalfAPairIsUnpaired | src/agent/loop/AgentLoop.ts:1249-1253 | keeping half of a call and its result keeps the result alone |
| Transcript.ResultsOnlyReadBeforeStart | src/context/NullContextRuntime.ts:52-54 | two messages of results sliced to one are read before their start |
| Transcript.PrefixPairedIff | src/agent/loop/AgentLoop.ts:1261-1276 | a prefix of a paired transcript is paired iff it does not end with a call |
| Transcript.StripKeepsPaired | src/agent/loop/AgentLoop.ts:1261-1276 | dropping the trailing error pair keeps a paired transcript paired |
| TranscriptContent.StrippedIs | src/agent/loop/AgentLoop.ts:1261-1276 | dropping a failed pair drops a last message of nothing but results, and then a last one of the assistant's |
| Transcript.StepKeepsPairedIff | src/agent/loop/AgentLoop.ts:381-562 | of all that happens to a transcript, only a cut that hits a result message breaks pairing |
| Transcript.ApartIsSliced | src/context/NullContextRuntime.ts:49-57 | a transcript without two messages of results side by side can be sliced to any number of messages |
| Transcript.TalkStaysApart | src/agent/loop/AgentLoop.ts:381-562 | no conversation ever has two messages of results side by side, wherever its head is cut |
| Transcript.ConversationsArePaired | src/context/NullContextRuntime.ts:45-61 | slicing succeeds in every conversation; in every conversation whose cuts are clean, the transcript and every slice of it shown to the model are paired |
| Buckets.GroupMeaning | ui/server/pilotdeck-bridge.js:1609-1656 | each bucket of a table is the sum of exactly the records with its key, and there is a bucket iff there is such a record |
| Buckets.GroupConserves | ui/server/pilotdeck-bridge.js:1622-1656 | in every dimension and every field, the buckets add up to the sum of all records |
| Buckets.GroupAppend | ui/server/pilotdeck-bridge.js:1542-1573 | tables and totals of two lists of records merge into those of the joined list |
| Buckets.GroupSaves | ui/server/pilotdeck-bridge.js:1622-1638 | in every bucket savedCost = baselineCost - estimatedCost |
| DashboardFigures.BucketFigures | ui/server/pilotdeck-bridge.js:1622-1656 | in every dimension each field of a bucket is the sum of that field of exactly the records that count for its key, as their tier, scenario, role, model or provider says |
| DashboardFigures.TwoRoles | ui/server/pilotdeck-bridge.js:1649-1651 | there are no roles but "main" and "sub" |
| DashboardFigures.TotalFigures | ui/server/pilotdeck-bridge.js:1608-1638 | each field of a total is the sum of that field of all records |
| Dashboard.SessionEntry.MergeRecord | ui/server/pilotdeck-bridge.js:1622-1656 | the record is added to the total and to exactly one bucket of each of the four tables |
| Dashboard.SessionEntry.Take | ui/server/pilotdeck-bridge.js:1520-1533 | a session that reflects its records reflects them and one more, request log included |
| Dashboard.LogAddsUp | ui/server/pilotdeck-bridge.js:1520-1532 | a session's request log has one entry per counted request, and its tokens and costs add up to the session total |
| Dashboard.SessionsConserve | ui/server/pilotdeck-bridge.js:1490-1549 | the totals of the sessions add up to the sum of all records outside sub-sessions |
| Dashboard.SessionsRegroup | ui/server/pilotdeck-bridge.js:1550-1560 | in every dimension the tables of the sessions merge into the grouping of all those records |
| Dashboard.CollectSessions | ui/server/pilotdeck-bridge.js:1490-1539 | one object per session id, in order of first appearance, each reflecting its own records |
| Dashboard.Aggregate | ui/server/pilotdeck-bridge.js:1546-1560 | the project's total, tiers and roles are those of its records |
| Dashboard.GetRouterDashboardData | ui/server/pilotdeck-bridge.js:1481-1594 | the overall total, tiers, roles and session count are those of the records of all projects |
| Dashboard.RegroupByProvider | ui/server/pilotdeck-bridge.js:1708-1712 | regrouping model buckets by the part before the slash equals grouping the records by provider |
| Dashboard.GetRouterStatsSummary | ui/server/pilotdeck-bridge.js:1697-1724 | lifetime total, scenarios, providers and tiers are groupings of the same records |
| Dashboard.DashboardConserves | ui/server/pilotdeck-bridge.js:1481-1594 | in every dimension the buckets over all projects add up to the lifetime total, whose requests are the records |
| Dashboard.RequestsAreLogged | ui/server/pilotdeck-bridge.js:1519-1549 | a project's request count is the number of entries in its sessions' logs |
| DashboardFigures.DashboardBuckets | ui/server/pilotdeck-bridge.js:1476-1600 | each field of each bucket of the dashboard and of the lifetime summary is the sum over exactly the records, of all projects, that count for its key and are not of a session within another one |
| DashboardFigures.SessionFigures | ui/server/pilotdeck-bridge.js:1476-1530 | the records behind a session are exactly its own |
| DashboardFigures.SessionListed | ui/server/pilotdeck-bridge.js:1496-1516 | a session is listed iff it has a record of its own |
| DashboardFigures.LogEntries | ui/server/pilotdeck-bridge.js:1517-1529 | the request log has one entry for each record, in order, with its role, tier, model, tokens and costs |
| RequestLog.TurnExists | ui/server/pilotdeck-bridge.js:1446-1474 | the model-call counts partition the log: every position is in exactly one turn |
| RequestLog.HeadsAreSums | ui/server/pilotdeck-bridge.js:1450-1472 | a position heads its turn iff it is the sum of the first counts |
| RequestLog.LastTurnTakesAll | ui/server/pilotdeck-bridge.js:1470-1473 | from the first turn without model calls on, all positions are in one turn |
| RequestLog.AssignByModelCallCount | ui/server/pilotdeck-bridge.js:1446-1474 | one pass labels every entry by its turn and place alone: heads get the turn's query, continuation k its (k-1)-th tool list |
| RequestLog.LabelMeaning | ui/server/pilotdeck-bridge.js:1446-1474 | the head of a turn gets the turn's query, or the last one if there are too few; any other entry becomes a sub-agent's and names the tools of its own call, if there was one |
| RequestLog.ToolNamesMeaning | ui/server/pilotdeck-bridge.js:1462-1466 | the names of the tools of a call are listed without repetitions, after an arrow |
| Markdown.ParseMarkdown | skills/minimax-pdf/scripts/reformat_parse.py:51-191 | for every text, the loop over its lines with its inner scans terminates and returns what the block-at-a-time reading `Parse` returns |
| Markdown.ReadBlock | skills/minimax-pdf/scripts/reformat_parse.py:72-187 | one pass of the loop reads the block, and advances as far, as `Next` says, for every kind of line |
| Markdown.CollectUntil | skills/minimax-pdf/scripts/reformat_parse.py:103-125 | an inner loop collects exactly the lines before the first one that stops it |
| Markdown.ParseAppend | skills/minimax-pdf/scripts/reformat_parse.py:77-81 | after a blank line reading starts afresh, unless a fence or $$ is open |
| Markdown.HomomorphismIffClosed | skills/minimax-pdf/scripts/reformat_parse.py:51-191 | on lines, parse(a, blank, b) = parse(a) + parse(b) for all b iff a leaves no fence and no $$ open |
| Markdown.SplitAtGap | skills/minimax-pdf/scripts/reformat_parse.py:58 | two line feeds between any two texts are one blank line or two, whatever line breaks the texts use |
| Markdown.SplitTerminated | skills/minimax-pdf/scripts/reformat_parse.py:58 | lines without breaks, each ended by a line feed, are split into those lines |
| Markdown.TextHomomorphismIffClosed | skills/minimax-pdf/scripts/reformat_parse.py:51-191 | on texts, parse(a + two line feeds + b) = parse(a) + parse(b) for all b iff a leaves no fence and no $$ open |
| MarkdownLines.FirstLineCut | skills/minimax-pdf/scripts/reformat_parse.py:58 | a text is cut at its first line break, of which there are eleven kinds |
| MarkdownLines.ProseIff | skills/minimax-pdf/scripts/reformat_parse.py:72-187 | a line is running text iff it is not blank and is no heading, formula, fence, callout, item, numbered item, table row or rule, each given by what the line looks like |
| MarkdownLines.SeparatorIff | skills/minimax-pdf/scripts/reformat_parse.py:158-159 | a ruler of a table is a bar, at least one dash, colon, bar or blank, and a bar |
| MarkdownLines.UnclosedFence | skills/minimax-pdf/scripts/reformat_parse.py:116-127 | a fence that no later line closes takes all of them as code |
| MarkdownLines.UnclosedFormula | skills/minimax-pdf/scripts/reformat_parse.py:102-112 | a $$ that no later line closes takes all of them as a formula |
| MarkdownLines.IndentationIsIgnored | skills/minimax-pdf/scripts/reformat_parse.py:72-74 | blanks around the first line of a block make no difference |
| MarkdownRoundTrip.BlockReadsBack | skills/minimax-pdf/scripts/reformat_parse.py:83-187 | one printed heading, paragraph of several lines, item with any mark, numbered item with any number, callout, formula on one line or several, listing in either fence, table, lone row or rule reads back as itself and leaves nothing open |
| MarkdownRoundTrip.RowReadsBack | skills/minimax-pdf/scripts/reformat_parse.py:161-166 | a printed table row is no separator row and is split into its cells again |
| MarkdownRoundTrip.DocumentsReadBack | skills/minimax-pdf/scripts/reformat_parse.py:51-191 | any list of well-formed blocks, printed as a text with blank lines between them, reads back as that list |
| ProjectSlugs.SafeCharIff | src/pilot/paths.ts:98-104 | the characters that are kept are the letters and digits of ASCII, dots, underscores and dashes |
| ProjectSlugs.SafeKept | src/pilot/paths.ts:98-104 | safe characters stay as they are |
| ProjectSlugs.RunBecomesDash | src/pilot/paths.ts:98-104 | every run of other characters becomes one dash |
| ProjectSlugs.OrdinaryPath | src/pilot/paths.ts:98-104 | the id of a path whose names are of safe characters, without a dash at either end, is those names with dashes between them |
| ProjectSlugs.DriveIgnored | src/pilot/paths.ts:98-104 | a drive and the direction of slashes make no difference |
| ProjectSlugs.ProjectIff | src/pilot/paths.ts:98-104 | an id is `project` iff nothing remains of the path, or just that does |
| ProjectSlugs.LegacyIdIs | src/pilot/paths.ts:98-104 | a path has a given slug iff, apart from its drive, it holds the slug in one piece and nothing else but dashes and unsafe characters |
| ProjectSlugs.LegacyIdIsSegment | src/pilot/paths.ts:98-104 | an id is non-empty, of safe characters only, with no dash at either end; it names a directory of its own unless it is one dot or two, which it is iff the path, apart from its drive, holds one dot, or two side by side, and nothing else but dashes and unsafe characters |
| ProjectIds.IdsOfResolved | src/pilot/paths.ts:65-75 | ids depend on the resolved path only, and the longer one has the slug before its digest |
| ProjectIds.MarkerSays | ui/server/projects.js:403-407 | a marker says a path iff what it holds, without blanks around it, resolves to that path |
| ProjectIds.ReAddIffStable | ui/server/projects.js:391-416 | adding a path twice gives one id iff its marker reads back as the path, or its slug is a directory that is not its own |
| ProjectIds.TakenOverIff | ui/server/projects.js:391-416 | adding a path takes another path's directory iff that is its slug and the marker reads back as it, or it is its longer id and its slug is somebody else's |
| ProjectIds.TrailingBlankLosesItsId | ui/server/projects.js:403-407 | "/a" takes over the id and the marker of "/a" followed by a blank |
| ProjectIds.DotsAllocatedIff | ui/server/projects.js:391-416 | a path is given the id `.` or `..` iff nothing but dots remains of it and that directory does not exist yet or is marked with it |
| ProjectIds.RootedStaysRooted | ui/server/projects.js:355-416 | once the home and the directory of projects exist, additions leave them as they are and never give them away |
| ProjectIds.FoundAfterAddingIff | ui/server/projects.js:470-482 | a path that was not found before is found after it was added iff its marker reads back as it and it was not given `.` or `..` |
| ProjectIds.UnmarkedDotsRemoveAll | ui/server/projects.js:453-482 | deleting a path whose slug is `..` and that is not marked removes the home with everything in it |
| ProjectIds.DeletedTwiceLeavesNothing | ui/server/projects.js:391-468 | `/-..`, added once and deleted twice, leaves nothing |
| ProjectIds.ProjectStore.AllocateProjectId | ui/server/projects.js:391-416 | the short id iff its directory is free or marked with the path, else the longer one |
| ProjectIds.ProjectStore.AddProjectManually | ui/server/projects.js:355-389 | refuses an empty path, else marks the allocated directory with the path and remembers it |
| ProjectIds.ProjectStore.ResolveProjectId | ui/server/projects.js:470-482 | a marked name stands for itself, a marked path for a directory that holds it, any other path for its slug |
| ProjectIds.ProjectStore.DeleteProject | ui/server/projects.js:453-468 | removes the directory that name and path resolve to with all below it, which for `.` and `..` are the other directories |
| ProjectIds.RememberedIs | ui/server/projects.js:355-389 | a directory with a name is remembered under it, and nothing else changes |
| ProjectIdRuns.RunSettles | ui/server/projects.js:355-416 | from a file tree without markers, in which `.` or `..` exists if it is the slug of an added path: after any run of additions every path sits in exactly one directory, the short id for the first path with its slug unless it existed at the start, the longer id for all others |
| ProjectIdRuns.IdsAreDistinct | src/pilot/paths.ts:70-75 | different added paths have different ids |
| ProjectIdRuns.ReAddingIsIdle | ui/server/projects.js:391-416 | adding a path again returns the id it has and changes nothing |
| ProjectIdRuns.LookupFindsOwner | ui/server/projects.js:470-482 | the listed directory whose marker is the path is the one it was given, and no other |
| ProjectIdRuns.AllFoundIffDotsTaken | ui/server/projects.js:355-482 | every path is found after every run of additions iff `.` or `..` exists at the start whenever it is the slug of one of the paths |
| ProjectIdRuns.NameStandsForItself | ui/server/projects.js:470-482 | after any run of additions the id of a path resolves to itself, whatever path is given with it |
| ProjectIdRuns.StepKeepsMarkersIff | ui/server/projects.js:355-468 | with digests apart, a step puts one path's marker in another's place iff it adds a path whose slug is held by a path with a marker that reads back as it |
| ProjectIdRuns.NoMarkerIsOverwritten | ui/server/projects.js:355-468 | with paths that read back as themselves no step does that, deletions included |
| ProjectIdRuns.RunKeepsMarkersIff | ui/server/projects.js:355-468 | in a run of additions and deletions no marker is replaced by that of another path iff none of its steps takes over |
| ProjectIdRuns.NobodyLosesIffNoClash | ui/server/projects.js:355-468 | in all runs no marker is replaced by that of another path iff no marker of one path reads back as another with the same slug |
| ProjectIdRuns.AdditionsLoseNobodyIff | ui/server/projects.js:355-416 | in runs that only add, such a pair does no harm iff its slug is a directory without marker from the start |
| ProjectIdRuns.DeletionMovesIff | ui/server/projects.js:453-468 | deleting a directory changes a path's next id iff the path holds the longer id and its slug is the directory deleted or below it |
| ProjectIdRuns.DeletionDuplicates | ui/server/projects.js:391-468 | if its slug is deleted, such a path is marked in its slug when it is added again, and still in its longer id, unless its slug is `.` or `..` |
| ProjectIdRuns.DashMoves | ui/server/projects.js:391-468 | `/a` and `/-a` are such paths |
| ProjectIdRuns.DeletionTakesOthersIff | ui/server/projects.js:453-482 | after any run of additions, deleting a path takes the directory of another one iff the path was never added, and either its slug is that of an added path and did not exist at the start, or it is `.` or `..` |
| GitStatus.ParsePorcelainV2 | src/adapters/web/projectGit.ts:84-136 | the loop reads every line as `ReadLine` says and keeps the files in order |
| GitStatus.LineIsAbout | src/adapters/web/projectGit.ts:92-132 | a line changes the branch, the counts or the files, and nothing but what it is about |
| GitStatus.ShortLine | src/adapters/web/projectGit.ts:112-132 | a line for a file that breaks off too early gives a file without path, and a missing state is no change |
| GitStatusRoundTrip.ReportRead | src/adapters/web/projectGit.ts:84-136 | the printed header, ordinary, renamed, unmerged and untracked lines of any report, with paths quoted as git quotes them, are read as `SeenStatus` says |
| GitStatusRoundTrip.ReportReadsBackIff | src/adapters/web/projectGit.ts:45-136 | branch, counts and every file with its flags read back as printed iff the branch has no blank at an end, no file is renamed or unmerged, and no path needs quoting |
| GitStatusRoundTrip.QuotedNameIsMisread | src/adapters/web/projectGit.ts:106-110 | an untracked file whose name holds a double quote is shown under its quoted name |
| GitQuoting.PrintedPath | src/adapters/web/projectGit.ts:45-48 | a path is printed on one line, and as it is iff it holds nothing unusual |
| GitStatusRoundTrip.CountsFound | src/adapters/web/projectGit.ts:97-104 | printed ahead and behind counts are found and read back |
| Permissions.NormalizeFixesNormal | src/permission/settings.ts:73-84 | normalising gives a normal entry, leaves exactly the normal entries alone, and is idempotent |
| Permissions.AliasMeaning | src/permission/settings.ts:21-34 | the twelve names of other tools and what they are called here |
| Permissions.NormalizeStringArray | src/permission/settings.ts:113-125 | the loop with its set of seen entries returns each normal form once, and nothing for a value that is no array |
| Permissions.CleanedList | src/permission/settings.ts:113-125 | the result is free of duplicates and empty entries and holds exactly the normal forms of the listed strings |
| Permissions.OrderOfFirstOccurrence | src/permission/settings.ts:117-123 | the order is that of first occurrence |
| Permissions.CleaningIsIdempotent | src/permission/settings.ts:113-125 | cleaning a cleaned list changes nothing |
| Permissions.RuleOfNormalForm | src/permission/settings.ts:97-111 | a rule depends on the normal form of its entry only |
| Permissions.RuleInvertsIff | src/permission/settings.ts:97-111 | a rule turns back into its entry iff the entry has no colon, is a lone colon, or has a tool name and a non-empty pattern without leading blank |
| Permissions.IndentedPatternDoesNotInvert | src/permission/settings.ts:104 | "bash: ls" loses the blank after its colon |
| Permissions.BashRulesInvert | src/permission/settings.ts:77-81 | every Bash(...) entry becomes a rule for bash with its trimmed pattern, colons included, and turns back |

## Left out

- Provider transports, tokenizers, judge prompts, custom routers, scenario detection and orchestration prompts: their
  answers are parameters of each call.
- Aborting: an arbitrary choice of the environment before an attempt, in an answer, or in a wait; timers are numbers.
- Delays, tokens and money are integers; fractions of milliseconds and of costs are not modelled.
- The branch of `execute` for a stream that ends without an outcome: `streamAttempt` always yields one or throws.
- `decide` and `getOrCreate` are single steps: calls or marks that land during their awaits are not modelled.
- Console output, router events of `decide`, the last usage in routing state (never set), the stats file on disk.
- The tools and overrides that replacing the subsystems brings, and the lifecycle of the subsystems themselves.
- Project-level tool servers, and the limit on per-session ones other than from the configuration.
- MemoryMaintenance.NoLostWakeUp: does not cover a runtime that is invalidated while its loop runs, because the
  callback then resolves another runtime.
- Aborted turns of the agent loop, which may leave calls unanswered; the token counts behind truncation ratios.
- Transcript.TruncateHeadPairedIff: takes the number of messages to keep as given, because the ratio is a fraction.
- The dashboard's buckets are values inside each session object; sharing of bucket objects does not arise in the code.
  Time stamps, titles and queries of sessions, and keys such as `__proto__`, are not modelled.
- The attribution of requests by turn id, and the reading of transcripts it needs.
- `_md_inline` and the digits of `\d` are parameters; plain-text and PDF input.
- MarkdownRoundTrip.DocumentsReadBack: one blank after each mark, and no indentation (for which see
  `IndentationIsIgnored`).
- Names that are too long for a directory, and file systems that ignore case; whatever else the home holds.
- Path resolution and SHA-1 are parameters; failing file operations, and directories that disappear during a call, are
  not modelled.
- Counts of commits are unbounded; `parseInt` loses precision above 2^53. Status lines are split at code points, and
  paths that are not UTF-8, which reach the reader with replacement characters.
- The settings file of permissions and the other fields of its record.
- Servers, sockets, shells, channel adapters, the React interface, rendering scripts and configuration watching: input
  and output around libraries, with easy facts only.
