# Legalbot: a verified model

This project models the parts of Legalbot whose correctness depends on many steps fitting together, and
proves what they keep. `dafny verify dfyconfig.toml` checks all of it.

## What is modelled

**The job control plane** (`Jobs`, `ControlPlane`, `ControlPlaneSafety`, `ControlPlaneSlots`,
`ControlPlaneLimits`, `Fairness`, `Workers`). An email becomes a job; a dispatcher gives ready jobs a slot and
a message, workers execute the agent graph, humans answer interrupts, a sweeper takes back what got stuck.
`ControlPlane` is an event system in which all of these interleave freely: guarded updates are atomic steps,
the queue is a bag that duplicates and redelivers, workers crash, operators cancel, retry and archive.
`Jobs.JobService` and `Workers.Runtime` are the services as programs; every task is proved to perform a run of
those events. Main results: every state change in every run is an allowed one (`RunIsAllowed`), the in-flight
set never outgrows the limit (`InFlightBounded`), primary sessions never outnumber attempts plus one
(`PrimarySessionsBounded`), leases (`LeaseBound`), a job in `processing` always has the leg with which it
entered to answer for it (`ProcessingHasLeg`), and with safe retries each executing `run_pipeline` leg holds
its job's slot, so the limit bounds executing legs (`RunningLegsHoldSlots`). A retry is safe when no leg,
message or pass of the old attempt can outlive its slot, and only safe retries keep the slots
(`RetryKeepsSlotsIff`). `ControlPlaneLimits` and `Fairness` hold what the control plane does not keep: when
exactly a promise fails, and reachable states in which it has failed without bound.

**The versioned artifact store** (`MergePatch`, `ArtifactStore`, `ArtifactIndex`). The table of rows and blobs
refines a map from session and key to an append-only list. Merge patch is that of section 2 of RFC 7396.
The index kept in the agent's state is a join of versions.

**Tool-call chains** (`ToolChain`). The validator accepts exactly the concatenations of answered blocks; the
sanitizer keeps the longest valid suffix; stage and replay histories are always valid.

**The analyze stage** (`AnalyzeGraph`). No run of the graph is stuck before its end, every run can be completed,
and a run that cannot go on has ended after one report (`MaximalRunIsComplete`), within a number of node visits
that is below the engine's limit and is attained (`VisitsBounded`, `BoundIsAttained`).

**The knowledge graph** (`Ontology`, `ContractKeys`, `CanonicalKeys`, `Addresses`, `Projection`, `RunArtifacts`,
`ArtifactLinks`, `ArtifactProjection`, `Anchors`, `AnchorLinks`, `RunProjection`, `GraphView`, `KnowledgeGraph`, `Parents`,
`IngestionIndex`, `ItemIndex`, `RunIndex`). `GraphView` is one owner's graph as a value with five kinds of
writes. `KnowledgeGraph.KnowledgeGraphService` holds the shared tables and is proved to represent one such
value per owner at all times; indexing an email or a run is proved to be a fixed list of writes to its
owner's value and none to any other. Repeating a list changes nothing but mentions, whatever other owners
write meanwhile. Which links there are is stated on the rows and artifacts themselves: whom an email is linked to
(`ItemLinks`), which edges the artifacts of a run stand for (`FactsAreLinks`, `AnchorFactsAreLinks`), and which of them
a run writes (`AppliedLinks`, `ProjectionWrites`). Projections are duplicate-free and closed before they are applied, and
applying one skips no edge but those of attachments nobody knows.

**Contract templates** (`ContractTemplate`). A scanner for `{{ name }}` that finds the one leftmost reading, and
rendering in a single pass: what is inserted is not scanned again, whatever it contains.

**Interrupts and session messages** (`Interrupts`, `SessionLog`). One pending request per session, one
intervention per resolved request; gap-free message indexes, and a stream that has at every moment emitted a
prefix of the log.

Proofs that only pass a definition along `hide` its body.

## Where the code and its documentation differ

- `src/legalbot/services/session.py:4` says a job has exactly one primary session. A retried job gets another
  one for each attempt: in a whole run no job gets a second one exactly when every leg starts on an empty session
  column (`OnePrimarySessionIff`), which a retry does not clear, and attempts plus one are reached for every
  number of attempts (`PrimariesAttained`).
- `src/legalbot/jobs/dispatcher.py:52` promises per-owner fairness. The query orders by priority and age only.
  Every pass serves every owner exactly when each owner with a ready row has fewer rows of others at or before
  all of its own than the pass takes (`FairIff`); a backlog of one owner keeps another out of every pass
  (`BacklogStarves`).
- `src/legalbot/workers/runs.py:55` expects a falsy value for a refused message, but `transition` raises, so the
  slot is not released on that path (`SlotAfterLastMessage`). Once all slots are lost like this no event returns
  one, and no message starts a leg again (`ExhaustedForever`, reached for every limit by `DispatchCanStopForGood`).
- The limit on executing legs can be exceeded for every positive limit (`LimitBreaksIff`): hasty retries pile up
  executing legs on one slot (`HastyRetriesPileUp`) or on none (`StaleMessagesPileUp`).
- Resumed legs hold no slot (`src/legalbot/workers/runs.py:122`). Resuming respects a limit on all legs exactly
  when there was room before (`ResumeRespectsLimitIff`), and any number of resumed legs can execute beside as many
  first legs as there are slots (`ResumedLegsComeOnTop`).
- A contract key cannot tell the party `b|c` from the parties `b` and `c` (`BarsCollide`). It tells its parties from
  all others exactly when there is at most one and its name does not split at a bar (`KeyTellsIff`).

## Model

| member | source | states |
|---|---|---|
| Jobs.JobService.CreateForItem | src/legalbot/jobs/service.py:25-54 | one job per ingestion item: a second call for an item returns the existing job and changes nothing |
| Jobs.JobService.Transition | src/legalbot/jobs/service.py:56-108 | a guarded update: illegal pairs and stale views are refused with their own error and change nothing |
| Jobs.JobService.SetCurrentSession | src/legalbot/jobs/service.py:109-114 | sets the session column of one row |
| Jobs.JobService.Retry | src/legalbot/jobs/service.py:116-127 | succeeds exactly from failed: ready again, with one attempt more and both error columns cleared, and no other column changed |
| Jobs.JobService.Cancel | src/legalbot/jobs/service.py:129-139 | succeeds exactly from intake, dispatched, processing and awaiting human |
| Jobs.JobService.Archive | src/legalbot/jobs/service.py:141-143 | succeeds exactly from ready, failed and completed |
| Jobs.SuccessorsAre | src/legalbot/jobs/models.py:13-32 | the states that may follow each state, listed one by one |
| Jobs.ReapedIs | src/legalbot/jobs/sweeper.py:18-57 | which rows a sweep takes back or fails, by their state, lease columns and time, and that it leaves all others |
| Jobs.JobService.ReapStuck | src/legalbot/jobs/sweeper.py:18-57 | both bulk updates at once, and the counts of rows each one touched |
| Jobs.JobService.PickReadyJobs | src/legalbot/jobs/dispatcher.py:51-69 | ready rows only, each once, as many as fit; no ready row left out has a higher priority than a picked one or, at equal priority, is older, and the pick is in that order |
| Jobs.HighestIsPicked | src/legalbot/jobs/dispatcher.py:51-69 | with room, the ready row whose priority is above all others is picked |
| Jobs.DispatchAllMovesPick | src/legalbot/jobs/dispatcher.py:72-90 | the transition loop moves exactly the picked rows, all of them, and no other |
| ControlPlaneSafety.RowStep | src/legalbot/jobs/service.py:56-153 | what one event may do to one row: an allowed move, with the lease's time stamped, back to not started only with a new attempt |
| ControlPlaneSafety.StepIsAllowed | src/legalbot/jobs/models.py:13-32 | every event, the sweeper's bulk updates included, moves every row along an allowed pair or leaves its state |
| ControlPlaneSafety.RunIsAllowed | src/legalbot/jobs/models.py:13-32 | the same between any two consecutive moments of any run |
| ControlPlaneSafety.SlotsStep | src/legalbot/jobs/dispatcher.py:72-90 | taken and promised slots together stay within the limit |
| ControlPlaneSafety.InFlightBounded | src/legalbot/jobs/dispatcher.py:24-48 | in every run the in-flight set never exceeds the limit |
| ControlPlaneSafety.AttemptsStep | src/legalbot/workers/runs.py:52-61 | first legs and primary sessions agree in number and are bounded by attempts |
| ControlPlaneSafety.PrimarySessionsBounded | src/legalbot/services/session.py:51-63 | at most attempts plus one primary sessions, and at most attempts while a job is not started |
| ControlPlaneSafety.LeasesSwept | src/legalbot/jobs/sweeper.py:22-52 | a sweep leaves no lease expired at its own time |
| ControlPlaneSafety.LeasesStep | src/legalbot/jobs/service.py:73-90 | the timestamp a lease runs from is set whenever the job is in its state |
| ControlPlaneSafety.LeaseBound | src/legalbot/jobs/sweeper.py:22-52 | no lease is overrun by more than the time between sweeps |
| ControlPlaneSafety.ProcessingStep | src/legalbot/workers/runs.py:259-320 | every event keeps it so that each job in processing has a leg that still has to move it or that crashed |
| ControlPlaneSafety.EnteringLegAnswers | src/legalbot/workers/runs.py:52-61 | for as long as a job stays in processing, the leg that its entering event started still has to move it or crashed |
| ControlPlaneSafety.ProcessingHasLeg | src/legalbot/workers/runs.py:569-618 | in every run, a job in processing entered it with a leg that still has to move it or crashed; legs of earlier attempts do not count |
| ControlPlaneSlots.SlotsHeldStep | src/legalbot/jobs/dispatcher.py:36-48 | messages, the pass and executing legs keep their jobs' slots through every event, if a retry is a safe one |
| ControlPlaneSlots.RunningLegsHoldSlots | src/legalbot/workers/runs.py:52-87 | with safe retries, executing first legs belong to distinct jobs in the in-flight set, so no more than the limit execute at once |
| ControlPlaneSlots.RetryKeepsSlotsIff | src/legalbot/jobs/service.py:116-127 | a retry of a failed job keeps all claims on slots exactly when no leg, message or pass of its old attempt can outlive its slot |
| ControlPlaneSlots.AtMostOneLegWithoutRetry | src/legalbot/workers/runs.py:52-87 | without retries each job starts at most one first leg, despite duplicates, redelivery, cancels and sweeps |
| ControlPlaneLimits.HastyRetriesPileUp | src/legalbot/jobs/service.py:116-139 | for every limit of two or more and every n, a reachable state with n executing first legs and one slot taken |
| ControlPlaneLimits.StaleMessagesPileUp | src/legalbot/workers/runs.py:52-87 | for every positive limit and every n, a reachable state with n executing first legs and no slot taken |
| ControlPlaneLimits.LimitBreaksIff | src/legalbot/jobs/dispatcher.py:24-48 | more legs than the limit can execute at once exactly when the limit is positive |
| ControlPlaneLimits.SlotAfterLastMessage | src/legalbot/workers/runs.py:52-97 | after the last message of a job is delivered and acknowledged, something still backs its slot exactly when the job was dispatched |
| ControlPlaneLimits.ExhaustedForever | src/legalbot/workers/runs.py:52-61 | once all slots are taken with nothing left to release them, no event returns one or starts a first leg, retries included |
| ControlPlaneLimits.DispatchCanStopForGood | src/legalbot/jobs/dispatcher.py:36-48 | for every limit such a state is reachable, and no leg of run_pipeline ever executes after it |
| ControlPlaneLimits.DeliveryKeepsOneIff | src/legalbot/services/session.py:51-63 | a delivery keeps a job at one primary session exactly when its session column is empty |
| ControlPlaneLimits.OnePrimarySessionIff | src/legalbot/services/session.py:1-8 | in a whole run no job gets a second primary session exactly when every leg starts on an empty session column |
| ControlPlaneLimits.PrimariesAttained | src/legalbot/services/session.py:51-63 | for every number of attempts, a reachable state with one primary session more |
| ControlPlaneLimits.ResumeRespectsLimitIff | src/legalbot/workers/runs.py:122-162 | resuming takes no slot and keeps all legs within the limit exactly when there was room before |
| ControlPlaneLimits.ResumedLegsComeOnTop | src/legalbot/workers/runs.py:122-162 | for every n, a reachable state with all slots taken and n executing legs more than slots |
| Fairness.AlwaysServedIff | src/legalbot/jobs/dispatcher.py:51-69 | every pass serves an owner exactly when fewer rows than the pass takes come no later than all of its own |
| Fairness.FairIff | src/legalbot/jobs/dispatcher.py:51-69 | every pass serves all owners exactly when that holds of each owner with a ready row |
| Fairness.BacklogStarves | src/legalbot/jobs/dispatcher.py:51-69 | for every limit, a backlog of one owner with which no pass takes another owner's only job |
| Workers.ConcurrencyBudget.Current | src/legalbot/jobs/dispatcher.py:24-48 | the free slots, zero when more than the limit are taken |
| Workers.DispatchRuns | src/legalbot/jobs/dispatcher.py:72-90 | a whole dispatch pass is a run of events with this end state |
| Workers.GraphRuns | src/legalbot/workers/runs.py:259-320 | the graph call is a run of events for every outcome, with the job handled as the outcome demands |
| Workers.LegRuns | src/legalbot/workers/runs.py:78-97 | a leg from its start to the release of its slot is a run of events |
| Workers.Runtime.DispatchOnce | src/legalbot/jobs/dispatcher.py:72-90 | performs a dispatch pass: the best ready jobs that fit are dispatched, given a slot and queued, no other row changes; with room, a ready job of strictly highest priority is among them |
| Workers.Runtime.Sweep | src/legalbot/jobs/sweeper.py:18-57 | performs the sweep event |
| Workers.Runtime.InvokeGraph | src/legalbot/workers/runs.py:218-320 | how the job, the leg and the result depend on what the graph did; a completed job that cannot be completed again fails the call |
| Workers.Runtime.FailJob | src/legalbot/workers/runs.py:189-215 | the handler fails the job if it is processing and otherwise leaves it |
| Workers.Runtime.StartPrimary | src/legalbot/workers/runs.py:52-76 | the start of a leg happens exactly for a dispatched job |
| Workers.Runtime.RunPipeline | src/legalbot/workers/runs.py:43-97 | one message from delivery to release is a run of events; a refused one changes nothing |
| Workers.Runtime.ResumeRun | src/legalbot/workers/runs.py:122-162 | a resumed leg is a run of events and releases no slot |
| MergePatch.OrderIrrelevant | src/legalbot/artifacts/service.py:44-58 | visiting the patch's members in any order gives the RFC 7396 result |
| MergePatch.JsonMergePatch | src/legalbot/artifacts/service.py:44-58 | the service's loop computes MergePatch of section 2 of RFC 7396 |
| MergePatch.Idempotent | src/legalbot/artifacts/service.py:44-58 | applying a patch twice is applying it once |
| MergePatch.MergePatches | src/legalbot/artifacts/service.py:44-58 | member by member: a scalar or array of the patch replaces, null removes, an object patches the member below, and what is not named stays |
| MergePatch.StaysNullFree | src/legalbot/artifacts/service.py:44-58 | an object patch adds no null members to a null-free target |
| MergePatch.ReachableByPatch | src/legalbot/artifacts/service.py:318-327 | object patches turn a null-free document into exactly the null-free objects; DiffReaches computes the patch |
| ArtifactStore.VersionsNeverChange | src/legalbot/artifacts/service.py:104-207 | what was version v stays version v in every later state |
| ArtifactStore.HoldsWhatWasWritten | src/legalbot/artifacts/service.py:104-207 | the list of a key is what was written to it, in order, cut off at the cap |
| ArtifactStore.TableShape | src/legalbot/artifacts/service.py:82-102 | versions of a key are 1..n in one row each, n within the cap, only n latest, each superseding the one before |
| ArtifactStore.LatestRow | src/legalbot/artifacts/service.py:90-102 | the row of the last version, and only that row, carries the flag |
| ArtifactStore.IdsNameVersions | src/legalbot/artifacts/service.py:236-265 | an id is that of one version of one key only |
| ArtifactStore.WriteRefines | src/legalbot/artifacts/service.py:104-207 | rows and blobs after a write represent the log with one entry more |
| ArtifactStore.ArtifactService.NextVersion | src/legalbot/artifacts/service.py:82-88 | one more than the length of the key's list |
| ArtifactStore.ArtifactService.DemoteCurrentLatest | src/legalbot/artifacts/service.py:90-102 | clears the flag of the key and returns the last entry's id |
| ArtifactStore.ArtifactService.Write | src/legalbot/artifacts/service.py:104-207 | appends exactly one entry, inline or as a blob by size, or fails at the cap or on unserialisable data with nothing changed |
| ArtifactStore.ArtifactService.Read | src/legalbot/artifacts/service.py:236-265 | returns the payload the log has for a version, or the last, across inline and blob rows |
| ArtifactStore.ArtifactService.ReadById | src/legalbot/artifacts/service.py:236-265 | returns the row of an id, whatever its key, with the payload the log has for it |
| ArtifactStore.ArtifactService.Update | src/legalbot/artifacts/service.py:303-351 | appends the content as given, or the current content as the merge patch changes it member by member, or what the JSON patch makes of it; fails for exactly the stated reasons, with nothing changed |
| ArtifactStore.OutcomeSays | src/legalbot/artifacts/service.py:303-351 | for every mode, what lands in the store and which error is raised, told from the current entries and the patch |
| ArtifactIndex.ArtifactIndexReducer | src/legalbot/artifacts/models.py:39-56 | the loop is the fold of single upserts over a copy |
| ArtifactIndex.ReducedKeepsNewest | src/legalbot/artifacts/models.py:39-56 | each key holds its newest ref |
| ArtifactIndex.FoldKeepsNewest | src/legalbot/artifacts/models.py:39-56 | the same over any sequence of updates |
| ArtifactIndex.ReducingIsJoining | src/legalbot/artifacts/models.py:39-56 | reducing an index by the refs of another is their join |
| ArtifactIndex.JoinAssociative | src/legalbot/artifacts/models.py:39-56 | updates may be grouped in any way |
| ArtifactIndex.JoinIdempotent | src/legalbot/artifacts/models.py:39-56 | an update seen again changes nothing |
| ArtifactIndex.JoinCommutes | src/legalbot/artifacts/models.py:39-56 | order is irrelevant exactly when no key has two refs of one version |
| ToolChain.ValidIffWellPaired | src/legalbot/agents/stage_messages.py:56-78 | the pending-set automaton accepts exactly the concatenations of answered blocks |
| ToolChain.ToolCallIdsFromAi | src/legalbot/agents/stage_messages.py:42-53 | collects the non-empty ids of an AI message's calls |
| ToolChain.OpenAiToolChainValid | src/legalbot/agents/stage_messages.py:56-78 | the loop decides validity |
| ToolChain.SanitizeMessagesForOpenAiChat | src/legalbot/agents/stage_messages.py:14-39 | the search returns the longest valid suffix |
| ToolChain.SanitizeIdempotent | src/legalbot/agents/stage_messages.py:14-39 | sanitizing twice is sanitizing once |
| ToolChain.EmptyIffTailUnanswered | src/legalbot/agents/stage_messages.py:14-39 | a non-empty history is given up exactly when its last block is not answered one for one |
| ToolChain.PreparedIsValid | src/legalbot/agents/stage_messages.py:81-108 | a stage's history is well paired: the sanitized history, with the prompt in front unless it is in there, or prompt and fallback when nothing is left; preparing it again changes nothing |
| ToolChain.ReplayForkIsValid | src/legalbot/services/replay.py:21-39 | a fork's history is well paired: the longest valid end of the old one, then the note |
| AnalyzeGraph.ToolMessagesOf | src/legalbot/agents/analyze_graph.py:121-136 | the tool messages, none lost |
| AnalyzeGraph.RecordResearchNode | src/legalbot/agents/analyze_graph.py:121-136 | appends exactly the results past the recorded count |
| AnalyzeGraph.NeverStuck | src/legalbot/agents/analyze_graph.py:283-326 | every node but the end can be visited, the tool node after a reply |
| AnalyzeGraph.RunGoesOn | src/legalbot/agents/analyze_graph.py:283-326 | every run that has not ended can be continued |
| AnalyzeGraph.RunReachesEnd | src/legalbot/agents/analyze_graph.py:255-326 | every run extends to one that has ended |
| AnalyzeGraph.MaximalRunIsComplete | src/legalbot/agents/analyze_graph.py:255-326 | a run cannot go on exactly when it has ended, and then it visited one report-writing node, right before finalize |
| AnalyzeGraph.FinishedRunShape | src/legalbot/agents/analyze_graph.py:255-326 | a finished run visits one report-writing node, right before finalize |
| AnalyzeGraph.ReportFollowsDecision | src/legalbot/agents/analyze_graph.py:255-326 | which of the three report-writing nodes a finished run visited, told from whether the context was found and from the decision |
| AnalyzeGraph.VisitsBounded | src/legalbot/agents/subagents.py:61-73 | 3N + 5 visits at most, below the engine's limit of 8 + 3N |
| AnalyzeGraph.BoundIsAttained | src/legalbot/agents/subagents.py:61-73 | for every N some run makes exactly 3N + 5 visits |
| AnalyzeGraph.LogIsExact | src/legalbot/agents/analyze_graph.py:121-136 | the research log is the image of the recorded tool messages, in order, none doubled |
| AnalyzeGraph.DecidesOnEverything | src/legalbot/agents/analyze_graph.py:121-156 | outside the recording node no result is missing from the log |
| Ontology.NormalizeIff | src/legalbot/memory/ontology.py:50-52 | names normalise alike exactly when they have the same words up to case |
| Ontology.NormalizeIdempotent | src/legalbot/memory/ontology.py:50-52 | a normal form is its own normal form |
| Ontology.SamePartiesSameKey | src/legalbot/memory/ontology.py:115-119 | order, repetition, case and spacing of parties never change a contract key |
| Ontology.ContractKeyIff | src/legalbot/memory/ontology.py:115-119 | without bars, equal keys mean equal types and equal sets of normalised non-blank parties, and conversely |
| CanonicalKeys.PersonKeysIff | src/legalbot/memory/extraction.py:54-67 | persons get one key exactly when they have one email address up to case and outer white space, or neither has any and their names have the same words |
| CanonicalKeys.OrganizationKeysIff | src/legalbot/memory/extraction.py:54-67 | organisations likewise by domain |
| CanonicalKeys.KeysTell | src/legalbot/memory/ontology.py:80-124 | document keys of a session tell all artifacts apart; file, law area and jurisdiction keys exactly the names of different words |
| CanonicalKeys.PartyFieldIff | src/legalbot/memory/ontology.py:126-128 | a field names a party exactly when its name contains the word in any case |
| ContractKeys.KeyTellsIff | src/legalbot/memory/ontology.py:115-119 | a key tells its set of parties from all others exactly when there is at most one party and its name does not split at a bar into two names in order |
| ContractKeys.BarFreeKeyTellsIff | src/legalbot/memory/ontology.py:115-119 | without bars: exactly when there is at most one party |
| ContractKeys.BarsCollide | src/legalbot/memory/ontology.py:115-119 | with a bar in a name, different sets of parties get one key |
| Addresses.ParseFormatted | src/legalbot/memory/ontology.py:55-65 | a display name and an address written together are read back, the address in lower case |
| Addresses.ParsedIsTidy | src/legalbot/memory/ontology.py:55-65 | an address read is in lower case without white space around it |
| Projection.KeepFirstRefs | src/legalbot/memory/extraction.py:75-103 | the builder keeps every offered reference, once |
| Projection.KeepFirstIsFirst | src/legalbot/memory/extraction.py:75-103 | what it keeps is exactly the first offer of each reference |
| Projection.ProjectionBuilder.Add | src/legalbot/memory/extraction.py:75-103 | returns the kept entity of the offered reference |
| ArtifactLinks.FactsAreLinks | src/legalbot/memory/extraction.py:70-254 | an edge is among the facts exactly when the artifacts say so: the email mentions what extracts name, concerns the intention and references the requested contract, the named parties are parties to the contract, and the contract is governed by its governing law; likewise each entity |
| ArtifactProjection.BuildProjectionFromArtifacts | src/legalbot/memory/extraction.py:70-254 | exactly those edges, and for each entity offered one with its reference, each reference once |
| Anchors.CollectSourceKeys | src/legalbot/memory/extraction.py:368-385 | exactly the artifacts kept as sources and those that processed attachments stand for, sorted and once each |
| AnchorLinks.AnchorFactsAreLinks | src/legalbot/memory/extraction.py:257-428 | exactly these edges: the email to both analysis documents, the report to the extraction, both to every source, and the stand-in of the file a source came from to that source |
| AnchorLinks.AnchorFactsAreDocs | src/legalbot/memory/extraction.py:257-428 | exactly these documents: the two analysis documents and one for every source, with their names and attributes |
| RunProjection.BuildArtifactAnchorProjection | src/legalbot/memory/extraction.py:257-428 | the first offers of all anchor documents, and exactly their links |
| RunProjection.MergedProjection.Merge | src/legalbot/memory/extraction.py:431-439 | entities with new references are appended in order, all edges are appended |
| RunProjection.MergeIsBuildingBoth | src/legalbot/memory/extraction.py:431-439 | merging two built projections is building from both lists of facts |
| RunProjection.ArtifactFactsClosed | src/legalbot/memory/extraction.py:70-254 | every edge of the artifacts' facts ends in an offered entity or starts at a stand-in |
| RunProjection.AnchorFactsClosed | src/legalbot/memory/extraction.py:257-428 | the same for the anchor documents |
| RunProjection.BuildRunProjection | src/legalbot/memory/service.py:439-442 | built, anchored and enriched: the links of the artifacts and anchors and no other; for each reference one entity, an artifact's before an anchor's and either before the model's |
| RunProjection.RunFactsStandFor | src/legalbot/memory/extraction.py:70-439 | the first offers of all facts of a run are what its artifacts and the model's answer stand for, in that order of precedence |
| RunProjection.RunProjectionSound | src/legalbot/memory/extraction.py:70-439 | the projection of every run is free of duplicates and closed |
| RunProjection.CanonicalIsReal | src/legalbot/memory/extraction.py:54-67 | no canonical key can be taken for a stand-in |
| RunProjection.RunProjectionReal | src/legalbot/memory/extraction.py:29-67 | in the projection of every run, no entity can be taken for a stand-in |
| GraphView.PutsSettle | src/legalbot/memory/service.py:55-126 | a list of upserts and edges written again changes no card, alias or link |
| GraphView.CreatesSettle | src/legalbot/memory/service.py:485-555 | the same for entities created only where missing |
| GraphView.CreatesKeep | src/legalbot/memory/service.py:485-555 | creating where missing rewrites nothing |
| GraphView.BothSettle | src/legalbot/memory/service.py:385-459 | upserts followed by creations, done twice, are done once |
| GraphView.OnlyOwnWritesMatter | src/legalbot/memory/service.py:55-232 | in any interleaving, an owner's graph is what its own writes made of it |
| GraphView.RepetitionSettles | src/legalbot/memory/service.py:385-459 | a repetition is harmless with other owners' writes anywhere in between |
| KnowledgeGraph.TablesAreSound | src/legalbot/db/models.py:372-466 | one row per owner, type and key; edges with distinct six-part keys; edges and mentions with their endpoints' owner |
| KnowledgeGraph.RewriteRefines | src/legalbot/memory/service.py:118-121 | overwriting a row changes one card of one owner's graph |
| KnowledgeGraph.InsertRefines | src/legalbot/memory/service.py:105-116 | a new row adds one card to one owner's graph |
| KnowledgeGraph.AliasRefines | src/legalbot/memory/service.py:132-148 | an alias row adds one alias to one owner's graph |
| KnowledgeGraph.EdgeRefines | src/legalbot/memory/service.py:186-211 | an edge row with a new key adds one link to one owner's graph |
| KnowledgeGraph.EdgesAreLinks | src/legalbot/memory/service.py:186-197 | a key is in the edge table exactly when its link is in its owner's graph |
| KnowledgeGraph.MentionRefines | src/legalbot/memory/service.py:213-232 | a mention row adds one mention to one owner's graph |
| KnowledgeGraph.KnowledgeGraphService.Find | src/legalbot/memory/service.py:96-104 | finds the row of an owner's reference exactly when there is one |
| KnowledgeGraph.KnowledgeGraphService.UpsertEntity | src/legalbot/memory/service.py:55-126 | one row is overwritten or inserted and a non-blank alias added, as one write to the owner's graph |
| KnowledgeGraph.KnowledgeGraphService.AddEdge | src/legalbot/memory/service.py:150-211 | an edge is added unless its six-part key is there |
| KnowledgeGraph.KnowledgeGraphService.AddMention | src/legalbot/memory/service.py:213-232 | a mention is appended |
| Parents.ResolveParentItem | src/legalbot/memory/service.py:698-754 | the item of the first message reference that names any, or else the oldest other item of the thread; a reference that names several raises |
| Parents.ParentHasOwner | src/legalbot/memory/service.py:756-785 | a parent is an item of the same owner |
| Parents.ParentIs | src/legalbot/memory/service.py:698-785 | over the columns: the one item that goes by the first reference any item goes by, message ids before external ids, or else the oldest other item of the thread; raises exactly when several go by that reference |
| IngestionIndex.UpsertPersonFromAddr | src/legalbot/memory/service.py:669-696 | reads an address and writes whom it names with a mention, linked to the email; a blank address is skipped |
| IngestionIndex.IndexIngestionItem | src/legalbot/memory/service.py:234-383 | the owner's graph gets exactly the writes the rows stand for; no other graph changes |
| ItemIndex.IndexItem | src/legalbot/memory/service.py:234-260 | the same by id, with its attachments and parent looked up: each link of the owner is one it had, or tells from the item's columns the sender, a recipient, one in copy, an attachment or the parent; an unknown id or an unclear parent changes nothing |
| ItemIndex.ItemLinks | src/legalbot/memory/service.py:234-383 | the links after indexing, over the columns of the item and its attachment rows: SENT_BY to whom `from` names, SENT_TO plain to whom `to` names and marked cc to those only `cc` names, ATTACHED_TO from each attachment to the email, REPLIES_TO from the email to its parent, with the data each carries |
| ItemIndex.ItemWrites | src/legalbot/memory/service.py:234-383 | every write of an indexing and no other: cards, aliases, links and mentions, told from the columns |
| IngestionIndex.IndexLink | src/legalbot/memory/service.py:275-383 | the same for the links, over any snapshot and reader of addresses |
| IngestionIndex.SendersAndRecipients | src/legalbot/memory/service.py:290-338 | a newly indexed email is linked to exactly its sender, recipients and people in copy, the latter marked unless they are recipients too |
| ItemIndex.ReindexingSettles | src/legalbot/memory/service.py:234-383 | indexing an email again from unchanged rows changes no card, alias or link |
| ItemIndex.ReindexingItemSettles | src/legalbot/memory/service.py:234-383 | indexing an item by id again changes no card, alias or link |
| RunIndex.GraphIndexer.ResolveEntity | src/legalbot/memory/service.py:485-555 | its own row if it has one, with nothing written; or else a new row with its card and name; or else, when the search finds one alike, that row of the same type, with its names added and nothing rewritten |
| RunIndex.GraphIndexer.ResolveAttachmentEntity | src/legalbot/memory/service.py:634-667 | the row of the first attachment of the item whose name normalises like the stand-in's, and none when no name does or that attachment is not indexed |
| RunIndex.NamedFileIs | src/legalbot/memory/service.py:634-667 | a stand-in names the entity of the first row whose name normalises alike, and nothing exactly when no row has one |
| RunIndex.SourceIs | src/legalbot/memory/service.py:597-616 | where an edge starts: at the email of the run, at the matching, indexed attachment, or at a listed entity |
| RunIndex.GraphIndexer.ApplyProjection | src/legalbot/memory/service.py:557-632 | only fills gaps in the owner's graph, and with exact keys performs the projection's own writes |
| RunIndex.GraphIndexer.IndexRun | src/legalbot/memory/service.py:385-459 | a completed pipeline run gets the email's writes and then its projection's; a refused run changes nothing, other owners' graphs are untouched, indexed cards and links are kept |
| RunIndex.SkipsOnlyUnmatchedFiles | src/legalbot/memory/service.py:597-630 | an edge of a closed projection is skipped exactly when it starts at a stand-in for a file and no row of the item has a name that normalises alike, or the first such attachment is not indexed |
| RunIndex.WritesBetweenListed | src/legalbot/memory/service.py:597-630 | an edge between listed entities is written between exactly those |
| RunIndex.RunProjectionApplies | src/legalbot/memory/service.py:439-451 | so it is for the projection of every run under the canonical keys |
| RunIndex.AppliedCards | src/legalbot/memory/service.py:567-595 | afterwards each entity of the projection has its card, or the one the owner had before |
| RunIndex.AppliedLinks | src/legalbot/memory/service.py:597-630 | a link of the owner afterwards is one it had, unchanged, or an edge of the projection between the places it starts and ends at, with the data of such an edge; and each such edge is one |
| RunIndex.ProjectionWrites | src/legalbot/memory/service.py:557-632 | every write of applying a projection and no other: a creation and mentions for each entity, a link for each edge that is not skipped |
| RunIndex.ReapplyingSettles | src/legalbot/memory/service.py:557-632 | applying a projection again with exact keys changes no card, alias or link |
| RunIndex.ReindexingRunSettles | src/legalbot/memory/service.py:385-459 | indexing a run again with exact keys changes no card, alias or link |
| ContractTemplate.MatchIffPlaceholder | src/legalbot/contracts/registry.py:16 | the matcher finds exactly the placeholders, each with its own name and end |
| ContractTemplate.ScanIsTheReading | src/legalbot/contracts/registry.py:174-177 | the scan is the one leftmost non-overlapping reading, and its pieces spell the template |
| ContractTemplate.UnfilledExactly | src/legalbot/contracts/registry.py:189-203 | the unfilled names are exactly the names in use with blank values |
| ContractTemplate.NamesInOrder | src/legalbot/contracts/registry.py:174-177 | the names of a template stand in the order of their first use |
| ContractTemplate.RendersIffFilled | src/legalbot/contracts/registry.py:189-207 | rendering succeeds exactly when every name in use has a value that is not blank; otherwise it names exactly the others, each once and in order of first use |
| ContractTemplate.NoMissingFieldsRenders | src/legalbot/contracts/registry.py:180-207 | when placeholders are required fields, no missing field is enough to render |
| ContractTemplate.RenderedSplices | src/legalbot/contracts/registry.py:189-207 | at every placeholder the output is rendered front, literal, the stripped value of its name whatever it contains, rendered rest |
| ContractTemplate.SplicedLast | src/legalbot/contracts/registry.py:204-207 | template and output end with the same literal after the last placeholder |
| ContractTemplate.RendersAlike | src/legalbot/contracts/registry.py:189-207 | values that agree after stripping on the names in use render alike |
| ContractTemplate.RenderedHasNoPlaceholder | src/legalbot/contracts/registry.py:204-207 | with brace-free values and plain literals no placeholder is left |
| Interrupts.ExclusiveStep | src/legalbot/interrupts/service.py:66-123 | pending requests and session rows keep naming each other |
| Interrupts.AuditedStep | src/legalbot/interrupts/service.py:135-219 | interventions keep matching the resolved requests |
| Interrupts.OnePendingPerSession | src/legalbot/interrupts/service.py:66-123 | at most one pending request per session in every reachable state, and the row names exactly that one |
| Interrupts.LeavesPendingOnce | src/legalbot/interrupts/service.py:135-244 | a request leaves pending at most once and is settled for good after it |
| Interrupts.InterventionsMatch | src/legalbot/interrupts/service.py:135-219 | resolved requests and interventions correspond one for one |
| Interrupts.UncheckedOpenBreaks | src/legalbot/workers/runs.py:441-467 | opening without the check keeps exclusivity exactly when nothing is pending |
| Interrupts.InterruptService.Open | src/legalbot/interrupts/service.py:66-111 | a new pending request that the session row names |
| Interrupts.InterruptService.CurrentForSession | src/legalbot/interrupts/service.py:113-123 | the newest pending request, or none when there is none |
| Interrupts.InterruptService.PersistInterrupt | src/legalbot/workers/runs.py:413-467 | opens a request for the first interrupt of a readable checkpoint, unless one is pending or it has no envelope |
| Interrupts.InterruptService.ResolveRequest | src/legalbot/interrupts/service.py:135-219 | closes the current request with one intervention, clears the mark of its session and sets it running, or fails with nothing changed |
| Interrupts.InterruptService.Expire | src/legalbot/interrupts/service.py:221-244 | expires exactly the pending requests past their deadline, fails exactly their sessions, and changes nothing else |
| Interrupts.SweptIs | src/legalbot/interrupts/service.py:221-244 | the same of the sweep event, told from the columns |
| SessionLog.SessionService.NextMessageIndex | src/legalbot/services/session.py:138-144 | the number of messages so far |
| SessionLog.SessionService.AppendMessage | src/legalbot/services/session.py:109-136 | appends one message with the next index to one session |
| SessionLog.SessionService.PostSystemMessage | src/legalbot/services/session.py:88-107 | appends one system message |
| SessionLog.SessionService.ListMessages | src/legalbot/services/session.py:146-154 | the first messages of the log past an index, in order, as many as the limit allows |
| SessionLog.StreamTurn | src/legalbot/api/routers/sessions.py:83-109 | one turn sends the next page and moves past it |
| SessionLog.EmittedIsPrefix | src/legalbot/api/routers/sessions.py:83-109 | at every moment, with appends at any time, what was emitted is a prefix of the log |
| SessionLog.DrainCatchesUp | src/legalbot/api/routers/sessions.py:83-109 | with no further appends the stream catches up with the log |

## Left out

- Language models, the agent framework, prompts and middleware: a model's reply and an interrupt list are arbitrary inputs, and the tool node answers each call with one message.
- Databases, Redis and the message queue: tables are maps and lists, transactions and guarded updates are single steps, the queue is a bag; overlapping dispatch passes are not modelled.
- Concurrency inside the worker methods: each is one uninterrupted execution; interleavings are those of the event system it is proved to follow.
- Finer steps: a retry, which reads attempts and then transitions, is one step, and so are the start of a leg and its primary session.
- Follow-up legs of an idle session: they touch no job.
- ArtifactStore.ArtifactService.Update: applying a JSON patch is a library's, here any function of the current payload that may fail.
- ArtifactStore.ArtifactService.Read: the variant that normalises file names and falls back to other sessions of the thread is not modelled.
- Checksums, JSON text and blob files: a codec that round-trips is assumed.
- Interrupts.InterruptService.ResolveRequest: resume values, and the edits a resolution makes to artifacts and contract fields, are not modelled.
- Interrupts.InterruptService.PersistInterrupt: the check for a pending request and the opening are one step.
- KnowledgeGraph.KnowledgeGraphService.UpsertEntity: row timestamps, validity columns and the origin of edges are not modelled.
- RunIndex.GraphIndexer.ResolveEntity: similarity is any search confined to the owner and type; with it, a repetition is not claimed to settle.
- RunIndex.GraphIndexer.ResolveAttachmentEntity: looks the entity up by type and key, where the code uses the key alone; attachment keys are given to attachments only.
- RunIndex.GraphIndexer.IndexRun: the projection of the run's session is a parameter; loading its artifacts is not modelled.
- ItemIndex.IndexItem: the parent is looked up before anything is written; that a raise undoes the writes before it is the transaction's doing.
- RunProjection.BuildRunProjection: artifacts are records of the members the builders look at; a member of an unexpected JSON type is not modelled, and neither is the model call that extracts entities.
- ArtifactProjection.BuildProjectionFromArtifacts: which names look like organisations is a parameter.
- Hybrid search over the graph, contract classification and the REST routers other than the message stream.
- Unicode: lower case and white space are those of ASCII.
- Scheduling, mailboxes, attachments' contents, encryption, metrics, logging and migrations.
