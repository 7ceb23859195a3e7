# Quimera: verified models of its protocols and algorithms

Quimera is a terminal chat that runs several command-line and API agents side by side. Under its
terminal interface lie a number of small protocols between threads and a number of stateful
algorithms. This project models them in Dafny and proves what they promise: over every
interleaving where threads are involved, over every input where they are not.

`dafny verify dfyconfig.toml` checks everything.

## How the models are built

- **Concurrent protocols** are state machines. A state holds the shared fields and the position of
  every thread; a step is one critical section or one access outside a lock; `Next` gives its effect
  and `Run` strings steps together, so a lemma about `Run` speaks about every schedule. Where the
  source has an object with critical sections there is also a class with those methods, and each
  method is proved to do to the fields what the specification function used by `Next` does.
- **Sequential algorithms** are methods with the loops of the source, proved against a
  specification; the lemmas beside them say what that specification amounts to.
- Clock readings, answers of agents and users, fresh ids, the order of dictionary values and the
  outcome of a process start are free: parameters of steps, or arbitrary values in a method.

| Files | What they model |
|---|---|
| `RuntimeState`, `ChatSlots`, `ChatConservation`, `ChatProgress`, `ChatStories`, `ChatJam` | the two chat counters and the semaphore; admission, queueing, promotion, cancellation and release of prompts; that every prompt ends, and which are processed; the jam that only the deadline breaks |
| `InputGate`, `InputGateRuns` | the monitor that routes lines of stdin to direct readers and to the chat; its runs, step by step |
| `AgentPool`, `AgentFairness` | the rotation of agents with suspensions, a frozen agent and an orchestrator; its fairness |
| `FailureTracker` | failure counters, strikes and the suspensions they cause |
| `Headless`, `HeadlessRuns`, `HeadlessCourses` | the one-turn run whose worker races with timeout and signals; what its result says about the events of the run; the courses it can take |
| `ApiRun`, `ChatStop`, `ChatStopMisses`, `ClientTree` | abandoning a cancelled API run; stopping one submission, and whom that misses; cancellation of a round and of its forks |
| `MemoryStore`, `MemoryRefinement` | the workspace memory with lazily pruned entries, against a map whose entries vanish on time |
| `BugClusters` | time clustering of bug reports and the search for bursts of prints |
| `WarmPool`, `WarmPoolShutdown` | ownership of processes started ahead of need; what can still start after a shutdown |
| `PromptParser`, `PromptRendering`, `PromptConditionals`, `PromptPairs` | blocks of a rendered prompt, and their way back; conditional sections of a template, and what becomes of a pair |
| `SharedState`, `SharedStateRuns` | the state shared by agents: merging, turn stamps, expiry |
| `SubmissionTracker`, `SubmissionRuns` | submission records, watchdogs, eviction; emission over whole runs |
| `AgentCall`, `AgentCallTraces` | one agent call with retries and waits; what its trace shows |
| `Options`, `Sums`, `Text`, `Ordering` | optional values, sums over sequences, Python's string primitives, string order |

## What the proofs brought to light

- **Admission can jam**, whatever the number of slots: queued prompts can hold every worker while
  later prompts have taken all the permits and wait for those workers (`JamIsReachable`). An
  unfinished state has nothing to do but wait for the queue deadline exactly when it is jammed
  (`OnlyTheClockActsExactlyWhenJammed`). With the deadline every run is finite (`RunsAreBounded`).
- **A burst of prints can be missed, and other events can count as prints**: the events are not
  reduced to prints before a window is counted. `MixedKindsHideABurst` and `OtherEventsHideABurst` are
  logs with a burst, two prints in a row or with another event between them, and no report.
  `EveryBurstIsCoveredExactlyWhen` is the exact condition under which each burst is covered by a
  report: its first print, with the `threshold` events from there on, lies in a reported window. Its
  other prints may still lie behind that window (`ABurstMayBeCutOff`); `EveryBurstIsHeldExactlyWhen` is
  the exact condition under which `threshold` of its prints lie in one. `AnotherEventCountsAsAPrint`
  is a report of two prints where there is one, `ReportsCountPrintsExactlyWhen` the exact conditions
  under which every report is of a burst of prints, and counts prints only.
- **A stop of a fork can be lost.** A run of a client tests its event and then, when its signal
  monitor starts, clears it; a stop that lands in between is erased and the run goes on
  (`ClientTree.AStopMayBeLost`, `ChatStop.AReturnedStopMayBeLost`). A stop lasts exactly when it does
  not land there (`StopLastsExactlyWhen`, `ClientStaysStoppedExactlyWhen`). The submission stays marked
  as cancelled, which later tests in its round still see. The owner's event is also cleared for each
  new message, whoever still runs.
- **A second client bound while the first is still held would be missed by a stop** (`OverlapIsMissed`,
  with the exact condition in `StopMissesExactlyWhen`); failover releases one binding before it makes
  the next, and then nobody is missed.
- **A second signal breaks the promises of a headless stop.** `_stop` promises that an answer accepted
  before the cut counts, and that the attempt in progress is recorded. A signal that reaches the stop
  of another ends the turn as cut at once, and then an accepted answer is lost, with its attempt
  listed as good (`ARecordedAnswerMayBeLost`, `RecordedAnswerIsLostExactlyWhen`); before the stop has
  taken the lock, the worker goes on starting and recording candidates (`ACutTurnMayGoOn`); between
  the lock and the record, a started candidate is left without its attempt
  (`AStartedCandidateMayGoUnrecorded`). `SecondSignalIsFinalExactlyWhen` and
  `SecondSignalIsCompleteExactlyWhen` say, at any moment such a signal may come, exactly when it does
  neither harm; `EveryStartIsRecordedExactlyWhen` says it of whole runs.
- **The revision of the memory store betrays garbage**: a `delete` that removes nothing still raises
  it when an expired entry was waiting to be pruned (`DeleteRevisionShowsGarbage`, and
  `RevisionCountsChanges` for what the revision counts). A time to live is
  cut by up to a second, because the deadline is stored in whole seconds (`SavedEntryLivesItsTime`).
- **An absent key can carry a stamp**: one payload may store a key and delete it under another
  spelling (`AnAbsentKeyMayBeStamped`); `AbsentButStampedExactlyWhen` gives the exact condition. It
  does no harm: expiry is proved without it.
- **`apply_state_update` returns true for every payload that is not empty**, also when every item was
  refused and nothing changes (`RefusedPayloadIsAnsweredTrue`); its documentation says that at least
  one valid key was applied. The model follows the code.
- **The wait after a failed resolution is not bounded** by `max_rate_limit_wait`, unlike the waits
  after a missing response or an exception. `ACallMayWaitForAnHour` is a whole call, with a bound of
  two minutes, that sleeps an hour; `WaitsAreBoundedExactlyWhen` says, over every call, what the
  configuration and the provider must ask for at each failed resolution.
- **A process may be started after the shutdown of the pool**, exactly when a call of `schedule_warm` has
  passed its test by then or a thread is about to start its process (`StartsAfterShutdownExactlyWhen`).
  A test under the lock would not prevent the second (`AReservedProcessStartsAfterShutdown`). What
  the unlocked test alone costs is a key reserved after the shutdown
  (`ReservedAfterShutdownExactlyWhen`). Such a process is discarded (`LateArrivalsAreDiscarded`), so
  nothing leaks (`NothingLeaks`).

## Model

| member | source | states |
|---|---|---|
| `RuntimeState.AppRuntimeState.TryAcquireSlot` | `quimera/app/chat_processor.py:290-293` | the non-blocking acquire succeeds exactly when a permit is free and then takes it |
| `RuntimeState.AppRuntimeState.IncrementChatInflight` | `quimera/app/runtime_state.py:35-46` | inflight grows by one, nothing else changes |
| `RuntimeState.AppRuntimeState.DecrementChatInflight` | `quimera/app/runtime_state.py:48-59` | inflight falls by one, clamped at zero |
| `RuntimeState.AppRuntimeState.IncrementChatPending` | `quimera/app/runtime_state.py:81-92` | pending grows by one and is returned as queue position |
| `RuntimeState.AppRuntimeState.DecrementChatPending` | `quimera/app/runtime_state.py:94-105` | pending falls by one, clamped at zero |
| `RuntimeState.AppRuntimeState.PromoteChatPendingToInflight` | `quimera/app/runtime_state.py:107-123` | one unit moves from pending to inflight in one critical section |
| `RuntimeState.AppRuntimeState.ReleaseChatSlot` | `quimera/app/runtime_state.py:125-128` | one permit is given back |
| `ChatConservation.SlotsAreConserved` | `quimera/app/chat_lifecycle.py:489-658` | in every interleaving free permits and slot holders add up to the capacity, inflight counts the holders past admission and never exceeds them, pending counts the prompts accepted without a slot and not yet promoted or dropped |
| `ChatConservation.ClampsNeverBite` | `quimera/app/runtime_state.py:48-128` | every decrement finds a positive counter and every release a missing permit: the clamps at zero never take effect |
| `ChatConservation.EachUnitGivenBackOnce` | `quimera/app/chat_lifecycle.py:504-658` | each prompt takes its permit, its inflight unit and its pending unit at most once and has given each back exactly once when it is done, on every exit path |
| `ChatSlots.LedgerShowsHoldings` | `quimera/app/chat_lifecycle.py:504-658` | what a prompt owns at each place is what it took and has not given back |
| `ChatConservation.QuiescentIsEmpty` | `quimera/app/chat_lifecycle.py:489-658` | when every prompt is done both counters are zero and all permits are free |
| `ChatSlots.StepKeepsInv` | `quimera/app/chat_lifecycle.py:489-658` | every action of main loop, worker, executor, canceller and clock keeps conservation, the ledgers and both queues |
| `ChatSlots.LocalEffect` | `quimera/app/chat_lifecycle.py:504-658` | an action moves the shared counters exactly as it moves what its prompt owns |
| `ChatProgress.StepLowersMeasure` | `quimera/app/chat_lifecycle.py:504-550` | every action, also a tick of the clock, lowers a measure over prompts, queue and remaining wait |
| `ChatProgress.RunsAreBounded` | `quimera/app/chat_lifecycle.py:504-550` | every run, whatever the schedule, is over within that measure |
| `ChatProgress.NeverStuck` | `quimera/app/chat_lifecycle.py:504-658` | while a prompt is unfinished some action that needs neither user nor failure is enabled |
| `ChatProgress.EveryPromptEnds` | `quimera/app/chat_lifecycle.py:504-550` | from every reachable state such actions alone finish every prompt and leave the counters at zero and all permits free; which prompts are processed on the way, and that none else is, is `ChatStories.EveryPromptIsProcessedOrHarmed` |
| `ChatStories.ProcessedExactlyWhen` | `quimera/app/chat_lifecycle.py:489-658` | over every run from the start, in its steps: a prompt that is done was processed, once, exactly when it was not interrupted, dropped, refused by the executor or cancelled in its queue, did not give up and did not run out of time; else it was not processed at all |
| `ChatStories.EachPromptEndsOneWay` | `quimera/app/chat_lifecycle.py:504-658` | the whole story of a prompt that is done: it was taken up with a permit, processed, and gave its worker, count and permit back; or it was lost with or without a permit; or it waited in vain |
| `ChatStories.ProcessingExactlyWhen` | `quimera/app/chat_lifecycle.py:526-531` | a message is being processed exactly when a worker has taken its prompt up, at once or by promotion after waiting for a permit, and that is the last that befell it |
| `ChatStories.AtMostCapacityRun` | `quimera/app/chat_lifecycle.py:504-531` | in every reachable state at most as many messages are being processed as there are slots |
| `ChatStories.OnlyTheStoppedAreDropped` | `quimera/app/chat_lifecycle.py:504-523` | a prompt is dropped or gives up waiting only after a stop of it |
| `ChatStories.MishapsMayCome` | `quimera/app/chat_lifecycle.py:287-594` | a prompt may be stopped at every moment until it is done, once, and each other mishap may come exactly where it is one |
| `ChatStories.EveryPromptIsProcessedOrHarmed` | `quimera/app/chat_lifecycle.py:504-658` | from wherever a run has come to, actions that need neither user nor failure finish every prompt, and each was processed, once, exactly when none of those harms befell it in the whole of the run |
| `ChatJam.JamIsReachable` | `quimera/app/chat_lifecycle.py:504-523` | for every number of slots and every positive deadline a jammed state is reachable |
| `ChatJam.OnlyTheClockActsExactlyWhenJammed` | `quimera/app/chat_lifecycle.py:511-523` | in an unfinished state only the clock can act exactly when queued prompts hold all workers, no permit is free and whoever is left waits for a worker |
| `InputGate.SimpleInputGate.AppendLine` | `quimera/app/simple_input_gate.py:162-174` | a line read goes to the end of the deque |
| `InputGate.SimpleInputGate.CloseStdin` | `quimera/app/simple_input_gate.py:175-178` | the end of stdin is recorded, lines not yet consumed stay |
| `InputGate.SimpleInputGate.ReserveDirectInput` | `quimera/app/simple_input_gate.py:220-231` | a reservation counts as a direct waiter |
| `InputGate.SimpleInputGate.ReleaseReserved` | `quimera/app/simple_input_gate.py:40-47` | a release takes one waiter away |
| `InputGate.SimpleInputGate.IsClosed` | `quimera/app/simple_input_gate.py:215-218` | true exactly when stdin is over and no line is left |
| `InputGate.SimpleInputGate.TakeOnce` | `quimera/app/simple_input_gate.py:197-213` | one pass of the wait loop: a line is handed out, and leaves the front of the deque, only to a read whose request, if any, is not answered, expired or cancelled at either test; then the request is claimed; else the pass waits or gives up and the deque stays |
| `InputGate.InputRequest.ClaimLine` | `quimera/runtime/input_broker.py:117-123` | a claim succeeds exactly when the request is neither answered nor expired and its execution is not cancelled at that moment, and then only marks it as claimed |
| `InputGate.InputRequest.TryExpire` | `quimera/runtime/input_broker.py:98-105` | a request expires exactly when it is not answered and no line was claimed for it, cancelled or not |
| `InputGate.LinesAreDeliveredOnceInOrder` | `quimera/app/simple_input_gate.py:162-247` | in every interleaving the lines read are the lines handed out followed by the deque, and no read gets two |
| `InputGate.WaitersAreAccounted` | `quimera/app/simple_input_gate.py:27-51` | the waiter count is the reservations not yet given back plus the direct reads in progress, under repeated and concurrent releases |
| `InputGate.ChatYields` | `quimera/app/simple_input_gate.py:200-203` | the chat takes a line only when nobody has a reservation and no direct read waits |
| `InputGate.TicketedLineIsClaimed` | `quimera/app/simple_input_gate.py:183-203` | a line reaches a ticketed read only after its request claimed it, and that request never expires |
| `InputGate.ReadIsServedExactlyWhen` | `quimera/app/simple_input_gate.py:197-213` | in every interleaving a read is served exactly when a line is there for it, for the chat only with no reservation open and no direct read waiting, and its request is neither answered nor expired nor cancelled, at the first test and, after what happens in between, at the second; it waits exactly when none is there, stdin is not over, its request was none of these at the first test and its time is not up; otherwise it gives up |
| `InputGate.EofMeansExhausted` | `quimera/app/simple_input_gate.py:240-244` | the end of file is raised only when stdin is over and every line was handed out |
| `InputGate.ExhaustedIsFinal` | `quimera/app/simple_input_gate.py:215-218` | that state is stable: no later action reads or hands out a line |
| `InputGateRuns.AppendedIsDeliveredOrLeft` | `quimera/app/simple_input_gate.py:162-213` | over every run what the reader thread appended is what was handed out, in order, and what is left |
| `InputGateRuns.LinesAreThoseAppended` | `quimera/app/simple_input_gate.py:162-178` | the lines read are those appended; stdin is over exactly when the reader thread closed it |
| `InputGateRuns.ReservationsFollowTheSteps` | `quimera/app/simple_input_gate.py:27-51` | a reservation is held until it is released, however often, and given back by the one step that releases its waiter |
| `InputGateRuns.ReleaseGivesTheTurnBack` | `quimera/app/simple_input_gate.py:40-47` | the first release takes one waiter away, a repeated one nothing |
| `InputGateRuns.ChangesInFields` | `quimera/runtime/input_broker.py:98-127` | over every sequence of changes a request is answered for good once answered, cancelled as its event was last left, and expired exactly when a lapse found it neither answered nor claimed |
| `InputGateRuns.RequestsFollowTheSteps` | `quimera/app/simple_input_gate.py:183-203` | a step leaves a request as it was but for its own changes, and for the claim of a read that it serves |
| `InputGateRuns.ReadsFollowTheSteps` | `quimera/app/simple_input_gate.py:197-244` | a read is served the first line of the deque, gives up or waits as its pass came out; a chat read without a line is at the end of file exactly when stdin is over with nothing left |
| `InputGateRuns.EveryThreadMayAct` | `quimera/app/simple_input_gate.py:162-247` | nobody is kept from acting but by where it stands itself |
| `InputGateRuns.AWaitingLineIsServed` | `quimera/app/simple_input_gate.py:197-213` | a line that waits with nobody ahead is handed to the next read that asks, at once |
| `AgentPools.AgentPool.AvailableLocked` | `quimera/app/agent_pool.py:60-65` | drops suspensions that have run out and lists the others' agents in order |
| `AgentPools.AgentPool.TakePrimary` | `quimera/app/agent_pool.py:122-128` | a frozen member that is not suspended is served and the list stays; else the first agent not suspended is served and goes to the back; with all suspended one of those due earliest is served and the list stays |
| `AgentPools.AgentPool.Primary` | `quimera/app/agent_pool.py:118-120` | the agent the next `take_primary` would serve, by the same three cases, without rotating |
| `AgentPools.AgentPool.SuspendAgent` | `quimera/app/agent_pool.py:84-97` | a member is suspended, never for a shorter time than it already is |
| `AgentPools.AgentPool.ResumeAgent` | `quimera/app/agent_pool.py:99-102` | the suspension is lifted; the answer says whether there was one |
| `AgentPools.AgentPool.Freeze` | `quimera/app/agent_pool.py:130-138` | a member is frozen; a name that is not a member changes nothing |
| `AgentPools.AgentPool.SetOrchestrator` | `quimera/app/agent_pool.py:152-159` | a member becomes orchestrator and is frozen |
| `AgentPools.AgentPool.AddAgent` | `quimera/app/agent_pool.py:173-176` | a new name goes to the end of the list |
| `AgentPools.AgentPool.RemoveAgent` | `quimera/app/agent_pool.py:178-189` | the name goes, with its suspension, freeze and office |
| `AgentPools.AgentPool.SetAll` | `quimera/app/agent_pool.py:191-201` | the list is replaced; suspensions, freeze and office of names no longer in it go |
| `AgentPools.AgentPool.RotateAll` | `quimera/app/agent_pool.py:203-206` | the first agent goes to the back |
| `AgentFairness.ServedWithinItsIndex` | `quimera/app/agent_pool.py:60-128` | an agent at index i that stays available, with no freeze, is chosen within i + 1 calls of `take_primary`, whatever happens to the others |
| `AgentFairness.AvailableSeePlainRotation` | `quimera/app/agent_pool.py:122-128` | the available agents among themselves see a plain rotation |
| `AgentFairness.RotationIsLeastRecentlyServed` | `quimera/app/agent_pool.py:60-128` | over every run without a wholesale `set` the list stays in order of service and the agent served is the available one rotated back or added longest ago |
| `AgentFairness.CallKeepsOrder` | `quimera/app/agent_pool.py:60-206` | every call keeps the list sorted by the moment each agent was last rotated back or added |
| `AgentFairness.TakeServesTheOldest` | `quimera/app/agent_pool.py:122-128` | from a list in that order the rotation serves the oldest available agent |
| `AgentFairness.DistinctNamesAreSorted` | `quimera/app/agent_pool.py:30-38` | a list of distinct names starts in that order |
| `AgentFairness.TakeServesTheFirst` | `quimera/app/agent_pool.py:67-77` | the first available agent is served and goes to the back, unless a frozen one is available |
| `AgentFairness.OtherCallsDoNotMoveBack` | `quimera/app/agent_pool.py:84-206` | no other call moves an agent back |
| `AgentFairness.TakeKeepsMembers` | `quimera/app/agent_pool.py:122-128` | the rotation neither loses nor adds nor duplicates a member |
| `AgentFairness.AllSuspendedProbesTheEarliest` | `quimera/app/agent_pool.py:67-77` | with everybody suspended the agent whose suspension ends first is tried and nothing rotates |
| `AgentFairness.TakeServesTheFrozen` | `quimera/app/agent_pool.py:67-77` | a frozen member with no suspension beyond now is served and the list stays |
| `AgentFairness.TakeServesTheFirstFree` | `quimera/app/agent_pool.py:67-77` | without one the first agent of the list that is not suspended is served and goes to the back |
| `AgentFairness.TakeProbesTheEarliest` | `quimera/app/agent_pool.py:67-77` | with all suspended one of those due back earliest is served and the list stays; nobody is served from an empty list only |
| `AgentFairness.TakeKeepsTheRest` | `quimera/app/agent_pool.py:60-65` | a call forgets the suspensions that are over and no other, and touches neither freeze nor orchestrator |
| `AgentFairness.AFrozenAgentIsAlwaysServed` | `quimera/app/agent_pool.py:67-138` | over every run every pick is the frozen agent, as long as it stays an unsuspended member and no call unfreezes it, freezes another, removes it or sets a list without it |
| `AgentFairness.FreezeServes` | `quimera/app/agent_pool.py:130-159` | and a freeze of a member takes effect from the next pick on |
| `FailureTracker.CooldownSeconds` | `quimera/app/agent_failure_tracker.py:62-65` | between the base and the ceiling for every strike |
| `FailureTracker.CooldownDoubles` | `quimera/app/agent_failure_tracker.py:62-65` | it doubles with every strike until the ceiling |
| `FailureTracker.RateLimitSeconds` | `quimera/app/agent_failure_tracker.py:116-144` | a rate limit suspends for what the provider asks for, but at least 5 and at most 3600 seconds; without a usable time for the cooldown |
| `FailureTracker.AgentFailureTracker.Success` | `quimera/app/agent_failure_tracker.py:67-80` | both counters go to zero and a member is resumed |
| `FailureTracker.AgentFailureTracker.Failure` | `quimera/app/agent_failure_tracker.py:82-114` | the failure is counted; a member with two of them gets a strike and a suspension |
| `FailureTracker.AgentFailureTracker.RateLimited` | `quimera/app/agent_failure_tracker.py:116-144` | a member gets a strike and a suspension at once |
| `FailureTracker.DeadlinesAreBounded` | `quimera/app/agent_failure_tracker.py:62-144` | over every run each suspension is of a member and ends within 3600 seconds of now |
| `FailureTracker.DeadlinesNeverMoveEarlier` | `quimera/app/agent_pool.py:84-97` | a deadline never moves earlier until success, resumption or removal; it only runs out |
| `FailureTracker.DeadlineStandsUntilLifted` | `quimera/app/agent_pool.py:84-102` | so over every run without such an event an agent stays suspended at least until the deadline it had, unless a call found that deadline passed |
| `FailureTracker.CounterMatchesHistory` | `quimera/app/agent_failure_tracker.py:67-90` | the counter is the number of failures since the last success |
| `FailureTracker.SuspensionNeedsTwoFailures` | `quimera/app/agent_failure_tracker.py:82-114` | an ordinary failure changes a suspension only as the second of two with no success between |
| `FailureTracker.SecondFailureSuspends` | `quimera/app/agent_failure_tracker.py:82-114` | the second such failure of a member suspends it for the cooldown of its strike, or until the deadline it already had if that is later |
| `FailureTracker.RateLimitSuspends` | `quimera/app/agent_failure_tracker.py:116-144` | over every history a rate limit gives a member a strike, counts no failure, and suspends it for what the provider asks for between 5 and 3600 seconds, or for the cooldown of its strike |
| `FailureTracker.StrikesMatchHistory` | `quimera/app/agent_failure_tracker.py:67-144` | the strikes are the suspensions since the last success |
| `FailureTracker.PoolCallsInFields` | `quimera/app/agent_pool.py:99-189` | resuming, adding and removing an agent leave failures and strikes alone and do to the pool what they say |
| `FailureTracker.SuccessClears` | `quimera/app/agent_failure_tracker.py:67-80` | after a success the agent is not suspended, its counters are zero and nobody else is touched |
| `Headless.SharedProgress.BeginCandidate` | `quimera/app/headless.py:85-143` | a candidate is begun exactly when the turn was not cut |
| `Headless.SharedProgress.FinishCandidate` | `quimera/app/headless.py:85-143` | an attempt, with its response if good, is recorded exactly when the turn was not cut |
| `Headless.SharedProgress.TryStop` | `quimera/app/headless.py:162-167` | the turn is cut exactly when no response was accepted before |
| `Headless.SharedProgress.RecordCutAttempt` | `quimera/app/headless.py:171-176` | the attempt in progress, if any, is recorded as failed with the reason of the cut |
| `Headless.AttemptsAreAPrefix` | `quimera/app/headless.py:85-181` | in every race the attempts are a prefix of the candidates, each recorded once, all but the last failed |
| `Headless.WorkerIsMuteAfterTheCut` | `quimera/app/headless.py:85-143` | once a stop has taken the lock and found no response the worker records nothing, starts nothing, accepts nothing |
| `Headless.NothingAfterTheCut` | `quimera/app/headless.py:85-181` | over the rest of every run from there only the attempt in progress may still be recorded, by the waiting thread, as failed |
| `Headless.CutIsRecorded` | `quimera/app/headless.py:171-176` | in every race, once a stop has made its record every candidate that was started has its attempt, and nothing is added in any continuation |
| `HeadlessRuns.EveryStartIsRecordedExactlyWhen` | `quimera/app/headless.py:85-282` | over every run to its result each started candidate has its attempt exactly when no signal skipped the record and either a stop took the lock or the worker neither is in a call nor crashed in one |
| `HeadlessRuns.UndisturbedStopsLeaveNothingOut` | `quimera/app/headless.py:156-181` | when no signal ends a stop before it took the lock nothing is started or recorded after the cut; when, besides, none skips the record and no call crashes the worker, every started candidate has its attempt |
| `HeadlessRuns.SecondSignalIsFinalExactlyWhen` | `quimera/app/headless.py:221-233` | a signal that ends the stop of another leaves the record unchanged in every continuation exactly when the lock was taken, there is a response, or the worker has ended or has no candidate left |
| `HeadlessRuns.SecondSignalIsCompleteExactlyWhen` | `quimera/app/headless.py:221-233` | in every continuation every started candidate then has its attempt exactly when, besides, none is in progress |
| `HeadlessRuns.ACutTurnMayGoOn` | `quimera/app/headless.py:221-233` | a run in which a candidate is started and recorded as good after the cut |
| `HeadlessRuns.AStartedCandidateMayGoUnrecorded` | `quimera/app/headless.py:162-181` | a run in which the attempt in progress is never recorded |
| `HeadlessRuns.ResultIsOkExactlyWhen` | `quimera/app/headless.py:203-282` | in the events of the run: good with exit code 0 exactly when an agent returned an answer, some text that is not blank, while the turn was not stopped, and the worker recorded it, the worker did not crash, no signal interrupted the close and no second signal reached the stop of a first; then the response is that text; otherwise the error is named |
| `HeadlessRuns.AnswerIsWhatWasReturned` | `quimera/app/headless.py:121-143` | over every run the recorded response is the text of the last return that was an answer and was finished while the turn was not stopped, if any |
| `HeadlessRuns.AnAnswerEndsTheTurn` | `quimera/app/headless.py:121-143` | a return with a character that is not a space is recorded as a good attempt with that text, and no further candidate is started |
| `HeadlessRuns.AFailureTriesTheNext` | `quimera/app/headless.py:121-143` | after any other return the attempt is recorded as failed, with its error, and the next candidate is started |
| `HeadlessRuns.ExitCodeTells` | `quimera/app/headless.py:203-282` | a turn that was cut ends with 124, 130 or 143 as a timeout, a Ctrl+C or a SIGTERM began the stop; another with 0 when good, 130 when the close was interrupted, else 1 |
| `HeadlessCourses.AnUndisturbedTurn` | `quimera/app/headless.py:85-282` | whatever the calls come back with, a turn nobody disturbs ends with the first answer and 0, the candidates before it listed as failed, each with its error, and none after it tried; or with all as failed and 1 |
| `HeadlessCourses.ATurnThatIsCut` | `quimera/app/headless.py:156-282` | from every reachable moment without an answer a timeout or a signal ends the turn, with the attempt in progress, if any, as the last, failed for the reason of the cut, and its code |
| `HeadlessCourses.ACutThatComesTooLate` | `quimera/app/headless.py:156-170` | from every reachable moment with an answer it leaves the record alone and the turn is good |
| `HeadlessCourses.ATurnThatCrashes` | `quimera/app/headless.py:203-282` | a worker that crashes ends the turn with its message and 1, or with 130 when the close is interrupted |
| `HeadlessRuns.RecordedAnswerIsLostExactlyWhen` | `quimera/app/headless.py:221-233` | an answer that was returned and recorded is lost, with the attempt listed as good, exactly when a second signal reached the stop of a first |
| `HeadlessRuns.ARecordedAnswerMayBeLost` | `quimera/app/headless.py:156-170` | a run in which it is, against what `_stop` promises |
| `Headless.AcceptedResponseSurvivesAStop` | `quimera/app/headless.py:156-181` | a stop that no second signal ends cuts the turn exactly when no response was accepted before it took the lock |
| `Headless.StepKeepsInv` | `quimera/app/headless.py:85-282` | every step of worker, waiting thread and signals keeps the record and both positions consistent |
| `ApiRun.Run.BeginToolExecution` | `quimera/agents/client.py:194-199` | a tool is admitted and counted exactly when the run is not cancelled |
| `ApiRun.Run.EndToolExecution` | `quimera/agents/client.py:201-203` | one tool less, clamped at zero |
| `ApiRun.AbandonIsSafe` | `quimera/agents/client.py:2269-2310` | an abandoned run executes no tool, and never will, in every interleaving with the event set outside the lock |
| `ApiRun.DrainedForever` | `quimera/agents/client.py:194-207` | once the event is set and the test said "no active tool", the count stays zero |
| `ApiRun.LeaveFindsAnActiveTool` | `quimera/agents/client.py:201-203` | the count is the number of executing tools, and its clamp never takes effect |
| `ApiRun.PathInItsSteps` | `quimera/agents/client.py:2269-2310` | over every path a run is cancelled exactly when somebody cancelled it, abandoned exactly when the waiting thread looked and found no tool executing, and counts the tools that entered and have not left |
| `ApiRun.AToolTakesItsCourse` | `quimera/agents/client.py:194-199` | with the lock free an idle tool passes the check, enters and leaves again exactly when nobody cancelled the run before; else it is turned away and nothing has changed |
| `ApiRun.ACancelledRunIsAbandoned` | `quimera/agents/client.py:2269-2310` | from every state of a cancelled run it can be abandoned: the tools under way finish and none is admitted |
| `ChatStop.NewestClientIsStopped` | `quimera/app/chat_lifecycle.py:287-372` | when a stop has returned, the newest client the submission still holds has had its `cancel_own_work` called, in every interleaving with binding and failover; outside the start of a run its event is set exactly when one of these calls did not land in the start of a run |
| `ChatStop.StopMissesNobody` | `quimera/app/chat_lifecycle.py:287-372` | with one binding at a time the same holds of every client still held |
| `ChatStop.ClientStaysStoppedExactlyWhen` | `quimera/agents/client.py:1076-1090` | in every continuation a client's event stays set and it begins no run exactly when some stop of it did not land between the test and the clear of a run |
| `ChatStop.AReturnedStopMayBeLost` | `quimera/agents/client.py:1076-1090` | a run in which a stop has returned and the only client, its event clear, is under way |
| `ChatStop.OverlapIsMissed` | `quimera/app/chat_lifecycle.py:338-372` | without that discipline a client can be missed: a run that shows it |
| `ChatStopMisses.StopMissesExactlyWhen` | `quimera/app/chat_lifecycle.py:287-372` | when a stop has returned, a client still held was missed exactly when it was bound before the submission was marked and so was the one after it |
| `ChatStopMisses.ListedIsTheLastFree` | `quimera/app/chat_lifecycle.py:338-372` | in every interleaving the listed client is the last one bound before the mark, as long as it is open, and none otherwise; a release of any other leaves the listing alone |
| `ChatStop.OnlyStopsCancel` | `quimera/app/chat_lifecycle.py:287-372` | no client is stopped without a stop or an interrupt of its submission |
| `ChatStop.ListedUntilTakenOff` | `quimera/app/chat_lifecycle.py:139-372` | over every run a submission is listed until the second part of a stop, a local interrupt or its end takes it off |
| `ChatStop.MarkAndCallsFollow` | `quimera/app/chat_lifecycle.py:139-372` | a submission is marked by a stop that finds it listed, by its second part or by a local interrupt, and set by its end; a stop that finds it unlisted is too late, any other goes on to its second part and to its client |
| `ChatStop.ASubmissionTakesItsCourse` | `quimera/app/chat_lifecycle.py:338-434` | with no client bound a submission that is not marked can bind one, run it once, release it and end |
| `ChatStop.AStopTakesItsCourse` | `quimera/app/chat_lifecycle.py:287-336` | a stop of a listed submission with a client sets that client's event and no other, and the next stop is too late |
| `ChatStop.StepKeepsInv` | `quimera/app/chat_lifecycle.py:139-174` | every step keeps the mark, the listed client and the calls under way consistent |
| `ClientTree.CancelEvent.Set` | `quimera/agents/cancel_signal.py:8-30` | sets the own flag of an event alone, after which it is signalled |
| `ClientTree.CancelEvent.Clear` | `quimera/agents/cancel_signal.py:8-30` | a fork that clears its event still answers to its round |
| `ClientTree.CancelSignalsExactlyTheSubtree` | `quimera/agents/client.py:832-870` | cancelling a client signals exactly it and what was forked from it; from the owner, everybody |
| `ClientTree.ReturnedCancelReachedItsRuns` | `quimera/agents/client.py:763-774` | a cancellation that has returned has set the event of every run that was registered when it took its snapshot, of the owner's all and of a fork's each of its own, whatever went on beside it |
| `ClientTree.StopLastsExactlyWhen` | `quimera/agents/client.py:1973-1985` | a client's event stays set in every continuation, for the owner up to the next message, exactly when the stop does not land between a run's test of the event and its clear |
| `ClientTree.LastingStopReachesItsRuns` | `quimera/agents/client.py:2018-2292` | after a stop that lasts the client begins nothing, what it prepares is told from the start, and a run it or a fork of it watches is told by that watch |
| `ClientTree.AStopMayBeLost` | `quimera/agents/client.py:1973-1985` | a run in which a fork's stop has returned and its run is registered, its event clear, with nothing for its watch to see |
| `ClientTree.CancelHitsNobodyElse` | `quimera/agents/client.py:763-774` | a step of a cancellation that sets the event of a run is of the owner, or of the client the run belongs to |
| `ClientTree.OthersStopsLeaveAlone` | `quimera/agents/client.py:763-870` | over every run in which neither a fork nor anybody it was forked from is stopped, its event is clear and no run of it is told to stop, whatever other forks are stopped |
| `ClientTree.ClearKeepsTheRound` | `quimera/agents/cancel_signal.py:28-30` | clearing a fork's event does not erase a cancellation of the round |
| `ClientTree.SetReachesDescendants` | `quimera/agents/cancel_signal.py:28-30` | an event that is set is seen by every client forked below it |
| `MemoryStore.NormalizeLimit` | `quimera/workspace_memory.py:385-395` | refused exactly when given and not positive; 50 when not given; else cut at 100 |
| `MemoryStore.WorkspaceMemoryStore.PruneExpired` | `quimera/workspace_memory.py:317-345` | expired entries and emptied namespaces go; the answer says whether anything expired |
| `MemoryStore.WorkspaceMemoryStore.Save` | `quimera/workspace_memory.py:56-119` | refused arguments, also a value that is too long and a tag with a path in it, change nothing; otherwise the pruned store gets the entry, with its own tags or those in its value, and the revision grows by one |
| `MemoryStore.NormalizeTags` | `quimera/workspace_memory.py:405-415` | refuses a list with a path in it, else yields the tags that are not blank, stripped |
| `MemoryStore.WorkspaceMemoryStore.Delete` | `quimera/workspace_memory.py:169-208` | removes the key or the namespace from the pruned store; the revision grows by one exactly when something was removed or pruned |
| `MemoryStore.WorkspaceMemoryStore.Retrieve` | `quimera/workspace_memory.py:121-158` | returns the first `limit` live matches in (namespace, key) order with the time each has left; the revision never moves |
| `MemoryStore.CollectEntries` | `quimera/workspace_memory.py:265-315` | the nested loops with their early return find exactly those matches |
| `MemoryStore.CollectShelf` | `quimera/workspace_memory.py:283-315` | the inner loop over one namespace, full or not, keeps the results the first matches so far |
| `MemoryStore.PruneKeepsView` | `quimera/workspace_memory.py:317-345` | pruning changes nothing a reader can see, now or later |
| `MemoryRefinement.LazyRefinesEager` | `quimera/workspace_memory.py:56-208` | after any calls at non-decreasing times a reader sees exactly what an eager map holds |
| `MemoryRefinement.AReaderSeesTheLastSave` | `quimera/workspace_memory.py:56-208` | after any calls at non-decreasing times a reader sees an entry exactly when some save of its key was followed by no other save and no delete of it, and its deadline, cut to the second, has come neither by now nor by any call; and the entry has the value, tags, actor, time stamps and time to live of that save |
| `MemoryRefinement.RetrievedInFields` | `quimera/workspace_memory.py:265-315` | each result is an entry a reader sees with the namespace, key, prefix and tags asked for, and the whole seconds it has left; below the limit no such entry is missing |
| `MemoryRefinement.StepAgrees` | `quimera/workspace_memory.py:56-208` | each call keeps the lazy store and the eager map in agreement |
| `MemoryRefinement.FirstMatchesAreUnique` | `quimera/workspace_memory.py:265-315` | the view determines the whole result of `retrieve` |
| `MemoryRefinement.SavedEntryLivesItsTime` | `quimera/workspace_memory.py:90-112` | an entry lives for more than its time to live less a second and never longer than it |
| `MemoryRefinement.CreationSurvivesUpdatesNotExpiry` | `quimera/workspace_memory.py:90-112` | creation data survive the update of a live entry, and only that; live entries of other keys stay as they are |
| `MemoryRefinement.CreatedByTheFirstSave` | `quimera/workspace_memory.py:90-112` | after any sequence of calls the creation data of an entry are those of the first save of its key since it was last absent or expired |
| `MemoryRefinement.RemovedCountsLiveTargets` | `quimera/workspace_memory.py:181-202` | the number reported as removed counts live entries only |
| `MemoryRefinement.LazyShowsEager` | `quimera/workspace_memory.py:56-208` | right after a call the store holds just what the eager map holds: garbage comes with time only |
| `MemoryRefinement.RevisionCountsChanges` | `quimera/workspace_memory.py:107-202` | after any sequence of calls the revision is the number of saves and of deletes that found a target or an expired entry |
| `MemoryRefinement.DeleteRevisionShowsGarbage` | `quimera/workspace_memory.py:181-202` | two histories that look the same to a reader, after which the same delete, removing nothing, raises the revision in one only |
| `BugClusters.Cluster` | `quimera/bugs.py:855-871` | the clusters are the reports of the greedy groups |
| `BugClusters.ClustersAreAllReports` | `quimera/bugs.py:855-871` | the clusters together are the reports, in order, none left out or repeated |
| `BugClusters.GreedyDivides` | `quimera/bugs.py:855-871` | the greedy groups divide the list in order, each fits the window, each is opened by a report the one before could not hold |
| `BugClusters.GreedyIsOptimal` | `quimera/bugs.py:855-871` | on a list sorted by time no division into consecutive groups within the window has fewer groups |
| `BugClusters.FarItemsNeedGroups` | `quimera/bugs.py:855-871` | reports more than a window apart need a group each in any division |
| `BugClusters.DetectRapidBurst` | `quimera/bugs.py:464-515` | reports the windows of `ReportsFor`, one for each line |
| `BugClusters.ReportsForStarts` | `quimera/bugs.py:496-514` | each report comes from a full window opened by a print with its true count, every such window is reported, no line twice |
| `BugClusters.FullStartsAreFull` | `quimera/bugs.py:484-496` | a window found holds at least `threshold` events, all within the window |
| `BugClusters.JumpLosesNothing` | `quimera/bugs.py:515` | every run of `threshold` events that fits lies inside a window found, so the jump skips nothing |
| `BugClusters.LaterStartsAreOutside` | `quimera/bugs.py:515` | a start the scan reaches later has no full run inside an earlier window |
| `BugClusters.WindowsAreFoundExactlyWhenRunsFit` | `quimera/bugs.py:481-515` | a full window is found exactly when some run fits |
| `BugClusters.EveryRunIsCoveredExactlyWhen` | `quimera/bugs.py:496` | every run of events of any kind lies inside a reported window exactly when every full window the scan stops at is opened by a print |
| `BugClusters.EveryPrintRunIsCoveredExactlyWhen` | `quimera/bugs.py:481-515` | every run of consecutive prints lies inside a reported window exactly when each window found around one is opened by a print |
| `BugClusters.BurstIsInItsWindow` | `quimera/bugs.py:484-495` | a print with `threshold` prints before the first event that is too late is one whose window holds that many |
| `BugClusters.EveryBurstIsCoveredExactlyWhen` | `quimera/bugs.py:481-515` | the first print of every burst, with the `threshold` events from there on, lies inside a reported window exactly when each window found around one is opened by a print |
| `BugClusters.EveryBurstIsHeldExactlyWhen` | `quimera/bugs.py:481-515` | `threshold` prints of every burst lie inside a reported window exactly when each window found around the start of one is opened by a print and reaches that far |
| `BugClusters.OtherEventsHideABurst` | `quimera/bugs.py:481-515` | a log with a burst, no two prints in a row, for which the list of reports is empty |
| `BugClusters.ABurstMayBeCutOff` | `quimera/bugs.py:481-515` | a log with a burst that is covered and yet ends behind every reported window |
| `BugClusters.ReportsAreTheFullPrintStarts` | `quimera/bugs.py:496-514` | with distinct lines every full window opened by a print has its report |
| `BugClusters.ReportsCountPrintsExactlyWhen` | `quimera/bugs.py:497-499` | every report is of at least `threshold` prints exactly when each print that opens a full window starts a burst of prints, and counts only prints exactly when those windows hold nothing else |
| `BugClusters.AnotherEventCountsAsAPrint` | `quimera/bugs.py:497-499` | a log for which two prints are reported where there is one |
| `BugClusters.PrintsOnlyLoseNoBurst` | `quimera/bugs.py:481-515` | with prints in time order every burst lies inside a reported window |
| `BugClusters.ReportedExactlyWhenABurstExists` | `quimera/bugs.py:481-515` | with prints in time order something is reported exactly when the log holds a burst |
| `BugClusters.MixedKindsHideABurst` | `quimera/bugs.py:481-515` | a log with a burst of prints for which the list of reports is empty |
| `WarmPools.WarmPool.PopSlot` | `quimera/agents/warm_pool.py:70-72` | the slot of the key, if any, leaves the table |
| `WarmPools.WarmPool.ReserveKey` | `quimera/agents/warm_pool.py:92-96` | a key is made pending exactly when it is neither ready nor pending |
| `WarmPools.WarmPool.StoreSlot` | `quimera/agents/warm_pool.py:134-143` | the process goes to the table, or is discarded after a shutdown; the key is no longer pending |
| `WarmPools.WarmPool.Close` | `quimera/agents/warm_pool.py:104-114` | the flag is set, the table handed over and everything emptied |
| `WarmPools.EachProcessHasOneOwner` | `quimera/agents/warm_pool.py:61-144` | in every interleaving each process is in exactly one of: warming thread, table, a call under way, one caller, discarded |
| `WarmPools.HandedOutOrDiscardedOnce` | `quimera/agents/warm_pool.py:61-79` | no process is handed out twice, discarded twice, or both |
| `WarmPools.OnlyTheLivingAreHandedOut` | `quimera/agents/warm_pool.py:61-79` | over every run callers are handed exactly the processes that were alive when they were looked at |
| `WarmPools.TheDeadAreDiscarded` | `quimera/agents/warm_pool.py:61-79` | and a dead one is discarded |
| `WarmPools.OneWarmingPerKey` | `quimera/agents/warm_pool.py:81-102` | before the shutdown at most one thread warms a key, and the branch that replaces an older process is dead |
| `WarmPools.ReadyAndPendingAreDisjoint` | `quimera/agents/warm_pool.py:92-96` | no key is both ready and pending |
| `WarmPools.LateArrivalsAreDiscarded` | `quimera/agents/warm_pool.py:134-138` | after the shutdown the table stays empty for good and every late process is discarded |
| `WarmPools.NothingLeaks` | `quimera/agents/warm_pool.py:104-144` | after a shutdown, once every call has ended, every process went to a caller or was discarded; without one the rest is in the table and nothing is pending |
| `WarmPools.AWarmedProcessIsHandedOut` | `quimera/agents/warm_pool.py:61-144` | before the shutdown a key that is neither ready nor pending can be warmed and its process handed to a caller, whatever else is under way |
| `WarmPools.AFailedStartFreesItsKey` | `quimera/agents/warm_pool.py:119-132` | a start that fails keeps its key pending until the thread gives it up, and starts no process |
| `WarmPools.ACallReservesOnce` | `quimera/agents/warm_pool.py:81-102` | over every run a call of `schedule_warm` reserves its key at most once |
| `WarmPoolShutdown.StartsAfterShutdownExactlyWhen` | `quimera/agents/warm_pool.py:81-144` | after a shutdown some later run starts a process exactly when a call has passed the test or a thread is about to start its process |
| `WarmPoolShutdown.ReservedAfterShutdownExactlyWhen` | `quimera/agents/warm_pool.py:89-96` | after a shutdown some later run reserves a key exactly when a call has passed the unlocked test |
| `WarmPoolShutdown.AProcessCanStartAfterShutdown` | `quimera/agents/warm_pool.py:89-96` | a run in which the unlocked test lets a key be reserved and its process start after the shutdown |
| `WarmPoolShutdown.AReservedProcessStartsAfterShutdown` | `quimera/agents/warm_pool.py:98-102` | a run in which a process starts after the shutdown though its key was reserved before it |
| `WarmPools.StepKeepsOwners` | `quimera/agents/warm_pool.py:61-144` | every step moves at most one process, or hands over the whole table, and keeps owners unique |
| `PromptParsing.PromptParser.ValidateBlock` | `quimera/prompt_templates.py:156-164` | a block is accepted exactly when the text since the last one is blank, and the cursor moves only then |
| `PromptParsing.PromptParser.Run` | `quimera/prompt_templates.py:107-169` | the loop, with its strictly growing cursor, and the last validation yield `Parse` |
| `PromptParsing.BlocksAreInOrder` | `quimera/prompt_templates.py:107-154` | in either mode blocks are stretches of the text from their tag to their closing tag, in order and in bounds |
| `PromptParsing.InOrderMeansDisjoint` | `quimera/prompt_templates.py:107-154` | so any two blocks are disjoint |
| `PromptParsing.NoBlockIsMissed` | `quimera/prompt_templates.py:107-154` | every tag that could be read as a block is in one |
| `PromptParsing.NoLineIsPassedOver` | `quimera/prompt_templates.py:91-97` | behind a tag that gives no block the scan goes on no later than the next line |
| `PromptParsing.StrictSucceedsExactlyWhen` | `quimera/prompt_templates.py:156-168` | a strict parse succeeds exactly when the lenient one does and all text outside at least one block is blank, or all text is; the blocks are the same |
| `PromptParsing.StrictTextIsBlocksAndBlanks` | `quimera/prompt_templates.py:156-168` | strict success on text that is not blank: the text is blank gaps and blocks in turn |
| `PromptParsing.StrictImpliesLenient` | `quimera/prompt_templates.py:107-154` | what the strict scan accepts the lenient scan accepts, with the same blocks |
| `PromptParsing.BlankGapsImplyStrict` | `quimera/prompt_templates.py:107-154` | with blank gaps strictness changes nothing |
| `PromptRendering.RenderedPromptIsReadBack` | `quimera/prompt_templates.py:82-168` | a prompt written as blocks, each a header line with a name and a title, a content in which it is not closed, and a closing tag, is read back block by block, strictly or not: names and headers as they are, titles and contents stripped |
| `PromptRendering.AnInlineBlockIsReadBack` | `quimera/prompt_templates.py:91-154` | and so is a block on one line, at the end of the text or with its line ended |
| `PromptParsing.LastBoundaryIsLast` | `quimera/prompt_templates.py:80-112` | the name of a tag is cut at the last word boundary in the run of name characters |
| `PromptConditionals.ResolveConditionals` | `quimera/prompt_templates.py:185-205` | the loop ends at a text without whole-line pairs, then inline pairs are resolved once |
| `PromptConditionals.PassShrinksExactlyWhenAPairIsThere` | `quimera/prompt_templates.py:199-204` | a pass leaves the text alone exactly when no whole-line pair is in it, and else makes it shorter |
| `PromptConditionals.FixpointHasNoLineIf` | `quimera/prompt_templates.py:199-205` | no whole-line pair is left when the loop stops |
| `PromptConditionals.LineConditionalsOnlyDelete` | `quimera/prompt_templates.py:193-204` | resolving whole-line pairs adds and reorders nothing: the outcome is the template with characters left out |
| `PromptConditionals.ConditionalsOnlyDelete` | `quimera/prompt_templates.py:186-205` | the same of the whole of `resolve_conditionals`, the stripped inline sections included |
| `PromptConditionals.WordsAreFalseExactlyWhen` | `quimera/prompt_templates.py:171-183` | a text is false exactly for the five words that say so, in any case and with any space around |
| `PromptPairs.ALinePairIsRendered` | `quimera/prompt_templates.py:70-205` | in a template with one pair of markers, on lines of their own, the lines of the markers go and the section stays as it is exactly when the condition holds, for `NOT_IF` when it does not; the text around it stays |
| `PromptPairs.AnInlinePairIsRendered` | `quimera/prompt_templates.py:70-205` | the same of a pair with other text before a marker on its line or behind the closing one, with the section stripped |
| `PromptPairs.AnInlinePairIsResolved` | `quimera/prompt_templates.py:186-205` | and of the inline pass by itself, wherever the pair is |
| `SharedState.MergeStateValue` | `quimera/app/protocol.py:46-63` | the loop computes `Merge` |
| `SharedState.SessionState.constructor` | `quimera/app/bootstrap/wiring.py:398-414` | a session over a restored dictionary starts cleared and with its agent keys stamped |
| `SharedState.SessionState.ClearForSessionStart` | `quimera/shared_state.py:176-189` | the volatile keys go, or without history all agent keys and the turn |
| `SharedState.SessionState.BootstrapStamps` | `quimera/shared_state.py:148-154` | agent keys without a stamp get the current turn |
| `SharedState.SessionState.ApplyStateUpdate` | `quimera/app/protocol.py:65-109` | the payload is applied item by item, then the keys stored are stamped; false only for an empty payload |
| `SharedState.SessionState.StampKeys` | `quimera/shared_state.py:137-145` | the agent keys given get the current turn |
| `SharedState.SessionState.AdvanceTurn` | `quimera/app/session_state.py:35-44` | the turn grows by one and stale keys expire |
| `SharedState.SessionState.ExpireStaleKeys` | `quimera/shared_state.py:157-173` | exactly the agent keys with a stamp more than ten turns old go, with their stamps; stamps of other keys go too |
| `SharedState.SessionState.ResetState` | `quimera/app/session_state.py:98-101` | state and stamps are emptied |
| `SharedStateRuns.AgentKeysAreFresh` | `quimera/shared_state.py:137-173` | in every session, from any restored state, each agent key present was written or found at the start at most ten turns ago |
| `SharedStateRuns.AdvanceExpiresExactlyTheOld` | `quimera/shared_state.py:157-173` | a new turn removes exactly the agent keys whose last write is now more than ten turns old, and changes nothing else |
| `SharedStateRuns.LivesExactlyTenTurns` | `quimera/shared_state.py:157-173` | a key nobody sends again keeps its value for the ten turns after its last write and is gone from the eleventh on |
| `SharedStateRuns.UpdateIsPerKey` | `quimera/app/protocol.py:73-109` | an update gives each agent key the merge of the items sent for it, in any case and spacing, in order, that are nothing, an empty text, a text of at most 4000 characters or, for a list key, a list of texts of at most 2000 each; it changes no other key |
| `SharedStateRuns.MergeInFields` | `quimera/app/protocol.py:46-63` | nothing sent leaves a value as it is, a list cut to its last items; an empty text removes it; anything else takes its place, but a list sent to a list |
| `SharedStateRuns.StepKeepsInv` | `quimera/shared_state.py:137-173` | updates, turns, resets and system writes keep every present agent key stamped with its last write |
| `SharedStateRuns.InitialInv` | `quimera/app/bootstrap/wiring.py:408-414` | whatever was restored, a session starts with its agent keys stamped |
| `SharedStateRuns.SessionStartsInFields` | `quimera/shared_state.py:148-189` | without history a session starts with neither agent keys nor a turn, with it with all but goal and steps; each agent key left counts as written in the turn restored |
| `SharedStateRuns.OtherStepsInFields` | `quimera/app/session_state.py:35-101` | a new turn adds one, a reset leaves nothing, a write of the system sets one key and no stamp |
| `SharedStateRuns.AWriteIsAStore` | `quimera/app/protocol.py:91-109` | an update counts as a write of a key exactly when one of its items stored it |
| `SharedStateRuns.AbsentButStampedExactlyWhen` | `quimera/app/protocol.py:73-109` | an update leaves an agent key gone but stamped exactly when its items make nothing of it and one of them stored it, or it had a stamp that none of them took |
| `SharedStateRuns.AnAbsentKeyMayBeStamped` | `quimera/app/protocol.py:91-108` | a payload after which a key is gone but stamped |
| `SharedStateRuns.RefusedPayloadIsAnsweredTrue` | `quimera/app/protocol.py:65-110` | a payload whose every item is refused changes nothing and is answered with true |
| `SharedStateRuns.AppendNewAddsTheNew` | `quimera/app/protocol.py:54-58` | the old list is a prefix, everything of both lists is there, nothing added repeats anything before it, and new items come in the order sent |
| `SharedStateRuns.MergedListsAreBounded` | `quimera/app/protocol.py:54-62` | merging two lists yields at most fifty items, the last ones, without a new duplicate, and with fifty or fewer loses none |
| `SharedStateRuns.ResendingAddsNothing` | `quimera/app/protocol.py:54-58` | sending items that are there adds nothing |
| `SubmissionTrackers.SubmissionTracker.Start` | `quimera/app/submission_tracker.py:88-108` | an accepted record goes to the end, the oldest ended ones go as needed, a watchdog is armed if wanted; then the size is within the limit or no record has ended |
| `SubmissionTrackers.SubmissionTracker.Transition` | `quimera/app/submission_tracker.py:115-156` | the change is applied and emitted exactly when the record is known, not completed, failed or cancelled, and in an expected status; it then has the status, message, position and time of the change, its agent if one is given, and one more revision, and loses its watchdog unless it is accepted, queued or starting |
| `SubmissionTrackers.SubmissionTracker.WatchdogExpired` | `quimera/app/submission_tracker.py:177-182` | the watchdog goes; the second part runs exactly when the record is still watched |
| `SubmissionTrackers.SubmissionTracker.TrimLocked` | `quimera/app/submission_tracker.py:197-210` | the eviction loop computes `Trim` |
| `SubmissionTrackers.SubmissionTracker.Close` | `quimera/app/submission_tracker.py:158-162` | all watchdogs go, all records stay |
| `SubmissionTrackers.TrimEvictsTheOldestTerminals` | `quimera/app/submission_tracker.py:197-210` | as many records go as are too many or as have ended, whichever is less, the oldest that have ended, and the rest keep their order |
| `SubmissionTrackers.TrimIsDone` | `quimera/app/submission_tracker.py:197-210` | afterwards the size is within the limit or no record has ended |
| `SubmissionRuns.RevisionsCountChanges` | `quimera/app/submission_tracker.py:135-143` | over every run the n-th change of a submission carries revision n |
| `SubmissionRuns.StepsLogInFields` | `quimera/app/submission_tracker.py:88-219` | what each call and timer logs: a new record is accepted with revision 0; a change applies to a record that has not ended and is in an expected status, and then is what the tracker knows; a watchdog sets to waiting a record that is still accepted, queued or starting; nothing else changes a record |
| `SubmissionRuns.WatchdogsInFields` | `quimera/app/submission_tracker.py:88-219` | a start arms a watchdog if it is asked to and they are in use, and takes none away; a timer that fires takes its own away, closing all; a change adds none |
| `SubmissionRuns.TimersInFields` | `quimera/app/submission_tracker.py:164-195` | a start arms a timer if it is asked to and watchdogs are in use; one that fires goes on to ask exactly if its record is still accepted, queued or starting; each asks once |
| `SubmissionRuns.TerminalIsLast` | `quimera/app/submission_tracker.py:128-132` | no change follows a terminal one |
| `SubmissionRuns.TerminalIsEmittedOnce` | `quimera/app/submission_tracker.py:128-156` | an end is announced at most once, in whatever order threads emit |
| `SubmissionRuns.EmittedFollowsTheSteps` | `quimera/app/submission_tracker.py:144-156` | what was emitted is what the callers emitted, in their order |
| `SubmissionRuns.AllWantedCanBeEmitted` | `quimera/app/submission_tracker.py:88-219` | from every reachable state the callers can emit every announced change, each exactly once |
| `SubmissionRuns.AnExpiredWatchdogSetsToWaiting` | `quimera/app/submission_tracker.py:164-195` | a watchdog that fires while its record is accepted, queued or starting sets it to waiting in its second part, with one more revision, and the change can be emitted |
| `SubmissionRuns.ASubmissionTakesItsCourse` | `quimera/app/submission_tracker.py:88-156` | a fresh submission can be started, then changed if accepted is expected, and both changes emitted |
| `SubmissionRuns.TerminalIsAbsorbing` | `quimera/app/submission_tracker.py:115-156` | an ended record stays as it is under every call until a `start` at the limit evicts it |
| `SubmissionRuns.WatchdogsWatch` | `quimera/app/submission_tracker.py:164-195` | an armed watchdog belongs to a record in a watched status |
| `SubmissionRuns.OnlyTheEndedAreForgotten` | `quimera/app/submission_tracker.py:197-210` | only submissions that have ended are forgotten; of others the latest change is known |
| `SubmissionRuns.StepKeepsInv` | `quimera/app/submission_tracker.py:88-219` | every call, timer and emission keeps records, watchdogs and the log of changes consistent |
| `AgentCall.Call` | `quimera/app/agent_call_service.py:62-200` | the loop computes the call as played from the script, and the code after the loop is dead |
| `AgentCall.CallEndsWell` | `quimera/app/agent_call_service.py:62-200` | whatever is answered: at most max(1, retries) calls of the backend; cancelled: nothing recorded; else exactly one record, last, the one the last answer calls for, and the outcome that answer calls for |
| `AgentCallTraces.ACallEndsAsAnswered` | `quimera/app/agent_call_service.py:62-200` | in the events of the trace: at most max(1, retries) calls, with the override in place of the configured number if given; a cancellation the user tells of is last and nothing is recorded; else the only record is last, and it and the outcome are those of the last answer: a result is returned as a success; a fatal exception is a failure; a missing response, an exception or an unresolved response ends the call only out of attempts or, the first two, under a rate limit too long to wait for; an exception that does not is raised again |
| `AgentCallTraces.TheScriptIsFollowed` | `quimera/app/agent_call_service.py:91-193` | the n-th call, resolution and question of a trace have the n-th answer of the script |
| `AgentCall.Attempt` | `quimera/app/agent_call_service.py:91-193` | one pass of the loop, up to the handler of its answer |
| `AgentCall.AttemptIsDone` | `quimera/app/agent_call_service.py:91-193` | a pass ends well or goes on with attempts left and every wait slept |
| `AgentCall.HandleNoResponse` | `quimera/app/agent_call_service.py:103-128` | the path after a missing response, branch by branch |
| `AgentCall.NoResponseIsDone` | `quimera/app/agent_call_service.py:103-128` | after a missing response the call ends well, giving up on a long rate limit or out of attempts, or goes on after a wait within the bound |
| `AgentCall.HandleResponse` | `quimera/app/agent_call_service.py:130-158` | the path after a response, branch by branch |
| `AgentCall.ResponseIsDone` | `quimera/app/agent_call_service.py:130-158` | after a response the call ends well, with the result returned or its failure recorded, or goes on after a failed resolution |
| `AgentCall.HandleException` | `quimera/app/agent_call_service.py:160-193` | the path after an exception, branch by branch |
| `AgentCall.ExceptionIsDone` | `quimera/app/agent_call_service.py:160-193` | an exception is raised again only from the last attempt, with the failure recorded; a fatal one or a long rate limit ends the call, another goes on after a wait within the bound |
| `AgentCall.WaitBackoff` | `quimera/app/agent_call_service.py:218-228` | the loop computes the wait up to its end or a cancellation |
| `AgentCall.WaitedSleeps` | `quimera/app/agent_call_service.py:218-228` | all of the wait is slept unless the user cancels, and nothing else happens |
| `AgentCallTraces.TallySeesWaits` | `quimera/app/agent_call_service.py:91-228` | whatever happens comes right after the user was asked and did not cancel; each sleep is at most a tenth of a second; each rate-limited wait after a missing response or an exception is at most `max_rate_limit_wait` |
| `AgentCallTraces.TallySeesCancellation` | `quimera/app/agent_call_service.py:92-97` | a cancellation the user is told of is the last event |
| `AgentCallTraces.TallyCountsEvents` | `quimera/app/agent_call_service.py:62-200` | the numbers in a tally are numbers of events of the trace |
| `AgentCallTraces.TallySeesQuotes` | `quimera/app/agent_call_service.py:103-190` | each wait follows the answer that caused it and carries what the provider said then |
| `AgentCallTraces.WaitsAreBoundedExactlyWhen` | `quimera/app/agent_call_service.py:135-152` | all rate-limited waits of a call are within `max_rate_limit_wait` exactly when at each failed resolution tried again under a rate limit the configured backoff and the time the provider asks for are |
| `AgentCallTraces.ACallMayWaitForAnHour` | `quimera/app/agent_call_service.py:135-152` | a whole call with a bound of two minutes that waits an hour and sleeps it |

## Left out

- The terminal interface, renderers, toolbar, themes, command line, configuration, bootstrap and persistence: presentation and wiring.
- Process spawning, sandboxes, signals to processes, sockets and HTTP drivers: a call of an agent is a step that answers anything.
- Turn alternation between human and agents, which rides on the chat counters, and the texts of messages and reports.
- The fallback for a dead forwarding worker and the forced reset of counters at shutdown, which discard the accounting on purpose.
- Callbacks that raise, and asynchronous exceptions inside a critical section or between two statements that the chat loop treats as one (the interrupt between queueing an item and clearing its mark).
- `process_sync_message_with_slot`, which has no caller.
- FIFO order of prompts: it does not hold, since a prompt waiting for a permit can be overtaken. Freedom from deadlock without a deadline does not hold either, see the jam above.
- ChatProgress.EveryPromptEnds: assumes that each agent call returns, as a step that is always enabled.
- InputGate.SimpleInputGate.TakeOnce: covers one pass of the wait loop; whole reads are runs of it. Echo of lines, the terminal regime and the stripping of line ends are not modelled.
- FailureTracker.AgentFailureTracker.Failure: names arrive normalised; metrics, bug reports and the release of tasks are callbacks without effect on this state.
- HeadlessRuns.ResultIsOkExactlyWhen: durations of attempts are not modelled; the wording of errors is shortened.
- ChatStop.StopMissesNobody: a client bound as `None` is not modelled.
- ClientTree.StopLastsExactlyWhen: speaks of the event of a client. The flag `_user_cancelled` beside it, the processes of command-line runs and the listeners of a cancellation are not modelled.
- `ForkCancelEvent.wait`, which polls both events.
- MemoryStore.WorkspaceMemoryStore.Save: a value is its serialized text, the tags in it are a parameter, and tags are kept as a set; malformed stored entries, the JSON encoding and file locks are not modelled, nor is `list_namespaces`.
- BugClusters.DetectRapidBurst: works on the events whose time stamp could be read; severity and confidence of reports are not modelled, nor are time stamps that cannot be compared.
- The other detectors of `bugs.py`, which are keyword tests and comparisons of neighbours.
- WarmPools.NothingLeaks: a process is a number; whether `kill` succeeds and a thread that cannot be started are not modelled. `SpawnFails` is the `OSError` that the thread catches: any other exception from the start of a process would end the thread with its key pending for good, so that no later call could warm it.
- PromptParsing.PromptParser.Run: which characters `\w` matches is a parameter; names of tags follow the ASCII pattern of the source. Formatting of the template and collapsing of blank lines are not modelled.
- SharedState.SessionState.ApplyStateUpdate: lower-casing covers ASCII letters; the log of decisions is not modelled; the turn is an integer wherever it is present.
- The history part of `reset`, which empties a list.
- SubmissionTrackers.SubmissionTracker.Transition: lower-casing covers ASCII letters; ids are fresh by assumption, and the payload of an emission is the record.
- AgentCall.Call: waits are exact reals, so rounding of repeated subtraction is not modelled; notifications are left out.
- InputGate.InputRequest.ClaimLine: a request is whether it is answered, expired, claimed and cancelled, and its cancel event may be set and cleared at any time; its answer, its timeout and the rest of `InputBroker` are not modelled.
- `ChatWorker`, `TurnManager` and `SessionRuntimeState` are not part of this model beyond what their callers rely on: a cancelled future never runs, items are forwarded in order.
