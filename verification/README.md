# Hibana in Dafny

Hibana compiles a global protocol into one event program per role and checks
every send and receive against it at run time. This project models five parts of
that system and proves what they promise. `dafny verify dfyconfig.toml` checks
all of it.

**Event programs and sessions** (`Choreography`, `Progress`, `EventProgram`,
`Projection`, `Paths`, `LocalRuns`, `ReferenceMachine`, `Agreement`, `Session`).
A choreography is a tree of messages, sequences, parallels and routes.
`Project` turns it into a role's events with dependencies and route memberships;
`ReferenceMachine` is the mutable builder and state. A residual choreography,
which knows nothing of dependencies, says what a role may do. The two agree in
every reachable state. Roles are then composed with frames in flight, matched by
message site: no two roles ever enter different arms of a route, and an unfinished
session can always move.

**Source lowering** (`Lowering`, `SourceEmission`, `RoundTrip`). The tree, now with
rolls and resolvers, is flattened into events, scope markers inserted in place, and
resolver markers. The rows determine the tree up to the grouping of sequences.

**Route decisions** (`RouteChains`, `RouteTable`, `RouteState`). Root-first chains of
decisions are read by depth and merged by prefix. Visits are kept in one packed column
per actor, with a reference-counted selected arm per scope. A chain of decisions is
committed as a whole or not at all, also where a completed iteration starts again.

**Ownership and sends** (`Views`, `Ownership`, `SendKernel`). View generations, the
one-shot binding of a delegated resource, the validated receive, and a send from the
future down to its transport calls, driven by an environment that decides freely.

**Shared tables and queues** (`Carrier`, `TapRing`, `Association`). Each is mutable code
proved against a plain object: frame sequences per direction, an unbounded log, a map.

Code that updates state in place is a class or a method with loops here too, and
is proved against functions on values. Statements about runs are lemmas about those
functions. An invariant failure or panic of the original is a result here (`None`,
`false` or an error value), except where the callers in the model are proved never to
meet it; there it is a precondition.

Three statements are false as one would first write them. Each has a lemma with a
failing input and a lemma with the exact condition under which it holds:

- The right to a delegated resource is in one place, counting every live view. It fails
  when the session fails after the transport accepted an owned frame and before the
  commit that retires the sender's view: that view stays live beside the frame
  (`LiveBesideFrame`) and beside the receiver's view (`TwoLiveViews`), until the failed
  future is dropped. It holds throughout a run exactly when that does not happen
  (`OnePlaceIffNoLateFault`). The right can still be used from one place only, because
  a failed future can only be dropped (`OneRightOnePlace`).
- A tap reader notices that it was overtaken. It does so exactly for some lags
  (`NormalExact`), among them all lags of at most one wrap; a lag of one wrap and one
  record goes unnoticed (`LongLagMissed`).
- A tap record shows its own ordinal. With a 32-bit counter it does not once the counter
  has wrapped (`NarrowStampWrong`, `StampExact`). The documentation speaks of exhaustion
  only.

All entries of a session share its first fault because a poisoned session is refused
every further claim; `ClaimAgreesIff` shows that this guard is exactly what it takes.


## Model

| member | source | states |
|---|---|---|
| `ReferenceMachine.UniqueIds` | src/global/event_program_tests.rs:370-378 | the loop keeps the first occurrence of every id, in order |
| `EventProgram.Unique` | src/global/event_program_tests.rs:370-378 | the result has exactly the input's members, each once |
| `ReferenceMachine.ReferenceBuilder.AddEvent` | src/global/event_program_tests.rs:222-238 | the event gets the next id, the unique dependencies and the given memberships; nothing else changes |
| `ReferenceMachine.ReferenceBuilder.ChildLane` | src/global/event_program_tests.rs:240-247 | a fresh lane, or the overflow panic exactly when the counter is at 255 |
| `ReferenceMachine.ReferenceBuilder.Conflict` | src/global/event_program_tests.rs:249-253 | a fresh conflict identity |
| `ReferenceMachine.ReferenceBuilder.OpenJoin` | src/global/event_program_tests.rs:310-350 | lanes and memberships of the two parts of a sequence, parallel or route; refuses exactly when the lanes run out |
| `ReferenceMachine.ReferenceBuilder.ProjectTerm` | src/global/event_program_tests.rs:259-363 | the mutable projection builds the image and exits of `Project`, and overflows exactly when two lanes per fork do not fit |
| `ReferenceMachine.FromSteps` | src/global/event_program_tests.rs:57-69 | a role's program exists exactly for at most 127 forks, and is then `Compile` |
| `ReferenceMachine.ReferenceState.CommitEvent` | src/global/event_program_tests.rs:142-166 | absent and disabled events change nothing; an enabled one is committed, and the conflicting-arm error arises exactly for an event with two arms of one route |
| `ReferenceMachine.ReferenceState.SelectArms` | src/global/event_program_tests.rs:150-163 | the membership loop records the arms, or reports a clash exactly for incoherent memberships |
| `ReferenceMachine.ReferenceState.CommitLabel` | src/global/event_program_tests.rs:128-140 | the first enabled event with the label is committed; not-enabled exactly when there is none |
| `Projection.LocalSitesAre` | src/global/event_program_tests.rs:259-363 | a role's events lie exactly at the sites that name it, in increasing order |
| `Projection.Grows` | src/global/event_program_tests.rs:259-363 | projection only appends: one event per local site, two lanes per fork, one conflict per route, and exits that exist |
| `Projection.Shape` | src/global/event_program_tests.rs:259-363 | every appended event carries its site, action, route memberships and only earlier dependencies |
| `Projection.SelectRecords` | src/global/event_program_tests.rs:150-163 | selection writes the first arm named for each undecided route and keeps every decided one |
| `Projection.MembershipsCoherent` | src/global/event_program_tests.rs:327-353 | no event lists two arms of one route |
| `Projection.Discarded` | src/global/event_program_tests.rs:79-91 | inside an arm that was not taken every event is excluded and its exits count as settled |
| `Projection.ExitsFaithful` | src/global/event_program_tests.rs:259-363 | the exits of a live subterm are settled exactly when its entry is settled and the role has finished it |
| `Projection.EnabledFaithful` | src/global/event_program_tests.rs:119-126 | an event of a live subterm is enabled exactly when its entry is settled and the role may act at its site |
| `Projection.TracksStep` | src/global/event_program_tests.rs:142-166 | committing a site keeps the selected arms equal to the arms the role has entered |
| `Progress.RestSteps` | src/global/event_program_tests.rs:259-363 | the residual choreography can step at a site exactly when the role may act there, and the step is its residual afterwards |
| `LocalRuns.StartsInStep` | src/global/event_program_tests.rs:102-108 | the initial state is in step with the unstarted choreography |
| `LocalRuns.EnabledIffTaken` | src/global/event_program_tests.rs:119-126 | in every state in step, an event is enabled under dependencies and conflicts exactly when the residual choreography can take its site |
| `LocalRuns.CommitInStep` | src/global/event_program_tests.rs:142-166 | committing keeps program and residual in step |
| `LocalRuns.ProjectionPreservesMeaning` | src/global/event_program_tests.rs:79-167 | for every term, role and sequence of events: the program runs it exactly when the residual takes its sites, and afterwards exactly the residual's steps are enabled |
| `LocalRuns.Confluence` | src/global/event_program_tests.rs:119-166 | of two enabled events the second stays enabled after the first exactly when they are not in opposite arms of a route, and then both orders reach one state |
| `LocalRuns.CompiledWellFormed` | src/global/event_program_tests.rs:57-69 | compiled programs keep ids, dependencies and memberships in bounds and list one arm per route |
| `LocalRuns.RunCommitsOnce` | src/global/event_program_tests.rs:142-166 | a run commits each of its events once and nothing else |
| `LocalRuns.RunTerminates` | src/global/event_program_tests.rs:142-166 | every run is as long as the number of events it uses up |
| `LocalRuns.MaximalRunIsOnePath` | src/global/event_program_tests.rs:119-166 | a run that cannot go on has committed exactly the events of one resolved path, each once, and nothing of a discarded arm |
| `Agreement.AgreedStep` | README.md:273-285 | a ready step keeps the roles in agreement on every route |
| `Agreement.SomeoneReady` | README.md:676-681 | while some role is unfinished, some role has a ready step |
| `Session.MoveIsReady` | src/global/event_program_tests.rs:119-126 | a move of the composed session is exactly a ready step of the shared progress board |
| `Session.MoveKeepsGood` | src/global/event_program_tests.rs:142-166 | every move keeps the roles in step and agreed, with exactly the sent and unreceived frames in flight, once each |
| `Session.BranchAgreement` | README.md:273-285 | in every reachable state every selected arm is the chooser's, so no two roles are in different arms of a route |
| `Session.FinishedIsDone` | src/global/event_program_tests.rs:119-126 | a role has finished the choreography exactly when each of its events is done or excluded |
| `Session.DeadlockFreedom` | README.md:676-681 | in every reachable state all roles are done or some role has an enabled send, local step or receive whose frame is in flight |
| `Session.StuckSessionIsComplete` | README.md:676-681 | a session that cannot move has finished on one resolved path shared by all roles, with nothing in flight |
| `Session.SessionTerminates` | src/global/event_program_tests.rs:142-166 | every run of the session has at most as many moves as the programs have events |
| `Lowering.CountsAgree` | src/g/terms.rs:21-91 | every tree emits exactly the events, scope markers and resolver markers its type predicts, and one ordinal per scope |
| `Lowering.InsertBetween` | src/global/const_dsl/eff_list.rs:86-108 | insertion puts a marker before every row it precedes and after the rest |
| `Lowering.OpeningStep` | src/global/const_dsl/eff_list.rs:110-170 | a scope's opening row lands in front of everything its parts emitted |
| `Lowering.FirstStep` | src/global/const_dsl/eff_list.rs:132-177 | the end of the first part lands behind the opening rows of the second part at the same offset |
| `Lowering.SecondStep` | src/global/const_dsl/eff_list.rs:139-145 | the start of a route's second arm follows the end of its first |
| `Lowering.ClosingStep` | src/global/const_dsl/eff_list.rs:146-189 | the closing row completes the closed-form order of the fork |
| `Lowering.RollSteps` | src/global/const_dsl/eff_list.rs:192-210 | the two rows of a roll enclose the rows of its body |
| `SourceEmission.InsertInPlace` | src/global/const_dsl/eff_list.rs:86-108 | the in-place shifting loop computes `Insert` |
| `SourceEmission.SourceLowering.InsertScopeMarker` | src/global/const_dsl/eff_list.rs:86-108 | inserts exactly when there is room and the offsets fit the encoding |
| `SourceEmission.SourceLowering.AllocateScope` | src/g/source.rs:100-107 | ordinals are consecutive; refuses exactly at 8192 |
| `SourceEmission.SourceLowering.PushRouteResolver` | src/global/const_dsl/eff_list.rs:212-229 | appends a resolver row, and refuses exactly a duplicate scope or a full partition |
| `SourceEmission.SourceLowering.PushFork` | src/global/const_dsl/eff_list.rs:110-190 | the rows of a route or parallel scope, all inserted or refused for room or width |
| `SourceEmission.SourceLowering.PushRoll` | src/global/const_dsl/eff_list.rs:192-210 | the rows of a roll, both inserted or refused for room or width |
| `SourceEmission.SourceLowering.Emit` | src/g/source.rs:109-191 | emission succeeds exactly when the tree fits, and then leaves the closed-form rows |
| `SourceEmission.LowerProgram` | src/g/source.rs:203-231 | lowering succeeds exactly within arena, ordinal, width and component limits; its result is `Lower` and the final count comparison cannot fail |
| `RoundTrip.RecordsAreScopes` | src/observe/ids.rs:195-202 | the opening rows, in the order insertion left them, are the scopes of the tree in preorder |
| `RoundTrip.ScopesInOrder` | src/g/source.rs:100-191 | scope ordinals are consecutive in preorder and scopes nest in the events of their tree |
| `RoundTrip.ResolversResolve` | src/g/source.rs:160-162 | every route finds its own resolver by scope, whatever other rows surround it |
| `RoundTrip.ParseTree` | src/g/source.rs:109-191 | parsing from where a tree's rows begin yields that tree, then whatever follows |
| `RoundTrip.DecodeLowered` | src/g/source.rs:109-191 | events, scope records in ordinal order and resolver rows give back the tree up to the grouping of sequences |
| `RoundTrip.SameRowsIffRegrouped` | src/g/source.rs:109-191 | two trees lower to the same rows exactly when they differ only in the grouping of sequences |
| `RoundTrip.RegroupsSequences` | src/g/source.rs:133-137 | the normal form identifies both groupings of three steps and is idempotent |
| `RoundTrip.ReentrantIffUnderRoll` | src/g/source.rs:138-190 | a lowered route is marked reentrant exactly when a roll encloses it |
| `RouteChains.DepthLookupIsScan` | src/endpoint/kernel/decision_state.rs:162-185 | reading only the row at the scope's own depth gives what a search of the whole complete chain gives |
| `RouteChains.ContainsIffPrefix` | src/endpoint/kernel/decision_state.rs:187-202 | one complete chain contains another as a set exactly when the other is its prefix |
| `RouteChains.SelectedRouteCommitRows.StartsWith` | src/endpoint/kernel/decision_state.rs:187-202 | the zipped comparison decides the prefix order |
| `RouteChains.SelectedRouteCommitRows.MergeChain` | src/endpoint/kernel/decision_state.rs:344-372 | the mutable merge is `Merge`; a refused merge changes nothing |
| `RouteChains.MergeIsLeastUpperBound` | src/endpoint/kernel/decision_state.rs:344-372 | a sequence of merges succeeds exactly when all chains are registered, within the bound, on one lane and pairwise comparable; the result is then the longest |
| `RouteChains.MergeOrderIrrelevant` | src/endpoint/kernel/decision_state.rs:344-372 | success and result do not depend on the order of the requests |
| `RouteChains.MergeIsLeast` | src/endpoint/kernel/decision_state.rs:344-372 | any chain that contains every request's chain contains the result |
| `RouteTable.PreflightedApply` | src/endpoint/kernel/decision_state.rs:490-611 | an accepted preflight means apply fails no invariant check, the table stays sound, lookup returns the chosen arm and no other scope changes |
| `RouteTable.MissingVisitFits` | src/endpoint/kernel/decision_state.rs:498-523 | with one cell per (lane, scope) relation a missing visit always finds room |
| `RouteTable.UnopposedPreflights` | src/endpoint/kernel/decision_state.rs:490-547 | a row whose scope has no other arm selected passes preflight, whatever its lane already holds |
| `RouteTable.RowApplies` | src/endpoint/kernel/core/commit_delta_apply.rs:167-224 | a row whose scope restarts or has no other arm selected applies without failure, and its scope then has its arm |
| `RouteTable.BodyKeepsApplicable` | src/endpoint/kernel/core/commit_delta_apply.rs:26-131 | what was checked of a chain stands when a restarted roll body then forgets its selections on every lane |
| `RouteTable.ChainKeeps` | src/endpoint/kernel/core/commit_delta_apply.rs:46-60 | a chain keeps the slot of every scope that it neither names nor nests |
| `RouteTable.ChainApplies` | src/endpoint/kernel/core/commit_delta.rs:227-388 | a chain checked as a whole on one state, with retained, new and restarted rows, is applied without failure, also after a roll body was cleared in between; every push finds room, and all its arms are then selected |
| `RouteTable.ClearLaneSound` | src/endpoint/kernel/decision_state/reentry_clear.rs:81-113 | forgetting a lane's nested visits keeps every count exact and every lane in agreement |
| `RouteTable.RestartSound` | src/endpoint/kernel/core/commit_delta_apply.rs:167-216 | a completed iteration moves every lane and the slot to the new arm, and the table stays sound |
| `RouteTable.GuardedRuns` | src/endpoint/kernel/decision_state.rs:382-623 | over every run of guarded commits, with or without a restarted body, and clears from the empty table no invariant check fails, each count is the number of lanes holding its scope, and all of them agree with its arm |
| `RouteState.RouteArmHistory.LaneRange` | src/endpoint/kernel/decision_state/route_arm_history.rs:90-107 | a lane's part of the packed column, exactly for a lane with a dense ordinal |
| `RouteState.RouteArmHistory.Get` | src/endpoint/kernel/decision_state/route_arm_history.rs:113-124 | the lane's own row, or the empty row |
| `RouteState.RouteArmHistory.Set` | src/endpoint/kernel/decision_state/route_arm_history.rs:126-147 | changes one row of one lane, or refuses without effect |
| `RouteState.RouteArmHistory.Push` | src/endpoint/kernel/decision_state/route_arm_history.rs:154-178 | appends to one lane and moves the rest; refuses exactly without an ordinal or room |
| `RouteState.RouteArmHistory.Remove` | src/endpoint/kernel/decision_state/route_arm_history.rs:180-202 | removes one row of one lane and closes the gap, or refuses without effect |
| `RouteState.RouteArmHistory.ReplaceArm` | src/endpoint/kernel/decision_state/reentry_clear.rs:11-30 | the loop moves a lane's visit of a scope from one arm to another |
| `RouteState.RouteStateOwner.Preflight` | src/endpoint/kernel/decision_state.rs:490-547 | the scanning preflight decides `RouteTable.Preflight` |
| `RouteState.RouteStateOwner.ApplySelection` | src/endpoint/kernel/decision_state.rs:549-611 | applying is `RouteTable.Apply`, and fails exactly where it does |
| `RouteState.RouteStateOwner.SelectedArm` | src/endpoint/kernel/decision_state.rs:613-623 | the selected arm of a scope with references |
| `RouteState.RouteStateOwner.ClearRoutes` | src/endpoint/kernel/decision_state/reentry_clear.rs:81-113 | the removing loop is `ClearLane`; the reference underflow check cannot fail |
| `RouteState.RouteStateOwner.ReplaceSlot` | src/endpoint/kernel/decision_state/reentry_clear.rs:32-47 | renames the arm of a referenced slot |
| `RouteState.RouteStateOwner.RestartSelection` | src/endpoint/kernel/core/commit_delta_apply.rs:167-224 | the whole restart is `Restarted` followed by `Apply` |
| `RouteState.RouteStateOwner.PreflightRow` | src/endpoint/kernel/core/commit_delta.rs:330-388 | the kernel's check of one row decides `RouteTable.Accepted` |
| `RouteState.RouteStateOwner.CommitRow` | src/endpoint/kernel/core/commit_delta_apply.rs:167-224 | one row is `RouteTable.ApplyRow`, and fails exactly where it does |
| `RouteState.RouteStateOwner.ClearBody` | src/endpoint/kernel/core/commit_delta_apply.rs:102-131 | the clearing loop over all lanes is `ClearLanes` |
| `RouteState.RouteStateOwner.CommitRows` | src/endpoint/kernel/core/commit_delta_apply.rs:46-60 | the applying loop reaches the end of the chain without an invariant failure |
| `RouteState.RouteStateOwner.CommitChain` | src/endpoint/kernel/core/commit_delta.rs:227-388 | a chain is committed as a whole or not at all: exactly when every row is accepted before the first is applied, and then every arm of it is selected |
| `Views.NextGeneration` | src/endpoint/carrier.rs:27-35 | the next odd generation, refused when retiring it would exhaust the counter |
| `Views.ActorViews.IssueInitialView` | src/endpoint/kernel/core/public_types.rs:224-255 | issues the first view of a role once, in the role's initial actor, or refuses without effect |
| `Views.ActorViews.IssueReceivedView` | src/endpoint/carrier.rs:245-250 | issues a received view only while the role has no live view, or refuses without effect |
| `Views.ActorViews.RetireView` | src/endpoint/carrier.rs:258-264 | retires a live view and leaves a retired one alone |
| `Views.ActorViews.Matches` | src/endpoint/carrier.rs:356-359 | a handle validates exactly against the live generation and the allocation of its view |
| `Views.StaleHandlesNeverRevive` | src/endpoint/carrier.rs:202-265 | over every run issued generations increase, an issued handle validates exactly until it is retired, at most one validates per view, none of another allocation does, and an exhausted counter issues nothing |
| `Views.RetirementIsForever` | src/endpoint/carrier.rs:258-264 | no later run makes a retired handle validate again |
| `Ownership.UnpublishedReturns` | src/transport/binding.rs:46-76 | a reservation dropped, or refused by the attachment, before publication leaves the whole state as it was; otherwise the resource is published |
| `Ownership.RecvKernel.PublishRecvCommitPlan` | src/endpoint/kernel/recv_commit_plan.rs:98-147 | validate, check for a fault, then commit: progress and new view are published together or not at all, and every other frame is discarded |
| `Ownership.OneRightOnePlace` | README.md:589-596 | over every run across runtimes the right can be used from at most one of reservation, endpoint value, pending send and accepted frame; every value's handle validates against the live header of its view; and the resource is published initially at most once |
| `Ownership.NothingReturns` | src/transport/binding.rs:6-16 | after the initial issue failure, cancel, drop and loss never raise the number of places the right can be used from, and the binding stays closed |
| `Ownership.LiveBesideFrame` | src/endpoint/kernel/core/send_ops.rs:284-320 | a run that ends with a live view beside the accepted frame of its right: the session failed after the transport accepted |
| `Ownership.TwoLiveViews` | src/endpoint/kernel/recv_commit_plan.rs:98-147 | the same run with the frame then received: two live views of one resource |
| `Ownership.OnePlaceIffNoLateFault` | src/endpoint/kernel/core/owned.rs:347-393 | counting every live view, the right stays in one place throughout a run exactly when no send meets a session fault between acceptance and commit |
| `SendKernel.RawSendFuture.CancelSendOutgoing` | src/endpoint/kernel/lane_port.rs:412-428 | cancels exactly a pending transport send |
| `SendKernel.RawSendFuture.PollSendOutgoing` | src/endpoint/kernel/lane_port.rs:342-408 | one transport attempt: local, no scratch, encode failure, or the transport's answer |
| `SendKernel.RawSendFuture.PollSendPending` | src/endpoint/kernel/core/send_ops.rs:255-365 | what follows the attempt: fault, pending, commit or error |
| `SendKernel.RawSendFuture.SendStep` | src/endpoint/kernel/core.rs:199-269 | the kernel half of a poll is `KernelSend` |
| `SendKernel.RawSendFuture.PollRaw` | src/endpoint/send.rs:140-168 | a poll of the future is `PollFuture` |
| `SendKernel.RawSendFuture.DropSend` | src/endpoint/send.rs:184-195 | dropping releases exactly an armed send |
| `SendKernel.SendDiscipline` | src/endpoint/kernel/core.rs:199-269 | over every schedule of polls and a drop the monitor accepts the trace, and the transport holds nothing once the future is over or dropped |
| `SendKernel.MonitorMeaning` | src/endpoint/kernel/lane_port.rs:342-428 | in an accepted trace the payload is staged once and prepared once, each transport or local call directly follows its admission, which is a revalidation once the send was prepared before, the commit directly follows an acceptance and happens once, and each cancel meets a send held since its last pending answer |
| `Carrier.TakeFirst` | examples/support/in_memory.rs:190-196 | taking the first frame of a direction takes the head of its order and leaves the other directions alone |
| `Carrier.InMemoryTransport.PollSend` | examples/support/in_memory.rs:147-178 | appends the frame and wakes the direction's waiter; refuses exactly a foreign lane |
| `Carrier.InMemoryTransport.PollRecv` | examples/support/in_memory.rs:184-218 | releases the held frame, then takes the oldest of the direction or registers one waiter |
| `Carrier.InMemoryTransport.Requeue` | examples/support/in_memory.rs:220-236 | puts the held frame in front of the queue and wakes the waiter; refuses exactly without one |
| `Carrier.FifoConservation` | examples/support/in_memory.rs:147-236 | over every run with one uncommitted holder per direction: accepted = consumed ++ held ++ queued, each once and in order |
| `Carrier.TwoHoldersReorder` | examples/support/in_memory.rs:220-236 | with two holders of one direction, requeueing in order of receipt reverses the frames |
| `Carrier.NoLostWakeup` | examples/support/in_memory.rs:147-236 | over every run a direction with a registered waiter has nothing queued |
| `TapRing.RingBuffer.Push` | src/observe/core.rs:50-64 | a push appends to the log the ring stands for |
| `TapRing.RingBuffer.OldestIndex` | src/observe/core/ring_state.rs:48-50 | the slot of the oldest resident record |
| `TapRing.RingBuffer.Checkpoint` | src/observe/core.rs:156-159 | the next ordinal while it fits both the counter and the public width |
| `TapRing.RingPort.constructor` | src/observe/core.rs:66-77 | a reader starts at the oldest resident record |
| `TapRing.RingPort.NormalizeCursor` | src/observe/core.rs:91-100 | the cursor test is `Normal` on log positions |
| `TapRing.RingPort.Next` | src/observe/core.rs:103-133 | a read yields the slot and ordinal of the reader's position and moves one on |
| `TapRing.SlotsHold` | src/observe/core.rs:50-64 | a resident position's slot holds the log's entry |
| `TapRing.PowersMissSlots` | src/observe/core.rs:17-23 | no power of two is a multiple of the 21 slots |
| `TapRing.NormalExact` | src/observe/core.rs:91-100 | a reader is put in its place exactly under a condition on its lag |
| `TapRing.OneWrapIsCaught` | src/observe/core.rs:91-100 | a lag of at most one wrap of the counter is always recognised |
| `TapRing.LongLagMissed` | src/observe/core.rs:91-100 | a lag of one wrap and one record is not |
| `TapRing.StampExact` | src/observe/core.rs:206-212 | the ordinal shown is the true one exactly before the counter wraps or once it no longer fits |
| `TapRing.NarrowStampWrong` | src/observe/core.rs:206-212 | a resident record whose ordinal is shown wrong once a 32-bit counter has wrapped |
| `TapRing.WideStampRight` | src/observe/core.rs:206-212 | with a counter wider than the ordinal it is always the true one |
| `TapRing.ReaderRefinesLog` | src/observe/core.rs:66-133 | over any interleaving with lag at most one wrap, a new reader yields log entries in order, skips exactly the overwritten ones, and shows the right ordinal exactly before the counter wraps or once it no longer fits; with a wide counter always |
| `Association.PackRoundTrip` | src/rendezvous/association.rs:24-82 | count and fault come back exactly from the sixteen-bit word |
| `Association.AssocTable.FindEntry` | src/rendezvous/association.rs:129-147 | the scan finds the entry of a claim exactly when there is one |
| `Association.AssocTable.HasEntry` | src/rendezvous/association.rs:197-202 | a claim in range is present |
| `Association.AssocTable.ActiveLaneSlots` | src/rendezvous/association.rs:167-183 | the least number of lane slots that covers the live entries |
| `Association.AssocTable.ShrinkLaneSlots` | src/rendezvous/association.rs:186-194 | shrinks exactly when no live lane is cut off |
| `Association.AssocTable.Register` | src/rendezvous/association.rs:206-231 | a new claim with count one and no fault, or full, or the invariant failure for a bad or present claim |
| `Association.AssocTable.Increment` | src/rendezvous/association.rs:237-253 | one more attachment, refused exactly at 256; the invariant failure exactly without a claim |
| `Association.AssocTable.ActivateLane` | src/rendezvous/core/access_port.rs:23-53 | range, fault, then increment or first claim: granted exactly in range, without a fault, below 256 and with room |
| `Association.AssocTable.Decrement` | src/rendezvous/association.rs:258-281 | one attachment less, the last one removes the claim; the invariant failure exactly without a claim |
| `Association.AssocTable.RemoveEntry` | src/rendezvous/association/storage.rs:87-115 | the last live entry fills the gap and the columns stay packed |
| `Association.AssocTable.SessionFault` | src/rendezvous/association.rs:284-303 | a fault of the session, exactly when it has one |
| `Association.AssocTable.PoisonSession` | src/rendezvous/association.rs:306-331 | the first fault stands; otherwise the cause is written to all entries of the session |
| `Association.RunsAgree` | src/rendezvous/association.rs:206-331 | over every run all entries of a session share one fault, counts stay in 1..256, live lanes stay in the shrinking range, and claims within the capacity |
| `Association.RunsExact` | src/rendezvous/association.rs:206-331 | over every run a claim's count, zero when it is not live, is the attachments it was granted less those it released |
| `Association.FirstFaultPersists` | src/rendezvous/association.rs:284-331 | while a session keeps some entry, all its entries carry its first fault |
| `Association.ClaimAgreesIff` | src/rendezvous/core/access_port.rs:31-33 | why the guard is there: a claim keeps the session's entries in agreement exactly when the session is not poisoned |

## Left out

- The production event cursor, its roll resets at run time, lane allocation of parallel arms, receive-lane causality, actor and ownership solving.
- Raw pointers, pinning, aliasing through cells, wakers as objects and executor scheduling; a waiter is a registered direction.
- Diagnostics text, the choice of arena buckets, arena layout and alignment.
- Fixed-width codecs, frame headers, tap record packing and the owned envelope's bytes, which would only add easy round trips.
- Evidence masks, frame receipts and branch materialization.
- Event origins and the lane field of emitted events.
- Reentry marks on decision rows: they are stripped before rows are compared, so the rows of the model have none.
- RouteState.RouteStateOwner.ClearBody: runs over dense lane ordinals where the source runs over logical lanes; so does the restart loop. The map from one to the other is an input.
- RouteState.RouteStateOwner.ClearRoutes: does not clear readiness evidence, which is not modelled.
- The live-view count of an actor, which only decides when its storage is released.
- Clocks, deadlines, allocation failure and the transport's own closure protocol; what the environment decides is an input.
- RouteTable.ChainApplies: whether an arm counts as complete is one input per row, for its check and its application.
- RouteTable.GuardedRuns: which arms count as complete and which rows are new visits is decided by the cursor and is an input here; clearing a lane is a step that may happen at any time.
- Ownership.OneRightOnePlace: assumes a carrier that delivers an accepted frame at most once, as the transport contract requires.
- SourceEmission.LowerProgram: does not model the merging of lanes after a parallel, nor its lane limit.
- Session.DeadlockFreedom: covers choreographies without rolls.
