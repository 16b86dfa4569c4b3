# Verified model of the workload stager

The stager rolls a workload out in stages. A StagedBindingPolicy lists stages; the BindingPolicy
of the active stage places the workload, and when the stage's condition is true of every filtered
workload object, the stager replaces that BindingPolicy by the next stage's and publishes the next
stage in the status. Advancing takes up to four API calls (delete, create, read, write the status),
each of which may be rejected, may be applied with its answer lost, or may be the last thing the
process does. The project models that resolver, the work queue around it, and everything that may
happen between two of its steps.

| file | contents |
|---|---|
| `Api.dfy` | the API objects, cut down to what the staging logic reads; the CEL evaluator as arbitrary functions |
| `Names.dfy` | BindingPolicy names and splitting them on `.stage.` |
| `Filter.dfy`, `Gate.dfy` | the filter loops, the condition check, and what passing it means |
| `ApiServer.dfy` | the API calls with their faults, as functions and as an object with a call log |
| `Rollout.dfy` | the staging steps as functions of an entry, the server and the faults |
| `Resolver.dfy` | the resolver object: records updated in place, proved against `Rollout.dfy` |
| `Runs.dfy`, `Steps.dfy` | runs with process deaths at every API-call boundary; facts about single steps |
| `PlainGate.dfy` | the gate and the resolver's inputs in terms of labels, statuses, clauses and evaluation results alone |
| `Bounds.dfy` | index ranges, panics, sessions, and when exactly a stage comes up |
| `LastStage.dfy`, `Ladder.dfy` | which stage lists can bring the process down: what stops them, and the run that gets there |
| `GateSoundness.dfy` | no stage is reached before the conditions in front of it were satisfied |
| `Placement.dfy` | the placement window, when a published stage goes back, what a death keeps |
| `Uids.dfy` | the active UID, the mismatched state, where workloads come from |
| `Redelivery.dfy` | noting the same object again: when it is harmless, and when the rollout stalls |
| `Projection.dfy` | StagedBindingPolicies do not interfere |
| `Example.dfy` | a complete rollout that meets every assumption |
| `Queue.dfy`, `Controller.dfy` | work queue, informer handlers and workers |
| `Agreement.dfy` | the tracked entries follow the informer cache under every interleaving |
| `WorkloadAgreement.dfy` | the stored workloads follow the Binding cache under every interleaving |
| `Workers.dfy` | the controller object's handlers and rounds are actions of `Agreement.dfy` |

## How to read the statements

* A `Run` is a sequence of states and events from an empty start. An event is a resolver call, an
  action of somebody else on the API server, or nothing; it completes, or the process dies after
  some number of its API calls. A panic (an index past the last stage) is a death at that point.
* `ServerAt(ev, st, core, k)` is the server after `k` API calls of an event, so a statement for all
  `k` is a statement about every API-call boundary.
* The resolver's mutex makes each of its calls one atomic step. A change that somebody else makes
  between two calls of one step equals the same change before or after the step, with the status
  write rejected if it hit the object in between: creating and deleting BindingPolicies does not
  look at StagedBindingPolicies, the write is refused unless the object still is what was read
  (`StatusWriteApart`), and a BindingPolicy that vanishes between two calls vanishes before or after
  them as well. An object that is deleted and created again between two calls is one recreated
  before the step; the entry or snapshot of the step is then of the old incarnation, which the
  theorems on placement include.
* Assumptions on a run are separate predicates, named in each theorem: `ListersLawful`,
  `NotesComeFromServer`, `MixupsHarmless`, `MixupsCleared`, `Unmixed`, `NotesCurrent`,
  `CreatesResolvable`, `UidsFresh`, `BindingsOwned`, `BindingsNamed`, `NoLostStatus`, `Undisturbed`,
  `StatusNamesTell`, `NotesWellFormed`, `NotesOnly`; on the worlds of the two agreement files
  `AllChangesShow` and `AllTruthful`. `NotesCurrent` asks that a note sees an existing object as it
  is, or is of an earlier incarnation while the new one owns nothing.

## What is false of the code, and exactly when it holds

* A satisfied condition on the last stage deletes that stage's BindingPolicy and then panics
  (`AttemptPanicsExactly`). A lawful run that notes only one list of stages can panic if and only if
  every stage in it has a condition (`CanPanicExactly`; the run is in `Ladder.dfy`), and if Bindings
  are named after their BindingPolicies, the first stage's name must also not contain `.stage.`
  (`NamedCanPanicExactly`).
* A stale object of a deleted StagedBindingPolicy publishes its stage name in a recreated one of the
  same name and can so skip stages (`StaleIncarnationSkipsStages`). A lawful run keeps gate soundness
  if and only if each such write that changes a status names a stage that is cleared for the object
  it goes to (`NoStageIsSkippedExactly`). That it names no later stage is enough, and can be seen
  before the write (`NoStageIsSkipped`, `MixedUpWriteSkipsExactly`).
* After a process death a rollout whose active BindingPolicy is up, and the previous one gone, does
  not resume. Noting the object again restores the stage index and nothing else (`RenotingRestoresIndex`):
  the new entry has no UID, all owned Bindings are ignored and every note fails at the create, so
  nothing moves until somebody takes that BindingPolicy away or deletes the object (`DeathStalls`,
  `StalledForGood`, `NoteGivesUidExactly`).
* A stale note can set the published stage back, exactly under the condition of `NoteLowersExactly`;
  while notes are not behind and incarnations not mixed up, it never goes back
  (`PublishedNeverGoesBack`).
* A status write that is applied but reported as failed, and nothing else, takes memory and status
  apart (`OnlyLostStatusDiverges`). A stage-up that fails after its create leaves the new UID with the
  old index (`FailedStatusMismatches`), and that entry does not advance until the
  name is noted again (`MismatchNeverAdvances`).
* A Binding without an owner is accepted while no BindingPolicy is known, and every name contains
  the empty UID; exactly the Bindings with an owner or without workload are safe
  (`OwnerlessBindingExactly`).
* An informer update that folds a deletion and a recreation into one, with equal generations, is
  dropped; exactly such updates are lost (`GateLosesExactly`), and of Bindings those that keep
  generation and owner and change the workload (`UpdateLostExactly`).
* Noting again is harmless exactly if the active BindingPolicy exists and the previous one does not
  (`HarmlessExactly`).
* A BindingPolicy name can be taken apart exactly under the condition of `NameRoundTrip`; a status
  resolves to its own stage exactly under `ResolvableExactly`.
* A namespaced clause shows its version under "group"; exactly the filters that do not depend on
  "group" do not notice (`GroupQuirkExact`).
* With several listed statuses for one object and UID the last one decides; the answer is the same in
  every order exactly under the conditions of `VerdictOrderExactly` and `GateOrderExactly`.

The repository's README calls the root of a condition `obj` and says that the filter selects what is
synced. The code binds `combinedStatus`, and the filter only selects the objects the condition is
checked on; the model follows the code.

## Model

| member | source | states |
|---|---|---|
| `Names.SplitLoop` | pkg/staged-binding-policy/resolver.go:165-168 | the splitting loop computes the pieces between leftmost, non-overlapping `.stage.` occurrences, whose defining properties are the next three rows |
| `Names.JoinSplit` | pkg/staged-binding-policy/resolver.go:165-168 | joining the pieces gives every string back, and no piece contains the separator |
| `Names.SplitJoin` | pkg/staged-binding-policy/resolver.go:165-168 | splitting undoes joining if and only if no piece contains the separator and no piece before the last ends in `.stage` |
| `Names.NameRoundTrip` | pkg/staged-binding-policy/resolver.go:165-170 | a BindingPolicy name splits into exactly its two parts if and only if neither contains `.stage.` and the first does not end in `.stage` |
| `Names.OwnerExactly` | pkg/staged-binding-policy/resolver.go:165-173 | a name is attributed to n if and only if it is n, `.stage.` and a stage name, both without `.stage.`, the first not ending in `.stage` |
| `Names.NameInjective` | pkg/staged-binding-policy/resolver.go:335 | on such names no two (StagedBindingPolicy, stage) pairs share a BindingPolicy name |
| `Names.StageInjective` | pkg/staged-binding-policy/resolver.go:326-335 | two stages of one StagedBindingPolicy share a BindingPolicy name only if they have the same name |
| `Names.NamesCollide` | pkg/staged-binding-policy/resolver.go:335 | without the condition, stages of different StagedBindingPolicies can want the same BindingPolicy |
| `Names.TrailingStageMisattributed` | pkg/staged-binding-policy/resolver.go:165-170 | a StagedBindingPolicy whose name ends in `.stage` has its BindingPolicies attributed to another one |
| `Names.TwiceSeparated` | pkg/staged-binding-policy/resolver.go:165-170 | a BindingPolicy name whose stage part contains `.stage.` is attributed to nobody, whatever stands in front |
| `Filter.FilterWorkload` | pkg/staged-binding-policy/resolver.go:370-412 | the two loops return an object if and only if it is that of a clause, with its group, resource, name and (for namespaced clauses) namespace, on whose map the filter, if any, evaluates to the boolean true |
| `Filter.FilteredExactly` | pkg/staged-binding-policy/resolver.go:374-432 | the same of the set the gate is stated with |
| `Filter.FilterIgnoresOrder` | pkg/staged-binding-policy/resolver.go:374-409 | the filtered set depends only on which clauses occur, not on their order or repetition |
| `Filter.NoFilterAdmitsAll` | pkg/staged-binding-policy/resolver.go:375-379 | no filter equals a filter that is always true |
| `Filter.NamespacedFilterIgnoresGroup` | pkg/staged-binding-policy/resolver.go:423-432 | no filter can tell namespaced clauses of different API groups apart, because "group" carries the version |
| `Filter.GroupQuirkExact` | pkg/staged-binding-policy/resolver.go:423-432 | filtering is as if "group" held the API group, on all workloads, exactly for filters whose verdict on namespaced clauses does not depend on "group" |
| `Gate.PickStatus` | pkg/staged-binding-policy/resolver.go:269-281 | the scan keeps the last listed status whose name contains the UID and gives up if one of them cannot be serialized |
| `Gate.CheckCondition` | pkg/staged-binding-policy/resolver.go:232-290 | for every order in which the set is walked, the early-return loop answers what the gate does; what that is, `PlainGate.PassesExactly` says |
| `Gate.GateSound` | pkg/staged-binding-policy/resolver.go:243-290 | passing implies for every filtered object a listed status with all five labels and the UID in its name on which the condition is true |
| `Gate.GateExact` | pkg/staged-binding-policy/resolver.go:269-290 | with at most one match per object, passing is equivalent to that |
| `Gate.VerdictOrderExactly` | pkg/staged-binding-policy/resolver.go:264-287 | the verdict on one object is the same for every permutation of its listed statuses if and only if none of the UID's statuses satisfies the condition, all do, or one cannot be serialized |
| `Gate.GateOrderExactly` | pkg/staged-binding-policy/resolver.go:236-290 | the gate answers the same for all permutations of the lister's results if and only if the stage has no condition, some filtered object fails in every order, or for every filtered object all statuses of the UID satisfy the condition |
| `Gate.GateIgnoresListOrder` | pkg/staged-binding-policy/resolver.go:264-281 | so with at most one match per object, permuting the lister's results does not change the outcome |
| `Gate.StricterFilterKeepsPassing` | pkg/staged-binding-policy/resolver.go:236-241 | under a stricter filter a passing gate passes if and only if something is left to check |
| `PlainGate.ListPassesExactly` | pkg/staged-binding-policy/resolver.go:269-290 | a list passes if and only if every status with the UID in its name can be serialized, there is one, and the condition evaluates to the boolean true on the last of them |
| `PlainGate.PassesExactly` | pkg/staged-binding-policy/resolver.go:228-290 | an entry's gate passes if and only if its active stage has a condition, that stage's filter selects an object of the entry's workload, and for each selected object the list asked for by group, resource, namespace, name and BindingPolicy passes with the entry's UID and that condition |
| `PlainGate.PassingVouched` | pkg/staged-binding-policy/resolver.go:243-290 | passing gives for every selected object a listed status with the object's group, resource, namespace and name and the BindingPolicy's name under the five label keys and the UID in its name, on which the condition evaluates to true |
| `PlainGate.PassesIffVouched` | pkg/staged-binding-policy/resolver.go:243-290 | with at most one such status for each selected object, passing is equivalent to that |
| `PlainGate.SatisfiedMeans` | pkg/staged-binding-policy/resolver.go:222-290 | whenever gate soundness counts a condition as satisfied in a run, the entry tried at that step was vouched for in this sense |
| `PlainGate.BindingTriedExactly` | pkg/staged-binding-policy/resolver.go:158-190 | a Binding is tried, with its workload, on the tracked name it is attributed to, if and only if its first owner has the entry's UID; otherwise it changes nothing |
| `PlainGate.StatusTriedExactly` | pkg/staged-binding-policy/resolver.go:195-220 | a CombinedStatus is tried on the tracked name to which the BindingPolicy in its label is attributed, and does nothing if there is none |
| `ApiServers.ApiServer.DeleteBindingPolicy` | pkg/staged-binding-policy/resolver.go:326-329 | the delete call with its faults, not-found told apart, logged |
| `ApiServers.ApiServer.CreateBindingPolicy` | pkg/staged-binding-policy/resolver.go:333-351 | the create call with its faults; an existing BindingPolicy is an error |
| `ApiServers.ApiServer.GetStagedBindingPolicy` | pkg/staged-binding-policy/resolver.go:358-361 | the read before the status write |
| `ApiServers.ApiServer.UpdateStatus` | pkg/staged-binding-policy/resolver.go:363-367 | the status write, refused unless the object is still what was read |
| `Rollout.ResolveStage` | pkg/staged-binding-policy/resolver.go:121-129 | a status resolves to the first stage of that name, and to 0 if it is empty or no stage has the name |
| `Resolvers.Resolver.ActiveStageIndex` | pkg/staged-binding-policy/resolver.go:121-129 | the resolving loop returns the first stage of the published name, or 0 |
| `Resolvers.Resolver.NoteStagedBindingPolicy` | pkg/staged-binding-policy/resolver.go:117-145 | a new record replaces the old one even if bringing the stage up fails; new entry, server and call log are those of `NoteSbp`, all other entries stay |
| `Resolvers.Resolver.DeleteStagedBindingPolicy` | pkg/staged-binding-policy/resolver.go:148-153 | exactly that entry goes |
| `Resolvers.Resolver.NoteBinding` | pkg/staged-binding-policy/resolver.go:158-190 | malformed, untracked and not-active Bindings change nothing; otherwise one entry gets the workload and one attempt is made |
| `Resolvers.Resolver.NoteCombinedStatus` | pkg/staged-binding-policy/resolver.go:195-220 | the loop over all names makes one attempt for the one the label names and touches no other entry |
| `Resolvers.Resolver.AttemptConditionLocked` | pkg/staged-binding-policy/resolver.go:222-296 | stage-up is attempted exactly if the gate passes |
| `Resolvers.Resolver.StageUpLocked` | pkg/staged-binding-policy/resolver.go:298-320 | the index moves on, and a failure takes the index back and nothing else |
| `Resolvers.Resolver.EnsureActiveStageLocked` | pkg/staged-binding-policy/resolver.go:322-355 | the calls made, in order, the new UID and the outcome, panics included |
| `Resolvers.Resolver.UpdateStatusLocked` | pkg/staged-binding-policy/resolver.go:357-368 | read, then write the stage name |
| `Runs.Dispatch` | pkg/staged-binding-policy/resolver.go:117-220 | one call on the resolver object is one step of a run, a panic a step that loses all memory |
| `Steps.NoteStaysAtResolvedStage` | pkg/staged-binding-policy/resolver.go:131-144 | noting tries the condition but always ends at the stage the status resolves to, and makes only the calls that bring it up |
| `Steps.AttemptEntry` | pkg/staged-binding-policy/resolver.go:222-320 | an attempt moves the index by 0 or 1 and, without a passing gate, does nothing |
| `Steps.EffectShape` | pkg/staged-binding-policy/resolver.go:117-220 | what a call amounts to: noting brings up the resolved stage, an accepted Binding and an attributed status make exactly one attempt, anything else nothing |
| `Steps.IndexInRange` | pkg/staged-binding-policy/resolver.go:222-232 | in every reachable state every active index is in range |
| `Steps.EnsureBoundary` | pkg/staged-binding-policy/resolver.go:322-368 | every API-call boundary shows one of four server contents; the stage is published only after the previous BindingPolicy is gone and its own exists |
| `Steps.StatusWriteApart` | pkg/staged-binding-policy/resolver.go:357-367 | if the server changes between the read and the status write, the outcome is that of both at the later time, or, if the object itself changed, a refused write that overwrites nothing |
| `Bounds.AttemptPanicsExactly` | pkg/staged-binding-policy/resolver.go:304-335 | an attempt panics exactly if the gate passes on the last stage and the delete works, and then the active BindingPolicy is gone |
| `Bounds.NotePanicsExactly` | pkg/staged-binding-policy/resolver.go:131-141 | noting panics exactly on an empty stage list |
| `LastStage.UnconditionedNeverPanics` | pkg/staged-binding-policy/resolver.go:222-335 | no run that notes only lists with an unconditional stage, anywhere in the list, panics, however stale the caches and whichever incarnations are mixed up |
| `LastStage.PanicMeansAllConditioned` | pkg/staged-binding-policy/resolver.go:222-335 | whatever is noted, as long as no mixed-up step has published an uncleared stage, an attempt that panics is one on a list all of whose stages have a condition, all satisfied before |
| `Ladder.RunOfPanics` | pkg/staged-binding-policy/resolver.go:117-335 | the run that creates, notes and climbs a list of conditional stages panics in its last event |
| `Ladder.CanPanicExactly` | pkg/staged-binding-policy/resolver.go:117-335 | some lawful run that notes only these stages panics if and only if every stage has a condition, the empty list included; the same for runs that are orderly in every other respect |
| `Ladder.NamedCanPanicExactly` | pkg/staged-binding-policy/resolver.go:158-335 | with Bindings named after their BindingPolicies, if and only if the list is empty, or every stage has a condition and the first stage's name does not contain `.stage.` |
| `Bounds.NoRunPanics` | pkg/staged-binding-policy/resolver.go:117-355 | no run panics in which only such lists are noted |
| `Bounds.SessionAdvances` | pkg/staged-binding-policy/resolver.go:298-320 | between two notes the index grows by the number of advances, of which there are at most len - 1, each by one stage |
| `Bounds.LastStageAbsorbs` | pkg/staged-binding-policy/resolver.go:228-234 | on the last stage of such a list an entry keeps stage and UID until it is noted again |
| `Bounds.LastStageMakesNoCalls` | pkg/staged-binding-policy/resolver.go:228-234 | and no event makes an API call for it |
| `Bounds.StageComesUpExactly` | pkg/staged-binding-policy/resolver.go:322-368 | a stage comes up if and only if every call is answered well, its BindingPolicy does not exist and the StagedBindingPolicy does |
| `Bounds.StatusWrittenExactly` | pkg/staged-binding-policy/resolver.go:322-368 | whatever the outcome, the published stage changes exactly if the write is reached and not rejected, and then to this stage in this object |
| `Bounds.BoundaryStatuses` | pkg/staged-binding-policy/resolver.go:322-368 | at every API-call boundary the statuses are as before the step, or that one write is reached, not rejected and applied |
| `Bounds.WhatAStageBrings` | pkg/staged-binding-policy/resolver.go:333-367 | then the previous BindingPolicy is gone and no other, the new one has selectors, downsync and owner of its stage, and status and entry say so |
| `Bounds.AdvancesExactly` | pkg/staged-binding-policy/resolver.go:298-355 | an attempt advances if and only if the gate passes, there is a next stage without a BindingPolicy, and every call is answered well |
| `GateSoundness.NoStageIsSkippedExactly` | pkg/staged-binding-policy/resolver.go:117-368 | over all lawful runs, with deaths, failures, lost answers and stale caches: neither an entry nor a published status has ever been past a stage whose condition was not tried and satisfied, if and only if every status change by a step for another incarnation was to a stage cleared for the object on the server |
| `GateSoundness.NoStageIsSkipped` | pkg/staged-binding-policy/resolver.go:117-368 | so none is skipped if no mixed-up write that is reached and not rejected names a later stage of the object it goes to |
| `GateSoundness.NoStageIsSkippedAtBoundaries` | pkg/staged-binding-policy/resolver.go:322-368 | if so up to a step, then at each API-call boundary of the step the published statuses are backed if and only if a mixed-up step has changed none, or only to a cleared stage |
| `GateSoundness.MixedUpWriteSkipsExactly` | pkg/staged-binding-policy/resolver.go:357-367 | at each boundary of a mixed-up step the published statuses are backed if and only if it has changed none or the stage it names is cleared; as long as the first condition is not satisfied, that means it is not a later stage |
| `GateSoundness.IssuedGrows` | pkg/staged-binding-policy/resolver.go:357-368 | only statuses change: what was created under a UID stays under it |
| `GateSoundness.StaleIncarnationSkipsStages` | pkg/staged-binding-policy/resolver.go:357-367 | a run in which a stale object of a deleted StagedBindingPolicy moves a recreated one past an untried stage |
| `Placement.ResolvableExactly` | pkg/staged-binding-policy/resolver.go:121-129 | every published stage resolves to itself if and only if stage names are distinct and none after the first is empty |
| `Placement.PlacementWindow` | pkg/staged-binding-policy/resolver.go:298-368 | at every API-call boundary of every run in which notes are not behind the server, the BindingPolicies a StagedBindingPolicy owns are those of its published stage and the next, with their own selectors and downsync |
| `Placement.CurrentIsNotBehind` | pkg/staged-binding-policy/resolver.go:117-119 | noting the object as the server has it meets the assumption on notes that the window needs |
| `Placement.AtMostTheActiveOne` | pkg/staged-binding-policy/resolver.go:298-368 | on undisturbed runs, between events, there is at most one, that of the published stage |
| `Placement.RenotingRestoresIndex` | pkg/staged-binding-policy/resolver.go:121-136 | without lost status writes the entry is at the stage the status resolves to, and dying and noting again restores that index, though not UID and workload |
| `Placement.OnlyLostStatusDiverges` | pkg/staged-binding-policy/resolver.go:298-368 | an attempt leaves index and published stage different if and only if the condition passes, a next stage without a BindingPolicy exists, all calls before the status write are answered well, and the write is applied and reported as failed |
| `Placement.PublishedNeverGoesBack` | pkg/staged-binding-policy/resolver.go:117-368 | while notes are not behind and no incarnations are mixed up, the published stage of an object never goes back over any stretch of a run |
| `Placement.NoteLowersExactly` | pkg/staged-binding-policy/resolver.go:117-141 | a note, however stale, lowers the published stage if and only if its status write is applied and the name it writes is that of an earlier stage; for equal stages, if and only if it resolves to an earlier stage |
| `Uids.ActiveUidConsistent` | pkg/staged-binding-policy/resolver.go:311-353 | in every reachable state a non-empty active UID was minted for the active or the next stage's BindingPolicy, and an empty one goes with an empty workload |
| `Uids.NoAdvanceWithoutBp` | pkg/staged-binding-policy/resolver.go:236-276 | whenever a gate passes, the UID looked for is a minted one of this rollout, never the empty one |
| `Uids.OwnerlessBindingExactly` | pkg/staged-binding-policy/resolver.go:177-186 | no-UID-no-workload survives a Binding in all circumstances if and only if the Binding has an owner or no workload |
| `Uids.FailedStatusMismatches` | pkg/staged-binding-policy/resolver.go:298-368 | a stage-up keeps the old index with the new UID if and only if there is a next stage, delete and create are answered well, its BindingPolicy did not exist, and read or write of the status fails; the entry is then mismatched |
| `Uids.PassingMatches` | pkg/staged-binding-policy/resolver.go:254-276 | if status names tell their BindingPolicy, a passing gate shows the active UID to be the active stage's |
| `Uids.MismatchNeverAdvances` | pkg/staged-binding-policy/resolver.go:254-316 | so the mismatched state never advances, however long the session, until the name is noted again |
| `Uids.WorkloadProvenance` | pkg/staged-binding-policy/resolver.go:158-190 | a stored workload came, in this session, from a Binding owned by the then-active BindingPolicy |
| `Uids.SupersededForGood` | pkg/staged-binding-policy/resolver.go:353 | a superseded UID never becomes active again |
| `Uids.LateBindingIgnored` | pkg/staged-binding-policy/resolver.go:177-186 | a late Binding of a superseded or same-named earlier BindingPolicy changes nothing |
| `Redelivery.HarmlessExactly` | pkg/staged-binding-policy/resolver.go:117-141 | noting leaves the server alone at every boundary, however calls fare, if and only if the active BindingPolicy exists and the previous one does not |
| `Redelivery.RedeliveriesHarmless` | pkg/staged-binding-policy/resolver.go:117-145 | any number of such notes, deaths included, change no BindingPolicy and no status and leave a fresh entry |
| `Redelivery.StalledForGood` | pkg/staged-binding-policy/resolver.go:117-355 | once the entry is blank while the active BindingPolicy is up, no sequence of events that leaves object and BindingPolicies alone, deaths and re-notes included, changes anything that belongs to the name |
| `Redelivery.DeathStalls` | pkg/staged-binding-policy/resolver.go:117-145 | a process death brings that about wherever the active BindingPolicy is up and the previous one is not |
| `Redelivery.NoteGivesUidExactly` | pkg/staged-binding-policy/resolver.go:322-353 | a note gives the entry a UID if and only if the delete is answered well, the active BindingPolicy does not exist, and the create is answered well |
| `Projection.RunsProject` | pkg/staged-binding-policy/resolver.go:117-368 | on recoverable names any interleaved run, seen by one name, is the run of that name's own events and restarts |
| `Projection.OtherServer` | pkg/staged-binding-policy/resolver.go:322-355 | an event of another name touches none of a name's BindingPolicies, object or UIDs, at any boundary |
| `Example.RolloutHappens` | pkg/staged-binding-policy/resolver.go:117-368 | if the first condition passes, a new two-stage object rolls out to its last stage, in a run that meets every assumption of the other theorems |
| `Queues.WorkQueue.Get` | pkg/staged-binding-policy/controller.go:396-401 | an item is given out only if nobody works on it |
| `Controllers.KeyRoundTrip` | pkg/staged-binding-policy/combinedstatus.go:31-34 | namespace keys come apart as put together if and only if no part contains a slash |
| `Controllers.StatusQueuedExactly` | pkg/staged-binding-policy/controller.go:274-311 | a change of a CombinedStatus queues its key, and nothing else, if and only if it is not an update under the same generation |
| `Controllers.Controller.SyncStagedBindingPolicy` | pkg/staged-binding-policy/stagedbindingpolicy.go:27-45 | note what the cache has, forget what it has not; the error cases |
| `Controllers.Controller.ProcessBinding` | pkg/staged-binding-policy/binding.go:27-42 | an uncached Binding is skipped without error |
| `Controllers.Controller.ProcessCombinedStatus` | pkg/staged-binding-policy/combinedstatus.go:28-48 | a malformed key is an error, an uncached status is skipped, a cached one makes the call that `QueuedStatusReported` names |
| `Controllers.QueuedStatusReported` | pkg/staged-binding-policy/combinedstatus.go:28-48 | working off a CombinedStatus key reports the cached object to the resolver; if it is not cached, the resolver stays as it is |
| `Controllers.UnreadableRetried` | pkg/staged-binding-policy/controller.go:404-423 | an item whose cache read fails or whose key has more than one slash is put back, and the resolver stays as it is |
| `Controllers.Controller.Reconcile` | pkg/staged-binding-policy/controller.go:433-447 | dispatch on the item kind; exactly the item's call is made |
| `Controllers.Controller.HandleItem` | pkg/staged-binding-policy/controller.go:404-423 | the item is delayed exactly if it failed and, unless the process dies, no longer being processed, so it can be given out exactly if it was added meanwhile; the resolver has made the item's call |
| `Controllers.WorkedOffIsReleased` | pkg/staged-binding-policy/controller.go:404-423 | the same for the queue as a whole: a failed item can be given out once its delay is over, and other items are not affected |
| `Controllers.Controller.ProcessNextWorkItem` | pkg/staged-binding-policy/controller.go:394-431 | one round of a worker: queue and resolver afterwards |
| `Agreement.ActSetsView` | pkg/staged-binding-policy/stagedbindingpolicy.go:27-44 | a worker's call gives its name the view of the snapshot, error or not, and no other name a new one |
| `Agreement.SoundStep` | pkg/staged-binding-policy/controller.go:313-431 | every action of informers, handlers, workers and others keeps every name pending, well held or settled |
| `Agreement.EveryNameFollowed` | pkg/staged-binding-policy/controller.go:313-431 | so in every reachable world every name is pending, held with a current snapshot, or settled in agreement with the cache |
| `Agreement.QuiescenceAgrees` | pkg/staged-binding-policy/controller.go:313-431 | at quiescence tracked and cached StagedBindingPolicies agree in presence, UID, downsync and stages |
| `Agreement.GateLosesExactly` | pkg/staged-binding-policy/controller.go:321-328 | an update is lost if and only if it keeps the generation while UID or spec change; then the world is quiescent and wrong |
| `WorkloadAgreement.BindStores` | pkg/staged-binding-policy/binding.go:27-42 | a call for a Binding stores its workload wherever its BindingPolicy is still active afterwards |
| `WorkloadAgreement.EveryBindingFollowed` | pkg/staged-binding-policy/controller.go:236-431 | in every reachable world every Binding key is pending, held with a current snapshot, or settled: stored wherever its BindingPolicy is active |
| `WorkloadAgreement.IdleBindingStored` | pkg/staged-binding-policy/controller.go:236-431 | once nothing about a Binding is pending, the entry it is attributed to, if its BindingPolicy is the active one, stores its workload |
| `WorkloadAgreement.UpdateLostExactly` | pkg/staged-binding-policy/controller.go:242-262 | a Binding update is lost if and only if it keeps generation and owner and changes the workload |
| `Workers.HandlersDeliver` | pkg/staged-binding-policy/controller.go:316-336 | a handler that is through with a notification has done what Deliver does in the world of the object |
| `Workers.ReconcilingActs` | pkg/staged-binding-policy/stagedbindingpolicy.go:27-44 | whatever happened since the cache was read, reconciling what was read is the action Act |
| `Workers.WorkedOffIsRound` | pkg/staged-binding-policy/controller.go:404-423 | working off a StagedBindingPolicy item is Read or ReadFails, Act, Requeue exactly if it failed, and Release: all enabled, and leading to the queue and resolver the object has |
| `Workers.OtherWorkedOff` | pkg/staged-binding-policy/controller.go:404-447 | working off any other item is the action Other or none |
| `Workers.ReconcilingBindingActs` | pkg/staged-binding-policy/binding.go:27-42 | reconciling a Binding that was read is the action Act of the Binding world, and never fails |
| `Workers.RoundKeepsSound` | pkg/staged-binding-policy/controller.go:394-431 | so a round of the object, whatever item it takes, keeps every name followed |
| `Workers.Serve` | pkg/staged-binding-policy/controller.go:313-431 | from a fresh process, after any sequence of cache changes, handler calls, ended delays and rounds of the object, once nothing is pending the resolver tracks exactly what is cached |

## Left out

- EveryBindingFollowed: Bindings that are attributed to no name or to another one are excluded, as the resolver ignores them; the rounds of the controller object are tied to this world call by call (`ReconcilingBindingActs`), not as whole rounds.
- Serve: one worker and no changes by others on the API server between turns; several workers, their interleavings, others and restarts are in `EveryNameFollowed`.
- EveryNameFollowed: the queue contract (no two workers on one item, an item added while being processed is given out again) is modelled, not derived from the work queue's own code.
- NameRoundTrip: names are sequences of characters; the byte encoding of names is not modelled.
- CheckCondition: names, namespaces and groups are assumed to be valid label values; the code ignores the error of building a requirement from an invalid one.
- Liveness: the stage need not ever advance; a BindingPolicy left over for the next stage holds it for as long as it exists (`AdvancesExactly` says so).
- Edits of a spec under an unchanged UID are in the cache of `Agreement.dfy` only, not in runs; so are deletion tombstones unwrapped by the delete handlers.
- External writes of a status; a BindingPolicy, however, may vanish at any time.
- CEL parsing, checking and evaluation: an arbitrary function from expression and variable to error, boolean or something else.
- Object serialization: an arbitrary partial function.
- Rate limiting, back-off times, the order of queued items, queue shutdown, worker count.
- Informers, listers, clients and generated code beyond the per-call contracts used.
- Start-up, leader election, flags, logging, QPS and burst arithmetic, CRD manifests, build scripts, helper functions outside the flow (`handleObject`, `enqueueObject`, `getObject`, `shouldSkipUpdate`, `isBeingDeleted`).
- Fields the staging logic does not read: resource versions of objects (kept only as "still what was read"), owner reference kinds, other status fields.
