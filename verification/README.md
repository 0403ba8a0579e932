# Zero-downtime upgrades of the TeamCity operator, in Dafny

The operator reconciles one TeamCity object into a main StatefulSet, any number of secondary
StatefulSets and the objects around them. Under the zero-downtime policy it upgrades by way of a
small protocol whose only memory is the stage in a checkpoint ConfigMap: a standalone main node is
restarted behind a temporary update replica, and several nodes are restarted in turn. A pass can fail
or be cut off at any API call, and the StatefulSet controller, the kubelet and the user act between
any two calls.

## How the model is laid out

- `Cluster.dfy` is the namespace: the TeamCity object, the checkpoint, the StatefulSets with their
  generations, revisions, pods and uids, and what the cluster does to them by itself.
- `Protocol.dfy` cuts a pass at its API calls. A program point names the next call and holds the
  local variables, including the copy of the TeamCity object that the pass works from. A run is any
  sequence of successful calls, failed calls, crashes, cluster events and edits.
- `Driver.dfy` and `Reconciler.dfy` are the same pass as a function and as classes with fields,
  loops and early returns; each method is proved to do what the small steps do, whatever happens
  between its calls, and every pass is a run.
- `StageProtocol`, `ReplicaCoupling`, `SingleNode`, `MultiNode`, `WriteFreeze`, `Certificates`,
  `Recreate`, `Webhook`, `Detection` and `Convergence` prove properties of all runs or all passes.
- `Rollouts`, `Course` and `Progress` prove that upgrades of any number of nodes end, and `Restarts` and
  `Restless` say when another one follows.
- `WholePass` says what a pass comes to from its first call to its last, at every stage of an upgrade, for a deleted object
  and for a changed service name. `Failures` says what a failed call comes to, and which calls write what.
- `Passes` chains the calls of a pass, `Placing` about the secondaries that one of them writes, and `Listing` about how it
  finds those that are obsolete.
- `Hazards` proves, for each step that the availability theorem of a standalone upgrade restricts, when exactly it does
  harm, `FleetHazards` the same for edits of several nodes between passes (`Standby` is its safe half), and `Deadlocks`
  when exactly the recreate path and the upgrade get in each other's way.
- `Examples` holds concrete systems that meet the hypotheses of the upgrade theorems.
- `PodTree`, `PodTemplate`, `Configuration`, `Operator` model what is written into a StatefulSet, what the change
  detector compares, and put both into the upgrade theorems. `Labels`, `ServerOptions`, `Ordering`, `HeapSize` and
  `Claims` model what these rely on.

A revision is represented by its template, and deleting a StatefulSet marks it as terminating until it
vanishes. The pods of a StatefulSet with one replica are ready or not.

## What the upgrade rests on

For a standalone main node somebody serves in every reachable state, under conditions that `SingleNode.Admissible`
spells out and that can be checked before each step:

1. An edit finds the pass at work and the stage of the upgrade able to take it (`SingleNode.Bears`). Without a
   checkpoint the detector has to see it. At `ReplicaCreated` it must not change a replica that is already there, because
   the next pass would rewrite that replica and take its old pod for ready. Up to `ReplicaReady` it must not go back to a
   template that is still being rolled away from. During the pass that persists `MainShuttingDown`, what that pass writes
   has to do for it, and from then on it must ask nothing of the main node.
2. A read of the detector fails only where the builders may go on from there. Behind a replica that answers they often may.
3. The pass that persists `MainShuttingDown` reaches its write of the main node.
4. The replica of the previous upgrade has stopped before the next one is made.
5. The two reads that certify the rollout see one generation.
6. No pod fails by itself.

Any call other than those may fail, and the operator may crash anywhere else. `Hazards` proves, from every state of the
invariant, when exactly a step outside the first five conditions opens a way to an outage: (1) an edit does exactly if pass
and stage do not bear it, provided that some spec can ask the main node for a new template, as is always so with the
templates that the operator writes (`Operator.StandaloneEditHazard`); (2) a failed read of the detector exactly if the
builders were not safe to run; (3) a pass broken off exactly if its write was still pending; (4) making the replica, with a
main node still to be written, exactly if the last one is leaving and answers; (5) the controller's look exactly if the
revisions had been read too early.

For several nodes the main node or all secondaries serve in every reachable state, with any calls failing and any crashes,
if an edit arrives when all nodes are rolled out and no pod fails by itself. `FleetHazards.EditBetweenPasses` says exactly
which earlier edits do harm between two passes. If the main node is rolled out, those that change it while every secondary
is still due to restart; if it is not, those that send it back to a template it is being rolled away from and change every
secondary.

The following is true of the code and is stated as such:

- The handler of `MainShuttingDown` reads the revisions before the generation, so the controller's catching up in
  between certifies a rollout that has not begun (checkpoint_stages.go:119-128). Every upgrade passes a state in which this
  can happen. For a standalone node the result is an outage, for several nodes a second upgrade.
- The gate of the secondaries reads them the other way round (teamcity_controller.go:251-259). It cannot be misled by what
  happens in between, but it is by a main node that was sent back to its current revision in the middle of a rollout.
- The replica's variables are made anew from the instance at every pass through `ReplicaCreated`
  (update_with_ro_utils.go:53-61), and its readiness is that of whatever pod it has (checkpoint_stages.go:93-107).
- A failed update of the checkpoint is swallowed (checkpoint.go:97-103), and so are a failed creation of the replica
  (checkpoint_stages.go:80-87) and a failed detection (teamcity_controller.go:275-277); a failed read of the checkpoint
  counts as "no upgrade under way" (util.go:83-90).
- A recreate inside an upgrade leaves it waiting for ever for a main node that nobody makes again. No call has to fail
  for that; a failed read of the detector or of the checkpoint is the only way out.
- An upgrade can wait for ever for its replica, not only after a failed creation but also after a successful one, if the
  replica of the previous upgrade is still there and leaving.
- The requeue that the recreate hook asks for is dropped by the pass (teamcity_controller.go:138), so a main node and a
  secondary can be deleted at the same time, exactly if the secondary's service name has to change too.
- The look after a recreate's deletion tests the wrong error variable (statefulset_recreate.go:85-90). If it fails, two
  secondaries can be deleted at once, exactly if the spec leaves the first one's service name empty and a later one has to
  change its own.
- Obsolete secondaries are found by labels of the instance (secondarystatefulset.go:58-63). One that was made before a
  label was added or changed is not found.
- One StatefulSet that does not exist yet hides every change of the nodes behind it from the detector (util.go:70-73).
- A number that the server defaults from zero makes upgrades follow each other for ever, with one node or many.
- A stored volume claim never takes over a volume name, because a length is compared with less than zero
  (persistentvolumeclaim.go:51-53).
- README.md:492 and README.md:548 of the repository say that secondaries are upgraded first and one at a time. The code
  writes the main node first and then all secondaries in one pass; the model follows the code.

## Assumptions

`DeepDerivative` is taken as: an unset text or reference on the left is ignored, slices compare as prefixes and
maps as sub-maps, and numbers, booleans and quantities are compared exactly. The API server completes a written
object field by field, fills only what is unset, and filling twice is filling once; numbers left at zero may be filled too.

## Model

| member | source | states |
|---|---|---|
| Stages.TextRoundTrip | internal/checkpoint/stage.go:33-69 | a stage written into the ConfigMap is read back as itself |
| Stages.StoredTexts | internal/checkpoint/stage.go:52-69 | the text of each of the seven stages |
| Stages.UnknownText | internal/checkpoint/stage.go:33-50 | a text that belongs to no stage starts the upgrade from its beginning |
| Stages.AllowedMoves | internal/checkpoint/stage.go:83-89 | thirteen moves are allowed: staying, and going to the next stage in the order of the protocol |
| Protocol.TemplateWriters | internal/controller/teamcity_controller.go:183-219 | a template changes only by a successful write of the main node, of the secondary whose turn it is, or of the replica |
| Protocol.NodeNamed | internal/resource/secondarystatefulset.go:80-87 | the lookup by name finds a node of that name exactly if there is one |
| Driver.FinishIsRun | internal/controller/teamcity_controller.go:79-153 | the rest of a pass, with failures and events at every call, is a run of small steps, so theorems about runs hold inside it |
| Driver.PassIsRun | internal/controller/teamcity_controller.go:79-153 | a whole pass against any script of failures and events is a run from a resting operator |
| Reconciler.TeamcityReconciler.Reconcile | internal/controller/teamcity_controller.go:79-153 | the imperative pass ends in exactly the state, outcome and rest of the script that the small steps give, for every interleaving and failure |
| Reconciler.TeamcityReconciler.PerformZeroDowntimeUpgradeOrRequeue | internal/controller/teamcity_controller.go:272-294 | detection, reading the stage and acting on it together are what the small steps from the detector on do; a failed detection goes on to the builders |
| Reconciler.TeamcityReconciler.DoesNodesUpdateChangeStatefulSetSpec | internal/controller/util.go:66-81 | the loop with its three early exits, each read of the cluster of its own moment, returns what the search of `SearchDecides` comes to; `Operator.DetectorComparesSpecs` says what it asks of one node, and `WholePass.NewServiceNameStartsUpgrade` what comes of a changed service name |
| Reconciler.SearchEnds | internal/controller/teamcity_controller.go:272-278 | and that search leaves the pass exactly where the chain of detector reads in the small steps leaves it, a swallowed error included |
| Reconciler.SearchDecides | internal/controller/util.go:66-81 | with the cluster moving between the reads: a restart is found exactly if some read sees a change and every read before it, each at its own moment, sees its node unchanged; the search fails exactly if a read does |
| Reconciler.TeamcityReconciler.OngoingZeroDowntimeUpgrade | internal/controller/util.go:83-90 | a failed read of the checkpoint is taken for its absence |
| Reconciler.TeamcityReconciler.DoActionBasedOnCheckpoint | internal/controller/checkpoint_stages.go:14-63 | the handler of the current stage acts, and the pass goes on, requeues or fails as it says |
| Reconciler.TeamcityReconciler.HandleUpdateInitiated | internal/controller/checkpoint_stages.go:65-71 | asks for ReplicaCreated and requeues |
| Reconciler.TeamcityReconciler.HandleReplicaCreated | internal/controller/checkpoint_stages.go:72-92 | reads the main node, makes the replica from it and from the instance, and asks for ReplicaStarting even if making it failed |
| Reconciler.TeamcityReconciler.HandleReplicaStarting | internal/controller/checkpoint_stages.go:93-107 | asks for ReplicaReady once the replica is available, fails if there is none |
| Reconciler.TeamcityReconciler.HandleReplicaReady | internal/controller/checkpoint_stages.go:108-114 | asks for MainShuttingDown and lets the pass go on to the builders |
| Reconciler.TeamcityReconciler.HandleMainShuttingDown | internal/controller/checkpoint_stages.go:115-136 | reads revisions, then generation, from possibly different states, and asks for MainReady if both look done |
| Reconciler.TeamcityReconciler.HandleMainReady | internal/controller/checkpoint_stages.go:137-162 | deletes the replica and asks for UpdateFinished; a failed read lets the pass go on to the builders |
| Reconciler.TeamcityReconciler.HandleUpdateFinished | internal/controller/checkpoint_stages.go:163-169 | deletes the checkpoint and lets the pass go on |
| Reconciler.TeamcityReconciler.FinalizeTeamCity | internal/controller/teamcity_controller.go:168-181 | drops the checkpoint of a deleted instance if one can be read and fails if it cannot be dropped; `WholePass.DeletedInstance` says what is left for every script of failures |
| Reconciler.TeamcityReconciler.ReconcileStatefulSetBeforeCreateOrUpdate | internal/controller/statefulset_recreate.go:32-93 | the hook proceeds, blocks, fails or asks for a requeue exactly as the small steps branch, the failed second look included |
| Reconciler.TeamcityReconciler.ReconcileSecondaries | internal/controller/teamcity_controller.go:183-219 | the loop over the secondaries writes them in the order of the spec up to the first that cannot be written |
| Reconciler.TeamcityReconciler.ReconcileDelete | internal/controller/teamcity_controller.go:221-237 | deletes the listed obsolete secondaries one by one, stopping at the first failure |
| Reconciler.TeamcityReconciler.GetObsoleteObjects | internal/resource/secondarystatefulset.go:55-74 | returns exactly the listed secondaries that the spec does not name |
| Reconciler.TeamcityReconciler.ValidatePreconditions | internal/controller/teamcity_controller.go:239-270 | true exactly if three separate reads saw the newest generation, a finished rollout, and no checkpoint, a failed read counting against the first two and for the third |
| Reconciler.Checkpoint.DoCheckpointWithDesiredStage | internal/checkpoint/checkpoint.go:29-52 | creates, advances or refuses, and swallows a failed update; its stage field ends as the desired stage, as the stored one if the move is refused, and unchanged if the read failed |
| Reconciler.Checkpoint.UpdateStageFromConfigMap | internal/checkpoint/checkpoint.go:61-73 | the stage field becomes the stored stage, or the initial one of the instance if none is stored |
| Reconciler.Checkpoint.FetchCurrentStageFromCluster | internal/checkpoint/checkpoint.go:75-86 | the stage read is the stored one; missing and failing are told apart |
| Reconciler.Checkpoint.Delete | internal/checkpoint/checkpoint.go:105-117 | a checkpoint that was not there makes the deletion fail |
| StageProtocol.StepIsLegal | internal/checkpoint/stage.go:83-89 | every step leaves the stage, starts it, raises it by one, or removes it where the protocol says so |
| StageProtocol.RunIsLegal | internal/checkpoint/checkpoint.go:29-52 | in every run the stage starts at the first stage of the instance, rises by one at a time, and is removed only from UpdateFinished or by the finalizer, with lost updates and crashes anywhere |
| StageProtocol.StagesClimb | internal/checkpoint/stage.go:83-89 | while a checkpoint lives its stage never falls and every stage between two that are seen is passed |
| ReplicaCoupling.StageTellsReplica | internal/controller/checkpoint_stages.go:72-162 | from ReplicaStarting to MainShuttingDown the replica exists, at UpdateFinished it is deleted, over all runs with restarts after any write |
| SingleNode.StepKeepsInv | internal/controller/checkpoint_stages.go:65-169 | every admissible step of operator, cluster or user keeps the invariant that ties stage, program point, main node and replica together |
| SingleNode.AlwaysServing | internal/controller/checkpoint_stages.go:65-162 | in every state of every admissible run the main pod is ready or an available replica is not being deleted |
| SingleNode.ReplicaCoupledToStage | internal/controller/checkpoint_stages.go:93-162 | at ReplicaReady and MainShuttingDown the replica is up; at UpdateFinished and without checkpoint it is gone or going |
| SingleNode.MainRollsOnlyBehindReplica | internal/controller/checkpoint_stages.go:108-136 | whenever the main node is not rolled out, the replica is up and the checkpoint is not past MainShuttingDown |
| MultiNode.GateKeepsInv | internal/controller/teamcity_controller.go:251-259 | reading the generation before the revisions keeps the invariant although the cluster moves between the reads |
| MultiNode.StepKeepsInv | internal/controller/teamcity_controller.go:243-269 | every step, failed calls and crashes anywhere included, keeps nodes restarting in turn |
| MultiNode.AlwaysServing | internal/controller/teamcity_controller.go:243-269 | with any number of secondaries, the main node is ready or all secondaries are, in every state of every run whose edits arrive at settled nodes |
| MultiNode.WritesTakeTurns | internal/controller/teamcity_controller.go:243-269 | the main template changes only while all secondaries are settled, a secondary's only next to a settled main node |
| WriteFreeze.NoBuilderPassWhileFrozen | internal/controller/teamcity_controller.go:115-146 | with successful calls no pass enters the builders while the stage is one of the five frozen ones |
| WriteFreeze.OnlyReplicaIsTouched | internal/controller/teamcity_controller.go:115-125 | outside the builders no object but the replica is created, written or deleted |
| WriteFreeze.NoSecondaryWriteDuringUpgrade | internal/controller/teamcity_controller.go:261-266 | no run reaches a secondary's builder while a checkpoint exists, if the gate's read succeeds |
| WriteFreeze.SecondaryChangesWithoutUpgrade | internal/controller/teamcity_controller.go:261-266 | so in every such run a secondary's template changes only at a moment without a checkpoint |
| WriteFreeze.FailedReadWritesSecondaries | internal/controller/util.go:83-90 | with a checkpoint, one failed read at an otherwise open gate lets the pass bring every secondary to the spec next to the upgrade; in all other cases the pass ends there |
| WriteFreeze.UnprotectedWriteChangesNothing | internal/controller/checkpoint_stages.go:163-169 | a main write where no replica answers, as in the pass that ends an upgrade, changes nothing |
| WriteFreeze.MainChangesBehindReplica | internal/controller/checkpoint_stages.go:108-136 | in every admissible run the main template changes only while the replica answers |
| WholePass.NewServiceNameStartsUpgrade | internal/controller/teamcity_controller.go:272-294 | under the policy, with templates in order at every node, the pass starts an upgrade exactly if the spec gives some node another non-empty service name: with a replica for a node that is alone, with the restart of the main node otherwise |
| WholePass.DeletedInstance | internal/controller/teamcity_controller.go:168-181 | a pass over a deleted object, with the calls failing in any pattern, the cluster moving in between and no edits: when exactly the checkpoint is gone, when the object is released, and that the pass fails otherwise |
| WholePass.DeletionEnds | internal/controller/teamcity_controller.go:168-181 | if nothing fails, the object and its checkpoint go in one pass, and nothing else changes |
| WholePass.ReleasedMeansForgotten | internal/controller/teamcity_controller.go:168-181 | for every script, edits included: an object that was released left no checkpoint, unless the first read of it failed |
| WholePass.BuildersSpareCheckpoint | internal/controller/teamcity_controller.go:129-146 | from the builders on, no pass makes, moves or drops the checkpoint, whatever happens to its calls |
| WholePass.UpdateInitiatedEnds | internal/controller/checkpoint_stages.go:65-71 | the whole pass at this stage: only the checkpoint moves, to ReplicaCreated |
| WholePass.ReplicaCreatedEnds | internal/controller/checkpoint_stages.go:72-92 | the whole pass: a replica stands that the main node's stored template was copied into, or the one that stood keeps all but its template; the checkpoint says ReplicaStarting and nothing else changes. Without a main node the pass fails |
| WholePass.ReplicaStartingEnds | internal/controller/checkpoint_stages.go:93-107 | the whole pass: the checkpoint moves exactly if the pod of the replica is ready, and without a replica the pass fails |
| WholePass.ReplicaReadyEnds | internal/controller/checkpoint_stages.go:108-114 | the whole pass: MainShuttingDown is persisted and the main node written as the spec asks; of the secondaries only obsolete ones are touched, by sending them on their way out |
| WholePass.MainShuttingDownEnds | internal/controller/checkpoint_stages.go:115-136 | the whole pass: the checkpoint moves exactly if the status of the main node speaks of its newest generation, of one revision, and of a ready pod |
| WholePass.MainReadyEnds | internal/controller/checkpoint_stages.go:137-162 | the whole pass: the replica, if there is one, is sent on its way out, and nothing else happens |
| WholePass.UpdateFinishedEnds | internal/controller/checkpoint_stages.go:163-169 | the whole pass: the checkpoint goes, and the same pass brings the secondaries to the spec |
| Failures.FailedCall | internal/controller/teamcity_controller.go:79-153 | a failed call changes nothing, and it fails the pass exactly if it is not one of the twelve whose error is swallowed |
| Failures.FirstCall | internal/controller/teamcity_controller.go:79-100 | a pass that cannot read its object fails, and one that finds none is done, with nothing changed |
| Failures.SwallowedErrors | internal/controller/teamcity_controller.go:239-294 | a swallowed error is taken for an answer: no checkpoint, a StatefulSet that is gone, a write that went well, nothing to detect |
| Failures.MissingObject | internal/controller/checkpoint_stages.go:72-136 | without the main node, the replica or the checkpoint that it needs a handler fails, and so does the deletion of what is no longer there |
| Failures.GoneMeanwhile | internal/controller/statefulset_recreate.go:72-93 | a StatefulSet that vanished before its deletion or before the second look at it is made anew in the same pass |
| Failures.RefusedWrite | internal/controller/statefulset_recreate.go:125-150 | a write with another service name is refused and blocks the pass |
| Failures.SetsAreWritten | internal/controller/teamcity_controller.go:183-219 | StatefulSets change at seven calls and no others, and only by successful ones |
| Failures.CheckpointIsWritten | internal/checkpoint/checkpoint.go:54-117 | which calls make, move and drop the checkpoint, and to what, for every state and answer |
| Failures.SupportIsWritten | internal/controller/teamcity_controller.go:129-146 | the supporting objects are what the copy of the last pass that wrote them asked for |
| Failures.SpecIsReleased | internal/controller/teamcity_controller.go:168-181 | the operator writes the TeamCity object only to release it |
| Certificates.GenerationFirst | internal/controller/teamcity_controller.go:251-259 | generation first, revisions second: whatever the cluster does in between, "finished" means settled |
| Certificates.RevisionFirst | internal/controller/checkpoint_stages.go:119-128 | revisions first, generation second: some interleaving misleads exactly if the controller had not seen the stored template |
| Certificates.MainReadyIsTrue | internal/controller/checkpoint_stages.go:119-128 | over all admissible runs of a standalone upgrade MainReady stands only while the spec's template is rolled out and its pod ready |
| Certificates.FleetMainReadyIsTrue | internal/controller/checkpoint_stages.go:119-128 | with several nodes and any failing calls, MainReady is persisted only at a rolled out main node, unless the controller caught up between the two reads |
| Detection.DetectionDecides | internal/controller/util.go:66-81 | with at most one read for each node and none of another kind, the loop decides for a restart exactly when some node differs and every node before it exists and does not |
| Detection.MissingNodeHidesChanges | internal/controller/util.go:69-73 | behind a missing node no change counts |
| Course.StepKeepsCourse | internal/controller/checkpoint_stages.go:65-169 | every fair small step of an upgrade of any number of nodes keeps what ties stage, program point, nodes and replica together, wherever cluster events fall |
| Progress.StepNoHigher | internal/controller/checkpoint_stages.go:65-169 | no such step takes the upgrade back in a measure of main node, stage, secondaries and replica |
| Progress.RoundHelps | internal/controller/checkpoint_stages.go:65-169 | fair steps that contain every awaited event and one whole pass, in any order, bring it forward |
| Progress.UpgradeEnds | internal/controller/teamcity_controller.go:272-294 | so an upgrade of any number of nodes ends, from wherever it stands: checkpoint and replica are gone, the gate has opened, and every node runs what the spec asks for |
| Progress.StaysOver | internal/controller/teamcity_controller.go:272-294 | and no fair run starts another one after that |
| Restarts.OnlyOneUpgrade | internal/controller/teamcity_controller.go:272-294 | from any moment of an upgrade whose certificate is not torn, a checkpoint that is gone never comes back |
| Restarts.NewUpgradeIsDirected | internal/controller/teamcity_controller.go:272-294 | every new upgrade starts in a state from which that holds |
| Restarts.TornCertificateRestarts | internal/controller/checkpoint_stages.go:119-128 | with several nodes, the controller's look between the two reads makes a second upgrade possible exactly if the revisions were read too early |
| Restless.UpgradesNeverStop | internal/controller/util.go:66-81 | where the detector fires at nodes that need no write, no failures, crashes or events stop upgrades from following each other |
| Hazards.SafeWhereInvariant | internal/controller/checkpoint_stages.go:65-162 | where the invariant holds no admissible run leads to an outage |
| Hazards.EditHazard | internal/controller/checkpoint_stages.go:65-169 | from every state of the invariant, an edit leads to an outage exactly if pass and stage do not bear it, if only the main node is being replaced, the edit or some spec asks it for a change, or the pass is about to write it |
| Hazards.BlindEdit | internal/controller/teamcity_controller.go:272-294 | an edit without a checkpoint: exactly if the detector overlooks what the builder would write |
| Hazards.EditAtReplicaCreated | internal/resource/update_with_ro_utils.go:50-66 | an edit at ReplicaCreated with a live replica: exactly if it would make that replica anew |
| Examples.VariablesChangedTooLate | internal/resource/update_with_ro_utils.go:50-66 | a concrete upgrade whose replica was made just before a crash: an edit that gives the replica other variables leads to an outage, the same edit without them does not |
| Examples.TogetherMeetsHypotheses | internal/controller/teamcity_controller.go:243-269 | a main node with one secondary and a fresh edit meets the hypotheses of the theorems about several nodes |
| Hazards.EditAtReplicaReady | internal/controller/checkpoint_stages.go:108-114 | an edit at ReplicaReady between passes: exactly if it goes back to a template that is being rolled away from |
| Hazards.EditWhileShuttingDown | internal/controller/checkpoint_stages.go:108-114 | an edit during the pass that persists MainShuttingDown: exactly if it goes back to a template that is being rolled away from, or if what that pass writes does not do for it |
| Hazards.EditWhileCommitted | internal/controller/checkpoint_stages.go:108-114 | an edit between persisting MainShuttingDown and the main write, a revert to the stored template included: exactly if what the pass writes does not do for it |
| Hazards.LateEdit | internal/controller/checkpoint_stages.go:115-169 | an edit from MainShuttingDown on: exactly if it changes the main node |
| Hazards.FailedDetection | internal/controller/teamcity_controller.go:275-277 | at every stage, a swallowed detection error leads to an outage exactly if the builders were not safe to run |
| Hazards.AbandonedPass | internal/controller/checkpoint_stages.go:108-114 | a crash or failure between persisting MainShuttingDown and the main write leads to an outage exactly if the write was still pending |
| Hazards.TornReadCertifiesTooEarly | internal/controller/checkpoint_stages.go:119-128 | the controller's look between the two reads leads to an outage exactly if the revisions were read too early |
| Hazards.DyingReplicaIsTrusted | internal/controller/checkpoint_stages.go:93-105 | with the main node still to be written, making the replica leads to an outage exactly if the last one still answers while it is being deleted, whether or not the call succeeds |
| Hazards.EveryUpgradeCanTear | internal/controller/checkpoint_stages.go:119-128 | from every stage of every upgrade that still has the main node to write, admissible steps reach the state in which the certificate is torn |
| FleetHazards.EditDuringRestart | internal/controller/teamcity_controller.go:243-269 | an edit between passes at a rolled out main node can leave nobody to answer exactly if it changes the main node and every secondary is down or still due to restart |
| FleetHazards.EditDuringMainRollout | internal/controller/teamcity_controller.go:251-259 | an edit between passes while the main node is rolled out: exactly if it sends the main node back to a template it is being rolled away from, so that the gate misreads its status, and changes every secondary |
| FleetHazards.EditBetweenPasses | internal/controller/teamcity_controller.go:243-269 | both in one, for edits of any nodes; with a rolled out main node and no checkpoint no call has to fail for the outage |
| Standby.OneAnswers | internal/controller/teamcity_controller.go:243-269 | the safe half: the main node or one secondary that was not due to restart answers in every state of every run, with any failures and crashes, through any number of later edits at rolled out nodes |
| Examples.EditedBeforeRestart | internal/controller/teamcity_controller.go:243-269 | a concrete cluster whose secondary has just been written: an edit of the main node leads to an outage while the old pod still answers, and not once it has been replaced |
| Recreate.UidKeepsServiceName | internal/controller/statefulset_recreate.go:72-93 | in every run a uid keeps its name and its service name for life |
| Recreate.DeletionNeedsAnnotationAndDrift | internal/controller/statefulset_recreate.go:61-73 | whatever else the operator deletes is the replica or obsolete; a node's StatefulSet is deleted only under the annotation and for real drift |
| Recreate.JustifiedAlong | internal/controller/statefulset_recreate.go:61-73 | that the deletion about to be made is justified holds in every state of every run |
| Recreate.OneSecondaryAtATime | internal/controller/teamcity_controller.go:189-194 | for any list, with crashes and failures, no two secondaries are being deleted at once while the spec stays |
| Deadlocks.FailedRecheck | internal/controller/statefulset_recreate.go:81-93 | a failed second look at a secondary just deleted lets two be on their way out at once exactly if the spec leaves that one's service name empty and any later one of the list has to change its own |
| Deadlocks.RecreateInsideUpgrade | internal/controller/statefulset_recreate.go:85-87 | from ReplicaReady on, the main node can be lost for good exactly if the annotation is set and its service name drifted |
| Deadlocks.LostForever | internal/controller/checkpoint_stages.go:119-122 | an upgrade that waits for a main node or a replica nobody makes waits for ever, through any passes, crashes and cluster events |
| Deadlocks.OnlyFailureFreesMain | internal/controller/teamcity_controller.go:275-277 | of all steps but an edit, a lost main node is within reach again exactly after a failed read of the detector, or of the checkpoint unless the detector is sure to find a change by itself |
| Deadlocks.FailedCreationIsForgotten | internal/controller/checkpoint_stages.go:80-91 | for every state of the replica and either answer of the call: the upgrade can come to wait for a replica nobody makes exactly if there is none and its creation failed, or if there is one that is leaving |
| Deadlocks.DroppedRequeue | internal/controller/teamcity_controller.go:138-146 | without any failure the main node and a secondary can be on their way out together exactly if some secondary of the list waits for a change of its service name |
| WholePass.BlockedEnds | internal/controller/statefulset_recreate.go:61-70 | without the annotation a changed service name of the main node ends the pass as blocked, with no StatefulSet touched |
| WholePass.RemovalEnds | internal/controller/statefulset_recreate.go:72-93 | with it the main node is sent on its way out, whatever happens to the secondaries in that pass |
| WholePass.CreationEnds | internal/resource/statefulset.go:33-48 | a main node that is missing is made under a new uid with the service name and the template of the spec |
| WholePass.RecreateCompletes | internal/controller/statefulset_recreate.go:61-93 | so two passes with the end of the old StatefulSet between them bring the new service name about |
| WholePass.RenamedSecondaryEnds | internal/controller/statefulset_recreate.go:61-93 | a secondary with a changed service name is sent on its way out and ends the walk over the secondaries, or blocks the pass without the annotation |
| Webhook.ServiceNameChangedInSpec | api/v1beta1/teamcity_types.go:181-199 | true exactly if the main service name or that of a secondary known before under its name changed |
| Webhook.ServiceNameOf | api/v1beta1/teamcity_types.go:188-191 | of several secondaries of one name the last one decides about its service name |
| Webhook.ValidateUpdate | api/v1beta1/teamcity_webhook.go:83-111 | rejects exactly invalid fields and service name changes without the annotation; warns about changes with it |
| Webhook.WebhookIsTheControllersGate | api/v1beta1/teamcity_types.go:181-199 | between converged passes the webhook wants the annotation exactly if the controller would have to recreate something |
| Webhook.GatesAgree | internal/controller/statefulset_recreate.go:61-70 | over one run with any number of accepted edits, each made when the passes before it had converged: while the spec has no annotation, no pass ends in "recreate blocked", whatever fails |
| Webhook.ValidateResponsibilitiesOfAllNodes | api/v1beta1/teamcity_webhook.go:209-230 | rejects exactly the non-empty invalid assignments, warns exactly about missing coverage |
| Webhook.ValidInWords | api/v1beta1/teamcity_webhook.go:29-51 | an assignment is valid exactly if the main node has its two duties and otherwise what any node may have, and every secondary only has what any node may have, each by its name |
| Webhook.AllElementsInOtherSlice | api/v1beta1/teamcity_webhook.go:304-316 | the two loops decide set inclusion |
| Webhook.MainNodeIsUnique | api/v1beta1/teamcity_webhook.go:209-230 | every valid assignment, with a warning or without, has the main responsibility on the main node only |
| Webhook.NoWarningMeansCovered | api/v1beta1/teamcity_webhook.go:209-230 | there is no warning exactly if every responsibility has a node |
| Convergence.DoneIsReady | internal/controller/teamcity_controller.go:129-146 | after an undisturbed pass every secondary of the spec is in place, every other one is on its way out, and the main node and the replica are untouched, for any list, repeated names included |
| Convergence.TwoPasses | internal/controller/teamcity_controller.go:79-153 | the whole pass does that, and after whatever cluster events, once the obsolete secondaries are gone, the next whole pass changes nothing exactly if the detector starts no upgrade |
| Listing.ListedAreObsolete | internal/resource/secondarystatefulset.go:55-74 | the listing by labels finds exactly the obsolete secondaries that were made under the labels the instance now has, and never another StatefulSet |
| Listing.AllLeaveIffRecognised | internal/resource/secondarystatefulset.go:55-74 | so a pass sends every obsolete secondary on its way out exactly if each is recognised or leaving already |
| PodTree.DerivesIffOnlyUnasked | internal/resource/update_with_ro_utils.go:75-77 | the recursive comparison is quiet exactly if at every location the stored tree only has more than was asked for |
| PodTree.CompletionIsQuietIffNumbersKept | internal/resource/update_with_ro_utils.go:75-77 | against a completed tree the comparison is quiet exactly if no stated number was replaced |
| PodTree.QuietDifferenceIsOverlooked | internal/resource/update_with_ro_utils.go:75-77 | where the comparison is quiet, two trees differ exactly if it overlooks a location |
| PodTemplate.WriteTwice | internal/resource/statefulset_utils.go:187-202 | configuring and storing twice is once |
| PodTemplate.QuietAfterWrite | internal/resource/update_with_ro_utils.go:68-79 | right after a write the detector is quiet exactly if every number asked for survived |
| PodTemplate.DetectorGap | internal/resource/statefulset_utils.go:163-202 | where the detector is quiet, the writer changes the spec exactly if some written location holds more than is asked for |
| PodTemplate.StoredGap | internal/resource/statefulset_utils.go:163-202 | every silent change of a stored StatefulSet lies at such a location |
| PodTemplate.EmptiedMapIsMissed | internal/resource/statefulset_utils.go:192-193 | emptying the node selector is written without an upgrade |
| Configuration.ConfigureStatefulSet | internal/resource/statefulset_utils.go:187-202 | sets every field it owns, leaves containers and the rest alone, and the service name only if one is given |
| Configuration.ConfigureContainer | internal/resource/statefulset_utils.go:163-185 | sets every field it owns, the probes with the shared endpoints, and leaves the rest of any container alone; `Configuration.DesiredIsPod` says what stands where |
| Configuration.BuildVolumesFromPersistentVolumeClaims | internal/resource/statefulset_utils.go:135-140 | one volume for each claim, in order |
| Configuration.BuildVolumeMountsFromPersistentVolumeClaims | internal/resource/statefulset_utils.go:152-157 | one mount for each claim, in order |
| Configuration.Update | internal/resource/statefulset.go:33-48 | what the builder makes of a stored StatefulSet is the writer of the detector theorems |
| Configuration.DesiredIsPod | internal/resource/statefulset_utils.go:163-202 | location by location: a volume and a mount for each claim of the spec and for the data directory and no others, limits, requests, the three probes with their endpoints, image, port, shutdown hook, selector, affinity, contexts, account, and the variables in order with their values |
| Configuration.DataPathIsMounted | internal/resource/statefulset_utils.go:180-182 | the path that the server takes for its data directory is the path of one of the mounts |
| Configuration.SecretDecides | internal/resource/statefulset_utils.go:236-252 | of several variables of one name the last counts: those of the database come from the secret whatever the node sets |
| Configuration.NodeDecides | internal/resource/statefulset_utils.go:236-252 | any other variable that the node sets is the node's |
| Configuration.OperatorDecides | internal/resource/statefulset_utils.go:236-252 | the six of every node are the operator's where the node does not set them |
| Configuration.OptionsInWords | internal/resource/statefulset_utils.go:75-84 | the server options are the words for heap dumps, node id, root address, responsibilities and startup properties, each separated by one space |
| Configuration.JoinedMore | internal/resource/statefulset_utils.go:254-257 | responsibilities are separated by commas, with none at either end |
| Configuration.ChangesRequireNodeStatefulSetRestart | internal/resource/update_with_ro_utils.go:68-79 | configuring an empty StatefulSet and comparing is the detector of those theorems, with the service name beside it |
| Configuration.UpdateROStatefulSet | internal/resource/update_with_ro_utils.go:50-66 | the replica's pod becomes the stored main pod with its variables made anew from the replica's node, and nothing else of the replica changes; `Configuration.ReplicaIsPod` says which variables these are |
| Configuration.ReplicaIsPod | internal/resource/update_with_ro_utils.go:50-66 | the replica's options name the node `main.name + "-update-replica"` and its heap is the main node's; none of the main node's own variables or responsibilities is there, those of the database are whenever there is a secret, and all else is the stored main pod's |
| Configuration.NodeIdsDiffer | internal/resource/update_with_ro_utils.go:21-28 | for any two specs, the node id in the replica's options is not that of the main node |
| Configuration.ReplicaOptions | internal/resource/update_with_ro_utils.go:21-28 | the responsibilities of the main node never reach the replica, the startup properties do |
| Configuration.ReplicaRunsOldImage | internal/resource/update_with_ro_utils.go:59 | whatever the server filled in, the image of the stored main pod, not of the new spec, is what the replica is started from |
| Configuration.SameReplicaIffSameVariables | internal/resource/update_with_ro_utils.go:59-61 | next to the same stored main node two specs make the same replica exactly if they give it the same variables |
| Operator.RealWritesSettle | internal/resource/statefulset_utils.go:163-202 | the real writer meets the hypothesis of the availability theorems |
| Operator.NothingMissedIsSeen | internal/resource/update_with_ro_utils.go:68-79 | an edit that leaves no location for the detector to miss is one it sees |
| Operator.DetectorComparesSpecs | internal/resource/update_with_ro_utils.go:68-79 | what the loop asks of a node is whether the spec configured from nothing, with its service name, derives from the stored one with its own |
| Operator.SpecsCanRenew | internal/resource/statefulset_utils.go:187-202 | whatever is stored and being rolled out, some spec asks for another template |
| Operator.StandaloneEditHazard | internal/controller/checkpoint_stages.go:65-169 | with the real writer and detector the guard on edits is exact for every edit of a standalone instance |
| Operator.StandaloneAlwaysServes | internal/controller/checkpoint_stages.go:65-162 | availability of a standalone node with the real writer and detector |
| Operator.FleetAlwaysServes | internal/controller/teamcity_controller.go:243-269 | availability of several nodes with the real writer and detector |
| Operator.UpgradeEnds | internal/controller/teamcity_controller.go:272-294 | after any edit of a finished cluster whose numbers survive, with one node or many, a number of fair rounds that depends on the nodes alone ends the upgrade with the real writer and detector, and none follows |
| Operator.FiresIffNumberLost | internal/resource/update_with_ro_utils.go:68-79 | at nodes that are what the spec asks for, an upgrade is started exactly if a number was lost |
| Operator.LostNumberNeverRests | internal/controller/teamcity_controller.go:272-294 | and then upgrades follow each other for ever |
| Labels.GetLabels | internal/metadata/label.go:13-24 | user labels never override the operator's, in any iteration order |
| Labels.MergeLabels | internal/metadata/label.go:57-66 | the second map wins, in any iteration order |
| Labels.GetStatefulSetCommonLabels | internal/metadata/label.go:32-36 | the role is always the operator's |
| Labels.GetStatefulSetLabels | internal/metadata/label.go:26-30 | and so is the node name |
| Labels.LabelByKey | internal/metadata/label.go:5-36 | each label by its key: five are the operator's with these values, every other one is the user's |
| Labels.SelectorByKey | internal/metadata/label.go:26-36 | the selector of a role asks for the same labels but leaves the node name to the user |
| Labels.SelectorSeparatesRoles | internal/metadata/label.go:26-36 | the listing of secondaries returns an object exactly if it was made as one, the user names no other node for all, and no instance label was added or changed since |
| Labels.MainAndReplicaAreNeverObsolete | internal/metadata/label.go:26-36 | for all user labels the main node and the replica are never listed |
| Labels.SelectorSeparatesInstances | internal/metadata/label.go:5-24 | listings of different instances never mix |
| ServerOptions.SortKeysAlphabeticallyInMap | internal/resource/util.go:7-14 | one result for every iteration order |
| ServerOptions.ConvertStartUpPropertiesToServerOptions | internal/resource/statefulset_utils.go:105-111 | the text depends on the map alone |
| ServerOptions.ListingIsUnique | internal/resource/util.go:7-14 | a set has only one sorted listing without duplicates |
| ServerOptions.RenderedTellsProperties | internal/resource/statefulset_utils.go:105-111 | maps without the separators are rendered alike exactly if they are equal |
| ServerOptions.SeparatorHidesAChange | internal/resource/statefulset_utils.go:105-111 | with a separator in a value two different maps are rendered alike |
| HeapSize.HeapFits | internal/resource/statefulset_utils.go:86-90 | for 0 to 100 percent of up to 2^50 bytes the heap is at most the memory, for every rounding |
| HeapSize.HeapIsExactToOne | internal/resource/statefulset_utils.go:86-90 | and within one byte of the exact share rounded down |
| HeapSize.HeapFitsUpToWhole | api/v1beta1/teamcity_webhook.go:136-144 | of all percentages that the webhook lets through exactly those up to 100 keep the heap inside the memory, for 101 to 2^50 bytes |
| Claims.PassConverges | internal/resource/persistentvolumeclaim.go:67-90 | after a pass exactly the claims of the spec carry the labels of the instance, and foreign claims are untouched |
| Claims.ClaimsFollowSpec | internal/resource/persistentvolumeclaim.go:36-65 | field by field: annotations, access modes, selector and resources are those of the first spec of the name, class and mode those stored before if set and the spec's otherwise, the volume name the stored one and empty for a new claim |
| Claims.SecondPassIsNoOp | internal/resource/persistentvolumeclaim.go:36-65 | a second pass changes nothing, repeated names included |
| Claims.VolumeNameIsIgnored | internal/resource/persistentvolumeclaim.go:51-53 | two specs that differ in volume names alone leave the same claims behind |
| Claims.GetPVCIndex | internal/resource/persistentvolumeclaim.go:96-103 | the first claim of that name, or none |
| Claims.PersistentVolumeClaimBuilder.GetObsoleteObjects | internal/resource/persistentvolumeclaim.go:67-90 | exactly the labelled claims that the spec does not name |
| Claims.PersistentVolumeClaimBuilder.CreateOrUpdate | internal/resource/persistentvolumeclaim.go:36-65 | each field of the claim becomes what `Claims.ClaimsFollowSpec` says of it, and no other claim changes |
| Claims.PersistentVolumeClaimBuilder.Reconcile | internal/controller/teamcity_controller.go:129-146 | deletion and updates together leave the claims that the convergence theorems speak of |

## Left out

- The Kubernetes client: caches, conflicts and retries, watches and requeue intervals. A call succeeds or fails; a failed
  call has changed nothing. The read and the write of a create-or-update are one call, because a write on a stale version
  is refused and repeated.
- Edits to the checkpoint ConfigMap by others, and a ConfigMap without its stage key.
- Status, events, logging, and message texts; the substring match that classifies API errors.
- The builders of Services, Ingresses and ServiceAccounts: they compare names like the volume claims and are one step
  `Support` of a pass, together with the claims; their creation is modelled in `Claims` alone.
- More than one pod in a StatefulSet, and pods that fail by themselves.
- Listing order other than by name, and what Kubernetes garbage collection does after a deletion: a deleted object
  terminates and vanishes at some later time.
- The replica's template in the protocol: there it is any function of the instance and of the main node's stored template,
  of which `Configuration.UpdateROStatefulSet` is one; its labels and selector are part of what is not configured, so a
  change of the instance's labels while a replica exists, which the server refuses, is not modelled.
- The contents of probes, affinity, security contexts and init containers: any tree.
- The rendering of the heap size as a quantity, and products beyond the 64-bit range, whose conversion Go leaves open.
- HeapSize.HeapFitsUpToWhole: does not speak of less than 101 bytes, where rounding down can hide an excess.
- Admission of memory and storage requests and of claim names, which is a list of single-field checks.
- SingleNode.AlwaysServing: speaks of instances that keep the policy, the main node's name and its service name and are
  not deleted; a change of the service name goes through the recreate path, of which `Deadlocks` says what it does to an
  upgrade.
- MultiNode.AlwaysServing: speaks of edits that keep the names of the nodes and their service names.
- Claims.PersistentVolumeClaimBuilder.Reconcile: deletes a claim at once and lets every update through; the finalizer that
  delays deletion and the immutable fields of a claim are not part of this model.
- Progress.UpgradeEnds: does not cover an upgrade that made its replica while the last one was leaving, because it need
  not end: `Deadlocks.FailedCreationIsForgotten` gives the exact condition. It asks that every node of the spec exists and
  carries its service name, and that none is told to go back to a template that it is being rolled away from.
- Hazards.EditHazard: speaks of a namespace without leftovers of secondaries. For a writer that no spec could bring to
  store anything new it leaves out edits that ask nothing of a main node at rest.
- FleetHazards.EditBetweenPasses: says nothing of edits that arrive during a pass of several nodes before all of them are
  rolled out.
- Convergence.TwoPasses: lists secondaries by their role; `Listing.TidiedByListing` says when the labels find the same ones.
- Configuration.UpdateROStatefulSet: asks for a stored main pod with a container, as every pod written by the operator has;
  without one the code would stop with an index out of range.
