# Workaholic in Dafny

Workaholic takes monitoring alerts, lets a language model investigate them with read-only tools, and then either
changes the cluster on its own or asks a human first. This project models that guarded write path and proves what
it keeps, for all inputs and over whole runs.

How the parts fit together:

- `Machine` gives every service call (an alert, an approval, a rejection, a follow-up) as a thread of port calls:
  repository, audit log, runbooks, model, remediators, the verifier's reads, messaging. `Next` says which port call a
  thread makes and where each outcome leads. Any port call may fail without effect. A run is a sequence of steps: a call
  begins, a thread makes a port call, a call is cut short by a crash, somebody else changes the cluster. One repository
  call is one step, because the database has a single connection; verification is one step per read.
- `Interleaved` proves what holds of all runs. `Histories` traces each flag, status and executor entry of a run back to
  the port call that made it, `Checks` each `resolved` to the verifier's reads, and `Overwrites` says by which races a
  terminal status is lost. `Soundness` says what `resolved` means for the cluster as long as nobody else changes it.
- `Serial` proves what holds when a call begins only after the others have ended (crashes included), and `AuditTrail`
  adds a repository that does not fail. `Scenarios` builds runs in which no port fails; `Races`, `Recreated` and
  `Overwrites` use them to show what the conditions are needed for.
- `Stories` writes out what the port calls of a whole service call are, from the first to the last, for each outcome,
  without a word on the places of a thread; `Storytelling` proves that every completed call of every run tells its story.
- `Service` is the orchestration in its own form: classes whose methods assign the fields of an incident and call
  fallible ports. Each method is proved to be a complete play of its thread (`Plays`), and `Server.Serve` turns any
  sequence of such calls into a serialised run, so that the theorems about runs hold of the methods.
- `Cluster`, `Executor` and `Verifier` are the guarded clients, the plan executor and the health check over a cluster
  of HPAs, Deployments, ReplicaSets, pods and auto scaling groups, and `Effects` says what each step does to their
  fields; `ReplicaSets` and `Sorting` choose the rollback target and order the rollout history.
- `Policy` and `Dispatching` are the risk policy and the exact rule for unattended execution; `FrontMatter` reads
  runbook files; `ToolLoop` is the model's tool loop; `Repository` and `Callers` are the in-memory repository as
  linked objects and a caller who edits what it holds in place; `Text`, `Spelling` and `Domain` are the values they
  share.

Four promises do not hold as one might read them, and the model says when they do:

- An incident is executed at most once if no two approvals of it overlap (`Histories.ExecutedOnceWhenApart`). Two that
  do overlap can both execute it (`Races.TwoApprovalsCanBothExecute`), and only such a race can
  (`Histories.ExecutedTwiceOnlyByARace`).
- A resolved or failed incident stays so if no two calls that write it overlap (`Overwrites.TerminalWhenApart`). An
  approval can overwrite a rejection, and an alert whose request for approval is not delivered the `resolved` of an
  early approval (`Overwrites.ApprovalOverwritesRejection`, `Overwrites.AlertOverwritesResolved`), and only such races
  can (`Overwrites.OverwrittenOnlyByARace`).
- If nobody else changes the cluster from its executor entry on, a resolved incident is settled: every check holds, and
  each deleted pod is gone (`Soundness.SettledWhenUndisturbed`). Otherwise each step was checked, one after the other, in
  the cluster of its own reads (`Checks.ResolvedWasChecked`), and the plan as a whole may have verified at no moment
  (`Recreated.ResolvedThoughNeverVerified`). The check of a deleted pod moreover asks less than the deletion did: it
  looks at the pod's Ready condition and not at its containers (`Verifier.PodCheckExactly`,
  `Verifier.CrashLoopIsNotShown`), so an incident may be resolved while its pod is back and crash-looping
  (`Recreated.ResolvedWhileLooping`).
- The comparator of the rollout history orders the views whatever their names and times exactly when all revisions are
  numbers or at most one of them is (`ReplicaSets.OrdersExactly`).

## Model

| member | source | states |
|---|---|---|
| Interleaved.ThreadStep | internal/core/services/incident_service.go:169-390 | every port call of every service call keeps the thread well formed: only alerts park, only allowed approvals that saw the incident waiting claim it, the plan never changes after dispatch, and only the call's own incident is saved |
| Interleaved.Always | internal/core/services/incident_service.go:169-390 | the system invariant over all runs, with interleaving, failing ports, crashes and outside changes: what is stored was written by the incident's own alert or follows its parking, and every executor entry is accounted for |
| Interleaved.AwaitingOnce | internal/core/services/incident_service.go:237-252 | in every run the persisted status enters awaiting_approval at most once per incident |
| Interleaved.SawIsARead | internal/core/services/incident_service.go:264-274 | an approval or rejection that goes ahead really read its incident as awaiting approval, earlier in the same run |
| Interleaved.ExecutionsAreJustified | internal/core/services/incident_service.go:254-286 | in every run an auto-dispatched incident is executed only by its own alert, every other execution belongs to a different approval by an allowed actor that saw the incident waiting, and the plan is the incident's own |
| Interleaved.ExecutesTheDispatchedPlan | internal/core/services/incident_service.go:210-286 | whenever the alert of an incident has dispatched it, every execution of that incident has the plan dispatched; there always is such a dispatch, by Histories.EveryExecutionWasDispatched |
| Interleaved.ClusterStaysSafe | internal/adapters/secondary/k8s/client.go:44-49 | over every run and every argument map: each write is within the guards, protected namespaces stay as they were, and every size is the original one or within its cap |
| Interleaved.RunReplays | internal/core/services/incident_service.go:288-292 | in a run nobody else interferes with, the cluster is the original one with accepted writes replayed on it |
| Histories.FlagsHaveSaves | internal/core/services/incident_service.go:240-279 | in every run a call that counts as having parked or claimed its incident persisted it so, earlier, with the plan it holds |
| Histories.EveryExecutionWasDispatched | internal/core/services/incident_service.go:210-286 | in every run each entry into the executor was recorded by one port call, after the incident's own alert had persisted exactly the plan executed: as executing for its own execution, as awaiting approval for an approval's |
| Histories.RemediatesTheEntry | internal/core/services/incident_service.go:22-35 | in every run each remediator call performs the step of that number in the plan of its own call's executor entry |
| Histories.ReadBeforeClaim | internal/core/services/incident_service.go:264-279 | in every run an approval that claimed its incident had read it as waiting before |
| Histories.NoReadAfterClaim | internal/core/services/incident_service.go:264-279 | in every run nobody reads an incident as waiting after an approval has claimed it |
| Histories.ExecutedTwiceOnlyByARace | internal/core/services/incident_service.go:264-286 | in every run two executions of one incident belong to two different approvals, each of which had read it as waiting before the other claimed it |
| Histories.ExecutedOnceWhenApart | internal/core/services/incident_service.go:254-321 | if no approval begins while another one of the same incident is in progress, no incident is executed twice, whatever else interleaves, fails or crashes |
| Serial.SerialAlways | internal/core/services/incident_service.go:169-390 | the invariant of serialised runs with crashes: at most one call is active, the persisted status of its incident fits the place it has reached, and an executed incident is persisted as executing or later |
| Serial.ExecutedAtMostOnce | internal/core/services/incident_service.go:254-321 | in serialised runs, whatever fails or crashes, the executor is entered at most once per incident |
| Serial.WritesOnlyWhileExecuting | internal/core/services/incident_service.go:254-321 | every remediator call for an incident happens while it is persisted as executing |
| Serial.StatusesFollowTheLifecycle | internal/core/services/incident_service.go:195-347 | each save follows an edge of the lifecycle, and between saves the stored incident does not change |
| Serial.TerminalIsForever | internal/core/domain/incident.go:20-22 | in serialised runs resolved and failed are never left |
| Overwrites.OverwrittenOnlyByARace | internal/core/services/incident_service.go:195-355 | in every run a terminal status is replaced by another one only by a call that had already read the incident as waiting, or parked it as its alert, when a different call persisted that status; an alert replaces only an approval's resolved, and by failed |
| Overwrites.TerminalWhenApart | internal/core/services/incident_service.go:195-355 | if no alert, approval or rejection of an incident begins while another is in progress, resolved and failed are never left, whatever else interleaves, fails or crashes |
| Overwrites.ApprovalOverwritesRejection | internal/core/services/incident_service.go:264-279 | from any run that leaves an incident waiting, an approval that read it goes on to replace the failed of a rejection by executing |
| Overwrites.AlertOverwritesResolved | internal/core/services/incident_service.go:195-252 | with a single approval: the alert parks, the approval resolves, the request for approval is not delivered, and the alert replaces resolved by failed |
| Races.TwoApprovalsCanBothExecute | internal/core/services/incident_service.go:264-286 | without serialising, any run that leaves an incident waiting can go on to execute it twice: the read and the write of an approval are two steps |
| Soundness.SoundSince | internal/core/services/incident_service.go:288-321 | in every run, as long as nobody else changes the cluster after an executor entry, the cluster is exactly the fold of the steps its call has made since, and the checks the call has made passed in it |
| Soundness.SettledWhenUndisturbed | internal/core/services/incident_service.go:288-321 | in every run a call that persists resolved entered the executor before; if nobody else changes the cluster between that entry and the save, the cluster is the fold of all the steps over the one entered with and every step is settled in it |
| Soundness.SoundAlways | internal/core/services/incident_service.go:288-321 | in serialised runs without outside changes the last executor entry is the active call's own, and during its execution the cluster is the fold of the steps made so far |
| Soundness.ResolvedMeansSettled | internal/core/services/incident_service.go:293-311 | in serialised runs with a verifier and no outside change, when an incident is persisted as resolved, the last executor entry is this call's own, the cluster is the fold of all its steps over the one that entry began with, and every step is settled in it without exception |
| Soundness.SettledTells | internal/adapters/secondary/k8s/verify.go:44-95 | what settled means in the fields of the objects: the Deployment of a restart, rollback or scale step, and the Deployment a patched HPA scales, has no replica unavailable and as many ready as it wants; the HPA has room for its present size; a deleted pod is gone |
| Checks.ResolvedWasChecked | internal/adapters/secondary/k8s/verify.go:28-81 | in every run, interleaved and with any outside changes, an incident is persisted as resolved only after its call had checked every step of the plan, in order and each by its own reads: a step other than a patch passed in the cluster of its one read, a patched HPA in that of its first read and its target in that of its second |
| Checks.VerifiedWhenStill | internal/adapters/secondary/k8s/verify.go:21-42 | if the cluster does not change from the first of these reads on, the plan as a whole verifies in it |
| Scenarios.AlertWaits | internal/core/services/incident_service.go:169-252 | an alert no runbook matches comes to wait with whatever steps the model proposed, as a complete play of its port calls |
| Scenarios.CrashesAnywhere | internal/core/services/incident_service.go:169-390 | the runs include those in which a call is cut short between any two of its port calls, with what it has written left as it is |
| Recreated.ResolvedThoughNeverVerified | internal/adapters/secondary/k8s/verify.go:28-41 | for every two Deployments of an unprotected namespace a serialised run without a failing port that persists the approved restart of both as resolved although the plan verifies at no moment of the run, whatever reads might fail |
| Recreated.ResolvedWhileLooping | internal/adapters/secondary/k8s/verify.go:67-75 | for every namespace, pod, incident and allowed actor a serialised run without a failing port and with exactly one change from outside, after the approved deletion has succeeded, that persists it as resolved while the pod is back and crash-looping |
| AuditTrail.AcceptsExactlyWords | internal/core/services/incident_service.go:193-354 | the automaton of audit trails accepts exactly the twelve complete trails |
| AuditTrail.TrailsAreWords | internal/core/services/incident_service.go:193-354 | between calls every incident's trail is complete, its persisted status is the function of that trail, and no incident is left investigating or executing |
| AuditTrail.ReturnedIsStored | internal/core/services/incident_service.go:169-390 | a completed call that hands back an incident hands back the stored one |
| AuditTrail.FollowUpChangesNothing | internal/core/services/incident_service.go:357-390 | a follow-up changes no incident and no cluster object, in any run; it only adds its own audit record |
| Plays.PlaySteps | internal/core/services/incident_service.go:22-35 | the remediator calls of succeeding steps move the thread on and fold the cluster |
| Plays.PlayFailingStep | internal/core/services/incident_service.go:28-31 | one more call, for a step that fails, leaves the thread failing and the cluster after that step |
| Plays.PlayChecks | internal/adapters/secondary/k8s/verify.go:28-41 | the reads of checks that pass move the thread on, step by step, and leave the world alone |
| Plays.PlayFailingCheck | internal/adapters/secondary/k8s/verify.go:38-40 | the reads up to the first check that does not pass leave the thread failing |
| Plays.PlayIsRun | internal/core/services/incident_service.go:169-390 | a complete play of a call, begun when no other call is active, continues a serialised run |
| Storytelling.EveryCallTellsItsStory | internal/core/services/incident_service.go:169-390 | in every run, interleaved and with any failing ports, crashes and outside changes, the port calls of each completed call are, in their order, exactly those its kind and outcome stand for: what is saved, recorded, asked, executed, checked and announced, which failure ends what, and nothing else |
| Storytelling.PlayTells | internal/core/services/approval_service.go:54-76 | the same of the calls a service method makes |
| Storytelling.FollowUpAskedTheModel | internal/core/services/incident_service.go:368-381 | a follow-up that has succeeded asked the model about its incident, and got a plan, earlier in the run |
| Stories.FollowUpAnswered | internal/core/services/incident_service.go:359-390 | a follow-up that succeeds made one read that found the incident, the search for runbooks, one call of the model with what the search found, one record of its own and, with messaging, one reply, and no other call |
| Dispatching.UnattendedExactly | internal/core/services/incident_service.go:210-241 | with an unchanging runbook set the port calls of an alert lead to unattended execution exactly under the closed-form rule of Policy.AutoRuleExact, and to a human otherwise, with the staged plan in both cases |
| Service.Ports.Create | internal/core/services/incident_service.go:190-192 | a create that succeeds stores the incident under an id not stored before; one that fails stores nothing and ends the call |
| Service.Ports.Load | internal/core/services/incident_service.go:265-274 | a read hands out a fresh record equal to the stored incident, or nothing, and moves the call on by its status |
| Service.Ports.Save | internal/core/services/incident_service.go:275-279 | an update of a known id stores what the call holds, and otherwise the store stays as it was |
| Service.Ports.Audit | internal/core/services/incident_service.go:193-193 | the record is appended to the audit log or lost, nothing else changes, and the call goes on either way |
| Service.Ports.MatchBooks | internal/core/services/incident_service.go:211-214 | the answer of the repository of runbooks is recorded with the labels asked for, and moves the call on |
| Service.Ports.ListBooks | internal/core/services/incident_service.go:412-416 | the whole list, or an error, becomes the context or ends the call |
| Service.Ports.Investigate | internal/core/services/incident_service.go:220-228 | the model is asked about this incident with this context, and its plan, or its failure, moves the call on |
| Service.Ports.Notify | internal/core/services/incident_service.go:246-250 | a message may be lost; only the request for approval minds |
| Service.Ports.Execute | internal/core/services/incident_service.go:288-292 | executing the plan is a play of one remediator call per step up to the first failure |
| Service.Ports.Verify | internal/core/services/incident_service.go:293-305 | the call succeeds exactly when the plan verifies in the present cluster with the faults that occurred; it is the sequence of the verifier's reads, which stops with the first check that does not pass |
| Service.IncidentService.HandleAlert | internal/core/services/incident_service.go:169-208 | the call is a complete play of an alert, and its log is the story of one: persisted, investigated, dispatched, and on error persisted as failed and still handed back |
| Service.IncidentService.FailHandling | internal/core/services/incident_service.go:195-205 | an alert that fails is saved as failed, recorded and reported, in this order |
| Service.IncidentService.InvestigateAndDispatch | internal/core/services/incident_service.go:210-252 | matching, context, model, override and dispatch in this order; the first error ends it |
| Service.IncidentService.Investigate | internal/core/services/incident_service.go:220-239 | the model is asked with the context found; its plan is adopted with the risk of the plan, under the override for alerts no runbook matched |
| Service.IncidentService.Dispatch | internal/core/services/incident_service.go:232-239 | the plan is recorded and then executed unattended exactly if it may be |
| Service.IncidentService.AskForApproval | internal/core/services/incident_service.go:240-251 | the incident is parked as awaiting approval, recorded and announced; a failing save or announcement is an error |
| Service.IncidentService.AutoRemediate | internal/core/services/incident_service.go:254-261 | the incident is persisted as executing before anything is executed |
| Service.IncidentService.ExecuteApprovedPlan | internal/core/services/incident_service.go:264-286 | only an incident read as awaiting approval is claimed, and only a claimed one is executed |
| Service.IncidentService.SettleExecution | internal/core/services/incident_service.go:288-321 | execute, verify if there is a verifier, then resolve; each failure is settled as such |
| Service.IncidentService.Resolve | internal/core/services/incident_service.go:307-320 | resolved is persisted before it is recorded and announced |
| Service.IncidentService.FailExecution | internal/core/services/incident_service.go:323-332 | a failed execution is saved, recorded and announced as failed even if the save fails |
| Service.IncidentService.Reject | internal/core/services/incident_service.go:334-355 | only an incident read as awaiting approval is rejected |
| Service.IncidentService.RejectWaiting | internal/core/services/incident_service.go:345-354 | a rejection saves, records and announces, and a failing save ends it |
| Service.IncidentService.FollowUp | internal/core/services/incident_service.go:359-390 | an empty question is refused before anything is read; otherwise the calls made are a read, the search for runbooks, one question to the model about the incident read, the record and the reply, each failure ending them; nothing is saved |
| Service.IncidentService.ContextRunbooks | internal/core/services/incident_service.go:404-417 | the result is what the repository of runbooks answered: the runbooks that match the labels, or the whole list when none do, and the list is asked for only then; the call goes on with them as its context |
| Service.ApprovalService.constructor | internal/core/services/approval_service.go:21-30 | the allow-list holds the trimmed, non-blank names |
| Service.ApprovalService.Approve | internal/core/services/approval_service.go:54-59 | an actor who is not on the list makes no port call and changes nothing; anybody else's approval is a complete play, and its log is the story of one: read as waiting, claimed, recorded, executed and settled |
| Service.ApprovalService.Reject | internal/core/services/approval_service.go:61-69 | the same gate in front of a rejection: read as waiting, saved as failed, recorded and announced |
| Service.ApprovalService.FollowUp | internal/core/services/approval_service.go:71-76 | the same gate in front of a follow-up: read, investigated again, recorded and answered |
| Server.Serve | internal/core/services/approval_service.go:54-76 | any sequence of service calls with fresh alert ids is a serialised run from the empty repository to the present one, and so no incident is executed twice, all writes are within the guards and protected namespaces are untouched |
| Server.ServedSafely | internal/core/services/incident_service.go:169-390 | what the theorems about runs say of the repository and the cluster after such a sequence |
| Policy.ParseActionPlan | internal/adapters/secondary/llm/langchain/client.go:215-223 | a risk that is a word for an automatic one becomes that, and every other becomes approval; a confidence outside [0, 1] becomes 0; runbook and steps stay |
| Policy.ApplyRunbookPolicy | internal/adapters/secondary/llm/langchain/client.go:226-246 | the loop with its early return leaves the risk automatic exactly when the runbooks permit it |
| Policy.AutoRuleExact | internal/adapters/secondary/llm/langchain/client.go:201-246 | the staged pipeline runs a plan unattended if and only if some runbook matches, the risk is one of the words auto_remediate, auto and low in any letter case, the confidence is in [0.7, 1], the steps are non-empty HPA patches, and the matched runbooks the plan names, or all of them when it names none, permit and do not forbid it; otherwise its risk is approval |
| Policy.OtherWordsNeedApproval | internal/adapters/secondary/llm/langchain/client.go:215-246 | a plan whose risk is high, medium, approval or requires_approval in any letter case, or no known word, never runs unattended, whatever runbooks match or are given |
| Policy.PolicyIgnoresOrder | internal/adapters/secondary/llm/langchain/client.go:226-246 | any permutation of the runbooks gives the same plan |
| Policy.PolicyAlgebra | internal/adapters/secondary/llm/langchain/client.go:226-246 | the policy is idempotent, only ever restricts, and leaves the risk automatic exactly for plans that may run unattended |
| Domain.Wrap32 | internal/core/services/incident_service.go:107-123 | a converted number is the signed 32-bit number congruent to it |
| Domain.NumberArgExactly | internal/core/services/incident_service.go:107-123 | the number a step is given, for every dynamic type of its argument: a float lies between it and less than one away, a wide integer agrees with it in its low 32 bits, anything else counts as zero |
| Domain.NumbersArePassedOn | internal/core/services/incident_service.go:107-123 | an int32 decoded as a float, an integer or a JSON number is passed on as it is |
| Domain.TextArgExactly | internal/core/services/incident_service.go:102-105 | the text a step is given is its string argument, and empty when there is none |
| Spelling.RiskWordsExactly | internal/core/domain/runbook.go:13-23 | the seven documented words and no others have a risk level, each its own, in any letter case and with any white space around |
| Spelling.MatchesExactly | internal/core/domain/runbook.go:36-50 | a runbook matches if it has labels and the alert has each of them, with the same value under case folding or, for an empty value, with any |
| Domain.Matching | internal/core/domain/runbook.go:36-50 | exactly the runbooks all of whose labels match, compared without case, an empty value matching any |
| Domain.MatchingOneMore | internal/adapters/secondary/fs/runbooks/local_repo.go:68-80 | one more runbook joins the end of the result exactly if it matches |
| Cluster.CollectNames | internal/adapters/secondary/k8s/client.go:33-42 | the trimmed, non-blank names of a configuration list |
| Cluster.CollectsEntries | internal/adapters/secondary/k8s/client.go:33-42 | an entry without the white space around it is collected if anything is left of it |
| Cluster.CollectsOnlyEntries | internal/adapters/secondary/k8s/client.go:33-42 | and nothing else is |
| Cluster.RemediatorClient.constructor | internal/adapters/secondary/k8s/client.go:256-261 | a cap that is not positive becomes 30, so that every cap is positive |
| Cluster.RemediatorClient.PatchHPAMaxReplicas | internal/adapters/secondary/k8s/client.go:263-282 | succeeds exactly for an existing HPA outside protected namespaces with a maximum in 1..cap, and then sets this maximum and nothing else; which refusal comes first otherwise |
| Cluster.RemediatorClient.ScaleDeployment | internal/adapters/secondary/k8s/remediator.go:72-89 | the same for the replicas of a Deployment |
| Cluster.RemediatorClient.RestartRollout | internal/adapters/secondary/k8s/remediator.go:18-29 | stamps the template of the named Deployment with the time of the call, keeps its spec, and changes nothing else |
| Cluster.RemediatorClient.RollbackDeployment | internal/adapters/secondary/k8s/remediator.go:31-70 | installs the template of the second newest owned ReplicaSet and changes nothing else, and refuses when there are fewer than two; which one that is, Effects.RollbackInstalls says |
| Cluster.RemediatorClient.DeleteCrashLoopPod | internal/adapters/secondary/k8s/remediator.go:91-107 | deletes the named pod, and nothing else, exactly if one of its containers waits in CrashLoopBackOff, or has ended, was restarted and is not ready |
| Cluster.AwsClient.UpdateASGDesiredCapacity | internal/adapters/secondary/aws/client.go:112-128 | writes a capacity in 0..30 and then reads it back, so that it may report an error after its write |
| Cluster.StepIsSafe | internal/core/services/incident_service.go:37-85 | for every argument map a step makes at most one write, within the guards and to the object it names; only an ASG step may both write and fail |
| Cluster.StepFrame | internal/core/services/incident_service.go:37-85 | a step leaves every other object, and every other kind of object, as it was |
| Cluster.CrashLoopExactly | internal/adapters/secondary/k8s/remediator.go:118-128 | a pod crash-loops if one of its containers waits in CrashLoopBackOff, or has ended, was restarted and is not ready |
| Cluster.DenotesExactly | internal/core/services/incident_service.go:38-41 | the object a step names has its two text arguments as namespace and name |
| Effects.PatchEffect | internal/adapters/secondary/k8s/client.go:263-282 | a patch step succeeds exactly for an existing HPA of an open namespace and a number in 1..cap, and then the HPA has this maximum and nothing else has changed |
| Effects.ScaleEffect | internal/adapters/secondary/k8s/remediator.go:72-89 | the same for the replicas of a Deployment |
| Effects.RestartEffect | internal/adapters/secondary/k8s/remediator.go:18-29 | a restart keeps the spec of the template and sets its restart time, and changes nothing else |
| Effects.RollbackInstalls | internal/adapters/secondary/k8s/remediator.go:31-70 | with proper revisions a rollback that succeeds installs the template of an owned ReplicaSet that exactly one other owned one is newer than, and keeps the uid, the replicas and the counts of the Deployment and every other object |
| Effects.OwnsExactly | internal/adapters/secondary/k8s/remediator.go:109-116 | a ReplicaSet is owned by a Deployment if one of its owner references has the kind Deployment and its name and uid |
| Effects.DeleteEffect | internal/adapters/secondary/k8s/remediator.go:91-107 | a deletion succeeds exactly for a pod of an open namespace with a looping container, and then this pod is gone and nothing else has changed |
| Effects.AsgEffect | internal/adapters/secondary/aws/client.go:112-128 | a capacity in 0..30 is written to an existing group, even if reading it back then fails the step |
| Effects.UnknownEffect | internal/core/services/incident_service.go:82-84 | a step of an unknown tool is refused and does nothing |
| Cluster.SafeWritesAreSafe | internal/adapters/secondary/k8s/client.go:44-49 | any sequence of writes within the guards leaves protected namespaces alone and every size within its cap |
| Executor.PlanExecutor.RunStep | internal/core/services/incident_service.go:37-85 | the client chosen for a tool does to the cluster, and reports, exactly what the step stands for, as Effects says field by field; an unknown tool or a missing client is refused |
| Executor.PlanExecutor.Execute | internal/core/services/incident_service.go:22-35 | the steps run in order up to the first failure; the cluster is their fold and the output has one line per finished step |
| Executor.SuccessWrites | internal/core/services/incident_service.go:22-35 | succeeding steps made exactly one write each, in order, and the cluster is those writes replayed |
| Executor.FailFastPrefix | internal/core/services/incident_service.go:27-31 | a failing run wrote what the steps before the failure wrote and at most the failing step's own ASG write |
| Executor.LastPatchWins | internal/core/services/incident_service.go:27-35 | after a successful run each patched HPA has as its maximum the number its last patch step was given |
| Executor.LastScaleWins | internal/core/services/incident_service.go:27-35 | each scaled Deployment wants the number of replicas its last scale step was given |
| Executor.LastGroupWins | internal/core/services/incident_service.go:27-35 | each auto scaling group has the capacity its last step was given |
| Executor.LastRolloutWins | internal/core/services/incident_service.go:27-35 | the template of each Deployment is the one its last restart or rollback left; after a restart the spec is the one before it and the restart time that of the step |
| Executor.DeletedStaysDeleted | internal/core/services/incident_service.go:27-35 | after a successful run every pod a step deleted is gone, whatever steps came after |
| Verifier.HealthVerifier.WorkloadIsReady | internal/adapters/secondary/k8s/verify.go:83-95 | true exactly for a readable Deployment with no replica unavailable and, if any are wanted, as many ready |
| Verifier.HealthVerifier.CheckStep | internal/adapters/secondary/k8s/verify.go:44-81 | decides the check of a step as performed with these reads failing |
| Verifier.HealthVerifier.Verify | internal/adapters/secondary/k8s/verify.go:21-42 | true exactly when every step passes; otherwise it stops at the first step that does not |
| Verifier.PassesAtOnce | internal/adapters/secondary/k8s/verify.go:44-81 | a check read in two parts agrees with the check as a statement about one cluster whenever the cluster is the same for both reads |
| Verifier.TargetExactly | internal/adapters/secondary/k8s/verify.go:54-57 | an HPA that scales a Deployment, in any letter case of the kind, is checked against that Deployment, and one that scales anything else or nothing against a Deployment of its own name |
| Verifier.LooksAt | internal/adapters/secondary/k8s/verify.go:44-81 | which Deployment the check of each tool looks at, if any |
| Verifier.CheckExactly | internal/adapters/secondary/k8s/verify.go:44-95 | a check that looks at a Deployment passes exactly if the reads work, a patched HPA is there and within its maximum, and the Deployment is there with no replica unavailable and none of those wanted missing |
| Verifier.SightExactly | internal/adapters/secondary/k8s/verify.go:45-66 | a patched HPA in order sends the check on to its Deployment; every other check is decided by its first read |
| Verifier.UncheckedTools | internal/adapters/secondary/k8s/verify.go:76-80 | an auto scaling group always passes and an unknown tool never |
| Verifier.UnreadyIsNeverVerified | internal/adapters/secondary/k8s/verify.go:83-95 | no plan that looks at a missing Deployment, one with a replica unavailable, or one with fewer ready than it wants, verifies, whichever reads fail |
| Verifier.VerdictIsAboutObjects | internal/adapters/secondary/k8s/verify.go:21-95 | a plan verifies if and only if all its tools are known, the reads it needs work, every HPA it patches is present and within its maximum, every Deployment it looks at is present with no replica unavailable and none of those wanted missing, and no deleted pod that can be read shows a crash loop: the verdict depends on the objects named, not on the order or number of the steps |
| Verifier.PodCheckExactly | internal/adapters/secondary/k8s/verify.go:67-75 | the check of a deleted pod rejects if and only if the pod is there, can be read, and the last of its Ready conditions that is not true has the reason CrashLoopBackOff |
| Verifier.CrashLoopIsNotShown | internal/adapters/secondary/k8s/remediator.go:118-128 | neither of the two tests for a crash loop implies the other: a pod whose container waits in CrashLoopBackOff and whose Ready condition says ContainersNotReady may be deleted and passes the check, and a pod may fail the check that could not be deleted |
| Verifier.ResolvedIsSound | internal/adapters/secondary/k8s/verify.go:21-95 | after a successful execution each step whose check passes is settled, whichever reads failed: no replica of a Deployment looked at unavailable and as many ready as wanted, HPAs within their maximum, each maximum, size and capacity the last one asked for, and every deleted pod gone |
| Sorting.InsertInPlace | internal/adapters/secondary/k8s/client.go:235-247 | one insertion by swaps moves an element left past exactly those it beats |
| Sorting.SliceStable | internal/adapters/secondary/k8s/client.go:235-247 | the in-place stable sort rearranges the slice, and gives the stable insertion sort of it whenever the comparator is consistent or one block of 20 holds the slice |
| Sorting.SortPermutes | internal/adapters/secondary/k8s/client.go:235-247 | sorting loses and invents nothing |
| Sorting.SortSorts | internal/adapters/secondary/k8s/client.go:235-247 | under a consistent comparator no later element beats an earlier one |
| Sorting.SortStable | internal/adapters/secondary/k8s/client.go:235-247 | elements that tie keep their order |
| Sorting.StableUnique | internal/adapters/secondary/k8s/client.go:235-247 | under a consistent comparator there is only one sorted arrangement that keeps ties in order, so every stable sorting algorithm gives it |
| Sorting.SortedUnique | internal/adapters/secondary/k8s/remediator.go:54-60 | without ties there is only one sorted arrangement, whatever the library does |
| Sorting.AnySortExactly | internal/adapters/secondary/k8s/remediator.go:61-61 | the results the library may give are exactly the sorted rearrangements |
| ReplicaSets.ListReplicaSets | internal/adapters/secondary/k8s/client.go:181-198 | of the first fifty ReplicaSets at most ten views, drawn from those shown for the Deployment; they are the listing whenever the comparator orders these views or there are at most 20 of them |
| ReplicaSets.ShownExactly | internal/adapters/secondary/k8s/client.go:200-210 | a ReplicaSet is shown if one of its owner references has the kind Deployment and its name and is not marked as no controller |
| ReplicaSets.ShownOneMore | internal/adapters/secondary/k8s/client.go:186-192 | one more ReplicaSet that is shown adds a view with its name, revision and creation time |
| ReplicaSets.BeforeExactly | internal/adapters/secondary/k8s/client.go:235-247 | the greater number goes first; unless both are numbers, the later creation time and then the greater name |
| ReplicaSets.ListingIsTopTen | internal/adapters/secondary/k8s/client.go:181-247 | the listing is the first ten of a stable sorted rearrangement, and nothing cut off comes before anything kept |
| ReplicaSets.OrdersExactly | internal/adapters/secondary/k8s/client.go:235-247 | the comparator is a strict weak order whatever the names and creation times if and only if all revisions are numbers or at most one of them is |
| ReplicaSets.MixedRevisionsCycle | internal/adapters/secondary/k8s/client.go:235-247 | three views with mixed revisions that no arrangement sorts |
| ReplicaSets.OnlyOneGreater | internal/adapters/secondary/k8s/remediator.go:54-63 | with proper revisions the second of the sorted list is the one ReplicaSet with exactly one greater revision |
| ReplicaSets.OrderIsForced | internal/adapters/secondary/k8s/remediator.go:54-60 | with proper revisions every order the library may choose is the same |
| ReplicaSets.RollbackAgreesWithHistory | internal/adapters/secondary/k8s/remediator.go:43-63 | a rollback goes back to the ReplicaSet the rollout history shows second |
| ReplicaSets.RollbackIgnoresApiOrder | internal/adapters/secondary/k8s/remediator.go:43-63 | the order in which the API lists the ReplicaSets does not matter |
| FrontMatter.Draft.ParseFrontMatterLine | internal/adapters/secondary/fs/runbooks/local_repo.go:136-159 | one line sets the one field it names, or nothing |
| FrontMatter.LoadFile | internal/adapters/secondary/fs/runbooks/local_repo.go:82-134 | the scanner with its two flags reads exactly the runbook the lines denote, and fails exactly for a line of at least 1024 * 1024 UTF-8 bytes |
| FrontMatter.Match | internal/adapters/secondary/fs/runbooks/local_repo.go:68-80 | the runbooks that match, in directory order |
| FrontMatter.OneMoreLine | internal/adapters/secondary/fs/runbooks/local_repo.go:103-122 | what one more line does: it opens, closes, joins the front matter or joins the body |
| FrontMatter.RuleExactly | internal/adapters/secondary/fs/runbooks/local_repo.go:105-111 | a delimiter is three hyphens with nothing but white space around them |
| FrontMatter.CarriageReturns | internal/adapters/secondary/fs/runbooks/local_repo.go:103-104 | a carriage return before the line feed is dropped, and any other line is read as it is |
| FrontMatter.LastLine | internal/adapters/secondary/fs/runbooks/local_repo.go:103-104 | a last line without a line feed is read too |
| FrontMatter.FieldParts | internal/adapters/secondary/fs/runbooks/local_repo.go:136-146 | a key and a value are found between white space and inside quotes |
| FrontMatter.SaysNothing | internal/adapters/secondary/fs/runbooks/local_repo.go:137-144 | blank lines, comments and lines without a colon change nothing |
| FrontMatter.KeySets | internal/adapters/secondary/fs/runbooks/local_repo.go:147-158 | which field each key sets, and that it sets no other |
| FrontMatter.Defaults | internal/adapters/secondary/fs/runbooks/local_repo.go:125-132 | a runbook without an id is named after its file, and one without a title is titled by its id |
| FrontMatter.Partition | internal/adapters/secondary/fs/runbooks/local_repo.go:98-122 | every line goes, in order, to exactly one of at most two delimiters, the front matter and the body |
| FrontMatter.FrontRisk | internal/adapters/secondary/fs/runbooks/local_repo.go:151-155 | the risk after the front matter is the one set by its last risk line with a known word |
| FrontMatter.SafeDefault | internal/adapters/secondary/fs/runbooks/local_repo.go:89-158 | a loaded runbook is automatic if and only if the last risk line with a known word has one of auto_remediate, auto and low, in any letter case, under either of the two keys |
| FrontMatter.LastWordDecides | internal/adapters/secondary/fs/runbooks/local_repo.go:152-155 | a runbook whose last risk line says requires_approval, approval, high or medium, in any letter case, is never automatic |
| FrontMatter.RoundTrip | internal/adapters/secondary/fs/runbooks/local_repo.go:98-159 | a runbook written in the documented format is read back as it was |
| Text.TrimAround | internal/adapters/secondary/fs/runbooks/local_repo.go:137-146 | trimming removes exactly what surrounds a core with clean ends |
| Text.CutAt | internal/adapters/secondary/fs/runbooks/local_repo.go:141-141 | cutting splits at the first separator |
| Text.CutNowhere | internal/adapters/secondary/fs/runbooks/local_repo.go:141-144 | a text without the separator is not cut |
| Text.BytesOneMore | internal/adapters/secondary/fs/runbooks/local_repo.go:96-96 | how many bytes each character takes |
| Text.LessExactly | internal/adapters/secondary/k8s/client.go:242-245 | a text comes before another if it is a proper prefix of it or has the smaller character where they first differ |
| Text.AtoiReadsDecimals | internal/adapters/secondary/k8s/remediator.go:53-55 | a decimal number is read back, with leading zeros and either sign; one that does not fit in 64 bits is an error with the nearest value that does |
| Text.AtoiRefuses | internal/adapters/secondary/k8s/client.go:237-239 | anything else is an error with the value zero |
| Text.LessIsStrictTotal | internal/adapters/secondary/k8s/client.go:242-245 | comparing strings is a strict total order |
| ToolLoop.Client.constructor | internal/adapters/secondary/llm/langchain/client.go:39-64 | exactly the tools of bound investigators are offered, and the executors get no remediator |
| ToolLoop.K8sExecutor.Call | internal/adapters/secondary/llm/langchain/tools/k8s_tools.go:104-148 | which port a tool name reaches, once its arguments decode, with or without a remediator |
| ToolLoop.AwsExecutor.Call | internal/adapters/secondary/llm/langchain/tools/aws_tools.go:55-84 | the same for the AWS tools |
| ToolLoop.ChangeExecutor.Call | internal/adapters/secondary/llm/langchain/tools/change_tools.go:47-70 | the same for the change tools |
| ToolLoop.Client.Dispatch | internal/adapters/secondary/llm/langchain/client.go:171-188 | a tool call reaches exactly the bound investigator its name stands for, or no port at all |
| ToolLoop.UseOfExactly | internal/adapters/secondary/llm/langchain/client.go:171-188 | which port each of the tool names reaches, with which arguments, and that no other name reaches any |
| ToolLoop.ToolCallParts | internal/adapters/secondary/llm/langchain/client.go:190-199 | the text if there is any, then the calls in order |
| ToolLoop.Client.Respond | internal/adapters/secondary/llm/langchain/client.go:144-161 | the response carries the call's id and name, and its content is the sanitized text of the result, or of the error, between telemetry delimiters of the fitting kind |
| ToolLoop.Client.Turn | internal/adapters/secondary/llm/langchain/client.go:139-162 | a turn appends the assistant's message and one response per call, and keeps the transcript answered |
| ToolLoop.TurnKeepsAnswered | internal/adapters/secondary/llm/langchain/client.go:139-162 | after a turn, too, each assistant message with calls is followed directly by exactly its responses, in order, and there are no others |
| ToolLoop.TurnTells | internal/adapters/secondary/llm/langchain/client.go:139-162 | a turn message by message: what the model said, its text before its calls, and one response per call with its id and its name |
| ToolLoop.Client.Converse | internal/adapters/secondary/llm/langchain/client.go:123-163 | at most eight model calls, the first sent the prompt and each sent an answered transcript that extends the one before; every one but the last asked for tools, and it stops early only on an answer that asks for none or a failure |
| ToolLoop.UsesOnlyInvestigate | internal/adapters/secondary/llm/langchain/client.go:171-188 | for any tool calls at all no remediator port is among the ports used |
| ToolLoop.Client.Investigate | internal/adapters/secondary/llm/langchain/client.go:94-169 | the plan is the one in the model's last text, normalised and under the runbooks |
| ToolLoop.FindsTheObject | internal/adapters/secondary/llm/langchain/client.go:202-210 | a JSON object is found in any prose with no opening brace before it and no closing brace after it |
| ToolLoop.NoObject | internal/adapters/secondary/llm/langchain/client.go:206-210 | a text without both braces is decoded as it is, trimmed |
| Repository.CloneLabels | internal/testkit/fakes.go:96-101 | the copied labels are new and equal |
| Repository.CloneSteps | internal/testkit/fakes.go:104-113 | the copied steps share neither the array nor an argument map with the original |
| Repository.CloneIncident | internal/testkit/fakes.go:94-117 | every object reachable from the copy is new, and its value is that of the original |
| Repository.ValueTells | internal/testkit/fakes.go:94-117 | which fields and reachable maps make up the value of an incident |
| Repository.CellsReach | internal/testkit/fakes.go:94-117 | every object an incident leads to counts among its objects |
| Repository.MemoryRepo.Create | internal/testkit/fakes.go:24-32 | stores the incident's value under a new id in objects of its own; a known id is refused |
| Repository.MemoryRepo.Update | internal/testkit/fakes.go:34-42 | replaces the value of a known id; an unknown one is refused |
| Repository.MemoryRepo.Get | internal/testkit/fakes.go:44-52 | hands out new objects that have the stored value, and changes nothing |
| Repository.MemoryRepo.List | internal/testkit/fakes.go:54-72 | distinct incidents the filter selects, as many as there are up to the limit, each in new objects |
| Repository.MemoryRepo.AppendAudit | internal/testkit/fakes.go:74-80 | the audit log grows by the record |
| Repository.MemoryRepo.ListAudit | internal/testkit/fakes.go:82-92 | the records of one incident, in order |
| Repository.RecordsOneMore | internal/testkit/fakes.go:82-92 | one more record joins the list of its own incident at the end |
| Callers.Caller.Edit | internal/testkit/fakes.go:24-117 | an edit in place of any field a caller can reach (id, status, risks, confidence, runbook id, labels, tools, arguments), dropped or shared parts included, does not reach the repository |
| Callers.Caller.Create | internal/testkit/fakes.go:24-32 | an accepted create writes the value the held incident has at that moment, and only under an id not written before |
| Callers.Caller.Update | internal/testkit/fakes.go:34-42 | an accepted update writes the value the held incident has by then |
| Callers.Caller.Get | internal/testkit/fakes.go:44-52 | a read shows the last accepted write |
| Callers.Caller.AppendAudit | internal/testkit/fakes.go:74-80 | a record is added and no incident changes |
| Callers.Caller.ListAudit | internal/testkit/fakes.go:82-92 | a listing shows every record of the incident appended so far, in order |
| Callers.Caller.Run | internal/testkit/fakes.go:24-117 | after any sequence of calls and edits caller and repository share no object, the repository holds exactly the last accepted write of each incident and all the audit records in order, and the audit log only grew |

## Left out

- Interleaved.ExecutionsAreJustified: does not claim at most one execution per incident, which is false of interleaved calls; Races.TwoApprovalsCanBothExecute shows how, and Histories.ExecutedOnceWhenApart proves it when no two approvals of one incident overlap.
- AuditTrail.TrailsAreWords: speaks of runs whose repository does not fail; a lost save or record leaves a trail cut short.
- Sorting.SliceStable: promises only a rearrangement of more than 20 elements under an inconsistent comparator, where the library's merging of blocks decides; ReplicaSets.ListReplicaSets says no more of such views.
- ReplicaSets.RollbackAgreesWithHistory: speaks of at most 50 ReplicaSets in the namespace, because the history reads one page, and of ReplicaSets on which the two ownership checks agree.
- FrontMatter.RoundTrip: speaks of values without quotes or spaces at their ends and keys without a colon, as the format has no escapes.
- Domain.Matching: compares labels without case only for ASCII and the two letters that map into it; other letters are compared as they are, where the source folds all of Unicode.
- The reads a remediator makes before its write: one step with the write. A rollback's update is refused by the API if the Deployment changed in between; that a pod recovers between the read and the deletion, or that ReplicaSets change during a rollback, is not modelled.
- HTTP handlers, Slack messages, the command line, signatures and configuration: input and output only.
- SQL and JSON text: a decoder is an arbitrary function, and the SQLite store is the contract of create, update and read.
- Source, title, summary, severity, raw payload and time stamps of an incident, the details of audit records and the wording of notes: nothing depends on them.
- The change correlator, the prompts and the sanitizer's patterns: they change only the text the model sees; the sanitizer is an arbitrary function.
- Ids drawn from the clock: assumed fresh for each alert.
- What controllers do after a write, and the readiness of pods over time: the cluster changes by the service's writes or by arbitrary outside changes. A deleted pod is gone at once.
- The choice sort.Slice makes among ties: a parameter, held to be some sorted rearrangement.
- What the processor yields for a float outside the 32-bit range: a parameter.
- Strings are sequences of runes; only the scanner's limit counts their bytes.
- The difference between a nil and an empty map, slice or plan text.
- The order in which a map is ranged over: arbitrary.
- A nil incident, a nil verifier behind a non-nil interface and a missing Kubernetes investigator: wiring errors.
