/** The health verifier: a read-only pass over the plan's steps. */
module Verifier {
  import opened Text
  import opened Domain
  import opened Cluster
  import opened Executor
  import opened Spelling

  /** Which of the verifier's reads fail for one step. */
  datatype Reads = Reads(hpaFails: bool, deploymentFails: bool, podFails: bool)

  const CLEAR := Reads(false, false, false)

  function ReadsAt(rs: seq<Reads>, i: nat): Reads {
    if i < |rs| then rs[i] else CLEAR
  }

  function TargetRef(h: HPA): string {
    h.targetKind + "/" + h.targetName
  }

  /** The workload an HPA step is checked against. */
  function Target(h: HPA, name: string): string {
    var p := Cut(TargetRef(h), '/');
    if p.found && p.before != "" && p.after != "" && EqualFold(p.before, "Deployment") then p.after else name
  }

  predicate WorkloadReady(c: State, k: Key) {
    && k in c.deployments
    && var d := c.deployments[k];
       var replicas := match d.replicas case Some(n) => n case None => 0;
       d.unavailable <= 0 && (replicas > 0 ==> d.ready >= replicas)
  }

  /** Fewer replicas are ready than are wanted. */
  predicate Short(d: Deployment) {
    d.replicas.Some? && 0 < d.replicas.value && d.ready < d.replicas.value
  }

  lemma ReadyExactly(c: State, k: Key)
    ensures WorkloadReady(c, k) <==> k in c.deployments && c.deployments[k].unavailable <= 0 && !Short(c.deployments[k])
  {
  }

  /** The pod's reason as shown to the verifier: the last not-ready condition, else deletion. */
  function PodReason(p: Pod): string {
    ReasonFrom(p.conditions, if p.deleting then "Terminating" else "")
  }

  function ReasonFrom(conds: seq<Condition>, reason: string): string {
    if conds == [] then reason
    else ReasonFrom(conds[1..], if conds[0].ty == "Ready" && conds[0].status != "True" then conds[0].reason else reason)
  }

  /** The check of one step, as a statement about the cluster. */
  predicate Holds(c: State, step: ActionStep) {
    var k := Named(step);
    match step.tool
    case PatchHPAMaxReplicas =>
      k in c.hpas && c.hpas[k].current <= c.hpas[k].max && WorkloadReady(c, (k.0, Target(c.hpas[k], k.1)))
    case RestartRollout => WorkloadReady(c, k)
    case RollbackDeployment => WorkloadReady(c, k)
    case ScaleDeployment => WorkloadReady(c, k)
    case DeleteCrashLoopPod => k in c.pods ==> PodReason(c.pods[k]) != "CrashLoopBackOff"
    case UpdateASGDesired => true
    case OtherTool(_) => false
  }

  /** The check as performed, with these reads failing. A pod that cannot be read counts as gone. */
  predicate Passes(c: State, step: ActionStep, r: Reads) {
    var k := Named(step);
    match step.tool
    case PatchHPAMaxReplicas => Holds(c, step) && !r.hpaFails && !r.deploymentFails
    case RestartRollout => Holds(c, step) && !r.deploymentFails
    case RollbackDeployment => Holds(c, step) && !r.deploymentFails
    case ScaleDeployment => Holds(c, step) && !r.deploymentFails
    case DeleteCrashLoopPod => r.podFails || Holds(c, step)
    case UpdateASGDesired => true
    case OtherTool(_) => false
  }

  /** What the first read of a check finds: a patched HPA in order still depends on its target. */
  datatype Sight = Good | Bad | DependsOn(target: Key)

  function Seen(c: State, step: ActionStep, r: Reads): Sight {
    var k := Named(step);
    match step.tool
    case PatchHPAMaxReplicas =>
      if r.hpaFails || k !in c.hpas || c.hpas[k].max < c.hpas[k].current then Bad
      else DependsOn((k.0, Target(c.hpas[k], k.1)))
    case _ => if Passes(c, step, r) then Good else Bad
  }

  /** The check whose first read happens in cluster `c`, and its second, if there is one, in `d`. */
  predicate PassesAcross(c: State, d: State, step: ActionStep, r: Reads) {
    match Seen(c, step, r)
    case Good => true
    case Bad => false
    case DependsOn(target) => !r.deploymentFails && WorkloadReady(d, target)
  }

  /** In a cluster that stands still two reads are as good as one. */
  lemma PassesAtOnce(c: State, step: ActionStep, r: Reads)
    ensures PassesAcross(c, c, step, r) <==> Passes(c, step, r)
  {
    hide WorkloadReady, PodReason, Target, Named;
  }

  ghost predicate Verified(c: State, plan: Option<ActionPlan>, rs: seq<Reads>) {
    && plan.Some? && plan.value.steps != []
    && forall i :: 0 <= i < |plan.value.steps| ==> Passes(c, plan.value.steps[i], ReadsAt(rs, i))
  }

  class HealthVerifier {
    const api: Api

    constructor (api: Api)
      ensures this.api == api
    {
      this.api := api;
    }

    method WorkloadIsReady(k: Key, r: Reads) returns (ok: bool)
      ensures ok <==> !r.deploymentFails && WorkloadReady(api.Value(), k)
      ensures ok <==>
                && !r.deploymentFails && k in api.deployments && api.deployments[k].unavailable <= 0
                && !Short(api.deployments[k])
    {
      if r.deploymentFails || k !in api.deployments {
        return false;
      }
      var d := api.deployments[k];
      var replicas := match d.replicas case Some(n) => n case None => 0;
      if d.unavailable > 0 {
        return false;
      }
      if replicas > 0 && d.ready < replicas {
        return false;
      }
      return true;
    }

    method CheckStep(step: ActionStep, r: Reads) returns (ok: bool)
      ensures ok <==> Passes(api.Value(), step, r)
    {
      hide PodReason, ArgString, Target;
      var k := (ArgString(step.args, "namespace"), ArgString(step.args, "name"));
      match step.tool {
        case PatchHPAMaxReplicas =>
          if r.hpaFails || k !in api.hpas {
            return false;
          }
          var h := api.hpas[k];
          if h.max < h.current {
            return false;
          }
          ok := WorkloadIsReady((k.0, Target(h, k.1)), r);
        case DeleteCrashLoopPod =>
          if r.podFails || k !in api.pods {
            return true;
          }
          ok := PodReason(api.pods[k]) != "CrashLoopBackOff";
        case UpdateASGDesired =>
          ok := true;
        case OtherTool(_) =>
          ok := false;
        case _ =>
          ok := WorkloadIsReady(k, r);
      }
    }

    /** Checks the steps in order up to the first that does not pass; `notes` counts them. */
    method Verify(plan: Option<ActionPlan>, rs: seq<Reads>) returns (ok: bool, notes: nat)
      ensures ok <==> Verified(api.Value(), plan, rs)
      ensures ok ==> notes == |plan.value.steps|
      ensures !ok && plan.Some? && plan.value.steps != [] ==>
                && 0 < notes <= |plan.value.steps|
                && !Passes(api.Value(), plan.value.steps[notes - 1], ReadsAt(rs, notes - 1))
                && forall i :: 0 <= i < notes - 1 ==> Passes(api.Value(), plan.value.steps[i], ReadsAt(rs, i))
    {
      hide Passes;
      if plan.None? || plan.value.steps == [] {
        return false, 0;
      }
      var steps := plan.value.steps;
      for i := 0 to |steps|
        invariant forall j :: 0 <= j < i ==> Passes(api.Value(), steps[j], ReadsAt(rs, j))
      {
        var good := CheckStep(steps[i], ReadsAt(rs, i));
        if !good {
          return false, i + 1;
        }
      }
      return true, |steps|;
    }
  }

  // ----- What a verdict means -----

  /** The Deployments a plan's checks look at. */
  ghost function Workloads(c: State, plan: ActionPlan): set<Key> {
    set i | 0 <= i < |plan.steps| && Workload(c, plan.steps[i]).Some? :: Workload(c, plan.steps[i]).value
  }

  function Workload(c: State, step: ActionStep): Option<Key> {
    var k := Named(step);
    match step.tool
    case PatchHPAMaxReplicas => Some((k.0, if k in c.hpas then Target(c.hpas[k], k.1) else k.1))
    case RestartRollout => Some(k)
    case RollbackDeployment => Some(k)
    case ScaleDeployment => Some(k)
    case _ => None
  }

  /** The objects of one kind of step. */
  function NamedBy(steps: seq<ActionStep>, tool: Tool): set<Key> {
    set i | 0 <= i < |steps| && steps[i].tool == tool :: Named(steps[i])
  }

  /** The deleted pods whose reads work. */
  function ReadPods(steps: seq<ActionStep>, rs: seq<Reads>): set<Key> {
    set i | 0 <= i < |steps| && steps[i].tool.DeleteCrashLoopPod? && !ReadsAt(rs, i).podFails :: Named(steps[i])
  }

  /** No step's check fails for want of a read. A pod that cannot be read counts as gone. */
  predicate Readable(c: State, steps: seq<ActionStep>, rs: seq<Reads>) {
    forall i :: 0 <= i < |steps| ==>
      && (ReadsAt(rs, i).hpaFails ==> !steps[i].tool.PatchHPAMaxReplicas?)
      && (ReadsAt(rs, i).deploymentFails ==> Workload(c, steps[i]).None?)
  }

  /** A verdict is about the objects a plan names, however often and in whatever order: known
      tools, working reads, every patched HPA present and within its maximum, every Deployment
      looked at ready, and no deleted pod that can be read showing a crash loop. */
  lemma VerdictIsAboutObjects(c: State, plan: ActionPlan, rs: seq<Reads>)
    ensures Verified(c, Some(plan), rs) <==>
            && plan.steps != []
            && (forall i :: 0 <= i < |plan.steps| ==> !plan.steps[i].tool.OtherTool?)
            && Readable(c, plan.steps, rs)
            && (forall k :: k in NamedBy(plan.steps, PatchHPAMaxReplicas) ==>
                  k in c.hpas && c.hpas[k].current <= c.hpas[k].max)
            && (forall k :: k in Workloads(c, plan) ==>
                  k in c.deployments && c.deployments[k].unavailable <= 0 && !Short(c.deployments[k]))
            && (forall k :: k in ReadPods(plan.steps, rs) && k in c.pods ==> !ShowsCrashLoop(c.pods[k]))
  {
    hide WorkloadReady, PodReason, Target, Named, ReadsAt, ShowsCrashLoop, Short;
    var steps := plan.steps;
    forall k ensures WorkloadReady(c, k) <==>
                       k in c.deployments && c.deployments[k].unavailable <= 0 && !Short(c.deployments[k])
    {
      ReadyExactly(c, k);
    }
    forall i | 0 <= i < |steps| && steps[i].tool.DeleteCrashLoopPod?
      ensures Passes(c, steps[i], ReadsAt(rs, i)) <==>
              (ReadsAt(rs, i).podFails || Named(steps[i]) !in c.pods || !ShowsCrashLoop(c.pods[Named(steps[i])]))
    {
      PodCheckExactly(c, steps[i], ReadsAt(rs, i));
    }
    if steps != [] && !Verified(c, Some(plan), rs) {
      var i :| 0 <= i < |steps| && !Passes(c, steps[i], ReadsAt(rs, i));
      var step := steps[i];
      assert Workload(c, step).Some? ==> Workload(c, step).value in Workloads(c, plan);
      assert Named(step) in NamedBy(steps, step.tool);
      assert step.tool.DeleteCrashLoopPod? && !ReadsAt(rs, i).podFails ==> Named(step) in ReadPods(steps, rs);
    }
  }

  // ----- What a check looks at -----

  /** An HPA that scales a Deployment is checked against that Deployment, whatever the letter case
      of the kind, and any other against a Deployment of its own name. */
  lemma TargetExactly(h: HPA, name: string)
    ensures Cased(h.targetKind, "deployment") && h.targetName != "" ==> Target(h, name) == h.targetName
    ensures '/' !in h.targetKind && !(Cased(h.targetKind, "deployment") && h.targetName != "") ==>
              Target(h, name) == name
  {
    hide EqualFold, Cased, Cut;
    FoldsToDeployment(h.targetKind);
    if '/' !in h.targetKind {
      CutAt(h.targetKind, '/', h.targetName);
    }
  }

  lemma FoldsToDeployment(kind: string)
    ensures EqualFold(kind, "Deployment") <==> Cased(kind, "deployment")
    ensures Cased(kind, "deployment") ==> kind != "" && '/' !in kind
  {
    if |kind| == 10 {
      forall k | 0 <= k < 10
        ensures FoldChar(kind[k]) == FoldChar("Deployment"[k]) <==> CaseOf(kind[k], "deployment"[k])
        ensures CaseOf(kind[k], "deployment"[k]) ==> kind[k] != '/'
      {
        FoldIsCase(kind[k], "Deployment"[k], "deployment"[k]);
      }
    }
  }

  lemma FoldIsCase(c: char, upper: char, lower: char)
    requires 'a' <= lower <= 'z' && lower != 'k' && lower != 's' && lower != 'i'
    requires upper == lower || upper as int == lower as int - 32
    ensures FoldChar(c) == FoldChar(upper) <==> CaseOf(c, lower)
  {
  }

  /** The Deployment the check of a step looks at. */
  lemma LooksAt(c: State, step: ActionStep, ns: string, name: string)
    requires Denotes(step, ns, name)
    ensures Rolls(step.tool) || step.tool.ScaleDeployment? ==> Workload(c, step) == Some((ns, name))
    ensures step.tool.PatchHPAMaxReplicas? && (ns, name) in c.hpas ==>
              var h := c.hpas[(ns, name)];
              if Cased(h.targetKind, "deployment") && h.targetName != ""
              then Workload(c, step) == Some((ns, h.targetName))
              else '/' !in h.targetKind ==> Workload(c, step) == Some((ns, name))
    ensures step.tool.DeleteCrashLoopPod? || step.tool.UpdateASGDesired? || step.tool.OtherTool? ==>
              Workload(c, step).None?
  {
    hide Denotes, Named, Target, Cased;
    DenotesExactly(step, ns, name);
    if (ns, name) in c.hpas {
      TargetExactly(c.hpas[(ns, name)], name);
    }
  }

  /** A check that looks at a Deployment passes exactly if the reads work, a patched HPA is there
      and within its maximum, and the Deployment is there with no replica unavailable and none of
      those wanted missing. */
  lemma CheckExactly(c: State, step: ActionStep, r: Reads, w: Key)
    requires Workload(c, step) == Some(w)
    ensures Passes(c, step, r) <==>
            && !r.deploymentFails
            && (step.tool.PatchHPAMaxReplicas? ==>
                  !r.hpaFails && Named(step) in c.hpas && c.hpas[Named(step)].current <= c.hpas[Named(step)].max)
            && w in c.deployments
            && c.deployments[w].unavailable <= 0
            && (c.deployments[w].replicas.Some? && 0 < c.deployments[w].replicas.value ==>
                  c.deployments[w].ready >= c.deployments[w].replicas.value)
  {
    hide Named, Target;
  }

  /** A patched HPA that is in order sends the check on to its Deployment, and one that is not fails
      it; every other check is over after one look. */
  lemma SightExactly(c: State, step: ActionStep, r: Reads)
    ensures step.tool.PatchHPAMaxReplicas? ==>
              && Workload(c, step).Some?
              && Seen(c, step, r) ==
                 if !r.hpaFails && Named(step) in c.hpas && c.hpas[Named(step)].current <= c.hpas[Named(step)].max
                 then DependsOn(Workload(c, step).value) else Bad
    ensures !step.tool.PatchHPAMaxReplicas? ==> Seen(c, step, r) == if Passes(c, step, r) then Good else Bad
  {
    hide Named, Target, PodReason, WorkloadReady;
  }

  /** The checks that look at no Deployment: an auto scaling group is not checked, and a step of an
      unknown tool never passes. */
  lemma UncheckedTools(c: State, step: ActionStep, r: Reads)
    ensures step.tool.UpdateASGDesired? ==> Passes(c, step, r)
    ensures step.tool.OtherTool? ==> !Passes(c, step, r)
  {
    hide Named, Target, PodReason, WorkloadReady;
  }

  /** No plan that looks at a Deployment with a replica unavailable, or with fewer ready than it
      wants, is ever verified, whichever reads fail. */
  lemma UnreadyIsNeverVerified(c: State, plan: ActionPlan, rs: seq<Reads>, i: nat, w: Key)
    requires i < |plan.steps| && Workload(c, plan.steps[i]) == Some(w)
    requires || w !in c.deployments || c.deployments[w].unavailable > 0
             || (exists n :: n > 0 && c.deployments[w].replicas == Some(n) && c.deployments[w].ready < n)
    ensures !Verified(c, Some(plan), rs)
  {
    hide Passes, Workload, ReadsAt;
    CheckExactly(c, plan.steps[i], ReadsAt(rs, i), w);
  }

  // ----- What the pod check sees -----

  predicate NotReady(x: Condition) {
    x.ty == "Ready" && x.status != "True"
  }

  /** The last Ready condition that is not true gives CrashLoopBackOff as its reason. */
  ghost predicate ShowsCrashLoop(p: Pod) {
    exists i :: 0 <= i < |p.conditions| && NotReady(p.conditions[i]) && p.conditions[i].reason == "CrashLoopBackOff"
                && forall j :: i < j < |p.conditions| ==> !NotReady(p.conditions[j])
  }

  lemma {:induction false} ReasonIsTheLast(conds: seq<Condition>, reason: string)
    ensures (forall x :: x in conds ==> !NotReady(x)) ==> ReasonFrom(conds, reason) == reason
    ensures forall i :: 0 <= i < |conds| && NotReady(conds[i])
                        && (forall j :: i < j < |conds| ==> !NotReady(conds[j])) ==>
              ReasonFrom(conds, reason) == conds[i].reason
  {
    if conds != [] {
      var rest := conds[1..];
      ReasonIsTheLast(rest, if NotReady(conds[0]) then conds[0].reason else reason);
      forall i | 0 <= i < |conds| && NotReady(conds[i]) && (forall j :: i < j < |conds| ==> !NotReady(conds[j]))
        ensures ReasonFrom(conds, reason) == conds[i].reason
      {
        if i == 0 {
          assert forall x :: x in rest ==> !NotReady(x);
        } else {
          assert rest[i - 1] == conds[i];
        }
      }
    }
  }

  lemma {:induction false} LastNotReady(conds: seq<Condition>) returns (i: int)
    ensures -1 <= i < |conds|
    ensures i >= 0 ==> NotReady(conds[i])
    ensures forall j :: i < j < |conds| ==> !NotReady(conds[j])
  {
    if conds == [] {
      i := -1;
    } else if NotReady(conds[|conds| - 1]) {
      i := |conds| - 1;
    } else {
      i := LastNotReady(conds[..|conds| - 1]);
    }
  }

  /** The check of a deleted pod rejects exactly a pod that is there, can be read, and shows
      the crash loop in its last Ready condition that is not true. */
  lemma PodCheckExactly(c: State, step: ActionStep, r: Reads)
    requires step.tool.DeleteCrashLoopPod?
    ensures !Passes(c, step, r) <==> !r.podFails && Named(step) in c.pods && ShowsCrashLoop(c.pods[Named(step)])
  {
    if Named(step) in c.pods {
      var p := c.pods[Named(step)];
      ReasonIsTheLast(p.conditions, if p.deleting then "Terminating" else "");
      var i := LastNotReady(p.conditions);
      hide Named, ReasonFrom, NotReady;
    }
  }

  /** The test before a deletion looks at containers and the check after it at conditions, and
      neither decides the other: a pod may crash-loop without showing it, and the reverse. */
  lemma CrashLoopIsNotShown()
    ensures IsCrashLoop(LOOPING) && !ShowsCrashLoop(LOOPING)
    ensures exists p: Pod :: !IsCrashLoop(p) && ShowsCrashLoop(p)
  {
    assert LOOPING.containers[0].waiting == Some("CrashLoopBackOff");
    assert |LOOPING.conditions[0].reason| != |"CrashLoopBackOff"|;
    var p := Pod([], false, [Condition("Ready", "False", "CrashLoopBackOff")]);
    assert p.conditions[0].status[0] != "True"[0] && NotReady(p.conditions[0]);
    assert !IsCrashLoop(p) && ShowsCrashLoop(p);
  }

  /** A pod in the usual state of a crash loop: its container waits, and it is not ready for that. */
  const LOOPING := Pod([Container(Some("CrashLoopBackOff"), true, 4, false)], false,
                       [Condition("Ready", "False", "ContainersNotReady")])

  // ----- A verified execution -----

  /** Step `i` of the plan is settled in cluster `d`: its check holds; a patched HPA has room for
      its current size and, after its last patch, the maximum asked for; the Deployment looked at
      has no replica unavailable and as many ready as it wants; a Deployment or a group has, after
      the last step that sizes it, the size asked for; a deleted pod is gone. */
  ghost predicate StepSettled(d: State, plan: ActionPlan, i: nat)
    requires i < |plan.steps|
  {
    var steps, n := plan.steps, |plan.steps|;
    var step, k := steps[i], Named(steps[i]);
    && Holds(d, step) && !step.tool.OtherTool?
    && (step.tool.PatchHPAMaxReplicas? ==>
          && k in d.hpas && d.hpas[k].current <= d.hpas[k].max
          && (LastPatch(steps, n, i) ==> NumberArg(step.args, "max_replicas", d.hpas[k].max)))
    && (Workload(d, step).Some? ==>
          var w := Workload(d, step).value;
          && w in d.deployments && d.deployments[w].unavailable <= 0
          && (d.deployments[w].replicas.Some? && 0 < d.deployments[w].replicas.value ==>
                d.deployments[w].ready >= d.deployments[w].replicas.value))
    && (LastScale(steps, n, i) ==>
          k in d.deployments && d.deployments[k].replicas.Some?
          && NumberArg(step.args, "replicas", d.deployments[k].replicas.value))
    && (LastGroup(steps, n, i) ==> k.1 in d.asgs && NumberArg(step.args, "desired_capacity", d.asgs[k.1]))
    && (step.tool.DeleteCrashLoopPod? ==> k !in d.pods)
  }

  /** What the execution itself guarantees of the object of step `i`. */
  ghost predicate StepDone(d: State, plan: ActionPlan, i: nat)
    requires i < |plan.steps|
  {
    var steps, n := plan.steps, |plan.steps|;
    var step, k := steps[i], Named(steps[i]);
    && (LastPatch(steps, n, i) ==> k in d.hpas && NumberArg(step.args, "max_replicas", d.hpas[k].max))
    && (LastScale(steps, n, i) ==>
          k in d.deployments && d.deployments[k].replicas.Some?
          && NumberArg(step.args, "replicas", d.deployments[k].replicas.value))
    && (LastGroup(steps, n, i) ==> k.1 in d.asgs && NumberArg(step.args, "desired_capacity", d.asgs[k.1]))
    && (step.tool.DeleteCrashLoopPod? ==> k !in d.pods)
  }

  /** The check of a step settles it, given what the execution itself guarantees of its object. */
  lemma CheckSettles(d: State, plan: ActionPlan, i: nat, r: Reads)
    requires i < |plan.steps| && Passes(d, plan.steps[i], r) && StepDone(d, plan, i)
    ensures StepSettled(d, plan, i)
  {
    hide Named, Workload, WorkloadReady, PodReason, Target, LastPatch, LastScale, LastGroup, NumberArg;
    var step := plan.steps[i];
    if Workload(d, step).Some? {
      CheckExactly(d, step, r, Workload(d, step).value);
    }
  }

  lemma ExecutionDoes(x: Wiring, c: State, plan: ActionPlan, env: seq<Weather>, i: nat)
    requires Succeed(x, c, plan.steps, env, |plan.steps|) && i < |plan.steps|
    ensures StepDone(Fold(x, c, plan.steps, env, |plan.steps|), plan, i)
  {
    hide Fold, Named, Succeed, LastPatch, LastScale, LastGroup, NumberArg, ArgInt32, ArgString;
    var steps, n := plan.steps, |plan.steps|;
    var step := steps[i];
    var k := Named(step);
    DenotesExactly(step, k.0, k.1);
    TextArgExactly(step.args, "name", k.1);
    if LastPatch(steps, n, i) {
      NumberArgExactly(step.args, "max_replicas", ArgInt32(step.args, "max_replicas"));
      LastPatchWins(x, c, steps, env, n, i, k.0, k.1, ArgInt32(step.args, "max_replicas"));
    }
    if LastScale(steps, n, i) {
      NumberArgExactly(step.args, "replicas", ArgInt32(step.args, "replicas"));
      LastScaleWins(x, c, steps, env, n, i, k.0, k.1, ArgInt32(step.args, "replicas"));
    }
    if LastGroup(steps, n, i) {
      NumberArgExactly(step.args, "desired_capacity", ArgInt32(step.args, "desired_capacity"));
      LastGroupWins(x, c, steps, env, n, i, k.1, ArgInt32(step.args, "desired_capacity"));
    }
    if step.tool.DeleteCrashLoopPod? {
      DeletedStaysDeleted(x, c, steps, env, n, i);
    }
  }

  /** After a successful execution each step whose check passes in the fold of all the steps is
      settled there, whichever of the verifier's reads failed. */
  lemma ResolvedIsSound(x: Wiring, c: State, plan: ActionPlan, env: seq<Weather>, r: Reads, i: nat)
    requires Succeed(x, c, plan.steps, env, |plan.steps|)
    requires i < |plan.steps| && Passes(Fold(x, c, plan.steps, env, |plan.steps|), plan.steps[i], r)
    ensures StepSettled(Fold(x, c, plan.steps, env, |plan.steps|), plan, i)
  {
    hide Fold, Named, Passes, Succeed, StepDone, StepSettled;
    ExecutionDoes(x, c, plan, env, i);
    CheckSettles(Fold(x, c, plan.steps, env, |plan.steps|), plan, i, r);
  }
}
