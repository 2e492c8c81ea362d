/** What a persisted `resolved` says about the cluster: in every run, while nobody else changes
    the cluster, and in serialised runs. */
module Soundness {
  import opened Domain
  import opened Cluster
  import opened Executor
  import opened Spelling
  import opened Verifier
  import opened Machine
  import opened Interleaved
  import opened Histories
  import opened Serial

  lemma {:induction false} FoldPrefix(x: Wiring, c: State, steps: seq<ActionStep>, env: seq<Weather>,
                                      more: seq<Weather>, n: nat)
    requires n <= |steps| && n <= |env|
    ensures Fold(x, c, steps, env + more, n) == Fold(x, c, steps, env, n)
  {
    hide After;
    if n > 0 {
      FoldPrefix(x, c, steps, env, more, n - 1);
    }
  }

  lemma SucceedPrefix(x: Wiring, c: State, steps: seq<ActionStep>, env: seq<Weather>, more: seq<Weather>, n: nat)
    requires n <= |steps| && n <= |env| && Succeed(x, c, steps, env, n)
    ensures Succeed(x, c, steps, env + more, n)
  {
    hide After, Error, Fold;
    forall i | 0 <= i < n ensures ErrorAt(x, c, steps, env + more, i).None? {
      assert ErrorAt(x, c, steps, env, i).None?;
      FoldPrefix(x, c, steps, env, more, i);
    }
  }

  /** How many steps a thread has executed. */
  function Executed(t: Thread): nat {
    if t.pc.Running? then t.pc.i else if t.inc.plan.Some? then |t.inc.plan.value.steps| else 0
  }

  /** How many of them it has verified. */
  function Checked(cfg: Config, t: Thread): nat {
    if t.pc.Verifying? || t.pc.Probing? then t.pc.i
    else if t.inc.plan.Some? && PastVerifier(cfg, t) then |t.inc.plan.value.steps|
    else 0
  }

  predicate MidExecution(t: Thread) {
    t.pc.Running? || t.pc.Verifying? || t.pc.Probing? || t.pc.VerifiedAudit? || t.pc.Resolving?
  }

  predicate PastVerifier(cfg: Config, t: Thread) {
    t.pc.VerifiedAudit? || (t.pc.Resolving? && cfg.verifier)
  }

  /** With some reads failing the check passes, or comes to depend on this target. */
  ghost predicate Passed(c: State, step: ActionStep) {
    exists r :: Passes(c, step, r)
  }

  ghost predicate Depends(c: State, step: ActionStep, target: Key) {
    exists r :: Seen(c, step, r) == DependsOn(target)
  }

  /** The cluster is exactly what this thread's steps made of the one it started from, and the
      checks it has made passed in it. */
  ghost predicate ProgressOk(cfg: Config, c: State, base: State, t: Thread) {
    && t.inc.plan.Some?
    && var steps := t.inc.plan.value.steps;
       && Executed(t) <= |steps| && |t.env| == Executed(t)
       && Succeed(cfg.wires, base, steps, t.env, Executed(t))
       && c == Fold(cfg.wires, base, steps, t.env, Executed(t))
       && Checked(cfg, t) <= |steps| && (forall q :: 0 <= q < Checked(cfg, t) ==> Passed(c, steps[q]))
       && (t.pc.Probing? ==> t.pc.i < |steps| && Depends(c, steps[t.pc.i], t.pc.target))
  }

  // ----- The middle of an execution, one thread alone -----

  /** Step `i` of the plan is checked by `e`, or its check goes on to the target. */
  ghost predicate CheckStep(cfg: Config, t: Thread, e: Event, t': Thread)
    requires t.pc.Verifying? || t.pc.Probing?
  {
    && t.inc.plan.Some? && t.pc.i < |t.inc.plan.value.steps|
    && (t.pc.Verifying? ==>
          && e.Look? && e.index == t.pc.i && e.step == t.inc.plan.value.steps[t.pc.i]
          && (e.sight.Good? || (e.sight.DependsOn? && t'.pc == Probing(t.pc.i, e.sight.target))))
    && (t.pc.Probing? ==> e.Probe? && e.ok && e.target == t.pc.target)
    && (t'.pc.Probing? ==> t.pc.Verifying? && e.sight.DependsOn?)
    && Checked(cfg, t') == (if t'.pc.Probing? then t.pc.i else t.pc.i + 1)
  }

  /** The only steps that lead into, or on through, the middle of an execution. */
  ghost predicate IntoStep(cfg: Config, t: Thread, e: Event, t': Thread) {
    if MidExecution(t) then
      && t'.inc == t.inc && t'.entered == t.entered
      && (t.pc.Running? ==>
            && e.Remediate? && e.ok && t.inc.plan.Some? && t.pc.i < |t.inc.plan.value.steps|
            && e.step == t.inc.plan.value.steps[t.pc.i]
            && t'.env == t.env + [e.weather] && Executed(t') == t.pc.i + 1
            && Checked(cfg, t') == 0 && !t'.pc.Probing?)
      && (!t.pc.Running? ==> !e.Remediate? && !t'.pc.Running? && t'.env == t.env)
      && (t.pc.Verifying? || t.pc.Probing? ==> CheckStep(cfg, t, e, t'))
      && (t.pc.VerifiedAudit? ==> t'.pc.Resolving? && Checked(cfg, t') <= Checked(cfg, t))
      && !t.pc.Resolving?
    else
      t'.entered && !t.entered && t'.pc == Running(0) && t'.env == [] && !e.Remediate? && t'.inc.plan.Some?
  }

  lemma FromRunning(cfg: Config, t: Thread, e: Event)
    requires Next(cfg, t, e).Some? && MidExecution(Next(cfg, t, e).value) && t.pc.Running?
    ensures IntoStep(cfg, t, e, Next(cfg, t, e).value)
  {
    hide CanAutoRemediate, OnSave, ToSave, OnAudit, ToAudit, OnNotify, ToNotify, OnMatch, OnList, OnPlan, OnLoad,
         OnLook, OnProbe, Enter, CheckStep;
  }

  lemma FromVerifying(cfg: Config, t: Thread, e: Event)
    requires LocalOk(cfg, t) && Next(cfg, t, e).Some? && MidExecution(Next(cfg, t, e).value)
    requires t.pc.Verifying? || t.pc.Probing?
    ensures IntoStep(cfg, t, e, Next(cfg, t, e).value)
  {
    hide CanAutoRemediate, OnSave, ToSave, OnAudit, ToAudit, OnNotify, ToNotify, OnMatch, OnList, OnPlan, OnLoad,
         OnStep, Enter;
  }

  lemma FromVerified(cfg: Config, t: Thread, e: Event)
    requires Next(cfg, t, e).Some? && MidExecution(Next(cfg, t, e).value) && t.pc.VerifiedAudit?
    ensures IntoStep(cfg, t, e, Next(cfg, t, e).value)
  {
    hide Next, CanAutoRemediate, ToAudit, Enter, CheckStep;
    AuditKind(cfg, t, e);
  }

  lemma FromResolving(cfg: Config, t: Thread, e: Event)
    requires Next(cfg, t, e).Some? && t.pc.Resolving?
    ensures !MidExecution(Next(cfg, t, e).value)
  {
    hide Next, MidExecution, OnSave;
    SaveKind(cfg, t, e);
    NotBySave(t, e.ok);
  }

  lemma FromDoor(cfg: Config, t: Thread, e: Event)
    requires LocalOk(cfg, t) && Next(cfg, t, e).Some? && MidExecution(Next(cfg, t, e).value)
    requires t.pc.Claiming? || t.pc.ApproveAudit?
    ensures IntoStep(cfg, t, e, Next(cfg, t, e).value)
  {
    hide CanAutoRemediate, CheckStep, Next;
    if t.pc.Claiming? {
      SaveKind(cfg, t, e);
    } else {
      AuditKind(cfg, t, e);
    }
  }

  lemma NotBySave(t: Thread, ok: bool)
    requires Saves(t.pc) && !t.pc.Claiming?
    ensures !MidExecution(OnSave(t, ok))
  {
  }

  lemma NotByOpeningAudit(cfg: Config, t: Thread)
    requires t.pc.Ingesting? || t.pc.Planning?
    ensures !MidExecution(OnAudit(cfg, t))
  {
    hide CanAutoRemediate, Enter, AfterFail;
  }

  lemma NotByEarlyAudit(cfg: Config, t: Thread)
    requires t.pc.ParkAudit? || t.pc.AbortAudit?
    ensures !MidExecution(OnAudit(cfg, t))
  {
    hide CanAutoRemediate, Enter, AfterFail;
  }

  lemma NotByFailAudit(cfg: Config, t: Thread)
    requires t.pc.FailAudit?
    ensures !MidExecution(OnAudit(cfg, t))
  {
    hide CanAutoRemediate, Enter;
  }

  lemma NotByLateAudit(cfg: Config, t: Thread)
    requires t.pc.ResolvedAudit? || t.pc.RejectAudit? || t.pc.FollowAudit?
    ensures !MidExecution(OnAudit(cfg, t))
  {
    hide CanAutoRemediate, Enter, AfterFail;
  }

  lemma NotByAudit(cfg: Config, t: Thread)
    requires Audits(t.pc) && !t.pc.ApproveAudit? && !t.pc.VerifiedAudit?
    ensures !MidExecution(OnAudit(cfg, t))
  {
    hide OnAudit, MidExecution;
    if t.pc.FailAudit? {
      NotByFailAudit(cfg, t);
    } else if t.pc.ResolvedAudit? || t.pc.RejectAudit? || t.pc.FollowAudit? {
      NotByLateAudit(cfg, t);
    } else if t.pc.Ingesting? || t.pc.Planning? {
      NotByOpeningAudit(cfg, t);
    } else {
      NotByEarlyAudit(cfg, t);
    }
  }

  lemma NotByNotify(t: Thread, ok: bool)
    requires Notifies(t.pc)
    ensures !MidExecution(OnNotify(t, ok))
  {
  }

  lemma NotByLoad(t: Thread, found: Option<Incident>)
    ensures !MidExecution(OnLoad(t, found))
  {
    hide Terminal;
  }

  lemma NotByBooks(t: Thread, books: Option<seq<Runbook>>)
    ensures !MidExecution(OnMatch(t, books)) && !MidExecution(OnList(t, books))
  {
  }

  lemma NotByPlan(t: Thread, plan: Option<ActionPlan>)
    ensures !MidExecution(OnPlan(t, plan))
  {
  }

  lemma NotFromElsewhere(cfg: Config, t: Thread, e: Event)
    requires Next(cfg, t, e).Some? && !MidExecution(t) && !t.pc.Claiming? && !t.pc.ApproveAudit?
    ensures !MidExecution(Next(cfg, t, e).value)
  {
    hide OnSave, OnAudit, OnNotify, OnLoad, OnMatch, OnList, OnPlan, OnStep, ToSave, ToAudit, ToNotify;
    match e
    case Save(_, ok) => NotBySave(t, ok);
    case Append(_, _) => NotByAudit(cfg, t);
    case Notify(_, _, ok) => NotByNotify(t, ok);
    case Load(_, found) => NotByLoad(t, found);
    case MatchBooks(_, books) => NotByBooks(t, books);
    case ListBooks(books) => NotByBooks(t, books);
    case Investigate(_, _, plan) => NotByPlan(t, plan);
    case _ =>
  }

  lemma IntoExecution(cfg: Config, t: Thread, e: Event)
    requires LocalOk(cfg, t) && Next(cfg, t, e).Some? && MidExecution(Next(cfg, t, e).value)
    ensures IntoStep(cfg, t, e, Next(cfg, t, e).value)
  {
    hide LocalOk, Next, IntoStep;
    if t.pc.Running? {
      FromRunning(cfg, t, e);
    } else if t.pc.Verifying? || t.pc.Probing? {
      FromVerifying(cfg, t, e);
    } else if t.pc.VerifiedAudit? {
      FromVerified(cfg, t, e);
    } else if t.pc.Resolving? {
      FromResolving(cfg, t, e);
    } else {
      if !t.pc.Claiming? && !t.pc.ApproveAudit? {
        NotFromElsewhere(cfg, t, e);
      }
      FromDoor(cfg, t, e);
    }
  }

  lemma OneMoreStep(cfg: Config, c: State, base: State, t: Thread, e: Event, t': Thread)
    requires t.pc.Running? && ProgressOk(cfg, c, base, t)
    requires e.Remediate? && e.ok && t.pc.i < |t.inc.plan.value.steps| && e.step == t.inc.plan.value.steps[t.pc.i]
    requires Error(cfg.wires, c, e.step, e.weather).None?
    requires t'.inc == t.inc && t'.env == t.env + [e.weather] && Executed(t') == t.pc.i + 1
    requires Checked(cfg, t') == 0 && !t'.pc.Probing?
    ensures ProgressOk(cfg, After(cfg.wires, c, e.step, e.weather), base, t')
  {
    hide After, Error, Passed, Depends, Checked;
    var steps, i := t.inc.plan.value.steps, t.pc.i;
    FoldPrefix(cfg.wires, base, steps, t.env, [e.weather], i);
    SucceedPrefix(cfg.wires, base, steps, t.env, [e.weather], i);
    assert WeatherAt(t'.env, i) == e.weather;
    assert ErrorAt(cfg.wires, base, steps, t'.env, i).None?;
  }

  lemma LookPasses(c: State, step: ActionStep, r: Reads)
    ensures Seen(c, step, r).Good? ==> Passed(c, step)
    ensures Seen(c, step, r).DependsOn? ==> Depends(c, step, Seen(c, step, r).target)
  {
    hide WorkloadReady, PodReason, Target, Named, Passes, Seen;
    PassesAtOnce(c, step, r);
  }

  lemma ProbePasses(c: State, step: ActionStep, target: Key)
    requires Depends(c, step, target) && WorkloadReady(c, target)
    ensures Passed(c, step)
  {
    hide WorkloadReady, PodReason, Target, Named, Passes;
    var r :| Seen(c, step, r) == DependsOn(target);
    var r' := r.(deploymentFails := false);
    assert Seen(c, step, r') == DependsOn(target);
    PassesAtOnce(c, step, r');
  }

  lemma OneMoreCheck(cfg: Config, w: World, base: State, t: Thread, e: Event, t': Thread)
    requires Possible(cfg, w, e) && (t.pc.Verifying? || t.pc.Probing?) && ProgressOk(cfg, w.cluster, base, t)
    requires CheckStep(cfg, t, e, t') && t'.inc == t.inc && t'.env == t.env && !t'.pc.Running?
    ensures ProgressOk(cfg, w.cluster, base, t')
  {
    hide Succeed, Fold, Passed, Depends, WorkloadReady, Seen, Checked;
    CheckedHere(cfg, t);
    var step := t.inc.plan.value.steps[t.pc.i];
    if e.Look? {
      LookPasses(w.cluster, step, e.faults);
    } else {
      ProbePasses(w.cluster, step, e.target);
    }
  }

  lemma CheckedHere(cfg: Config, t: Thread)
    ensures t.pc.Verifying? || t.pc.Probing? ==> Checked(cfg, t) == t.pc.i
  {
  }

  /** The execution part of a step, seen by the one thread and the cluster. */
  lemma ProgressStep(cfg: Config, w: World, base: State, t: Thread, e: Event, t': Thread)
    requires Possible(cfg, w, e) && MidExecution(t') && IntoStep(cfg, t, e, t')
    requires MidExecution(t) ==> ProgressOk(cfg, w.cluster, base, t)
    ensures var c' := Apply(cfg, w, e).cluster;
            ProgressOk(cfg, c', if MidExecution(t) then base else c', t')
  {
    hide Succeed, Fold, After, Error, Passed, Depends, CheckStep;
    if t.pc.Running? {
      OneMoreStep(cfg, w.cluster, base, t, e, t');
    } else if t.pc.Verifying? || t.pc.Probing? {
      OneMoreCheck(cfg, w, base, t, e, t');
    } else if !MidExecution(t) {
      StartsAtBase(cfg, w.cluster, t');
    }
  }

  lemma IntoEntered(cfg: Config, t: Thread, e: Event, t': Thread)
    requires IntoStep(cfg, t, e, t')
    ensures if MidExecution(t) then t'.entered == t.entered else t'.entered && !t.entered
  {
    hide CheckStep;
  }

  lemma StartsAtBase(cfg: Config, c: State, t: Thread)
    requires t.inc.plan.Some? && t.pc == Running(0) && t.env == []
    ensures ProgressOk(cfg, c, c, t)
  {
  }

  // ----- Every run, while nobody else changes the cluster -----

  /** From step `m` to step `n` nobody but thread `k` changes the cluster. */
  ghost predicate Undisturbed(ls: seq<Label>, m: nat, n: nat, k: nat)
    requires n <= |ls|
  {
    forall i :: m <= i < n ==> !ls[i].Outside? && (ls[i].Port? && ls[i].e.Remediate? ==> ls[i].tid == k)
  }

  /** A step of another thread that is no remediation leaves the cluster alone. */
  lemma ClusterStays(cfg: Config, s: Sys, l: Label, s': Sys)
    requires Step(cfg, s, l, s') && !l.Outside? && !(l.Port? && l.e.Remediate?)
    ensures s'.w.cluster == s.w.cluster
  {
    hide Next, Possible, Start, Entered;
  }

  lemma MidIsEntered(cfg: Config, t: Thread)
    requires LocalOk(cfg, t) && MidExecution(t)
    ensures t.entered && Active(t)
  {
    hide CanAutoRemediate;
  }

  lemma PortCluster(cfg: Config, s: Sys, k: nat, e: Event, s': Sys)
    requires Step(cfg, s, Port(k, e), s')
    ensures Possible(cfg, s.w, e) && s'.w.cluster == Apply(cfg, s.w, e).cluster
  {
    hide Next, Possible, Apply, Entered;
  }

  /** Step `m` entered the executor. */
  lemma MadeByEntering(cfg: Config, ss: seq<Sys>, ls: seq<Label>, m: nat, entry: Entry, j: nat)
    requires Run(cfg, ss, ls) && |ss| == |ls| + 1 && Made(ss, ls, m, entry, j)
    ensures entry.tid < |ss[m].threads| && entry.tid < |ss[m + 1].threads|
    ensures !ss[m].threads[entry.tid].entered && ss[m + 1].threads[entry.tid].entered
  {
    hide Run, Step;
    RunAt(cfg, ss, ls, m);
    StepEntries(cfg, ss[m], ls[m], ss[m + 1]);
    assert |ss[m + 1].entries| == |ss[m].entries| + 1;
  }

  /** In every run: as long as nobody else changes the cluster after an executor entry, the
      cluster is exactly what the entering thread's steps made of the one it entered with, and
      the checks it has made passed in it. */
  lemma {:induction false} SoundSince(cfg: Config, ss: seq<Sys>, ls: seq<Label>, m: nat, n: nat, entry: Entry, j: nat)
    requires Run(cfg, ss, ls) && |ss| == |ls| + 1 && Made(ss, ls, m, entry, j)
    requires m < n <= |ls| && Undisturbed(ls, m + 1, n, entry.tid)
    ensures entry.tid < |ss[n].threads| && ss[n].threads[entry.tid].entered
    ensures var t := ss[n].threads[entry.tid]; MidExecution(t) ==> ProgressOk(cfg, ss[n].w.cluster, entry.base, t)
  {
    hide Run, Step, Next, Summary, LocalOk, ProgressOk, IntoStep, Possible, Apply, MidExecution;
    var k := entry.tid;
    var s, l, s' := ss[n - 1], ls[n - 1], ss[n];
    RunAt(cfg, ss, ls, n - 1);
    if n == m + 1 {
      MadeByEntering(cfg, ss, ls, m, entry, j);
      SoundPort(cfg, ss, ls, m, entry.base);
    } else {
      SoundSince(cfg, ss, ls, m, n - 1, entry, j);
      RunLater(cfg, ss, ls, n - 1, n, k);
      StepThread(cfg, s, l, s', k);
      if l.Port? && l.tid == k {
        SoundPort(cfg, ss, ls, n - 1, entry.base);
      } else {
        ClusterStays(cfg, s, l, s');
        CrashedIsNotMid(s.threads[k]);
      }
    }
  }

  lemma CrashedIsNotMid(t: Thread)
    ensures !MidExecution(t.(pc := Crashed))
  {
  }

  /** One port call of the executing thread. */
  lemma SoundPort(cfg: Config, ss: seq<Sys>, ls: seq<Label>, i: nat, base: State)
    requires Run(cfg, ss, ls) && |ss| == |ls| + 1 && i < |ls| && ls[i].Port? && ls[i].tid < |ss[i].threads|
    requires var t := ss[i].threads[ls[i].tid];
             if t.entered then MidExecution(t) ==> ProgressOk(cfg, ss[i].w.cluster, base, t)
             else base == ss[i + 1].w.cluster
    ensures ls[i].tid < |ss[i + 1].threads|
    ensures var t' := ss[i + 1].threads[ls[i].tid]; MidExecution(t') ==> ProgressOk(cfg, ss[i + 1].w.cluster, base, t')
  {
    hide Run, Step, Next, Summary, LocalOk, ProgressOk, IntoStep, Possible, Apply, MidExecution;
    ThreadKept(cfg, ss, ls, i);
    var s, k, e, s' := ss[i], ls[i].tid, ls[i].e, ss[i + 1];
    RunAt(cfg, ss, ls, i);
    PortCluster(cfg, s, k, e, s');
    var t, t' := s.threads[k], s'.threads[k];
    if MidExecution(t') {
      IntoExecution(cfg, t, e);
      IntoEntered(cfg, t, e, t');
      if MidExecution(t) {
        MidIsEntered(cfg, t);
      }
      ProgressStep(cfg, s.w, base, t, e, t');
    }
  }

  lemma ResolvedSave(cfg: Config, t: Thread, e: Event)
    requires LocalOk(cfg, t) && Next(cfg, t, e).Some? && e.Save? && e.inc.status == Resolved
    ensures t.pc.Resolving? && t.inc.plan.Some? && t.inc.plan.value.steps != []
    ensures e.inc.plan == t.inc.plan && e.inc.id == t.inc.id == t.call.id
  {
    hide CanAutoRemediate, OnSave, OnAudit, OnNotify, OnMatch, OnList, OnPlan, OnLoad, OnStep;
  }

  /** The cluster `d` is the fold of all the plan's steps over `base`, and each is settled in it. */
  ghost predicate Settled(cfg: Config, base: State, d: State, plan: ActionPlan, env: seq<Weather>) {
    && plan.steps != []
    && d == Fold(cfg.wires, base, plan.steps, env, |plan.steps|)
    && Succeed(cfg.wires, base, plan.steps, env, |plan.steps|)
    && forall q :: 0 <= q < |plan.steps| ==> StepSettled(d, plan, q)
  }

  /** What a settled plan says of the fields of one object: the Deployment of a rollout step has no
      replica unavailable and as many ready as it wants; so has the Deployment a patched HPA
      scales, and the HPA has room for its present size; a deleted pod is gone. */
  lemma SettledTells(cfg: Config, base: State, d: State, plan: ActionPlan, env: seq<Weather>, q: nat,
                     ns: string, name: string)
    requires Settled(cfg, base, d, plan, env) && q < |plan.steps| && Denotes(plan.steps[q], ns, name)
    ensures plan.steps[q].tool.RestartRollout? || plan.steps[q].tool.RollbackDeployment?
            || plan.steps[q].tool.ScaleDeployment? ==>
              && (ns, name) in d.deployments && d.deployments[(ns, name)].unavailable <= 0
              && forall n :: n > 0 && d.deployments[(ns, name)].replicas == Some(n) ==>
                   d.deployments[(ns, name)].ready >= n
    ensures plan.steps[q].tool.PatchHPAMaxReplicas? ==>
              && (ns, name) in d.hpas && d.hpas[(ns, name)].current <= d.hpas[(ns, name)].max
              && (Cased(d.hpas[(ns, name)].targetKind, "deployment") && d.hpas[(ns, name)].targetName != "" ==>
                    var w := (ns, d.hpas[(ns, name)].targetName);
                    && w in d.deployments && d.deployments[w].unavailable <= 0
                    && forall n :: n > 0 && d.deployments[w].replicas == Some(n) ==> d.deployments[w].ready >= n)
    ensures plan.steps[q].tool.DeleteCrashLoopPod? ==> (ns, name) !in d.pods
    ensures !plan.steps[q].tool.OtherTool?
  {
    hide Fold, Succeed, Holds, Denotes, Named, Workload, LastPatch, LastScale, LastGroup, NumberArg, Cased;
    assert StepSettled(d, plan, q);
    DenotesExactly(plan.steps[q], ns, name);
    LooksAt(d, plan.steps[q], ns, name);
  }

  lemma SettledAll(cfg: Config, c: State, base: State, t: Thread)
    requires ProgressOk(cfg, c, base, t) && t.pc.Resolving? && cfg.verifier && t.inc.plan.value.steps != []
    ensures Settled(cfg, base, c, t.inc.plan.value, t.env)
  {
    hide Fold, Succeed, StepSettled, Passes, Depends;
    var plan := t.inc.plan.value;
    forall q | 0 <= q < |plan.steps| ensures StepSettled(c, plan, q) {
      assert Passed(c, plan.steps[q]);
      var r :| Passes(c, plan.steps[q], r);
      ResolvedIsSound(cfg.wires, base, plan, t.env, r, q);
    }
  }

  /** In every run: an incident is persisted as resolved by a call that entered the executor, and
      if nobody else changes the cluster between that entry and this save, then the cluster is
      the fold of all the steps over the one entered with, and every step is settled in it. */
  lemma SettledWhenUndisturbed(cfg: Config, ss: seq<Sys>, ls: seq<Label>, i: nat, id: Id) returns (m: nat, j: nat)
    requires Run(cfg, ss, ls) && |ss| == |ls| + 1 && cfg.verifier && i < |ls| && Persists(ls[i], id, Resolved)
    ensures ls[i].tid < |ss[i].threads| && ls[i].e.inc.plan.Some?
    ensures m < i && j < |ss[i].entries| && Made(ss, ls, m, ss[i].entries[j], j)
    ensures ss[i].entries[j].tid == ls[i].tid && ss[i].entries[j].id == id
    ensures Undisturbed(ls, m + 1, i, ls[i].tid) ==>
              Settled(cfg, ss[i].entries[j].base, ss[i + 1].w.cluster, ls[i].e.inc.plan.value,
                      ss[i].threads[ls[i].tid].env)
  {
    hide Run, Step, Next, Summary, LocalOk, ProgressOk, MidExecution, Settled, Undisturbed, Made;
    ThreadKept(cfg, ss, ls, i);
    var k := ls[i].tid;
    var t := ss[i].threads[k];
    ResolvedSave(cfg, t, ls[i].e);
    ResolvingIsMid(cfg, t);
    EnteredHasEntry(cfg, ss, ls, i, k);
    j :| 0 <= j < |ss[i].entries| && ss[i].entries[j].tid == k && ss[i].entries[j].id == t.call.id
         && ss[i].entries[j].plan == t.inc.plan;
    m := EntryWasMade(cfg, ss, ls, i, j);
    RunAt(cfg, ss, ls, i);
    ClusterStays(cfg, ss[i], ls[i], ss[i + 1]);
    if Undisturbed(ls, m + 1, i, k) {
      SoundSince(cfg, ss, ls, m, i, ss[i].entries[j], j);
      SettledAll(cfg, ss[i].w.cluster, ss[i].entries[j].base, t);
    }
  }

  lemma ResolvingIsMid(cfg: Config, t: Thread)
    requires LocalOk(cfg, t) && t.pc.Resolving?
    ensures MidExecution(t) && t.entered
  {
    MidIsEntered(cfg, t);
  }

  // ----- Serialised runs -----

  /** In the middle of its execution the last thread is the one recorded last, and the cluster
      is what its steps made. */
  ghost predicate CInv(cfg: Config, s: Sys) {
    && SInv(cfg, s)
    && (s.threads != [] && MidExecution(s.threads[|s.threads| - 1]) ==>
          && s.entries != []
          && s.entries[|s.entries| - 1].tid == |s.threads| - 1
          && ProgressOk(cfg, s.w.cluster, s.entries[|s.entries| - 1].base, s.threads[|s.threads| - 1]))
  }

  /** While a thread is in progress, every port call of a serialised run is its own. */
  lemma OnlyItsCalls(cfg: Config, ss: seq<Sys>, ls: seq<Label>, m: nat, i: nat, n: nat, k: nat)
    requires Run(cfg, ss, ls) && |ss| == |ls| + 1 && Serialised(ss, ls) && m <= i < n <= |ls| && ls[i].Port?
    requires k < |ss[m].threads| && k < |ss[n].threads| && Active(ss[n].threads[k])
    ensures ls[i].tid == k
  {
    hide Run, SInv, HeldOk, LocalOk, Serialised, Active;
    RunLater(cfg, ss, ls, m, i, k);
    ActiveBefore(cfg, ss, ls, i, n, k);
    SerialAlways(cfg, ss, ls, i);
    RunAt(cfg, ss, ls, i);
    PortActive(cfg, ss[i], ls[i].tid, ls[i].e, ss[i + 1]);
    ActiveIsLast(cfg, ss[i], k);
  }

  lemma ActiveIsLast(cfg: Config, s: Sys, k: nat)
    requires SInv(cfg, s) && k < |s.threads| && Active(s.threads[k])
    ensures k == |s.threads| - 1
  {
    hide Inv;
  }

  lemma SerialUndisturbed(cfg: Config, ss: seq<Sys>, ls: seq<Label>, m: nat, n: nat, k: nat)
    requires Run(cfg, ss, ls) && |ss| == |ls| + 1 && Serialised(ss, ls) && NoOutside(ls) && m <= n <= |ls|
    requires k < |ss[m].threads| && k < |ss[n].threads| && Active(ss[n].threads[k])
    ensures Undisturbed(ls, m, n, k)
  {
    hide Run, Serialised, Active;
    forall i | m <= i < n
      ensures !ls[i].Outside? && (ls[i].Port? && ls[i].e.Remediate? ==> ls[i].tid == k)
    {
      if ls[i].Port? {
        OnlyItsCalls(cfg, ss, ls, m, i, n, k);
      }
    }
  }

  /** No further entry is made while a thread that has entered is in progress. */
  lemma {:induction false} LastEntry(cfg: Config, ss: seq<Sys>, ls: seq<Label>, m: nat, n: nat, k: nat)
    requires Run(cfg, ss, ls) && |ss| == |ls| + 1 && Serialised(ss, ls) && m <= n <= |ls|
    requires k < |ss[m].threads| && ss[m].threads[k].entered && k < |ss[n].threads| && Active(ss[n].threads[k])
    ensures ss[n].entries == ss[m].entries
  {
    hide Run, Step, Serialised, Active;
    if m < n {
      RunLater(cfg, ss, ls, m, n - 1, k);
      ActiveBefore(cfg, ss, ls, n - 1, n, k);
      LastEntry(cfg, ss, ls, m, n - 1, k);
      RunAt(cfg, ss, ls, n - 1);
      StepEntries(cfg, ss[n - 1], ls[n - 1], ss[n]);
      if ls[n - 1].Port? {
        OnlyItsCalls(cfg, ss, ls, n - 1, n - 1, n, k);
      }
    }
  }

  /** Throughout a serialised run nobody else disturbs: during an execution the cluster is the
      fold of the steps made so far. */
  lemma SoundAlways(cfg: Config, ss: seq<Sys>, ls: seq<Label>, n: nat)
    requires Run(cfg, ss, ls) && Serialised(ss, ls) && NoOutside(ls) && n <= |ls|
    ensures CInv(cfg, ss[n])
  {
    hide Run, SInv, LocalOk, ProgressOk, MidExecution, Made, Undisturbed, Serialised, Active;
    RunShape(cfg, ss, ls);
    SerialAlways(cfg, ss, ls, n);
    if ss[n].threads != [] && MidExecution(ss[n].threads[|ss[n].threads| - 1]) {
      SoundNow(cfg, ss, ls, n);
    }
  }

  lemma SoundNow(cfg: Config, ss: seq<Sys>, ls: seq<Label>, n: nat)
    requires Run(cfg, ss, ls) && |ss| == |ls| + 1 && Serialised(ss, ls) && NoOutside(ls) && n <= |ls|
    requires ss[n].threads != [] && MidExecution(ss[n].threads[|ss[n].threads| - 1])
    ensures var s, k := ss[n], |ss[n].threads| - 1;
            && s.entries != [] && s.entries[|s.entries| - 1].tid == k
            && ProgressOk(cfg, s.w.cluster, s.entries[|s.entries| - 1].base, s.threads[k])
  {
    hide Run, LocalOk, ProgressOk, MidExecution, Undisturbed, Serialised, Active, NoOutside;
    var s, k := ss[n], |ss[n].threads| - 1;
    Always(cfg, ss, ls, n);
    MidIsEntered(cfg, s.threads[k]);
    EnteredHasEntry(cfg, ss, ls, n, k);
    var j :| 0 <= j < |s.entries| && s.entries[j].tid == k && s.entries[j].id == s.threads[k].call.id
             && s.entries[j].plan == s.threads[k].inc.plan;
    var m := EntryWasMade(cfg, ss, ls, n, j);
    MadeByEntering(cfg, ss, ls, m, s.entries[j], j);
    LastEntry(cfg, ss, ls, m + 1, n, k);
    SerialUndisturbed(cfg, ss, ls, m + 1, n, k);
    SoundSince(cfg, ss, ls, m, n, s.entries[j], j);
  }

  /** When an incident is persisted as resolved, the last entry is this call's own, the cluster
      is the fold of all its steps over the one it entered with, and every step is settled. */
  lemma ResolvedMeansSettled(cfg: Config, ss: seq<Sys>, ls: seq<Label>, i: nat, id: Id)
    requires Run(cfg, ss, ls) && Serialised(ss, ls) && NoOutside(ls) && cfg.verifier
    requires i < |ls| && Persists(ls[i], id, Resolved)
    ensures ls[i].tid < |ss[i].threads| && ls[i].e.inc.plan.Some? && ss[i].entries != []
    ensures var entry := ss[i].entries[|ss[i].entries| - 1];
            && entry.tid == ls[i].tid && entry.id == id
            && Settled(cfg, entry.base, ss[i + 1].w.cluster, ls[i].e.inc.plan.value, ss[i].threads[ls[i].tid].env)
  {
    hide Run, LocalOk, MidExecution, Settled, Undisturbed, Serialised, Active, NoOutside;
    RunShape(cfg, ss, ls);
    var m, j := SettledWhenUndisturbed(cfg, ss, ls, i, id);
    var k := ls[i].tid;
    ActsThen(cfg, ss, ls, i, k);
    MadeByEntering(cfg, ss, ls, m, ss[i].entries[j], j);
    LastEntry(cfg, ss, ls, m + 1, i, k);
    SerialUndisturbed(cfg, ss, ls, m + 1, i, k);
  }
}
