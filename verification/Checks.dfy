/** What the verifier has read, in every run: it reads object by object, and the cluster may
    change between two reads. */
module Checks {
  import opened Domain
  import opened Cluster
  import opened Verifier
  import opened Machine
  import opened Interleaved
  import opened Histories
  import opened Soundness

  /** The faults of a check read at step `j` and, for its target, at step `p`. */
  function FaultsAt(ls: seq<Label>, j: nat, p: nat): Reads
    requires j < |ls| && p < |ls| && ls[j].Port? && ls[j].e.Look? && ls[p].Port?
  {
    if ls[p].e.Probe? then ls[j].e.faults.(deploymentFails := ls[p].e.fails) else ls[j].e.faults
  }

  /** Thread `k` checked `step`, number `q` of its plan, by its reads at `j` and `p`, and it passed
      in the clusters of those moments. Only a patched HPA takes two reads. */
  ghost predicate CheckedAt(ss: seq<Sys>, ls: seq<Label>, k: nat, step: ActionStep, q: nat, j: nat, p: nat)
    requires |ss| == |ls| + 1
  {
    && j <= p < |ls| && ls[j].Port? && ls[p].Port? && ls[j].tid == ls[p].tid == k
    && ls[j].e.Look? && ls[j].e.index == q && ls[j].e.step == step
    && (if step.tool.PatchHPAMaxReplicas? then j < p && ls[p].e.Probe? else p == j)
    && PassesAcross(ss[j].w.cluster, ss[p].w.cluster, step, FaultsAt(ls, j, p))
  }

  /** Before step `n` thread `k` checked the first |js| steps, one after the other. */
  ghost predicate ChecksDone(ss: seq<Sys>, ls: seq<Label>, n: nat, k: nat, steps: seq<ActionStep>,
                             js: seq<nat>, ps: seq<nat>)
    requires |ss| == |ls| + 1
  {
    && |js| == |ps| <= |steps|
    && (forall q :: 0 <= q < |js| ==> ps[q] < n && CheckedAt(ss, ls, k, steps[q], q, js[q], ps[q]))
    && (forall q :: 0 < q < |js| ==> ps[q - 1] < js[q])
  }

  /** At step `j` thread `k` read the object of step `q`, which comes to depend on `target`. */
  ghost predicate LookedAt(ss: seq<Sys>, ls: seq<Label>, k: nat, step: ActionStep, q: nat, j: nat, target: Key)
    requires |ss| == |ls| + 1
  {
    && j < |ls| && ls[j].Port? && ls[j].tid == k
    && ls[j].e.Look? && ls[j].e.index == q && ls[j].e.step == step
    && Seen(ss[j].w.cluster, step, ls[j].e.faults) == DependsOn(target)
  }

  predicate MidCheck(cfg: Config, t: Thread) {
    t.pc.Verifying? || t.pc.Probing? || PastVerifier(cfg, t)
  }

  /** What a thread in or past its verification has read: the checks done and, before a second
      read, the look at `j`. */
  ghost predicate HasRead(cfg: Config, ss: seq<Sys>, ls: seq<Label>, n: nat, k: nat, t: Thread,
                          js: seq<nat>, ps: seq<nat>, j: nat)
    requires |ss| == |ls| + 1
  {
    && t.inc.plan.Some?
    && var steps := t.inc.plan.value.steps;
       && |js| == Checked(cfg, t) && ChecksDone(ss, ls, n, k, steps, js, ps)
       && (t.pc.Probing? ==>
             && t.pc.i < |steps| && j < n && (js != [] ==> ps[|ps| - 1] < j)
             && LookedAt(ss, ls, k, steps[t.pc.i], t.pc.i, j, t.pc.target))
  }

  lemma SeenTwice(c: State, d: State, step: ActionStep, r: Reads, target: Key)
    requires Seen(c, step, r) == DependsOn(target) && WorkloadReady(d, target)
    ensures step.tool.PatchHPAMaxReplicas? && PassesAcross(c, d, step, r.(deploymentFails := false))
  {
    hide WorkloadReady, Target, Named, Passes;
  }

  lemma SeenOnce(c: State, step: ActionStep, r: Reads)
    requires Seen(c, step, r).Good?
    ensures !step.tool.PatchHPAMaxReplicas? && PassesAcross(c, c, step, r)
  {
    hide WorkloadReady, Target, Named, Passes;
  }

  lemma OneMoreDone(ss: seq<Sys>, ls: seq<Label>, n: nat, k: nat, steps: seq<ActionStep>,
                    js: seq<nat>, ps: seq<nat>, j: nat, p: nat)
    requires |ss| == |ls| + 1 && ChecksDone(ss, ls, n, k, steps, js, ps) && |js| < |steps| && p <= n
    requires CheckedAt(ss, ls, k, steps[|js|], |js|, j, p) && (js != [] ==> ps[|ps| - 1] < j)
    ensures ChecksDone(ss, ls, n + 1, k, steps, js + [j], ps + [p])
  {
    hide CheckedAt;
  }

  lemma DoneLater(ss: seq<Sys>, ls: seq<Label>, n: nat, k: nat, steps: seq<ActionStep>, js: seq<nat>, ps: seq<nat>)
    requires |ss| == |ls| + 1 && ChecksDone(ss, ls, n, k, steps, js, ps)
    ensures ChecksDone(ss, ls, n + 1, k, steps, js, ps)
  {
    hide CheckedAt;
  }

  /** A read of thread `k` at step `n`, after the reads before it. */
  lemma OneMoreRead(cfg: Config, ss: seq<Sys>, ls: seq<Label>, n: nat, k: nat, t: Thread, t': Thread,
                    js: seq<nat>, ps: seq<nat>, j: nat)
      returns (js': seq<nat>, ps': seq<nat>, j': nat)
    requires |ss| == |ls| + 1 && n < |ls| && ls[n].Port? && ls[n].tid == k && Possible(cfg, ss[n].w, ls[n].e)
    requires (t.pc.Verifying? || t.pc.Probing?) && CheckStep(cfg, t, ls[n].e, t') && t'.inc == t.inc
    requires HasRead(cfg, ss, ls, n, k, t, js, ps, j)
    ensures HasRead(cfg, ss, ls, n + 1, k, t', js', ps', j')
  {
    hide CheckedAt, Seen, WorkloadReady, PassesAcross, ChecksDone, Checked;
    CheckedHere(cfg, t);
    var e, c, steps := ls[n].e, ss[n].w.cluster, t.inc.plan.value.steps;
    js', ps', j' := js, ps, n;
    ReadsInOrder(ss, ls, n, k, steps, js, ps);
    if t.pc.Probing? {
      TargetRead(ss, ls, k, steps[t.pc.i], t.pc.i, j, n, t.pc.target);
      OneMoreDone(ss, ls, n, k, steps, js, ps, j, n);
      js', ps' := js + [j], ps + [n];
    } else if e.sight.Good? {
      ObjectRead(ss, ls, k, steps[t.pc.i], t.pc.i, n);
      OneMoreDone(ss, ls, n, k, steps, js, ps, n, n);
      js', ps' := js + [n], ps + [n];
    } else {
      DoneLater(ss, ls, n, k, steps, js, ps);
    }
  }

  lemma ReadsInOrder(ss: seq<Sys>, ls: seq<Label>, n: nat, k: nat, steps: seq<ActionStep>, js: seq<nat>, ps: seq<nat>)
    requires |ss| == |ls| + 1 && ChecksDone(ss, ls, n, k, steps, js, ps)
    ensures |js| == |ps| && (js != [] ==> ps[|ps| - 1] < n)
  {
    hide CheckedAt;
  }

  lemma ObjectRead(ss: seq<Sys>, ls: seq<Label>, k: nat, step: ActionStep, q: nat, n: nat)
    requires |ss| == |ls| + 1 && n < |ls| && ls[n].Port? && ls[n].tid == k
    requires ls[n].e.Look? && ls[n].e.index == q && ls[n].e.step == step
    requires Seen(ss[n].w.cluster, step, ls[n].e.faults).Good?
    ensures CheckedAt(ss, ls, k, step, q, n, n)
  {
    hide Seen, PassesAcross;
    SeenOnce(ss[n].w.cluster, step, ls[n].e.faults);
  }

  lemma TargetRead(ss: seq<Sys>, ls: seq<Label>, k: nat, step: ActionStep, q: nat, j: nat, p: nat, target: Key)
    requires |ss| == |ls| + 1 && j < p < |ls| && LookedAt(ss, ls, k, step, q, j, target)
    requires ls[p].Port? && ls[p].tid == k && ls[p].e.Probe? && !ls[p].e.fails && WorkloadReady(ss[p].w.cluster, target)
    ensures CheckedAt(ss, ls, k, step, q, j, p)
  {
    hide Seen, PassesAcross, WorkloadReady;
    SeenTwice(ss[j].w.cluster, ss[p].w.cluster, step, ls[j].e.faults, target);
  }

  lemma IntoCheck(cfg: Config, t: Thread, e: Event, t': Thread)
    requires IntoStep(cfg, t, e, t') && MidCheck(cfg, t')
    ensures t'.inc == t.inc && (t.pc.Running? || t.pc.Verifying? || t.pc.Probing? || t.pc.VerifiedAudit?)
    ensures t.pc.Running? ==> t.inc.plan.Some? && Checked(cfg, t') == 0 && !t'.pc.Probing?
    ensures t.pc.Verifying? || t.pc.Probing? ==> CheckStep(cfg, t, e, t')
    ensures t.pc.VerifiedAudit? ==> !t'.pc.Probing? && Checked(cfg, t') == Checked(cfg, t)
  {
    hide CheckStep;
  }

  lemma NothingRead(cfg: Config, ss: seq<Sys>, ls: seq<Label>, n: nat, k: nat, t: Thread)
    requires |ss| == |ls| + 1 && t.inc.plan.Some? && Checked(cfg, t) == 0 && !t.pc.Probing?
    ensures HasRead(cfg, ss, ls, n, k, t, [], [], 0)
  {
  }

  lemma ReadLater(cfg: Config, ss: seq<Sys>, ls: seq<Label>, n: nat, k: nat, t: Thread, t': Thread,
                  js: seq<nat>, ps: seq<nat>, j: nat)
    requires |ss| == |ls| + 1 && HasRead(cfg, ss, ls, n, k, t, js, ps, j)
    requires t' == t || (t'.inc == t.inc && Checked(cfg, t') == Checked(cfg, t) && !t'.pc.Probing?)
    ensures HasRead(cfg, ss, ls, n + 1, k, t', js, ps, j)
  {
    hide CheckedAt, LookedAt, ChecksDone, Checked;
    DoneLater(ss, ls, n, k, t.inc.plan.value.steps, js, ps);
  }

  lemma CheckIsMid(cfg: Config, t: Thread)
    ensures MidCheck(cfg, t) ==> MidExecution(t)
    ensures t.pc.VerifiedAudit? || t.pc.Verifying? || t.pc.Probing? ==> MidCheck(cfg, t)
  {
  }

  lemma StartElsewhere(cfg: Config, s: Sys, l: Label, s': Sys, k: nat)
    requires Step(cfg, s, l, s') && l.Spawn? && k == |s.threads|
    ensures !MidCheck(cfg, s'.threads[k])
  {
  }

  /** What a thread in or past its verification has read, in any run. */
  lemma {:induction false} ReadsBefore(cfg: Config, ss: seq<Sys>, ls: seq<Label>, n: nat, k: nat)
      returns (js: seq<nat>, ps: seq<nat>, j: nat)
    requires Run(cfg, ss, ls) && |ss| == |ls| + 1 && n <= |ls| && k < |ss[n].threads| && MidCheck(cfg, ss[n].threads[k])
    ensures HasRead(cfg, ss, ls, n, k, ss[n].threads[k], js, ps, j)
  {
    hide Run, Step, Next, Summary, LocalOk, IntoStep, Possible, Apply, MidCheck, MidExecution, HasRead, CheckStep,
         Checked;
    RunShape(cfg, ss, ls);
    var l, s, s' := ls[n - 1], ss[n - 1], ss[n];
    RunAt(cfg, ss, ls, n - 1);
    StepThread(cfg, s, l, s', k);
    CheckIsMid(cfg, s'.threads[k]);
    js, ps, j := [], [], 0;
    if k >= |s.threads| {
      StartElsewhere(cfg, s, l, s', k);
    } else {
      var t, t' := s.threads[k], s'.threads[k];
      CheckIsMid(cfg, t);
      if l.Port? && l.tid == k {
        ThreadKept(cfg, ss, ls, n - 1);
        PortIs(cfg, s, k, l.e, s');
        IntoExecution(cfg, t, l.e);
        IntoCheck(cfg, t, l.e, t');
        if t.pc.Running? {
          NothingRead(cfg, ss, ls, n, k, t');
        } else {
          js, ps, j := ReadsBefore(cfg, ss, ls, n - 1, k);
          if t.pc.VerifiedAudit? {
            ReadLater(cfg, ss, ls, n - 1, k, t, t', js, ps, j);
          } else {
            js, ps, j := OneMoreRead(cfg, ss, ls, n - 1, k, t, t', js, ps, j);
          }
        }
      } else {
        CrashedIsNotMid(t);
        js, ps, j := ReadsBefore(cfg, ss, ls, n - 1, k);
        ReadLater(cfg, ss, ls, n - 1, k, t, t', js, ps, j);
      }
    }
  }

  /** In every run, whatever interleaves and whoever else changes the cluster: an incident is
      persisted as resolved only after its call had checked every step of its plan, in order,
      each in the clusters of its own reads. */
  lemma ResolvedWasChecked(cfg: Config, ss: seq<Sys>, ls: seq<Label>, i: nat, id: Id)
      returns (js: seq<nat>, ps: seq<nat>)
    requires Run(cfg, ss, ls) && |ss| == |ls| + 1 && cfg.verifier && i < |ls| && Persists(ls[i], id, Resolved)
    ensures ls[i].e.inc.plan.Some?
    ensures var steps := ls[i].e.inc.plan.value.steps;
            steps != [] && |js| == |steps| && ChecksDone(ss, ls, i, ls[i].tid, steps, js, ps)
  {
    hide Run, Next, Summary, LocalOk, ChecksDone;
    ThreadKept(cfg, ss, ls, i);
    var k := ls[i].tid;
    ResolvedSave(cfg, ss[i].threads[k], ls[i].e);
    var j;
    js, ps, j := ReadsBefore(cfg, ss, ls, i, k);
  }

  /** From step `m` to step `n` nobody changes the cluster. */
  ghost predicate Still(ls: seq<Label>, m: nat, n: nat)
    requires n <= |ls|
  {
    forall i :: m <= i < n ==> !ls[i].Outside? && !(ls[i].Port? && ls[i].e.Remediate?)
  }

  lemma {:induction false} SameCluster(cfg: Config, ss: seq<Sys>, ls: seq<Label>, m: nat, n: nat)
    requires Run(cfg, ss, ls) && |ss| == |ls| + 1 && m <= n <= |ls| && Still(ls, m, n)
    ensures ss[n].w.cluster == ss[m].w.cluster
  {
    hide Run, Step;
    if m < n {
      SameCluster(cfg, ss, ls, m, n - 1);
      RunAt(cfg, ss, ls, n - 1);
      ClusterStays(cfg, ss[n - 1], ls[n - 1], ss[n]);
    }
  }

  /** If the cluster stands still from the first of these reads on, the plan as a whole
      verifies in it. */
  lemma VerifiedWhenStill(cfg: Config, ss: seq<Sys>, ls: seq<Label>, i: nat, k: nat, plan: ActionPlan,
                          js: seq<nat>, ps: seq<nat>) returns (rs: seq<Reads>)
    requires Run(cfg, ss, ls) && |ss| == |ls| + 1 && i <= |ls| && plan.steps != []
    requires |js| == |plan.steps| && ChecksDone(ss, ls, i, k, plan.steps, js, ps) && Still(ls, js[0], i)
    ensures Verified(ss[i].w.cluster, Some(plan), rs)
  {
    hide Run, Passes, PassesAcross;
    var c := ss[i].w.cluster;
    InOrder(ss, ls, i, k, plan.steps, js, ps);
    rs := seq(|js|, q requires 0 <= q < |js| => FaultsAt(ls, js[q], ps[q]));
    forall q | 0 <= q < |plan.steps| ensures Passes(c, plan.steps[q], ReadsAt(rs, q)) {
      SameCluster(cfg, ss, ls, js[q], i);
      SameCluster(cfg, ss, ls, ps[q], i);
      PassesAtOnce(c, plan.steps[q], FaultsAt(ls, js[q], ps[q]));
    }
  }

  lemma {:induction false} InOrder(ss: seq<Sys>, ls: seq<Label>, n: nat, k: nat, steps: seq<ActionStep>,
                                   js: seq<nat>, ps: seq<nat>)
    requires |ss| == |ls| + 1 && ChecksDone(ss, ls, n, k, steps, js, ps)
    ensures forall q :: 0 <= q < |js| ==> js[0] <= js[q] <= ps[q] < n
  {
    if |js| > 1 {
      var m := |js| - 1;
      InOrder(ss, ls, n, k, steps, js[..m], ps[..m]);
      assert js[m - 1] == js[..m][m - 1];
    }
    hide PassesAcross;
  }
}
