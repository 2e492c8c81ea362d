/** What a persisted `resolved` does not say once others change the cluster: a deleted pod may
    be back, crash-looping, and the plan as a whole may at no moment have verified. */
module Recreated {
  import opened Domain
  import opened Cluster
  import ReplicaSets
  import opened Verifier
  import opened Machine
  import opened Interleaved
  import opened Checks
  import opened Plays
  import opened Races
  import opened Scenarios

  // ----- A pod that comes back -----

  function Deletion(ns: string, name: string): ActionStep {
    ActionStep(DeleteCrashLoopPod, map["namespace" := StringArg(ns), "name" := StringArg(name)])
  }

  lemma DeletionNames(ns: string, name: string)
    ensures Named(Deletion(ns, name)) == (ns, name)
  {
  }

  /** A cluster with one crash-looping pod. */
  function Looping(ns: string, name: string): State {
    State(map[], map[], map[], map[(ns, name) := LOOPING], map[], [])
  }

  lemma DeletionSucceeds(x: Wiring, c: State, ns: string, name: string)
    requires x.k8s.Some? && ns !in x.k8s.value.protected
    requires (ns, name) in c.pods && IsCrashLoop(c.pods[(ns, name)])
    ensures Error(x, c, Deletion(ns, name), CALM).None?
  {
    DeletionNames(ns, name);
    hide Named, IsCrashLoop;
  }

  /** The recreated pod passes although it can be read and crash-loops. */
  lemma LoopingPasses(c: State, ns: string, name: string)
    requires (ns, name) in c.pods && c.pods[(ns, name)] == LOOPING
    ensures IsCrashLoop(LOOPING) && Seen(c, Deletion(ns, name), CLEAR) == Good
  {
    hide IsCrashLoop, ShowsCrashLoop, Passes;
    CrashLoopIsNotShown();
    DeletionNames(ns, name);
    PodCheckExactly(c, Deletion(ns, name), CLEAR);
  }

  lemma LoopingIsFresh(ns: string, name: string)
    ensures var c := Looping(ns, name);
            c.writes == [] && (ns, name) in c.pods && c.pods[(ns, name)] == LOOPING && IsCrashLoop(LOOPING)
  {
    CrashLoopIsNotShown();
  }

  /** Undisturbed, the deleted pod is gone and passes for that. */
  lemma GonePasses(x: Wiring, c: State, ns: string, name: string)
    requires x.k8s.Some? && ns !in x.k8s.value.protected
    requires (ns, name) in c.pods && IsCrashLoop(c.pods[(ns, name)])
    ensures Seen(After(x, c, Deletion(ns, name), CALM), Deletion(ns, name), CLEAR) == Good
  {
    DeletionNames(ns, name);
    hide Named, IsCrashLoop, PodReason;
  }

  lemma LoopingPod(c: State, ns: string, name: string)
    requires c.pods == Looping(ns, name).pods
    ensures (ns, name) in c.pods && c.pods[(ns, name)] == LOOPING
  {
  }

  /** An alert proposing these steps comes to wait, and is approved: up to its executor entry. */
  lemma ApprovedRun(cfg: Config, c: State, id: Id, steps: seq<ActionStep>, actor: string)
      returns (ss: seq<Sys>, ls: seq<Label>)
    requires actor in cfg.approvers && c.writes == [] && steps != []
    ensures Run(cfg, ss, ls) && |ss| == |ls| + 1 && Serialised(ss, ls)
    ensures forall l :: l in ls ==> Plain(l)
    ensures var s := ss[|ls|];
            && |s.threads| == 2 && id in s.w.store && s.w.cluster == c
            && var t := s.threads[1];
               && t.pc == Running(0) && t.call == Approve(id, actor)
               && t.inc == Waiting(id, steps).(status := Executing)
  {
    hide Run, Serialised, Play, IsPlay, Start, Launched, Plain, Untroubled;
    var es := AlertWaits(cfg, World(map[], [], c), id, steps);
    ss, ls := AlertRun(cfg, c, id, es);
    LaunchedHolds(cfg, Approve(id, actor), Waiting(id, steps));
    ss, ls := ApproveMore(cfg, ss, ls, Approve(id, actor));
  }

  /** No port fails and no call is cut short. */
  ghost predicate Fine(ls: seq<Label>) {
    forall l :: l in ls ==> !l.Crash? && (l.Port? ==> Untroubled(l.e))
  }

  lemma AllPlain(ls: seq<Label>)
    requires forall l :: l in ls ==> Plain(l)
    ensures Fine(ls)
  {
    hide Untroubled;
  }

  lemma OneMoreFine(ls: seq<Label>, ls': seq<Label>)
    requires Fine(ls) && ls <= ls'
    requires forall i :: |ls| <= i < |ls'| ==> !ls'[i].Crash? && (ls'[i].Port? ==> Untroubled(ls'[i].e))
    ensures Fine(ls')
  {
    hide Untroubled;
    forall i | 0 <= i < |ls'| ensures !ls'[i].Crash? && (ls'[i].Port? ==> Untroubled(ls'[i].e)) {
      assert i < |ls| ==> ls'[i] == ls[i] && ls[i] in ls;
    }
  }

  /** The approved deletion has succeeded, in a run that was plain before: up to the door of the
      verifier. */
  lemma DeletedRun(cfg: Config, ns: string, name: string, id: Id, actor: string)
      returns (ss: seq<Sys>, ls: seq<Label>, before: seq<Label>)
    requires cfg.verifier && actor in cfg.approvers && cfg.wires.k8s.Some? && ns !in cfg.wires.k8s.value.protected
    ensures Run(cfg, ss, ls) && |ss| == |ls| + 1 && Serialised(ss, ls)
    ensures ls == before + [Port(1, Remediate(id, 0, Deletion(ns, name), CALM, true))]
    ensures forall l :: l in before ==> Plain(l)
    ensures var s := ss[|ls|];
            && |s.threads| == 2 && id in s.w.store && s.threads[1].pc == Verifying(0)
            && s.threads[1].inc == Waiting(id, [Deletion(ns, name)]).(status := Executing)
  {
    hide Run, Serialised, IsCrashLoop, Deletion, Looping, Error, After, Plain;
    LoopingIsFresh(ns, name);
    DeletionSucceeds(cfg.wires, Looping(ns, name), ns, name);
    ss, before := ApprovedRun(cfg, Looping(ns, name), id, [Deletion(ns, name)], actor);
    ss, ls := StepMore(cfg, ss, before, 1);
  }

  /** A run in which calls come one after the other and no port fails, with just one change
      from outside: after the approved deletion has succeeded, at step `m`, the pod is back
      crash-looping, at step `n`, and the incident is nevertheless persisted as resolved. */
  lemma ResolvedWhileLooping(cfg: Config, ns: string, name: string, id: Id, actor: string)
      returns (ss: seq<Sys>, ls: seq<Label>, m: nat, n: nat)
    requires cfg.verifier && actor in cfg.approvers && cfg.wires.k8s.Some? && ns !in cfg.wires.k8s.value.protected
    ensures Run(cfg, ss, ls) && |ss| == |ls| + 1 && Serialised(ss, ls) && ls != []
    ensures Fine(ls)
    ensures m < n < |ls| && ls[n].Outside? && (forall i :: 0 <= i < |ls| && i != n ==> !ls[i].Outside?)
    ensures ls[m].Port? && ls[m].e.Remediate? && ls[m].e.ok && ls[m].e.step == Deletion(ns, name)
    ensures var l, c := ls[|ls| - 1], ss[|ls|].w.cluster;
            && Persists(l, id, Resolved) && l.e.inc.plan == Some(Proposed([Deletion(ns, name)]))
            && (ns, name) in c.pods && IsCrashLoop(c.pods[(ns, name)])
  {
    hide Run, Serialised, Seen, IsCrashLoop, Deletion, Plain, Fine;
    var before;
    ss, ls, before := DeletedRun(cfg, ns, name, id, actor);
    m, n := |before|, |before| + 1;
    ss, ls := OutsideMore(cfg, ss, ls, Looping(ns, name));
    LoopingPod(ss[|ls|].w.cluster, ns, name);
    LoopingPasses(ss[|ls|].w.cluster, ns, name);
    ss, ls := LookMore(cfg, ss, ls, 1);
    ss, ls := ResolveMore(cfg, ss, ls, 1);
    OnlyOneOutside(before, ls);
  }

  /** A deletion and a change from outside among labels that are otherwise plain. */
  lemma OnlyOneOutside(before: seq<Label>, ls: seq<Label>)
    requires before <= ls && |before| + 2 <= |ls| && forall l :: l in before ==> Plain(l)
    requires forall i :: |before| + 2 <= i < |ls| ==> Plain(ls[i])
    requires ls[|before|].Port? && Untroubled(ls[|before|].e) && ls[|before| + 1].Outside?
    ensures Fine(ls) && forall i :: 0 <= i < |ls| && i != |before| + 1 ==> !ls[i].Outside?
  {
    hide Untroubled;
    forall i | 0 <= i < |ls| && i != |before| && i != |before| + 1 ensures Plain(ls[i]) {
      assert i < |before| ==> ls[i] == before[i];
    }
  }

  // ----- A plan that verifies at no moment -----

  function Restart(ns: string, name: string): ActionStep {
    ActionStep(RestartRollout, map["namespace" := StringArg(ns), "name" := StringArg(name)])
  }

  function Copy(up: bool): Deployment {
    Deployment("", None, 0, if up then 0 else 1, ReplicaSets.Template("", ""))
  }

  /** A cluster with two Deployments, each up or down. */
  function Pair(ns: string, a: string, b: string, upA: bool, upB: bool): State {
    State(map[], map[(ns, a) := Copy(upA), (ns, b) := Copy(upB)], map[], map[], map[], [])
  }

  lemma PairReady(c: State, ns: string, a: string, b: string, upA: bool, upB: bool)
    requires a != b && c.deployments == Pair(ns, a, b, upA, upB).deployments
    ensures WorkloadReady(c, (ns, a)) == upA && WorkloadReady(c, (ns, b)) == upB
    ensures (ns, a) in c.deployments && (ns, b) in c.deployments
  {
  }

  /** A restart succeeds and touches no count of replicas. */
  lemma RestartKeeps(x: Wiring, c: State, ns: string, name: string, k: Key)
    requires x.k8s.Some? && ns !in x.k8s.value.protected && (ns, name) in c.deployments
    ensures Error(x, c, Restart(ns, name), CALM).None?
    ensures var d := After(x, c, Restart(ns, name), CALM);
            (k in d.deployments <==> k in c.deployments) && WorkloadReady(d, k) == WorkloadReady(c, k)
  {
    RestartNames(ns, name);
    hide Named;
  }

  lemma RestartNames(ns: string, name: string)
    ensures Named(Restart(ns, name)) == (ns, name)
  {
  }

  lemma RestartCheck(c: State, ns: string, name: string, r: Reads)
    ensures Passes(c, Restart(ns, name), r) <==> !r.deploymentFails && WorkloadReady(c, (ns, name))
    ensures WorkloadReady(c, (ns, name)) ==> Seen(c, Restart(ns, name), CLEAR) == Good
  {
    RestartNames(ns, name);
    hide Named, WorkloadReady;
  }

  ghost predicate OneDown(c: State, ns: string, a: string, b: string) {
    !WorkloadReady(c, (ns, a)) || !WorkloadReady(c, (ns, b))
  }

  ghost predicate AlwaysOneDown(ss: seq<Sys>, ns: string, a: string, b: string) {
    forall i :: 0 <= i < |ss| ==> OneDown(ss[i].w.cluster, ns, a, b)
  }

  lemma StillOneDown(ss: seq<Sys>, ss': seq<Sys>, ns: string, a: string, b: string)
    requires AlwaysOneDown(ss, ns, a, b) && ss <= ss'
    requires forall i :: |ss| <= i < |ss'| ==> OneDown(ss'[i].w.cluster, ns, a, b)
    ensures AlwaysOneDown(ss', ns, a, b)
  {
    hide OneDown;
    forall i | 0 <= i < |ss'| ensures OneDown(ss'[i].w.cluster, ns, a, b) {
      assert i < |ss| ==> ss'[i] == ss[i];
    }
  }

  lemma OneDownFails(c: State, ns: string, a: string, b: string, rs: seq<Reads>)
    requires OneDown(c, ns, a, b)
    ensures !Verified(c, Some(Proposed([Restart(ns, a), Restart(ns, b)])), rs)
  {
    hide WorkloadReady, Passes, Restart;
    RestartCheck(c, ns, a, ReadsAt(rs, 0));
    RestartCheck(c, ns, b, ReadsAt(rs, 1));
    var steps := [Restart(ns, a), Restart(ns, b)];
    assert steps[0] == Restart(ns, a) && steps[1] == Restart(ns, b);
  }

  lemma PlainIsStill(cfg: Config, ss: seq<Sys>, ls: seq<Label>, ns: string, a: string, b: string)
    requires Run(cfg, ss, ls) && |ss| == |ls| + 1 && OneDown(ss[|ls|].w.cluster, ns, a, b)
    requires forall l :: l in ls ==> Plain(l)
    ensures AlwaysOneDown(ss, ns, a, b)
  {
    hide Run, OneDown, Untroubled;
    forall i | 0 <= i < |ss| ensures OneDown(ss[i].w.cluster, ns, a, b) {
      assert forall q :: i <= q < |ls| ==> ls[q] in ls;
      SameCluster(cfg, ss, ls, i, |ls|);
    }
  }

  /** Both Deployments are restarted: up to the door of the verifier. */
  lemma RestartBoth(cfg: Config, ns: string, a: string, b: string, id: Id, actor: string)
      returns (ss: seq<Sys>, ls: seq<Label>)
    requires cfg.verifier && actor in cfg.approvers && cfg.wires.k8s.Some? && ns !in cfg.wires.k8s.value.protected
    requires a != b
    ensures Run(cfg, ss, ls) && |ss| == |ls| + 1 && Serialised(ss, ls) && AlwaysOneDown(ss, ns, a, b)
    ensures Fine(ls)
    ensures var s := ss[|ls|];
            && |s.threads| == 2 && id in s.w.store && s.threads[1].pc == Verifying(0)
            && s.threads[1].inc == Waiting(id, [Restart(ns, a), Restart(ns, b)]).(status := Executing)
  {
    hide Run, Serialised, Seen, Error, After, Restart, Pair, WorkloadReady, Plain;
    var c := Pair(ns, a, b, false, false);
    PairReady(c, ns, a, b, false, false);
    NoWrites(ns, a, b);
    ss, ls := ApprovedRun(cfg, c, id, [Restart(ns, a), Restart(ns, b)], actor);
    PlainIsStill(cfg, ss, ls, ns, a, b);
    AllPlain(ls);
    RestartKeeps(cfg.wires, c, ns, a, (ns, a));
    RestartKeeps(cfg.wires, c, ns, a, (ns, b));
    var ss', ls' := StepMore(cfg, ss, ls, 1);
    StillOneDown(ss, ss', ns, a, b);
    OneMoreFine(ls, ls');
    var c' := ss'[|ls'|].w.cluster;
    RestartKeeps(cfg.wires, c', ns, b, (ns, a));
    RestartKeeps(cfg.wires, c', ns, b, (ns, b));
    ss, ls := StepMore(cfg, ss', ls', 1);
    StillOneDown(ss', ss, ns, a, b);
    OneMoreFine(ls', ls);
  }

  lemma NoWrites(ns: string, a: string, b: string)
    ensures Pair(ns, a, b, false, false).writes == []
  {
  }

  /** One Deployment comes up as the other goes down, and is checked. */
  lemma GlimpseMore(cfg: Config, ss: seq<Sys>, ls: seq<Label>, ns: string, a: string, b: string, upA: bool)
      returns (ss': seq<Sys>, ls': seq<Label>)
    requires Run(cfg, ss, ls) && |ss| == |ls| + 1 && Serialised(ss, ls) && AlwaysOneDown(ss, ns, a, b) && Fine(ls)
    requires a != b && |ss[|ls|].threads| == 2
    requires var t := ss[|ls|].threads[1];
             && t.pc.Verifying? && t.inc.plan.Some? && t.pc.i < |t.inc.plan.value.steps|
             && t.inc.plan.value.steps[t.pc.i] == Restart(ns, if upA then a else b)
    ensures Run(cfg, ss', ls') && |ss'| == |ls'| + 1 && Serialised(ss', ls')
    ensures AlwaysOneDown(ss', ns, a, b) && Fine(ls')
    ensures var s, s' := ss[|ls|], ss'[|ls'|];
            var t := s.threads[1];
            && s'.threads == s.threads[1 := t.(pc := AfterCheck(t, t.pc.i))] && s'.w.store == s.w.store
            && OneDown(s'.w.cluster, ns, a, b)
  {
    hide Run, Serialised, Seen, Restart, Pair, WorkloadReady, AlwaysOneDown, Fine, AfterCheck;
    var ss1, ls1 := OutsideMore(cfg, ss, ls, Pair(ns, a, b, upA, !upA));
    PairReady(ss1[|ls1|].w.cluster, ns, a, b, upA, !upA);
    RestartCheck(ss1[|ls1|].w.cluster, ns, if upA then a else b, CLEAR);
    StillOneDown(ss, ss1, ns, a, b);
    OneMoreFine(ls, ls1);
    ss', ls' := LookMore(cfg, ss1, ls1, 1);
    StillOneDown(ss1, ss', ns, a, b);
    OneMoreFine(ls1, ls');
  }

  /** A run in which calls come one after the other and no port fails, that persists an approved
      plan as resolved although it verifies at no moment of the run: the Deployment checked
      first goes down as the other comes up, between the two checks. */
  lemma ResolvedThoughNeverVerified(cfg: Config, ns: string, a: string, b: string, id: Id, actor: string)
      returns (ss: seq<Sys>, ls: seq<Label>)
    requires cfg.verifier && actor in cfg.approvers && cfg.wires.k8s.Some? && ns !in cfg.wires.k8s.value.protected
    requires a != b
    ensures Run(cfg, ss, ls) && |ss| == |ls| + 1 && Serialised(ss, ls) && ls != []
    ensures Fine(ls)
    ensures var plan := Some(Proposed([Restart(ns, a), Restart(ns, b)]));
            && Persists(ls[|ls| - 1], id, Resolved) && ls[|ls| - 1].e.inc.plan == plan
            && forall i, rs :: 0 <= i < |ss| ==> !Verified(ss[i].w.cluster, plan, rs)
  {
    hide Run, Serialised, Restart, OneDown, Untroubled, Verified;
    var before, labels := RestartBoth(cfg, ns, a, b, id, actor);
    before, labels := GlimpseMore(cfg, before, labels, ns, a, b, true);
    before, labels := GlimpseMore(cfg, before, labels, ns, a, b, false);
    ss, ls := ResolveMore(cfg, before, labels, 1);
    StillOneDown(before, ss, ns, a, b);
    OneMoreFine(labels, ls);
    forall i, rs | 0 <= i < |ss|
      ensures !Verified(ss[i].w.cluster, Some(Proposed([Restart(ns, a), Restart(ns, b)])), rs)
    {
      OneDownFails(ss[i].w.cluster, ns, a, b, rs);
    }
  }
}
