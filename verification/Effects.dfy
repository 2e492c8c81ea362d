/** What each remediation step does to the objects, field by field. */
module Effects {
  import opened Text
  import opened Domain
  import opened ReplicaSets
  import opened Sorting
  import opened Cluster

  /** A remediator is wired and the namespace is not protected. */
  predicate Open(x: Wiring, ns: string) {
    x.k8s.Some? && ns !in x.k8s.value.protected
  }

  // ----- One step -----

  lemma PatchEffect(x: Wiring, c: State, step: ActionStep, o: Weather, ns: string, name: string, n: int)
    requires step.tool.PatchHPAMaxReplicas? && Denotes(step, ns, name) && NumberArg(step.args, "max_replicas", n)
    ensures Error(x, c, step, o).None? <==>
              Open(x, ns) && 1 <= n <= x.k8s.value.cap && !o.callFails && (ns, name) in c.hpas
    ensures Error(x, c, step, o).None? ==>
              var k := (ns, name);
              After(x, c, step, o) == c.(hpas := c.hpas[k := c.hpas[k].(max := n)], writes := c.writes + [HpaMax(k, n)])
    ensures Error(x, c, step, o).Some? ==> After(x, c, step, o) == c
  {
    hide Denotes, NumberArg, ArgInt32, Named;
    DenotesExactly(step, ns, name);
    NumberArgExactly(step.args, "max_replicas", n);
  }

  lemma ScaleEffect(x: Wiring, c: State, step: ActionStep, o: Weather, ns: string, name: string, n: int)
    requires step.tool.ScaleDeployment? && Denotes(step, ns, name) && NumberArg(step.args, "replicas", n)
    ensures Error(x, c, step, o).None? <==>
              Open(x, ns) && 1 <= n <= x.k8s.value.cap && !o.callFails && (ns, name) in c.deployments
    ensures Error(x, c, step, o).None? ==>
              var k := (ns, name);
              After(x, c, step, o) ==
              c.(deployments := c.deployments[k := c.deployments[k].(replicas := Some(n))],
                 writes := c.writes + [Scaled(k, n)])
    ensures Error(x, c, step, o).Some? ==> After(x, c, step, o) == c
  {
    hide Denotes, NumberArg, ArgInt32, Named;
    DenotesExactly(step, ns, name);
    NumberArgExactly(step.args, "replicas", n);
  }

  lemma RestartEffect(x: Wiring, c: State, step: ActionStep, o: Weather, ns: string, name: string)
    requires step.tool.RestartRollout? && Denotes(step, ns, name)
    ensures Error(x, c, step, o).None? <==> Open(x, ns) && !o.callFails && (ns, name) in c.deployments
    ensures Error(x, c, step, o).None? ==>
              var k := (ns, name);
              var d := c.deployments[k];
              After(x, c, step, o) ==
              c.(deployments := c.deployments[k := d.(template := Template(d.template.spec, o.now))],
                 writes := c.writes + [Restarted(k, o.now)])
    ensures Error(x, c, step, o).Some? ==> After(x, c, step, o) == c
  {
    hide Denotes, Named;
    DenotesExactly(step, ns, name);
  }

  lemma DeleteEffect(x: Wiring, c: State, step: ActionStep, o: Weather, ns: string, name: string)
    requires step.tool.DeleteCrashLoopPod? && Denotes(step, ns, name)
    ensures Error(x, c, step, o).None? <==>
              && Open(x, ns) && !o.callFails && (ns, name) in c.pods
              && exists y :: y in c.pods[(ns, name)].containers && Loops(y)
    ensures Error(x, c, step, o).None? ==>
              var k := (ns, name);
              After(x, c, step, o) ==
              c.(pods := map q | q in c.pods && q != k :: c.pods[q], writes := c.writes + [PodDeleted(k)])
    ensures Error(x, c, step, o).Some? ==> After(x, c, step, o) == c
  {
    hide Denotes, Named, IsCrashLoop, Loops;
    DenotesExactly(step, ns, name);
    if (ns, name) in c.pods {
      CrashLoopExactly(c.pods[(ns, name)]);
    }
  }

  /** The write of a group's size stands even if reading it back fails and the step with it. */
  lemma AsgEffect(x: Wiring, c: State, step: ActionStep, o: Weather, name: string, n: int)
    requires step.tool.UpdateASGDesired? && TextArg(step.args, "name", name)
             && NumberArg(step.args, "desired_capacity", n)
    ensures var wrote := x.aws && 0 <= n <= 30 && !o.callFails && name in c.asgs;
            && (Error(x, c, step, o).None? <==> wrote && !o.readBackFails)
            && After(x, c, step, o) ==
               if wrote then c.(asgs := c.asgs[name := n], writes := c.writes + [AsgDesired(name, n)]) else c
  {
    hide NumberArg, TextArg, ArgInt32, ArgString;
    TextArgExactly(step.args, "name", name);
    NumberArgExactly(step.args, "desired_capacity", n);
  }

  /** No tool the executor does not know does anything. */
  lemma UnknownEffect(x: Wiring, c: State, step: ActionStep, o: Weather)
    requires step.tool.OtherTool?
    ensures Error(x, c, step, o) == Some(UnknownTool) && After(x, c, step, o) == c
  {
  }

  // ----- Rollback -----

  /** Some owner reference of `rs` names this Deployment, by kind, name and uid. */
  ghost predicate Owns(name: string, uid: string, rs: ReplicaSet) {
    exists ref :: ref in rs.owners && ref.kind == "Deployment" && ref.name == name && ref.uid == uid
  }

  lemma OwnsExactly(name: string, uid: string, rs: ReplicaSet)
    ensures OwnedByDeployment(rs, name, uid) <==> Owns(name, uid, rs)
  {
  }

  lemma RollbackFinds(x: Wiring, c: State, step: ActionStep, o: Weather, ns: string, name: string)
    requires step.tool.RollbackDeployment? && Denotes(step, ns, name) && Error(x, c, step, o).None?
    ensures (ns, name) in c.deployments && (ns, name) in After(x, c, step, o).deployments
  {
    hide Denotes, Named;
    DenotesExactly(step, ns, name);
  }

  /** A rollback that succeeds installs the template of the owned ReplicaSet with exactly one
      newer revision, and changes nothing else of the Deployment. */
  lemma RollbackInstalls(x: Wiring, c: State, step: ActionStep, o: Weather, ns: string, name: string)
      returns (newest: ReplicaSet, prev: ReplicaSet)
    requires step.tool.RollbackDeployment? && Denotes(step, ns, name) && Error(x, c, step, o).None?
    requires ns in c.replicaSets && (ns, name) in c.deployments
             && ProperRevisions(Owned(c.replicaSets[ns], name, c.deployments[(ns, name)].uid))
    ensures var k, uid, list := (ns, name), c.deployments[(ns, name)].uid, c.replicaSets[ns];
            && newest in list && Owns(name, uid, newest) && prev in list && Owns(name, uid, prev)
            && Atoi(newest.revision).value > Atoi(prev.revision).value
            && (forall rs :: rs in list && Owns(name, uid, rs) && rs != newest && rs != prev ==>
                  Atoi(rs.revision).value < Atoi(prev.revision).value)
            && After(x, c, step, o) ==
               c.(deployments := c.deployments[k := c.deployments[k].(template := prev.template)],
                  writes := c.writes + [RolledBack(k, prev.template)])
  {
    hide Denotes, Named, Owns, OwnedByDeployment, Atoi, StableSort, AnySort, NewerRevision;
    DenotesExactly(step, ns, name);
    var k, uid, list := (ns, name), c.deployments[(ns, name)].uid, c.replicaSets[ns];
    var owned := Owned(list, name, uid);
    OrderIsForced(owned, o.order);
    OnlyOneGreater(owned);
    newest, prev := StableSort(owned, NewerRevision)[0], StableSort(owned, NewerRevision)[1];
    assert newest in Greater(owned, prev);
    forall rs | rs in list ensures OwnedByDeployment(rs, name, uid) <==> Owns(name, uid, rs) {
      OwnsExactly(name, uid, rs);
    }
    forall rs | rs in owned && rs != newest && rs != prev
      ensures Atoi(rs.revision).value < Atoi(prev.revision).value
    {
      assert rs !in Greater(owned, prev);
      OwnRevision(owned, rs, prev);
    }
  }

  lemma OwnRevision(owned: seq<ReplicaSet>, a: ReplicaSet, b: ReplicaSet)
    requires ProperRevisions(owned) && a in owned && b in owned && a != b
    ensures Rev(a) != Rev(b)
  {
  }
}
