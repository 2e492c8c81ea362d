/** The services taking calls one after the other: what the methods do is a serialised run, and
    so everything proved of such runs holds of them. */
module Server {
  import opened Machine
  import opened Plays
  import opened Service
  import opened Cluster
  import opened Interleaved
  import opened Serial

  /** Alerts get fresh ids. */
  predicate FreshIds(calls: seq<Call>) {
    forall i, j :: 0 <= i < j < |calls| && calls[i].Alert? && calls[j].Alert? ==> calls[i].id != calls[j].id
  }

  lemma FreshPrefix(calls: seq<Call>, n: nat)
    requires FreshIds(calls) && n <= |calls|
    ensures FreshIds(calls[..n])
  {
  }

  /** The run from world `w` so far served exactly these calls, and each has finished. */
  ghost predicate Served(cfg: Config, w: World, ss: seq<Sys>, ls: seq<Label>, calls: seq<Call>) {
    && Run(cfg, ss, ls) && |ss| == |ls| + 1 && Serialised(ss, ls) && NoOutside(ls) && NoCrash(ls)
    && ss[0].w == w
    && var s := ss[|ls|];
       && |s.threads| == |calls|
       && (forall i :: 0 <= i < |calls| ==> s.threads[i].call == calls[i] && s.threads[i].pc.Done?)
       && (forall id :: id in s.owner ==> exists i :: 0 <= i < |calls| && calls[i].Alert? && calls[i].id == id)
  }

  lemma ServedNothing(cfg: Config, w: World)
    requires w.store == map[] && w.audit == [] && w.cluster.writes == []
    ensures Served(cfg, w, [Sys(w, [], map[], [])], [], [])
  {
  }

  lemma ServedOneMore(cfg: Config, w: World, ss: seq<Sys>, ls: seq<Label>, calls: seq<Call>, call: Call, es: seq<Event>)
      returns (ss': seq<Sys>, ls': seq<Label>)
    requires Served(cfg, w, ss, ls, calls) && FreshIds(calls + [call])
    requires IsPlay(cfg, ss[|ls|].w, Start(cfg, call), es)
    requires Play(cfg, ss[|ls|].w, Start(cfg, call), es).1.pc.Done?
    ensures Served(cfg, w, ss', ls', calls + [call])
    ensures ss'[|ls'|].w == Play(cfg, ss[|ls|].w, Start(cfg, call), es).0
  {
    hide Run, Serialised, NoOutside, NoCrash, Play, IsPlay, Start;
    var all := calls + [call];
    assert forall i :: 0 <= i < |calls| ==> all[i] == calls[i];
    assert all[|calls|] == call;
    StartCall(cfg, call);
    PlayKeepsCall(cfg, ss[|ls|].w, Start(cfg, call), es);
    ss', ls' := PlayIsRun(cfg, ss, ls, call, es);
    RunShape(cfg, ss', ls');
    var s' := ss'[|ls'|];
    forall id | id in s'.owner ensures exists i :: 0 <= i < |all| && all[i].Alert? && all[i].id == id {
      if call.Alert? && id == call.id {
        assert all[|calls|].id == id;
      } else {
        var i :| 0 <= i < |calls| && calls[i].Alert? && calls[i].id == id;
        assert all[i].id == id;
      }
    }
  }

  lemma ServedShape(cfg: Config, w: World, ss: seq<Sys>, ls: seq<Label>, calls: seq<Call>)
    requires Served(cfg, w, ss, ls, calls)
    ensures ss != [] && ss[0].w == w && Run(cfg, ss, ls) && |ss| == |ls| + 1 && Serialised(ss, ls) && NoOutside(ls)
            && NoCrash(ls)
  {
    hide Run;
  }

  /** No incident entered the executor twice. */
  ghost predicate ExecutedOnce(s: Sys) {
    forall i, j :: 0 <= i < j < |s.entries| ==> s.entries[i].id != s.entries[j].id
  }

  /** What the theorems about runs say of the repository and the cluster after these calls. */
  lemma ServedSafely(cfg: Config, w: World, ss: seq<Sys>, ls: seq<Label>, calls: seq<Call>)
    requires Served(cfg, w, ss, ls, calls)
    ensures Kept(cfg, w.cluster, ss[|ls|].w.cluster)
    ensures ExecutedOnce(ss[|ls|])
  {
    hide Run, SafeWrite, SameNamespace, WithinCaps;
    ExecutedAtMostOnce(cfg, ss, ls);
    ClusterStaysSafe(cfg, ss, ls, "");
    forall ns | cfg.wires.k8s.Some? && ns in cfg.wires.k8s.value.protected
      ensures SameNamespace(w.cluster, ss[|ls|].w.cluster, ns)
    {
      ClusterStaysSafe(cfg, ss, ls, ns);
    }
  }

  /** Every write was within the guards, every size is the original one or within its cap, and
      protected namespaces are untouched. */
  ghost predicate Kept(cfg: Config, c: State, d: State) {
    && (forall w :: w in d.writes ==> SafeWrite(cfg.wires, w))
    && WithinCaps(cfg.wires, c, d)
    && (cfg.wires.k8s.Some? ==> forall ns :: ns in cfg.wires.k8s.value.protected ==> SameNamespace(c, d, ns))
  }

  method ServeOne(approval: ApprovalService, call: Call)
    requires approval.Ready()
    modifies approval.incidents.ports, approval.incidents.ports.exec.api
    ensures approval.incidents.ports.Completed(call, old(approval.incidents.ports.W()))
  {
    match call
    case Alert(id, labels, fingerprint) =>
      var _ := approval.incidents.HandleAlert(id, labels, fingerprint);
    case Approve(id, actor) =>
      var _ := approval.Approve(id, actor);
    case Reject(id, actor) =>
      var _ := approval.Reject(id, actor);
    case FollowUp(id, actor, question) =>
      var _ := approval.FollowUp(id, actor, question);
  }

  /** Serves any sequence of calls. The result is witnessed by a serialised run from the empty
      repository to the present one, and so the cluster is kept and no incident executed twice. */
  method Serve(approval: ApprovalService, calls: seq<Call>) returns (ghost ss: seq<Sys>, ghost ls: seq<Label>)
    requires approval.Ready() && FreshIds(calls)
    requires var w := approval.incidents.ports.W(); w.store == map[] && w.audit == [] && w.cluster.writes == []
    modifies approval.incidents.ports, approval.incidents.ports.exec.api
    ensures Served(approval.incidents.ports.cfg, old(approval.incidents.ports.W()), ss, ls, calls)
    ensures ss[|ls|].w == approval.incidents.ports.W()
    ensures Kept(approval.incidents.ports.cfg, old(approval.incidents.ports.W()).cluster,
                 approval.incidents.ports.W().cluster)
    ensures ExecutedOnce(ss[|ls|])
  {
    hide Served, Kept, ExecutedOnce, Play, IsPlay, Next, Start, FreshIds;
    ghost var ports := approval.incidents.ports;
    ghost var w := ports.W();
    ss, ls := [Sys(w, [], map[], [])], [];
    ServedNothing(ports.cfg, w);
    for i := 0 to |calls|
      invariant approval.Ready()
      invariant Served(ports.cfg, w, ss, ls, calls[..i]) && |ss| == |ls| + 1 && ss[|ls|].w == ports.W()
    {
      var call := calls[i];
      ServeOne(approval, call);
      assert calls[..i + 1] == calls[..i] + [call];
      FreshPrefix(calls, i + 1);
      ss, ls := ServedOneMore(ports.cfg, w, ss, ls, calls[..i], call, ports.log);
      ServedShape(ports.cfg, w, ss, ls, calls[..i + 1]);
    }
    assert calls[..|calls|] == calls;
    ServedSafely(ports.cfg, w, ss, ls, calls);
  }
}
