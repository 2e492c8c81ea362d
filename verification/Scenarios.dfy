/** Runs built step by step in which no port fails: an alert that comes to wait, its approval,
    and the execution and verification up to the persisted `resolved`. */
module Scenarios {
  import opened Domain
  import opened Cluster
  import opened Verifier
  import Policy
  import opened Machine
  import opened Plays
  import opened Dispatching
  import opened Races

  /** The port call does not fail. */
  predicate Untroubled(e: Event) {
    match e
    case Load(_, found) => found.Some?
    case MatchBooks(_, books) => books.Some?
    case ListBooks(books) => books.Some?
    case Investigate(_, _, plan) => plan.Some?
    case Look(_, _, _, faults, _) => faults == CLEAR
    case Probe(_, _, fails, _) => !fails
    case _ => e.ok
  }

  /** No failure, no crash and no change of the cluster. */
  predicate Plain(l: Label) {
    !l.Outside? && !l.Crash? && (l.Port? ==> Untroubled(l.e) && !l.e.Remediate?)
  }

  // ----- An alert that comes to wait -----

  function Proposed(steps: seq<ActionStep>): ActionPlan {
    ActionPlan(RequiresApproval, 0.0, "", steps)
  }

  function Waiting(id: Id, steps: seq<ActionStep>): Incident {
    Incident(id, AwaitingApproval, RequiresApproval, Some(Proposed(steps)), map[])
  }

  ghost function Opening(id: Id): seq<Event> {
    [Create(NewIncident(id, map[], ""), true)] + [Append(AuditRecord(id, "system", Ingested), true)]
  }

  lemma Opens(cfg: Config, w: World, id: Id)
    requires id !in w.store
    ensures var t, es := Start(cfg, Alert(id, map[], "")), Opening(id);
            && IsPlay(cfg, w, t, es)
            && Play(cfg, w, t, es).0.store == w.store[id := NewIncident(id, map[], "")]
            && Play(cfg, w, t, es).0.cluster == w.cluster
            && Play(cfg, w, t, es).1 == t.(pc := Pc.Matching)
  {
    hide OnMatch, OnList, OnPlan, OnLoad, OnStep, OnSave, ToSave, OnNotify, ToNotify;
    var t := Start(cfg, Alert(id, map[], ""));
    var c, a := Create(NewIncident(id, map[], ""), true), Append(AuditRecord(id, "system", Ingested), true);
    PlayOne(cfg, w, t, [], c);
    assert [] + [c] == [c];
    PlayOne(cfg, w, t, [c], a);
  }

  ghost function Parks(inc: Incident): seq<Event> {
    [Save(inc, true)] + [Append(AuditRecord(inc.id, "system", AwaitingHuman), true)]
  }

  lemma SaveParks(cfg: Config, w: World, t: Thread)
    requires t.pc == Parking && t.inc.id in w.store
    ensures var inc := t.inc.(risk := RequiresApproval, status := AwaitingApproval);
            && Possible(cfg, w, Save(inc, true))
            && Apply(cfg, w, Save(inc, true)) == w.(store := w.store[inc.id := inc])
            && Next(cfg, t, Save(inc, true)) == Some(t.(inc := inc, parked := true, pc := ParkAudit))
  {
    hide Enter;
  }

  lemma AuditParks(cfg: Config, w: World, t: Thread)
    requires t.pc == ParkAudit
    ensures var e := Append(AuditRecord(t.inc.id, "system", AwaitingHuman), true);
            && Possible(cfg, w, e) && Apply(cfg, w, e) == w.(audit := w.audit + [e.rec])
            && Next(cfg, t, e) == Some(t.(pc := if cfg.messaging then RequestingApproval else Done(Succeeded)))
  {
    hide Enter, CanAutoRemediate;
  }

  lemma ParksIt(cfg: Config, w: World, t: Thread)
    requires t.pc == Parking && t.inc.id in w.store
    ensures var inc := t.inc.(risk := RequiresApproval, status := AwaitingApproval);
            var es := Parks(inc);
            && IsPlay(cfg, w, t, es)
            && Play(cfg, w, t, es).0.store == w.store[inc.id := inc] && Play(cfg, w, t, es).0.cluster == w.cluster
            && Play(cfg, w, t, es).1 ==
               t.(inc := inc, parked := true, pc := if cfg.messaging then RequestingApproval else Done(Succeeded))
  {
    hide Next, Possible, Apply, Play, IsPlay;
    var inc := t.inc.(risk := RequiresApproval, status := AwaitingApproval);
    var s, a := Save(inc, true), Append(AuditRecord(inc.id, "system", AwaitingHuman), true);
    SaveParks(cfg, w, t);
    NothingPlayed(cfg, w, t);
    PlayOne(cfg, w, t, [], s);
    assert [] + [s] == [s];
    AuditParks(cfg, Play(cfg, w, t, [s]).0, Play(cfg, w, t, [s]).1);
    PlayOne(cfg, w, t, [s], a);
  }

  /** The model's own text may leave the risk out. */
  function Decoded(steps: seq<ActionStep>): ActionPlan {
    ActionPlan(OtherRisk(""), 0.0, "", steps)
  }

  lemma DecodedIsProposed(steps: seq<ActionStep>)
    ensures Policy.UnderPolicy(Policy.Normalised(Decoded(steps)), []) == Proposed(steps)
    ensures !CanAutoRemediate(Proposed(steps))
  {
    assert ParseRiskLevel("").None?;
  }

  /** An alert no runbook matches is parked with whatever steps the model proposed. */
  lemma AlertParks(cfg: Config, w: World, id: Id, steps: seq<ActionStep>) returns (es: seq<Event>)
    requires id !in w.store
    ensures var t := Start(cfg, Alert(id, map[], ""));
            var (w', u) := Play(cfg, w, t, es);
            && IsPlay(cfg, w, t, es)
            && w'.store == w.store[id := Waiting(id, steps)] && w'.cluster == w.cluster
            && u.inc == Waiting(id, steps) && u.call == t.call
            && u.pc == if cfg.messaging then RequestingApproval else Done(Succeeded)
    ensures forall e :: e in es ==> Untroubled(e) && !e.Remediate?
  {
    hide Play, IsPlay, Next, CanAutoRemediate, Policy.UnderPolicy, Policy.Normalised, Opening, Gathering, Answering,
         Parks;
    var t := Start(cfg, Alert(id, map[], ""));
    Opens(cfg, w, id);
    var (w1, t1) := Play(cfg, w, t, Opening(id));
    var t2 := Gathers(cfg, w1, t1, []);
    var gathering := Gathering(t1.inc.labels, []);
    PlayConcat(cfg, w, t, Opening(id), gathering);
    DecodedIsProposed(steps);
    var t3 := Answered(cfg, w1, t2, Decoded(steps));
    var answering := Answering(t2.inc.id, t2.context, Decoded(steps));
    PlayConcat(cfg, w, t, Opening(id) + gathering, answering);
    var (w3, _) := Play(cfg, w1, t2, answering);
    ParksIt(cfg, w3, t3);
    es := Opening(id) + gathering + answering + Parks(Waiting(id, steps));
    PlayConcat(cfg, w, t, Opening(id) + gathering + answering, Parks(Waiting(id, steps)));
    NothingFails(id, t1.inc.labels, t2.context, Decoded(steps), Waiting(id, steps));
  }

  lemma NothingFails(id: Id, labels: map<string, string>, context: seq<Runbook>, decoded: ActionPlan, inc: Incident)
    ensures forall e :: e in Opening(id) + Gathering(labels, []) + Answering(id, context, decoded) + Parks(inc) ==>
              Untroubled(e) && !e.Remediate?
  {
    hide Policy.UnderPolicy, Policy.Normalised, Domain.Matching;
  }

  /** The same alert, once its request for approval is delivered. */
  lemma AlertWaits(cfg: Config, w: World, id: Id, steps: seq<ActionStep>) returns (es: seq<Event>)
    requires id !in w.store
    ensures var t := Start(cfg, Alert(id, map[], ""));
            && IsPlay(cfg, w, t, es)
            && Play(cfg, w, t, es).0.store == w.store[id := Waiting(id, steps)]
            && Play(cfg, w, t, es).0.cluster == w.cluster
            && Play(cfg, w, t, es).1.pc == Done(Succeeded)
    ensures forall e :: e in es ==> Untroubled(e) && !e.Remediate?
  {
    hide IsPlay, Next, Possible, Apply, Play;
    es := AlertParks(cfg, w, id, steps);
    if cfg.messaging {
      var t := Start(cfg, Alert(id, map[], ""));
      var (w', u) := Play(cfg, w, t, es);
      MessageParks(cfg, w', u);
      PlayOne(cfg, w, t, es, Notify(u.inc.id, ApprovalRequest, true));
      es := es + [Notify(u.inc.id, ApprovalRequest, true)];
    }
  }

  lemma MessageParks(cfg: Config, w: World, t: Thread)
    requires t.pc == RequestingApproval
    ensures var e := Notify(t.inc.id, ApprovalRequest, true);
            Possible(cfg, w, e) && Apply(cfg, w, e) == w && Next(cfg, t, e) == Some(t.(pc := Done(Succeeded)))
  {
  }

  // ----- From waiting to executing -----

  lemma EmptyRun(cfg: Config, c: State)
    requires c.writes == []
    ensures var s := Sys(World(map[], [], c), [], map[], []);
            Run(cfg, [s], []) && Serialised([s], []) && NoOutside([]) && NoCrash([]) && Quiescent(s)
  {
  }

  /** The run of one such play of an alert from the empty repository. */
  lemma AlertRun(cfg: Config, c: State, id: Id, es: seq<Event>) returns (ss: seq<Sys>, ls: seq<Label>)
    requires c.writes == [] && IsPlay(cfg, World(map[], [], c), Start(cfg, Alert(id, map[], "")), es)
    requires forall e :: e in es ==> Untroubled(e) && !e.Remediate?
    ensures Run(cfg, ss, ls) && |ss| == |ls| + 1 && Serialised(ss, ls)
    ensures forall l :: l in ls ==> Plain(l)
    ensures var s := ss[|ls|];
            var (w, t) := Play(cfg, World(map[], [], c), Start(cfg, Alert(id, map[], "")), es);
            s.w == w && s.threads == [t]
  {
    hide Run, Serialised, Play, IsPlay, Start, Untroubled;
    EmptyRun(cfg, c);
    ss, ls := [Sys(World(map[], [], c), [], map[], [])], [];
    ss, ls := PlayIsRun(cfg, ss, ls, Alert(id, map[], ""), es);
    RunShape(cfg, ss, ls);
  }

  /** An approval that begins, reads the waiting incident, claims it and enters the executor. */
  lemma ApproveMore(cfg: Config, ss: seq<Sys>, ls: seq<Label>, call: Call) returns (ss': seq<Sys>, ls': seq<Label>)
    requires Run(cfg, ss, ls) && |ss| == |ls| + 1 && call.Approve? && call.actor in cfg.approvers
    requires call.id in ss[|ls|].w.store && ss[|ls|].w.store[call.id].status == AwaitingApproval
    requires ss[|ls|].w.store[call.id].id == call.id
    ensures Run(cfg, ss', ls') && |ss'| == |ls'| + 1 && ss <= ss'
    ensures Serialised(ss, ls) && Quiescent(ss[|ls|]) ==> Serialised(ss', ls')
    ensures ls <= ls' && forall i :: |ls| <= i < |ls'| ==> Plain(ls'[i])
    ensures var s, s' := ss[|ls|], ss'[|ls'|];
            var inc := s.w.store[call.id];
            && s'.w.cluster == s.w.cluster && s'.w.store == s.w.store[call.id := inc.(status := Executing)]
            && s'.threads == s.threads + [Launched(cfg, call, inc)]
  {
    hide Run, Serialised, Start, Launched, Poised, Quiescent;
    var k, inc := |ss[|ls|].threads|, ss[|ls|].w.store[call.id];
    ss', ls' := SpawnMore(cfg, ss, ls, call);
    ss', ls' := ReadMore(cfg, ss', ls', k, call);
    ss', ls' := EnterMore(cfg, ss', ls', k, call, inc);
  }

  lemma LaunchedHolds(cfg: Config, call: Call, inc: Incident)
    ensures var t := Launched(cfg, call, inc); t.inc == inc.(status := Executing) && t.call == call && t.env == []
    ensures inc.plan.Some? && inc.plan.value.steps != [] ==> Launched(cfg, call, inc).pc == Running(0)
  {
  }

  // ----- Executing, verifying and resolving -----

  /** The next step of the plan succeeds. */
  lemma StepMore(cfg: Config, ss: seq<Sys>, ls: seq<Label>, k: nat) returns (ss': seq<Sys>, ls': seq<Label>)
    requires Run(cfg, ss, ls) && |ss| == |ls| + 1 && k < |ss[|ls|].threads|
    requires var t := ss[|ls|].threads[k];
             && t.pc.Running? && t.inc.plan.Some? && t.pc.i < |t.inc.plan.value.steps|
             && Error(cfg.wires, ss[|ls|].w.cluster, t.inc.plan.value.steps[t.pc.i], CALM).None?
    ensures Run(cfg, ss', ls') && |ss'| == |ls'| + 1 && ss <= ss' && (Serialised(ss, ls) ==> Serialised(ss', ls'))
    ensures k < |ss'[|ls'|].threads|
    ensures var s, s' := ss[|ls|], ss'[|ls'|];
            var t, t' := s.threads[k], s'.threads[k];
            var step := t.inc.plan.value.steps[t.pc.i];
            && ls' == ls + [Port(k, Remediate(t.inc.id, t.pc.i, step, CALM, true))]
            && s'.threads == s.threads[k := t'] && t' == t.(env := t'.env, pc := t'.pc)
            && t'.pc == (if t.pc.i + 1 < |t.inc.plan.value.steps| then Running(t.pc.i + 1) else AfterSteps(cfg, t))
            && s'.w == s.w.(cluster := After(cfg.wires, s.w.cluster, step, CALM))
  {
    hide Run, Serialised, Next, Possible, Apply, Error, After, Entered;
    var t := ss[|ls|].threads[k];
    var e := Remediate(t.inc.id, t.pc.i, t.inc.plan.value.steps[t.pc.i], CALM, true);
    var u := OneStep(cfg, ss[|ls|].w, t, e);
    ss', ls' := PortMore(cfg, ss, ls, k, e, u);
  }

  /** The next check passes at its first read. */
  lemma LookMore(cfg: Config, ss: seq<Sys>, ls: seq<Label>, k: nat) returns (ss': seq<Sys>, ls': seq<Label>)
    requires Run(cfg, ss, ls) && |ss| == |ls| + 1 && k < |ss[|ls|].threads|
    requires var t := ss[|ls|].threads[k];
             && t.pc.Verifying? && t.inc.plan.Some? && t.pc.i < |t.inc.plan.value.steps|
             && Seen(ss[|ls|].w.cluster, t.inc.plan.value.steps[t.pc.i], CLEAR) == Good
    ensures Run(cfg, ss', ls') && |ss'| == |ls'| + 1 && ss <= ss' && (Serialised(ss, ls) ==> Serialised(ss', ls'))
    ensures ls <= ls' && |ls'| == |ls| + 1 && Plain(ls'[|ls|])
    ensures var s, s' := ss[|ls|], ss'[|ls'|];
            var t := s.threads[k];
            s'.w == s.w && s'.threads == s.threads[k := t.(pc := AfterCheck(t, t.pc.i))]
  {
    hide Run, Serialised, Next, Possible, Apply, Seen, Entered;
    var t := ss[|ls|].threads[k];
    OneLook(cfg, ss[|ls|].w, t, CLEAR);
    var e := Look(t.inc.id, t.pc.i, t.inc.plan.value.steps[t.pc.i], CLEAR, Good);
    ss', ls' := PortMore(cfg, ss, ls, k, e, OnLook(t, t.pc.i, Good));
  }

  lemma VerdictRecorded(cfg: Config, w: World, t: Thread)
    requires t.pc == VerifiedAudit
    ensures var e := Append(ToAudit(t), true);
            && Possible(cfg, w, e) && Apply(cfg, w, e) == w.(audit := w.audit + [e.rec])
            && Next(cfg, t, e) == Some(t.(pc := Resolving))
  {
    hide ToAudit, Enter, CanAutoRemediate;
  }

  lemma ResolvedSaved(cfg: Config, w: World, t: Thread)
    requires t.pc == Resolving && t.inc.id in w.store
    ensures var inc := t.inc.(status := Resolved);
            && Possible(cfg, w, Save(inc, true)) && Next(cfg, t, Save(inc, true)) == Some(OnSave(t, true))
            && Apply(cfg, w, Save(inc, true)) == w.(store := w.store[inc.id := inc])
  {
    hide OnSave;
  }

  /** A verified execution is recorded and persisted as resolved. */
  lemma ResolveMore(cfg: Config, ss: seq<Sys>, ls: seq<Label>, k: nat) returns (ss': seq<Sys>, ls': seq<Label>)
    requires Run(cfg, ss, ls) && |ss| == |ls| + 1 && k < |ss[|ls|].threads|
    requires var t := ss[|ls|].threads[k]; t.pc == VerifiedAudit && t.inc.id in ss[|ls|].w.store
    ensures Run(cfg, ss', ls') && |ss'| == |ls'| + 1 && ss <= ss' && (Serialised(ss, ls) ==> Serialised(ss', ls'))
    ensures ls <= ls' && |ls'| == |ls| + 2 && Plain(ls'[|ls|]) && Plain(ls'[|ls| + 1])
    ensures var s, s' := ss[|ls|], ss'[|ls'|];
            var inc := s.threads[k].inc.(status := Resolved);
            && ls'[|ls| + 1] == Port(k, Save(inc, true)) && s'.w.store == s.w.store[inc.id := inc]
            && ss'[|ls| + 1].w.cluster == s'.w.cluster == s.w.cluster
            && |s'.threads| == |s.threads| && s'.threads[k].call == s.threads[k].call
            && forall x :: 0 <= x < |s.threads| && x != k ==> s'.threads[x] == s.threads[x]
  {
    hide Run, Serialised, Next, Possible, Apply, ToAudit, OnSave, Entered;
    var t := ss[|ls|].threads[k];
    VerdictRecorded(cfg, ss[|ls|].w, t);
    ss', ls' := PortMore(cfg, ss, ls, k, Append(ToAudit(t), true), t.(pc := Resolving));
    t := ss'[|ls'|].threads[k];
    ResolvedSaved(cfg, ss'[|ls'|].w, t);
    SaveKeepsCall(t, true);
    ss', ls' := PortMore(cfg, ss', ls', k, Save(t.inc.(status := Resolved), true), OnSave(t, true));
  }

  /** Somebody else changes the cluster. */
  lemma OutsideMore(cfg: Config, ss: seq<Sys>, ls: seq<Label>, c: State) returns (ss': seq<Sys>, ls': seq<Label>)
    requires Run(cfg, ss, ls) && |ss| == |ls| + 1
    ensures Run(cfg, ss', ls') && |ss'| == |ls'| + 1 && ss <= ss' && (Serialised(ss, ls) ==> Serialised(ss', ls'))
    ensures ls' == ls + [Outside(c)]
    ensures ss'[|ls'|] == ss[|ls|].(w := ss[|ls|].w.(cluster := c.(writes := ss[|ls|].w.cluster.writes)))
  {
    hide Run, Serialised;
    var s' := ss[|ls|].(w := ss[|ls|].w.(cluster := c.(writes := ss[|ls|].w.cluster.writes)));
    RunOneMore(cfg, ss, ls, Outside(c), s');
    ss', ls' := ss + [s'], ls + [Outside(c)];
  }

  /** A call may be cut short between any two of its port calls; what it has written stays. */
  lemma CrashesAnywhere(cfg: Config, ss: seq<Sys>, ls: seq<Label>, k: nat) returns (s': Sys)
    requires Run(cfg, ss, ls) && |ss| == |ls| + 1
    requires k < |ss[|ls|].threads| && !ss[|ls|].threads[k].pc.Done? && !ss[|ls|].threads[k].pc.Crashed?
    ensures Run(cfg, ss + [s'], ls + [Crash(k)])
    ensures s'.w == ss[|ls|].w && s'.owner == ss[|ls|].owner && s'.entries == ss[|ls|].entries
    ensures s'.threads == ss[|ls|].threads[k := ss[|ls|].threads[k].(pc := Crashed)]
  {
    hide Run;
    var s := ss[|ls|];
    s' := s.(threads := s.threads[k := s.threads[k].(pc := Crashed)]);
    RunOneMore(cfg, ss, ls, Crash(k), s');
  }
}
