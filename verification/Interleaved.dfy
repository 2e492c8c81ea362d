/** What holds of every run, with calls interleaved at every port call, any port failing,
    any call crashing at any point, and the cluster changed from outside. */
module Interleaved {
  import opened Domain
  import opened Cluster
  import opened Machine

  // ----- One thread on its own -----

  predicate BeforePlan(pc: Pc) {
    pc.Creating? || pc.Ingesting? || pc.Matching? || pc.MatchingContext? || pc.Listing? || pc.Investigating?
  }

  predicate InExecution(pc: Pc) {
    || pc.Running? || pc.Verifying? || pc.Probing? || pc.VerifiedAudit?
    || pc.Resolving? || pc.ResolvedAudit? || pc.ResolvedNotify? || pc.FailSave? || pc.FailAudit? || pc.FailNotify?
  }

  predicate Aborting(pc: Pc) {
    pc.AbortSave? || pc.AbortAudit? || pc.AbortNotify?
  }

  predicate AlertOk(t: Thread) {
    && t.inc.id == t.call.id && !t.saw
    && !(t.parked && t.claimed) && (t.entered <==> t.claimed)
    && (t.parked || t.claimed ==> t.inc.plan.Some?)
    && (t.claimed ==> CanAutoRemediate(t.inc.plan.value))
    && (BeforePlan(t.pc) ==> t.inc.plan.None? && !t.parked && !t.claimed && t.inc.status == Status.Investigating)
    && (t.pc.Planning? || t.pc.Claiming? || t.pc.Parking? ==>
          t.inc.plan.Some? && !t.parked && !t.claimed && t.inc.status == Status.Investigating)
    && (t.pc.Claiming? ==> CanAutoRemediate(t.inc.plan.value))
    && (t.pc.ParkAudit? || t.pc.RequestingApproval? ==> t.parked && t.inc.status == AwaitingApproval)
    && (InExecution(t.pc) ==> t.claimed)
    && (BeforePlan(t.pc) || Aborting(t.pc) || InExecution(t.pc) || t.pc.Done? || t.pc.Crashed?
        || t.pc.Planning? || t.pc.Claiming? || t.pc.Parking? || t.pc.ParkAudit? || t.pc.RequestingApproval?)
  }

  predicate DeciderOk(t: Thread) {
    && !t.parked
    && (t.saw ==> t.inc.id == t.call.id)
    && (t.claimed ==> t.saw && t.call.Approve?) && (t.entered ==> t.claimed)
    && (t.pc.Loading? ==> !t.saw)
    && (t.pc.Claiming? || t.pc.RejectSave? ==> t.saw && t.inc.status == AwaitingApproval)
    && (t.pc.Claiming? ==> t.call.Approve? && !t.claimed)
    && (t.pc.ApproveAudit? ==> t.claimed && !t.entered)
    && (InExecution(t.pc) ==> t.entered)
    && (t.pc.RejectSave? || t.pc.RejectAudit? || t.pc.RejectNotify? ==> t.call.Reject? && t.saw)
    && (t.pc.Loading? || t.pc.Claiming? || t.pc.ApproveAudit? || t.pc.RejectSave? || t.pc.RejectAudit?
        || t.pc.RejectNotify? || InExecution(t.pc) || t.pc.Done? || t.pc.Crashed?)
  }

  predicate FollowOk(t: Thread) {
    && !t.saw && !t.parked && !t.claimed && !t.entered
    && (t.pc.Loading? || t.pc.FollowMatch? || t.pc.FollowList? || t.pc.FollowInvestigate? || t.pc.FollowAudit?
        || t.pc.FollowReply?
        || t.pc.Done? || t.pc.Crashed?)
    && (!t.pc.Loading? && Active(t) ==> t.inc.id == t.call.id)
  }

  predicate Allowed(cfg: Config, t: Thread) {
    !t.call.Alert? && (Active(t) || t.saw) ==> t.call.actor in cfg.approvers
  }

  predicate LocalOk(cfg: Config, t: Thread) {
    && Allowed(cfg, t)
    && (t.pc.Running? ==> t.inc.plan.Some? && t.pc.i < |t.inc.plan.value.steps|)
    && (t.pc.Verifying? || t.pc.Probing? ==> t.inc.plan.Some? && t.pc.i < |t.inc.plan.value.steps|)
    && (t.pc.VerifiedAudit? || t.pc.Resolving? ==> t.inc.plan.Some? && t.inc.plan.value.steps != [])
    && match t.call
       case Alert(_, _, _) => AlertOk(t)
       case FollowUp(_, _, _) => FollowOk(t)
       case _ => DeciderOk(t)
  }

  lemma StartOk(cfg: Config, call: Call)
    ensures LocalOk(cfg, Start(cfg, call))
    ensures var t := Start(cfg, call); !t.saw && !t.parked && !t.claimed && !t.entered
  {
  }

  /** What a thread's step may do, in the terms the other threads care about. */
  ghost predicate Summary(t: Thread, e: Event, t': Thread) {
    && t'.call == t.call
    && (t.parked ==> t'.parked) && (t.claimed ==> t'.claimed) && (t.entered ==> t'.entered) && (t.saw ==> t'.saw)
    && (t.call.Alert? && t.inc.plan.Some? ==> t'.inc.plan == t.inc.plan)
    && (t.saw ==> t'.inc.plan == t.inc.plan)
    && (e.Create? ==>
          && t.call.Alert? && e.inc == t.inc && t.inc.plan.None?
          && e.inc.status == Status.Investigating && e.inc.id == t.call.id)
    && (e.Save? ==> (t.call.Alert? || t.saw) && e.inc.id == t.call.id && e.inc.plan == t'.inc.plan)
    && (e.Save? && e.inc.status == AwaitingApproval ==> t.call.Alert? && !t.parked && (e.ok ==> t'.parked))
    && (t'.saw && !t.saw ==>
          && !t.call.Alert? && e.Load? && e.id == t.call.id
          && e.found == Some(t'.inc) && t'.inc.status == AwaitingApproval)
    && (t'.entered && !t.entered ==>
          && t'.claimed && (t.call.Alert? || (t.call.Approve? && t.saw))
          && t'.inc.plan == t.inc.plan && t.inc.id == t.call.id)
    && (t'.parked && !t.parked ==> t.call.Alert?)
    && (e.Remediate? ==> t.entered && e.id == t.call.id)
    && (e.Append? || e.Remediate? || e.Look? || e.Probe? || e.Notify? ==> !t.pc.Loading?)
  }

  /** A step keeps its thread well formed and does no more than its summary says. */
  ghost predicate StepOk(cfg: Config, t: Thread, e: Event)
    requires Next(cfg, t, e).Some?
  {
    LocalOk(cfg, Next(cfg, t, e).value) && Summary(t, e, Next(cfg, t, e).value)
  }

  lemma OpeningStep(cfg: Config, t: Thread, e: Event)
    requires LocalOk(cfg, t) && Next(cfg, t, e).Some?
    requires t.pc.Creating? || t.pc.Ingesting?
    ensures StepOk(cfg, t, e)
  {
    hide CanAutoRemediate, OnSave, ToSave, OnNotify, ToNotify, OnMatch, OnList, OnPlan, OnLoad, OnStep, Enter;
  }

  lemma InvestigationStep(cfg: Config, t: Thread, e: Event)
    requires LocalOk(cfg, t) && Next(cfg, t, e).Some?
    requires t.pc.Investigating?
    ensures StepOk(cfg, t, e)
  {
    hide Next, CanAutoRemediate, OnSave, ToSave, OnAudit, ToAudit, OnNotify, ToNotify, OnMatch, OnList, OnLoad, OnStep,
         Enter;
    PlanKind(cfg, t, e);
  }

  lemma GatheringStep(cfg: Config, t: Thread, e: Event)
    requires LocalOk(cfg, t) && Next(cfg, t, e).Some?
    requires t.pc.Matching? || t.pc.MatchingContext? || t.pc.Listing?
    ensures StepOk(cfg, t, e)
  {
    hide Next, CanAutoRemediate, OnSave, ToSave, OnAudit, ToAudit, OnNotify, ToNotify, OnPlan, OnLoad, OnStep, Enter;
    if t.pc.Matching? || t.pc.MatchingContext? {
      MatchKind(cfg, t, e);
    } else {
      ListKind(cfg, t, e);
    }
  }

  lemma PlanningStep(cfg: Config, t: Thread, e: Event)
    requires LocalOk(cfg, t) && Next(cfg, t, e).Some?
    requires t.pc.Planning? || t.pc.Parking?
    ensures StepOk(cfg, t, e)
  {
    hide Next, CanAutoRemediate, OnNotify, ToNotify, OnMatch, OnList, OnPlan, OnLoad, OnStep, Enter;
    if t.pc.Planning? {
      AuditKind(cfg, t, e);
    } else {
      SaveKind(cfg, t, e);
    }
  }

  lemma ParkedStep(cfg: Config, t: Thread, e: Event)
    requires LocalOk(cfg, t) && Next(cfg, t, e).Some?
    requires t.pc.ParkAudit? || t.pc.RequestingApproval?
    ensures StepOk(cfg, t, e)
  {
    hide Next, CanAutoRemediate, OnSave, ToSave, OnMatch, OnList, OnPlan, OnLoad, OnStep, Enter;
    if t.pc.ParkAudit? {
      AuditKind(cfg, t, e);
    } else {
      NotifyKind(cfg, t, e);
    }
  }

  lemma AbortStep(cfg: Config, t: Thread, e: Event)
    requires LocalOk(cfg, t) && Next(cfg, t, e).Some?
    requires t.pc.AbortSave?
    ensures StepOk(cfg, t, e)
  {
    hide Next, CanAutoRemediate, OnAudit, ToAudit, OnNotify, ToNotify, OnMatch, OnList, OnPlan, OnLoad, OnStep, Enter;
    SaveKind(cfg, t, e);
  }

  lemma AbortedStep(cfg: Config, t: Thread, e: Event)
    requires LocalOk(cfg, t) && Next(cfg, t, e).Some?
    requires t.pc.AbortAudit? || t.pc.AbortNotify?
    ensures StepOk(cfg, t, e)
  {
    hide Next, CanAutoRemediate, OnSave, ToSave, OnMatch, OnList, OnPlan, OnLoad, OnStep, Enter;
    if t.pc.AbortAudit? {
      AuditKind(cfg, t, e);
    } else {
      NotifyKind(cfg, t, e);
    }
  }

  lemma ClaimStep(cfg: Config, t: Thread, e: Event)
    requires LocalOk(cfg, t) && Next(cfg, t, e).Some?
    requires t.pc.Claiming?
    ensures StepOk(cfg, t, e)
  {
    hide Next, CanAutoRemediate, OnAudit, ToAudit, OnNotify, ToNotify, OnMatch, OnList, OnPlan, OnLoad, OnStep;
    SaveKind(cfg, t, e);
  }

  lemma EntryStep(cfg: Config, t: Thread, e: Event)
    requires LocalOk(cfg, t) && Next(cfg, t, e).Some?
    requires t.pc.ApproveAudit?
    ensures StepOk(cfg, t, e)
  {
    hide Next, CanAutoRemediate, OnSave, ToSave, OnNotify, ToNotify, OnMatch, OnList, OnPlan, OnLoad, OnStep;
    AuditKind(cfg, t, e);
  }

  lemma RunningStep(cfg: Config, t: Thread, e: Event)
    requires LocalOk(cfg, t) && Next(cfg, t, e).Some?
    requires t.pc.Running?
    ensures StepOk(cfg, t, e)
  {
    hide Next, CanAutoRemediate, OnSave, ToSave, OnAudit, ToAudit, OnNotify, ToNotify, OnMatch, OnList, OnPlan, OnLoad,
         OnStep, Enter;
    StepOutcome(cfg, t, e);
  }

  lemma VerifyingStep(cfg: Config, t: Thread, e: Event)
    requires LocalOk(cfg, t) && Next(cfg, t, e).Some?
    requires t.pc.Verifying? || t.pc.Probing?
    ensures StepOk(cfg, t, e)
  {
    hide Next, CanAutoRemediate, OnSave, ToSave, OnAudit, ToAudit, OnNotify, ToNotify, OnMatch, OnList, OnPlan, OnLoad,
         OnStep, OnLook, OnProbe, Enter;
    CheckOutcome(cfg, t, e);
  }

  lemma VerifiedStep(cfg: Config, t: Thread, e: Event)
    requires LocalOk(cfg, t) && Next(cfg, t, e).Some?
    requires t.pc.VerifiedAudit?
    ensures StepOk(cfg, t, e)
  {
    hide Next, CanAutoRemediate, OnSave, ToSave, OnNotify, ToNotify, OnMatch, OnList, OnPlan, OnLoad, OnStep, Enter;
    AuditKind(cfg, t, e);
  }

  lemma ResolvingStep(cfg: Config, t: Thread, e: Event)
    requires LocalOk(cfg, t) && Next(cfg, t, e).Some?
    requires t.pc.Resolving?
    ensures StepOk(cfg, t, e)
  {
    hide Next, CanAutoRemediate, OnAudit, ToAudit, OnNotify, ToNotify, OnMatch, OnList, OnPlan, OnLoad, OnStep, Enter;
    SaveKind(cfg, t, e);
  }

  lemma ResolvedStep(cfg: Config, t: Thread, e: Event)
    requires LocalOk(cfg, t) && Next(cfg, t, e).Some?
    requires t.pc.ResolvedAudit?
    ensures StepOk(cfg, t, e)
  {
    hide Next, CanAutoRemediate, OnSave, ToSave, OnNotify, ToNotify, OnMatch, OnList, OnPlan, OnLoad, OnStep, Enter;
    AuditKind(cfg, t, e);
  }

  lemma ResolvedNoteStep(cfg: Config, t: Thread, e: Event)
    requires LocalOk(cfg, t) && Next(cfg, t, e).Some?
    requires t.pc.ResolvedNotify?
    ensures StepOk(cfg, t, e)
  {
    hide Next, CanAutoRemediate, OnSave, ToSave, OnAudit, ToAudit, OnMatch, OnList, OnPlan, OnLoad, OnStep, Enter;
    NotifyKind(cfg, t, e);
  }

  lemma FailingStep(cfg: Config, t: Thread, e: Event)
    requires LocalOk(cfg, t) && Next(cfg, t, e).Some?
    requires t.pc.FailSave?
    ensures StepOk(cfg, t, e)
  {
    hide Next, CanAutoRemediate, OnAudit, ToAudit, OnNotify, ToNotify, OnMatch, OnList, OnPlan, OnLoad, OnStep, Enter;
    SaveKind(cfg, t, e);
  }

  lemma FailedStep(cfg: Config, t: Thread, e: Event)
    requires LocalOk(cfg, t) && Next(cfg, t, e).Some?
    requires t.pc.FailAudit? || t.pc.FailNotify?
    ensures StepOk(cfg, t, e)
  {
    hide Next, CanAutoRemediate, OnSave, ToSave, OnMatch, OnList, OnPlan, OnLoad, OnStep, Enter;
    if t.pc.FailAudit? {
      AuditKind(cfg, t, e);
    } else {
      NotifyKind(cfg, t, e);
    }
  }

  lemma DecisionStep(cfg: Config, t: Thread, e: Event)
    requires LocalOk(cfg, t) && Next(cfg, t, e).Some?
    requires e.Load? && e.found.Some? ==> e.found.value.id == e.id
    requires t.pc.Loading?
    ensures StepOk(cfg, t, e)
  {
    hide Next, CanAutoRemediate, OnSave, ToSave, OnAudit, ToAudit, OnNotify, ToNotify, OnMatch, OnList, OnPlan, OnStep,
         Enter;
    LoadKind(cfg, t, e);
  }

  lemma RejectStep(cfg: Config, t: Thread, e: Event)
    requires LocalOk(cfg, t) && Next(cfg, t, e).Some?
    requires t.pc.RejectSave?
    ensures StepOk(cfg, t, e)
  {
    hide Next, CanAutoRemediate, OnAudit, ToAudit, OnNotify, ToNotify, OnMatch, OnList, OnPlan, OnLoad, OnStep, Enter;
    SaveKind(cfg, t, e);
  }

  lemma RejectedStep(cfg: Config, t: Thread, e: Event)
    requires LocalOk(cfg, t) && Next(cfg, t, e).Some?
    requires t.pc.RejectAudit?
    ensures StepOk(cfg, t, e)
  {
    hide Next, CanAutoRemediate, OnSave, ToSave, OnNotify, ToNotify, OnMatch, OnList, OnPlan, OnLoad, OnStep, Enter;
    AuditKind(cfg, t, e);
  }

  lemma RejectedNoteStep(cfg: Config, t: Thread, e: Event)
    requires LocalOk(cfg, t) && Next(cfg, t, e).Some?
    requires t.pc.RejectNotify?
    ensures StepOk(cfg, t, e)
  {
    hide Next, CanAutoRemediate, OnSave, ToSave, OnAudit, ToAudit, OnMatch, OnList, OnPlan, OnLoad, OnStep, Enter;
    NotifyKind(cfg, t, e);
  }

  lemma FollowBooksStep(cfg: Config, t: Thread, e: Event)
    requires LocalOk(cfg, t) && Next(cfg, t, e).Some?
    requires t.pc.FollowMatch? || t.pc.FollowList?
    ensures StepOk(cfg, t, e)
  {
    hide Next, CanAutoRemediate, OnSave, ToSave, OnAudit, ToAudit, OnNotify, ToNotify, OnPlan, OnLoad, OnStep, Enter;
    if t.pc.FollowMatch? {
      MatchKind(cfg, t, e);
    } else {
      ListKind(cfg, t, e);
    }
  }

  lemma FollowPlanStep(cfg: Config, t: Thread, e: Event)
    requires LocalOk(cfg, t) && Next(cfg, t, e).Some?
    requires t.pc.FollowInvestigate?
    ensures StepOk(cfg, t, e)
  {
    hide Next, CanAutoRemediate, OnSave, ToSave, OnAudit, ToAudit, OnNotify, ToNotify, OnMatch, OnList, OnLoad, OnStep,
         Enter;
    PlanKind(cfg, t, e);
  }

  lemma FollowAnswerStep(cfg: Config, t: Thread, e: Event)
    requires LocalOk(cfg, t) && Next(cfg, t, e).Some?
    requires t.pc.FollowAudit? || t.pc.FollowReply?
    ensures StepOk(cfg, t, e)
  {
    hide Next, CanAutoRemediate, OnSave, ToSave, OnMatch, OnList, OnPlan, OnLoad, OnStep, Enter;
    if t.pc.FollowAudit? {
      AuditKind(cfg, t, e);
    } else {
      NotifyKind(cfg, t, e);
    }
  }

  lemma ThreadStep(cfg: Config, t: Thread, e: Event)
    requires LocalOk(cfg, t) && Next(cfg, t, e).Some?
    requires e.Load? && e.found.Some? ==> e.found.value.id == e.id
    ensures LocalOk(cfg, Next(cfg, t, e).value)
    ensures Summary(t, e, Next(cfg, t, e).value)
  {
    hide LocalOk, Next, Summary;
    StillActive(cfg, t, e);
    if t.pc.Creating? || t.pc.Ingesting? {
      OpeningStep(cfg, t, e);
    } else if t.pc.Investigating? {
      InvestigationStep(cfg, t, e);
    } else if t.pc.Matching? || t.pc.MatchingContext? || t.pc.Listing? {
      GatheringStep(cfg, t, e);
    } else if t.pc.Planning? || t.pc.Parking? {
      PlanningStep(cfg, t, e);
    } else if t.pc.ParkAudit? || t.pc.RequestingApproval? {
      ParkedStep(cfg, t, e);
    } else if t.pc.AbortSave? {
      AbortStep(cfg, t, e);
    } else if t.pc.AbortAudit? || t.pc.AbortNotify? {
      AbortedStep(cfg, t, e);
    } else if t.pc.Claiming? {
      ClaimStep(cfg, t, e);
    } else if t.pc.ApproveAudit? {
      EntryStep(cfg, t, e);
    } else if t.pc.Running? {
      RunningStep(cfg, t, e);
    } else if t.pc.Verifying? || t.pc.Probing? {
      VerifyingStep(cfg, t, e);
    } else if t.pc.VerifiedAudit? {
      VerifiedStep(cfg, t, e);
    } else if t.pc.Resolving? {
      ResolvingStep(cfg, t, e);
    } else if t.pc.ResolvedAudit? {
      ResolvedStep(cfg, t, e);
    } else if t.pc.ResolvedNotify? {
      ResolvedNoteStep(cfg, t, e);
    } else if t.pc.FailSave? {
      FailingStep(cfg, t, e);
    } else if t.pc.FailAudit? || t.pc.FailNotify? {
      FailedStep(cfg, t, e);
    } else if t.pc.Loading? {
      DecisionStep(cfg, t, e);
    } else if t.pc.RejectSave? {
      RejectStep(cfg, t, e);
    } else if t.pc.RejectAudit? {
      RejectedStep(cfg, t, e);
    } else if t.pc.RejectNotify? {
      RejectedNoteStep(cfg, t, e);
    } else if t.pc.FollowMatch? || t.pc.FollowList? {
      FollowBooksStep(cfg, t, e);
    } else if t.pc.FollowInvestigate? {
      FollowPlanStep(cfg, t, e);
    } else {
      FollowAnswerStep(cfg, t, e);
    }
  }

  lemma StillActive(cfg: Config, t: Thread, e: Event)
    requires Next(cfg, t, e).Some?
    ensures Active(t)
  {
  }

  // ----- All threads together -----

  ghost predicate OwnersOk(s: Sys) {
    && (forall id :: id in s.owner ==>
          s.owner[id] < |s.threads| && s.threads[s.owner[id]].call.Alert? && s.threads[s.owner[id]].call.id == id)
    && (forall k :: 0 <= k < |s.threads| && s.threads[k].call.Alert? ==>
          s.threads[k].call.id in s.owner && s.owner[s.threads[k].call.id] == k)
  }

  /** What the store holds was written by the incident's own alert, or follows its parking. */
  ghost predicate StoredOk(i: Incident, a: Thread) {
    && (i.plan.Some? ==> i.plan == a.inc.plan)
    && (i.status == AwaitingApproval ==> a.parked && i.plan == a.inc.plan)
  }

  ghost predicate StoreOk(s: Sys)
    requires OwnersOk(s)
  {
    forall id :: id in s.w.store ==>
          id in s.owner && s.w.store[id].id == id && StoredOk(s.w.store[id], s.threads[s.owner[id]])
  }

  ghost predicate SeenOk(s: Sys)
    requires OwnersOk(s)
  {
    forall k :: 0 <= k < |s.threads| && s.threads[k].saw ==>
      && s.threads[k].call.id in s.owner
      && s.threads[s.owner[s.threads[k].call.id]].parked
      && s.threads[k].inc.plan == s.threads[s.owner[s.threads[k].call.id]].inc.plan
  }

  /** The entry is the alert's own, or that of an allowed approval that saw the incident waiting. */
  ghost predicate EntryOk(cfg: Config, s: Sys, n: Entry)
    requires OwnersOk(s)
  {
    && n.id in s.owner && n.tid < |s.threads|
    && var t, a := s.threads[n.tid], s.threads[s.owner[n.id]];
       && t.entered && t.call.id == n.id
       && n.plan == a.inc.plan && n.plan.Some?
       && (if n.tid == s.owner[n.id] then a.claimed
           else t.call.Approve? && t.call.actor in cfg.approvers && t.saw && a.parked)
  }

  ghost predicate EntriesOk(cfg: Config, s: Sys)
    requires OwnersOk(s)
  {
    && (forall j :: 0 <= j < |s.entries| ==> EntryOk(cfg, s, s.entries[j]))
    && (forall i, j :: 0 <= i < j < |s.entries| ==> s.entries[i].tid != s.entries[j].tid)
  }

  ghost predicate WritesOk(cfg: Config, s: Sys) {
    forall w :: w in s.w.cluster.writes ==> SafeWrite(cfg.wires, w)
  }

  ghost predicate Inv(cfg: Config, s: Sys) {
    && (forall k :: 0 <= k < |s.threads| ==> LocalOk(cfg, s.threads[k]))
    && OwnersOk(s) && StoreOk(s) && SeenOk(s) && EntriesOk(cfg, s) && WritesOk(cfg, s)
  }

  /** A step that makes no port call: old threads keep what the others care about, a new one
      has done nothing yet, and store, entries and writes stay. */
  ghost predicate Grown(s: Sys, s': Sys) {
    && |s.threads| <= |s'.threads|
    && (forall k :: 0 <= k < |s.threads| ==> s'.threads[k].(pc := s.threads[k].pc) == s.threads[k])
    && (forall k :: |s.threads| <= k < |s'.threads| ==> !s'.threads[k].saw)
    && (forall id :: id in s.owner ==> id in s'.owner && s'.owner[id] == s.owner[id])
    && s'.w.store == s.w.store && s'.entries == s.entries && s'.w.cluster.writes == s.w.cluster.writes
  }

  lemma GrownStore(s: Sys, s': Sys)
    requires Grown(s, s') && OwnersOk(s) && OwnersOk(s') && StoreOk(s)
    ensures StoreOk(s')
  {
  }

  lemma GrownSeen(s: Sys, s': Sys)
    requires Grown(s, s') && OwnersOk(s) && OwnersOk(s') && SeenOk(s)
    ensures SeenOk(s')
  {
  }

  lemma GrownEntries(cfg: Config, s: Sys, s': Sys)
    requires Grown(s, s') && OwnersOk(s) && OwnersOk(s') && EntriesOk(cfg, s)
    ensures EntriesOk(cfg, s')
  {
    forall j | 0 <= j < |s'.entries| ensures EntryOk(cfg, s', s'.entries[j]) {
      assert EntryOk(cfg, s, s.entries[j]);
    }
  }

  lemma GrownKeeps(cfg: Config, s: Sys, s': Sys)
    requires Inv(cfg, s) && Grown(s, s') && OwnersOk(s')
    requires forall k :: 0 <= k < |s'.threads| ==> LocalOk(cfg, s'.threads[k])
    ensures Inv(cfg, s')
  {
    hide LocalOk, StoreOk, SeenOk, EntriesOk, OwnersOk, WritesOk;
    GrownStore(s, s');
    GrownSeen(s, s');
    GrownEntries(cfg, s, s');
    SameWrites(cfg, s, s');
  }

  lemma SpawnOwners(s: Sys, call: Call, s': Sys)
    requires OwnersOk(s) && (call.Alert? ==> call.id !in s.owner) && |s'.threads| == |s.threads| + 1
    requires (forall k :: 0 <= k < |s.threads| ==> s'.threads[k] == s.threads[k])
             && s'.threads[|s.threads|].call == call
    requires s'.owner == if call.Alert? then s.owner[call.id := |s.threads|] else s.owner
    ensures OwnersOk(s')
  {
  }

  lemma SpawnKeeps(cfg: Config, s: Sys, call: Call, s': Sys)
    requires Inv(cfg, s) && Step(cfg, s, Spawn(call), s')
    ensures Inv(cfg, s')
  {
    hide Start, LocalOk, OwnersOk, StoreOk, SeenOk, EntriesOk, WritesOk;
    StartOk(cfg, call);
    StartCall(cfg, call);
    assert s'.threads[|s.threads|] == Start(cfg, call);
    SpawnOwners(s, call, s');
    GrownKeeps(cfg, s, s');
  }

  lemma StartCall(cfg: Config, call: Call)
    ensures Start(cfg, call).call == call
  {
  }

  lemma SameWrites(cfg: Config, s: Sys, s': Sys)
    requires WritesOk(cfg, s) && s'.w.cluster.writes == s.w.cluster.writes
    ensures WritesOk(cfg, s')
  {
  }

  lemma CrashedOk(cfg: Config, t: Thread)
    requires LocalOk(cfg, t)
    ensures LocalOk(cfg, t.(pc := Crashed))
  {
    hide CanAutoRemediate;
  }

  lemma SameOwners(s: Sys, s': Sys)
    requires OwnersOk(s) && s'.owner == s.owner && |s'.threads| == |s.threads|
    requires forall k :: 0 <= k < |s.threads| ==> s'.threads[k].call == s.threads[k].call
    ensures OwnersOk(s')
  {
  }

  lemma CrashKeeps(cfg: Config, s: Sys, k: nat, s': Sys)
    requires Inv(cfg, s) && Step(cfg, s, Crash(k), s')
    ensures Inv(cfg, s')
  {
    hide LocalOk, OwnersOk, StoreOk, SeenOk, EntriesOk, WritesOk;
    CrashedOk(cfg, s.threads[k]);
    SameOwners(s, s');
    GrownKeeps(cfg, s, s');
  }

  lemma OutsideKeeps(cfg: Config, s: Sys, c: State, s': Sys)
    requires Inv(cfg, s) && Step(cfg, s, Outside(c), s')
    ensures Inv(cfg, s')
  {
    hide LocalOk, OwnersOk, StoreOk, SeenOk, EntriesOk, WritesOk;
    SameOwners(s, s');
    GrownKeeps(cfg, s, s');
  }

  /** The loaded incident carries the id it was asked for. */
  lemma LoadedId(cfg: Config, s: Sys, e: Event)
    requires OwnersOk(s) && StoreOk(s) && Possible(cfg, s.w, e)
    ensures e.Load? && e.found.Some? ==> e.found.value.id == e.id
  {
  }

  function StoreAfter(store: map<Id, Incident>, e: Event): map<Id, Incident> {
    if (e.Create? || e.Save?) && e.ok then store[e.inc.id := e.inc] else store
  }

  /** What a port call does to the system, apart from what it does to its own thread. */
  ghost predicate Shape(s: Sys, k: nat, e: Event, s': Sys) {
    && k < |s.threads| && |s'.threads| == |s.threads|
    && (forall j :: 0 <= j < |s.threads| && j != k ==> s'.threads[j] == s.threads[j])
    && s'.owner == s.owner && s'.w.store == StoreAfter(s.w.store, e)
    && s'.entries == Entered(s, k, s'.threads[k], s'.w.cluster)
    && (e.Load? && e.found.Some? ==> e.id in s.w.store && s.w.store[e.id] == e.found.value)
  }

  lemma PortShape(cfg: Config, s: Sys, k: nat, e: Event, s': Sys)
    requires PortStep(cfg, s, k, e, s')
    ensures Shape(s, k, e, s') && Next(cfg, s.threads[k], e) == Some(s'.threads[k])
  {
    hide Next, Entered, After, Error;
  }

  lemma PortKeepsOwners(cfg: Config, s: Sys, k: nat, e: Event, s': Sys)
    requires OwnersOk(s) && Shape(s, k, e, s') && Summary(s.threads[k], e, s'.threads[k])
    ensures OwnersOk(s')
  {
    hide Entered;
  }

  predicate AlertParked(t: Thread) {
    t.parked || t.claimed ==> t.inc.plan.Some?
  }

  lemma AlertIsParked(cfg: Config, t: Thread)
    requires LocalOk(cfg, t) && t.call.Alert?
    ensures AlertParked(t) && (t.entered ==> t.claimed)
  {
  }

  lemma PortKeepsStore(cfg: Config, s: Sys, k: nat, e: Event, s': Sys)
    requires OwnersOk(s) && OwnersOk(s') && StoreOk(s) && SeenOk(s)
    requires Shape(s, k, e, s') && Summary(s.threads[k], e, s'.threads[k])
    requires LocalOk(cfg, s.threads[k]) && LocalOk(cfg, s'.threads[k])
    ensures StoreOk(s')
  {
    hide Entered, LocalOk;
    var t, t' := s.threads[k], s'.threads[k];
    if t.call.Alert? {
      AlertIsParked(cfg, t);
    }
    forall id | id in s'.w.store
      ensures id in s'.owner && s'.w.store[id].id == id && StoredOk(s'.w.store[id], s'.threads[s'.owner[id]])
    {
      if (e.Save? || e.Create?) && e.ok && id == e.inc.id {
        assert t.call.Alert? ==> s.owner[id] == k;
      } else {
        assert s'.w.store[id] == s.w.store[id] && StoredOk(s.w.store[id], s.threads[s.owner[id]]);
      }
    }
  }

  lemma PortKeepsSeen(cfg: Config, s: Sys, k: nat, e: Event, s': Sys)
    requires OwnersOk(s) && OwnersOk(s') && StoreOk(s) && SeenOk(s)
    requires Shape(s, k, e, s') && Summary(s.threads[k], e, s'.threads[k])
    requires forall a :: 0 <= a < |s.threads| && s.threads[a].call.Alert? ==> AlertParked(s.threads[a])
    ensures SeenOk(s')
  {
    hide Entered;
    forall j | 0 <= j < |s'.threads| && s'.threads[j].saw
      ensures
        && s'.threads[j].call.id in s'.owner
        && s'.threads[s'.owner[s'.threads[j].call.id]].parked
        && s'.threads[j].inc.plan == s'.threads[s'.owner[s'.threads[j].call.id]].inc.plan
    {
      if j == k && !s.threads[k].saw {
        var id := s.threads[k].call.id;
        assert StoredOk(s.w.store[id], s.threads[s.owner[id]]);
      }
    }
  }

  lemma PortKeepsEntries(cfg: Config, s: Sys, k: nat, e: Event, s': Sys)
    requires OwnersOk(s) && OwnersOk(s') && SeenOk(s) && EntriesOk(cfg, s)
    requires Shape(s, k, e, s') && Summary(s.threads[k], e, s'.threads[k])
    requires forall a :: 0 <= a < |s.threads| && s.threads[a].call.Alert? ==> AlertParked(s.threads[a])
    requires LocalOk(cfg, s.threads[k]) && LocalOk(cfg, s'.threads[k])
    ensures EntriesOk(cfg, s')
  {
    hide LocalOk, StoreAfter;
    var t, t' := s.threads[k], s'.threads[k];
    SawIsAllowed(cfg, t);
    if t'.call.Alert? {
      AlertIsParked(cfg, t');
    }
    forall j | 0 <= j < |s'.entries| ensures EntryOk(cfg, s', s'.entries[j]) {
      if j < |s.entries| {
        assert EntryOk(cfg, s, s.entries[j]);
      } else {
        assert s'.entries[j].tid == k;
      }
    }
    forall i, j | 0 <= i < j < |s'.entries| ensures s'.entries[i].tid != s'.entries[j].tid {
      assert EntryOk(cfg, s, s.entries[i]);
    }
  }

  lemma SawIsAllowed(cfg: Config, t: Thread)
    requires LocalOk(cfg, t)
    ensures t.saw ==> !t.call.Alert? && t.call.actor in cfg.approvers
  {
  }

  lemma PortKeepsWrites(cfg: Config, s: Sys, k: nat, e: Event, s': Sys)
    requires WritesOk(cfg, s) && PortStep(cfg, s, k, e, s')
    ensures WritesOk(cfg, s')
  {
    hide Next, Possible, After, SafeWrite, Accept, Fits;
    if e.Remediate? {
      var c := s.w.cluster;
      StepIsSafe(cfg.wires, c, e.step, e.weather);
      if s'.w.cluster != c {
        var w :| s'.w.cluster == Accept(c, w) && SafeWrite(cfg.wires, w) && Fits(e.step, w);
        AcceptRecords(c, w);
      }
    }
  }

  lemma PortKeeps(cfg: Config, s: Sys, k: nat, e: Event, s': Sys)
    requires Inv(cfg, s) && Step(cfg, s, Port(k, e), s')
    ensures Inv(cfg, s')
    ensures Summary(s.threads[k], e, s'.threads[k])
  {
    hide LocalOk, Next, Possible, Shape, Apply, Summary, OwnersOk, StoreOk, SeenOk, EntriesOk, WritesOk, AlertParked;
    PortShape(cfg, s, k, e, s');
    LoadedId(cfg, s, e);
    ThreadStep(cfg, s.threads[k], e);
    forall a | 0 <= a < |s.threads| && s.threads[a].call.Alert? ensures AlertParked(s.threads[a]) {
      AlertIsParked(cfg, s.threads[a]);
    }
    PortKeepsOwners(cfg, s, k, e, s');
    PortKeepsStore(cfg, s, k, e, s');
    PortKeepsSeen(cfg, s, k, e, s');
    PortKeepsEntries(cfg, s, k, e, s');
    PortKeepsWrites(cfg, s, k, e, s');
  }

  lemma StepKeeps(cfg: Config, s: Sys, l: Label, s': Sys)
    requires Inv(cfg, s) && Step(cfg, s, l, s')
    ensures Inv(cfg, s')
  {
    hide Inv, Step;
    match l
    case Spawn(call) => SpawnKeeps(cfg, s, call, s');
    case Port(k, e) => PortKeeps(cfg, s, k, e, s');
    case Crash(k) => CrashKeeps(cfg, s, k, s');
    case Outside(c) => OutsideKeeps(cfg, s, c, s');
  }

  lemma {:induction false} Always(cfg: Config, ss: seq<Sys>, ls: seq<Label>, n: nat)
    requires Run(cfg, ss, ls) && n <= |ls|
    ensures Inv(cfg, ss[n])
  {
    hide Run;
    RunShape(cfg, ss, ls);
    if n > 0 {
      Always(cfg, ss, ls, n - 1);
      hide Inv, Step;
      RunAt(cfg, ss, ls, n - 1);
      StepKeeps(cfg, ss[n - 1], ls[n - 1], ss[n]);
    }
  }

  // ----- Theorems about whole runs -----

  /** What a thread keeps from one moment to any later one. */
  ghost predicate Later(s: Sys, s': Sys, k: nat) {
    && k < |s.threads| && k < |s'.threads|
    && var t, t' := s.threads[k], s'.threads[k];
       && t'.call == t.call
       && (t.parked ==> t'.parked) && (t.claimed ==> t'.claimed) && (t.entered ==> t'.entered) && (t.saw ==> t'.saw)
       && ((t.call.Alert? && t.inc.plan.Some?) || t.saw ==> t'.inc.plan == t.inc.plan)
  }

  lemma SummaryIsLater(cfg: Config, s: Sys, k: nat, e: Event, s': Sys)
    requires Step(cfg, s, Port(k, e), s') && Summary(s.threads[k], e, s'.threads[k])
    ensures Later(s, s', k)
  {
    hide Next, Possible, Apply, Entered;
  }

  lemma StepLater(cfg: Config, s: Sys, l: Label, s': Sys, k: nat)
    requires Inv(cfg, s) && Step(cfg, s, l, s') && k < |s.threads|
    ensures Later(s, s', k)
    ensures forall id :: id in s.owner ==> id in s'.owner && s'.owner[id] == s.owner[id]
  {
    hide Inv, Next, Start, Possible, Apply, Entered, Summary;
    if l.Port? {
      PortKeeps(cfg, s, l.tid, l.e, s');
      SummaryIsLater(cfg, s, l.tid, l.e, s');
    }
  }

  lemma {:induction false} RunLater(cfg: Config, ss: seq<Sys>, ls: seq<Label>, i: nat, j: nat, k: nat)
    requires Run(cfg, ss, ls) && i <= j <= |ls| && k < |ss[i].threads|
    ensures Later(ss[i], ss[j], k)
    ensures forall id :: id in ss[i].owner ==> id in ss[j].owner && ss[j].owner[id] == ss[i].owner[id]
  {
    hide Run, Inv, Step;
    RunShape(cfg, ss, ls);
    if i < j {
      RunLater(cfg, ss, ls, i, j - 1, k);
      Always(cfg, ss, ls, j - 1);
      RunAt(cfg, ss, ls, j - 1);
      StepLater(cfg, ss[j - 1], ls[j - 1], ss[j], k);
    }
  }

  /** The repository accepts this status for this incident at step `i`. */
  predicate Persists(l: Label, id: Id, status: Status) {
    l.Port? && l.e.Save? && l.e.ok && l.e.inc.id == id && l.e.inc.status == status
  }

  lemma PersistAwaiting(cfg: Config, ss: seq<Sys>, ls: seq<Label>, i: nat, id: Id)
    requires Run(cfg, ss, ls) && i < |ls| && Persists(ls[i], id, AwaitingApproval)
    ensures ls[i].Port?
    ensures var k := ls[i].tid;
            && k < |ss[i].threads| && id in ss[i].owner && ss[i].owner[id] == k
            && !ss[i].threads[k].parked && ss[i + 1].threads[k].parked
  {
    hide Run;
    RunShape(cfg, ss, ls);
    Always(cfg, ss, ls, i);
    RunAt(cfg, ss, ls, i);
    PortKeeps(cfg, ss[i], ls[i].tid, ls[i].e, ss[i + 1]);
    hide LocalOk, Next, Possible, Apply, StoreOk, SeenOk, EntriesOk, WritesOk;
  }

  /** However calls interleave, an incident is persisted as awaiting approval at most once. */
  lemma AwaitingOnce(cfg: Config, ss: seq<Sys>, ls: seq<Label>, id: Id)
    requires Run(cfg, ss, ls)
    ensures forall i, j :: 0 <= i < j < |ls| ==>
              !(Persists(ls[i], id, AwaitingApproval) && Persists(ls[j], id, AwaitingApproval))
  {
    hide Run;
    RunShape(cfg, ss, ls);
    forall i, j | 0 <= i < j < |ls| && Persists(ls[i], id, AwaitingApproval)
      ensures !Persists(ls[j], id, AwaitingApproval)
    {
      NotAwaitingTwice(cfg, ss, ls, i, j, id);
    }
  }

  lemma NotAwaitingTwice(cfg: Config, ss: seq<Sys>, ls: seq<Label>, i: nat, j: nat, id: Id)
    requires Run(cfg, ss, ls) && i < j < |ls| && Persists(ls[i], id, AwaitingApproval)
    ensures !Persists(ls[j], id, AwaitingApproval)
  {
    hide Run, Inv, Step, Persists;
    RunShape(cfg, ss, ls);
    PersistAwaiting(cfg, ss, ls, i, id);
    var k := ls[i].tid;
    RunLater(cfg, ss, ls, i, j, k);
    PersistedThread(cfg, ss, ls, i, k);
    RunLater(cfg, ss, ls, i + 1, j, k);
    if Persists(ls[j], id, AwaitingApproval) {
      PersistAwaiting(cfg, ss, ls, j, id);
      assert false;
    }
  }

  lemma PersistedThread(cfg: Config, ss: seq<Sys>, ls: seq<Label>, i: nat, k: nat)
    requires Run(cfg, ss, ls) && i < |ls| && k < |ss[i].threads|
    ensures k < |ss[i + 1].threads|
  {
    RunLater(cfg, ss, ls, i, i + 1, k);
  }

  lemma SawNow(t: Thread, e: Event, t': Thread)
    requires Summary(t, e, t') && t'.saw && !t.saw
    ensures e.Load? && e.id == t'.call.id && e.found.Some? && e.found.value.status == AwaitingApproval
  {
  }

  /** A thread that saw its incident waiting really read it so. */
  lemma {:induction false} SawIsARead(cfg: Config, ss: seq<Sys>, ls: seq<Label>, n: nat, k: nat)
    requires Run(cfg, ss, ls) && n <= |ls| && k < |ss[n].threads| && ss[n].threads[k].saw
    ensures exists i :: 0 <= i < n && ls[i].Port? && ls[i].tid == k && ls[i].e.Load?
                        && ls[i].e.id == ss[n].threads[k].call.id
                        && ls[i].e.found.Some? && ls[i].e.found.value.status == AwaitingApproval
  {
    hide Run, Inv, Next, Possible, Apply, Start, Summary;
    RunShape(cfg, ss, ls);
    var s, l, s' := ss[n - 1], ls[n - 1], ss[n];
    RunAt(cfg, ss, ls, n - 1);
    Always(cfg, ss, ls, n - 1);
    if l.Port? {
      PortKeeps(cfg, s, l.tid, l.e, s');
    }
    if l.Spawn? {
      StartOk(cfg, l.call);
    }
    if k < |s.threads| && s.threads[k].saw {
      StepLaterCall(s, l, s', k);
      SawIsARead(cfg, ss, ls, n - 1, k);
    } else if l.Port? && l.tid == k {
      SawNow(s.threads[k], l.e, s'.threads[k]);
    }
  }

  lemma StepLaterCall(s: Sys, l: Label, s': Sys, k: nat)
    requires k < |s.threads| && k < |s'.threads|
    requires s'.threads[k] == s.threads[k] || (l.Port? && l.tid == k && Summary(s.threads[k], l.e, s'.threads[k]))
             || s'.threads[k] == s.threads[k].(pc := Crashed)
    ensures s'.threads[k].call == s.threads[k].call
  {
  }

  /** Every entry into the executor is the incident's own alert, for an auto-dispatched one, or
      else its own allowed approval, whose read saw the incident waiting. No call enters twice. */
  lemma ExecutionsAreJustified(cfg: Config, ss: seq<Sys>, ls: seq<Label>)
    requires Run(cfg, ss, ls)
    ensures var s := ss[|ls|];
            && (forall i, j :: 0 <= i < j < |s.entries| ==> s.entries[i].tid != s.entries[j].tid)
            && forall j :: 0 <= j < |s.entries| ==>
                 var n := s.entries[j];
                 && n.id in s.owner && s.owner[n.id] < |s.threads| && n.tid < |s.threads|
                 && var own, t := s.threads[s.owner[n.id]], s.threads[n.tid];
                    && n.plan == own.inc.plan
                    && (own.claimed <==> n.tid == s.owner[n.id])
                    && (n.tid != s.owner[n.id] ==>
                          t.call.Approve? && t.call.id == n.id && t.call.actor in cfg.approvers && t.saw && own.parked)
  {
    hide Run;
    RunShape(cfg, ss, ls);
    Always(cfg, ss, ls, |ls|);
    var s := ss[|ls|];
    forall j | 0 <= j < |s.entries|
      ensures EntryOk(cfg, s, s.entries[j]) && AlertOk(s.threads[s.owner[s.entries[j].id]])
    {
      assert EntryOk(cfg, s, s.entries[j]);
      assert LocalOk(cfg, s.threads[s.owner[s.entries[j].id]]);
    }
    hide LocalOk, StoreOk, SeenOk, WritesOk;
  }

  /** The plan executed is the plan the incident was dispatched with, unattended or for approval. */
  lemma ExecutesTheDispatchedPlan(cfg: Config, ss: seq<Sys>, ls: seq<Label>, i: nat, j: nat)
    requires Run(cfg, ss, ls) && i < |ls| && j < |ss[|ls|].entries|
    requires var n := ss[|ls|].entries[j];
             && n.id in ss[i].owner && ls[i].Port? && ls[i].tid == ss[i].owner[n.id]
             && (Persists(ls[i], n.id, AwaitingApproval) || Persists(ls[i], n.id, Executing))
    ensures ss[|ls|].entries[j].plan == ls[i].e.inc.plan
  {
    hide Run;
    RunShape(cfg, ss, ls);
    var s, n, k := ss[|ls|], ss[|ls|].entries[j], ls[i].tid;
    Always(cfg, ss, ls, |ls|);
    assert EntryOk(cfg, s, n);
    Always(cfg, ss, ls, i);
    RunAt(cfg, ss, ls, i);
    PortKeeps(cfg, ss[i], k, ls[i].e, ss[i + 1]);
    DispatchHasPlan(cfg, ss[i].threads[k], ls[i].e);
    assert ss[i + 1].threads[k].call.Alert?;
    RunLater(cfg, ss, ls, i + 1, |ls|, k);
    RunLater(cfg, ss, ls, i, |ls|, k);
    hide LocalOk, Next, Possible, Apply, StoreOk, SeenOk, EntriesOk, WritesOk;
  }

  lemma DispatchHasPlan(cfg: Config, t: Thread, e: Event)
    requires LocalOk(cfg, t) && t.call.Alert? && Next(cfg, t, e).Some?
    requires e.Save? && (e.inc.status == AwaitingApproval || e.inc.status == Executing)
    ensures t.inc.plan.Some? && e.inc.plan == t.inc.plan
  {
    hide CanAutoRemediate;
  }

  // ----- Cluster safety -----

  lemma StepReplays(cfg: Config, s: Sys, l: Label, s': Sys, c: State, ws: seq<Write>) returns (ws': seq<Write>)
    requires Step(cfg, s, l, s') && !l.Outside? && s.w.cluster == Replay(c, ws)
    ensures s'.w.cluster == Replay(c, ws')
  {
    hide Next, Possible, After, Start, SafeWrite, Fits, Accept;
    ws' := ws;
    if l.Port? && l.e.Remediate? {
      StepIsSafe(cfg.wires, s.w.cluster, l.e.step, l.e.weather);
      if s'.w.cluster != s.w.cluster {
        var w :| s'.w.cluster == Accept(s.w.cluster, w) && SafeWrite(cfg.wires, w) && Fits(l.e.step, w);
        ws' := ws + [w];
        assert ws'[..|ws|] == ws;
      }
    }
  }

  lemma {:induction false} RunReplays(cfg: Config, ss: seq<Sys>, ls: seq<Label>, n: nat) returns (ws: seq<Write>)
    requires Run(cfg, ss, ls) && NoOutside(ls) && n <= |ls|
    ensures ss[n].w.cluster == Replay(ss[0].w.cluster, ws)
  {
    hide Run;
    RunShape(cfg, ss, ls);
    if n == 0 {
      ws := [];
    } else {
      ws := RunReplays(cfg, ss, ls, n - 1);
      hide Step;
      RunAt(cfg, ss, ls, n - 1);
      ws := StepReplays(cfg, ss[n - 1], ls[n - 1], ss[n], ss[0].w.cluster, ws);
    }
  }

  /** Over every run, whatever the plans and arguments: each write is within the guards; and
      if nobody else changes the cluster, protected namespaces stay as they were and every
      size is the original one or within its cap. */
  lemma ClusterStaysSafe(cfg: Config, ss: seq<Sys>, ls: seq<Label>, ns: string)
    requires Run(cfg, ss, ls)
    ensures forall w :: w in ss[|ls|].w.cluster.writes ==> SafeWrite(cfg.wires, w)
    ensures NoOutside(ls) && cfg.wires.k8s.Some? && ns in cfg.wires.k8s.value.protected ==>
              SameNamespace(ss[0].w.cluster, ss[|ls|].w.cluster, ns)
    ensures NoOutside(ls) ==> WithinCaps(cfg.wires, ss[0].w.cluster, ss[|ls|].w.cluster)
  {
    hide Run, LocalOk, OwnersOk, StoreOk, SeenOk, EntriesOk, SafeWrite, SameNamespace, WithinCaps;
    RunShape(cfg, ss, ls);
    Always(cfg, ss, ls, |ls|);
    if NoOutside(ls) {
      var ws := RunReplays(cfg, ss, ls, |ls|);
      ReplayWrites(ss[0].w.cluster, ws);
      SafeWritesAreSafe(cfg.wires, ss[0].w.cluster, ws, ns);
    }
  }
}
