/** Every completed call tells its story: proved place by place for its thread, and from there for
    the plays of the services and for every run. */
module Storytelling {
  import opened Text
  import opened Domain
  import opened Cluster
  import opened Verifier
  import opened Machine
  import opened Plays
  import opened Interleaved
  import opened Stories
  import Histories

  // ----- A thread from the front -----

  /** From `t` exactly these port calls lead to the end, with this outcome. */
  ghost predicate Tells(cfg: Config, t: Thread, es: seq<Event>, o: Outcome)
    decreases |es|
  {
    if es == [] then t.pc == Done(o)
    else Next(cfg, t, es[0]).Some? && Tells(cfg, Next(cfg, t, es[0]).value, es[1..], o)
  }

  lemma Peel(cfg: Config, t: Thread, es: seq<Event>, o: Outcome)
    requires Tells(cfg, t, es, o)
    ensures t.pc.Done? ==> es == [] && t.pc.outcome == o
    ensures !t.pc.Done? ==>
              es != [] && Next(cfg, t, es[0]).Some? && Tells(cfg, Next(cfg, t, es[0]).value, es[1..], o)
  {
    if es != [] {
      StillActive(cfg, t, es[0]);
    }
    hide Next;
  }

  // ----- Where a thread's places lead -----

  lemma ActorIs(call: Call)
    ensures ActorOf(call) == if call.Alert? then "system" else call.actor
  {
  }

  lemma CreateKind(cfg: Config, t: Thread, e: Event)
    requires t.pc.Creating? && Next(cfg, t, e).Some?
    ensures e.Create? && e.inc == t.inc
    ensures Next(cfg, t, e) == Some(t.(pc := if e.ok then Ingesting else Done(CreateFailed)))
  {
    hide ToSave, ToAudit, ToNotify, OnSave, OnAudit, OnNotify, OnMatch, OnList, OnPlan, OnLoad, OnStep, OnLook, OnProbe;
  }

  lemma StepKind(cfg: Config, t: Thread, e: Event)
    requires t.pc.Running? && Next(cfg, t, e).Some?
    ensures e.Remediate? && e.id == t.inc.id && Runs(t, e.index, e.step)
    ensures Next(cfg, t, e) == Some(OnStep(cfg, t, e.index, e.weather, e.ok))
  {
    hide ToSave, ToAudit, ToNotify, OnSave, OnAudit, OnNotify, OnMatch, OnList, OnPlan, OnLoad, OnStep, OnLook, OnProbe;
  }

  lemma LookKind(cfg: Config, t: Thread, e: Event)
    requires t.pc.Verifying? && Next(cfg, t, e).Some?
    ensures e.Look? && e.id == t.inc.id && Checks(t, e.index, e.step)
    ensures Next(cfg, t, e) == Some(OnLook(t, e.index, e.sight))
  {
    hide ToSave, ToAudit, ToNotify, OnSave, OnAudit, OnNotify, OnMatch, OnList, OnPlan, OnLoad, OnStep, OnLook, OnProbe;
  }

  lemma ProbeKind(cfg: Config, t: Thread, e: Event)
    requires t.pc.Probing? && Next(cfg, t, e).Some?
    ensures e.Probe? && e.id == t.inc.id && Probes(t, e.target) && Next(cfg, t, e) == Some(OnProbe(t, e.ok))
  {
    hide ToSave, ToAudit, ToNotify, OnSave, OnAudit, OnNotify, OnMatch, OnList, OnPlan, OnLoad, OnStep, OnLook, OnProbe;
  }

  lemma StepPath(cfg: Config, t: Thread, weather: Weather, ok: bool)
    requires t.pc.Running? && t.inc.plan.Some?
    ensures var u, i, n := OnStep(cfg, t, t.pc.i, weather, ok), t.pc.i, |t.inc.plan.value.steps|;
            u == t.(env := u.env, pc := if !ok then FailSave(ExecutionFailed)
                                        else if i + 1 < n then Running(i + 1)
                                        else if cfg.verifier then Verifying(0) else Resolving)
  {
  }

  /** The place after the checks of the first `n` steps. */
  function Checked(steps: seq<ActionStep>, n: nat): Pc {
    if n < |steps| then Verifying(n) else VerifiedAudit
  }

  lemma LookPath(t: Thread, sight: Sight)
    requires t.pc.Verifying? && t.inc.plan.Some?
    ensures OnLook(t, t.pc.i, sight) ==
            t.(pc := match sight
                     case Good => Checked(t.inc.plan.value.steps, t.pc.i + 1)
                     case Bad => FailSave(VerificationFailed)
                     case DependsOn(target) => Probing(t.pc.i, target))
  {
  }

  lemma ProbePath(t: Thread, ok: bool)
    requires t.pc.Probing? && t.inc.plan.Some?
    ensures OnProbe(t, ok) ==
            t.(pc := if ok then Checked(t.inc.plan.value.steps, t.pc.i + 1) else FailSave(VerificationFailed))
  {
  }

  function Decides(call: Call): Pc {
    if call.Approve? then Claiming else RejectSave
  }

  lemma LoadPath(t: Thread, found: Option<Incident>)
    ensures found.None? ==> OnLoad(t, found) == t.(pc := Done(LookupFailed))
    ensures found.Some? && t.call.FollowUp? ==> OnLoad(t, found) == t.(inc := found.value, pc := FollowMatch)
    ensures found.Some? && !t.call.FollowUp? ==>
              var u, status := OnLoad(t, found), found.value.status;
              u == t.(inc := found.value, saw := u.saw,
                      pc := if status == Resolved || status == Failed then Done(AlreadyTerminal)
                            else if status != AwaitingApproval then Done(WrongStatus)
                            else Decides(t.call))
  {
  }

  lemma ClaimPath(t: Thread, ok: bool)
    requires t.pc == Claiming
    ensures Saves(t.pc) && ToSave(t) == t.inc.(status := Executing)
    ensures var u, v := OnSave(t, ok), t.(inc := ToSave(t), claimed := ok);
            if !ok then u == v.(pc := if t.call.Alert? then AbortSave else Done(SaveFailed))
            else if t.call.Alert? then u == Enter(v) else u == v.(pc := ApproveAudit)
  {
    hide Enter;
  }

  lemma ApprovedPath(cfg: Config, t: Thread)
    requires t.pc == ApproveAudit && t.call.Approve?
    ensures Audits(t.pc) && ToAudit(t) == AuditRecord(t.inc.id, t.call.actor, Approved)
    ensures OnAudit(cfg, t) == Enter(t)
  {
    hide Enter;
  }

  lemma FoundPath(t: Thread, books: Option<seq<Runbook>>)
    requires t.pc == FollowMatch
    ensures books.Some? ==> Machine.Found(t, books) == t.(pc := FollowInvestigate, context := books.value)
    ensures books.None? ==> Machine.Found(t, books) == t.(pc := Done(InvestigationFailed))
  {
  }

  lemma FollowPlanPath(t: Thread, plan: Option<ActionPlan>)
    requires t.pc == FollowInvestigate
    ensures OnPlan(t, plan) == t.(pc := if plan.None? then Done(InvestigationFailed) else FollowAudit)
  {
  }

  lemma FollowedPath(cfg: Config, t: Thread)
    requires t.pc == FollowAudit && t.call.FollowUp?
    ensures Audits(t.pc) && ToAudit(t) == AuditRecord(t.inc.id, t.call.actor, FollowedUp)
    ensures OnAudit(cfg, t) == t.(pc := if cfg.messaging then FollowReply else Done(Succeeded))
  {
  }

  lemma AnsweredPath(t: Thread, ok: bool)
    requires t.pc == FollowReply
    ensures Notifies(t.pc) && ToNotify(t) == FollowUpNote && OnNotify(t, ok) == t.(pc := Done(Succeeded))
  {
  }

  lemma IngestPath(cfg: Config, t: Thread)
    requires t.pc == Ingesting
    ensures Audits(t.pc) && ToAudit(t) == AuditRecord(t.inc.id, "system", Ingested)
    ensures OnAudit(cfg, t) == t.(pc := Pc.Matching)
  {
  }

  lemma MatchPath(t: Thread, books: Option<seq<Runbook>>)
    requires t.pc == Pc.Matching
    ensures OnMatch(t, books) ==
            if books.None? then t.(pc := AbortSave) else t.(pc := MatchingContext, unmatched := books.value == [])
  {
  }

  /** A plan may run unattended. */
  predicate MayRun(p: ActionPlan) {
    && p.steps != [] && p.risk == AutoRemediate && p.confidence >= 0.7
    && forall step :: step in p.steps ==> step.tool == PatchHPAMaxReplicas
  }

  lemma PlannedPath(cfg: Config, t: Thread, p: ActionPlan)
    requires t.pc == Planning && t.inc.plan == Some(p)
    ensures Audits(t.pc) && ToAudit(t) == AuditRecord(t.inc.id, "llm", Planned)
    ensures OnAudit(cfg, t) == t.(pc := if MayRun(p) then Claiming else Parking)
  {
    assert forall i :: 0 <= i < |p.steps| ==> p.steps[i] in p.steps;
  }

  lemma ParkPath(t: Thread, ok: bool)
    requires t.pc == Parking
    ensures Saves(t.pc) && ToSave(t) == t.inc.(risk := RequiresApproval, status := AwaitingApproval)
    ensures OnSave(t, ok) == t.(inc := ToSave(t), parked := ok, pc := if ok then ParkAudit else AbortSave)
  {
  }

  lemma ParkedPath(cfg: Config, t: Thread)
    requires t.pc == ParkAudit
    ensures Audits(t.pc) && ToAudit(t) == AuditRecord(t.inc.id, "system", AwaitingHuman)
    ensures OnAudit(cfg, t) == t.(pc := if cfg.messaging then RequestingApproval else Done(Succeeded))
  {
  }

  lemma RequestPath(t: Thread, ok: bool)
    requires t.pc == RequestingApproval
    ensures Notifies(t.pc) && ToNotify(t) == ApprovalRequest
    ensures OnNotify(t, ok) == t.(pc := if ok then Done(Succeeded) else AbortSave)
  {
  }

  // ----- Every thread tells its story -----

  lemma AbortTold(cfg: Config, t: Thread, es: seq<Event>, o: Outcome)
    requires Tells(cfg, t, es, o) && t.pc == AbortSave
    ensures AbortLog(cfg, t.inc, es, o)
  {
    hide Next, OnSave, OnAudit, OnNotify, ToAudit, ToNotify;
    Peel(cfg, t, es, o);
    SavesAbort(t);
    SaveKind(cfg, t, es[0]);
    var t1, r1 := t.(inc := ToSave(t), pc := AbortAudit), es[1..];
    Peel(cfg, t1, r1, o);
    RecordsAbort(cfg, t1);
    AuditKind(cfg, t1, r1[0]);
    var t2, r2 := OnAudit(cfg, t1), r1[1..];
    Peel(cfg, t2, r2, o);
    if cfg.messaging {
      ReportsAbort(t2);
      NotifyKind(cfg, t2, r2[0]);
      Peel(cfg, OnNotify(t2, r2[0].ok), r2[1..], o);
    }
  }

  lemma FailTold(cfg: Config, t: Thread, why: Action, es: seq<Event>, o: Outcome)
    requires Tells(cfg, t, es, o) && t.pc == FailSave(why)
    ensures FailLog(cfg, t.call, t.inc, why, es, o)
  {
    hide Next, OnSave, OnAudit, OnNotify, ToAudit, ToNotify, AbortLog;
    ActorIs(t.call);
    Peel(cfg, t, es, o);
    SavesFailure(t, why);
    SaveKind(cfg, t, es[0]);
    var t1, r1 := t.(inc := ToSave(t), pc := FailAudit(why)), es[1..];
    Peel(cfg, t1, r1, o);
    RecordsFailure(cfg, t1, why);
    AuditKind(cfg, t1, r1[0]);
    var t2, r2 := OnAudit(cfg, t1), r1[1..];
    Peel(cfg, t2, r2, o);
    if cfg.messaging {
      ReportsFailure(t2);
      NotifyKind(cfg, t2, r2[0]);
      UnwoundTold(cfg, OnNotify(t2, r2[0].ok), r2[1..], o);
      assert r1[2..] == r2[1..];
    } else {
      UnwoundTold(cfg, t2, r2, o);
    }
  }

  lemma UnwoundTold(cfg: Config, t: Thread, es: seq<Event>, o: Outcome)
    requires Tells(cfg, t, es, o) && t.pc == Unwound(t.call)
    ensures if t.call.Alert? then AbortLog(cfg, t.inc.(status := Failed), es, o) else es == [] && o == ExecutionError
  {
    hide Next, AbortLog;
    Peel(cfg, t, es, o);
    if t.call.Alert? {
      AbortTold(cfg, t, es, o);
      AbortsAlike(cfg, t.inc, es, o);
    }
  }

  lemma AbortsAlike(cfg: Config, inc: Incident, es: seq<Event>, o: Outcome)
    requires AbortLog(cfg, inc, es, o)
    ensures AbortLog(cfg, inc.(status := Failed), es, o)
  {
  }

  lemma ResolveTold(cfg: Config, t: Thread, es: seq<Event>, o: Outcome)
    requires Tells(cfg, t, es, o) && t.pc == Resolving
    ensures ResolveLog(cfg, t.call, t.inc, es, o)
  {
    hide Next, OnSave, OnAudit, OnNotify, ToAudit, ToNotify, AbortLog, Reported;
    Peel(cfg, t, es, o);
    SavesResolution(t);
    SaveKind(cfg, t, es[0]);
    var t1, r1 := OnSave(t, es[0].ok), es[1..];
    Peel(cfg, t1, r1, o);
    if es[0].ok {
      ResolvedTold(cfg, t1, r1, o);
    } else if t.call.Alert? {
      AbortTold(cfg, t1, r1, o);
    }
  }

  lemma ResolvedTold(cfg: Config, t: Thread, es: seq<Event>, o: Outcome)
    requires Tells(cfg, t, es, o) && t.pc == ResolvedAudit
    ensures o == Succeeded && |es| == Report(cfg)
    ensures if t.call.Alert? then Reported(cfg, es, t.inc.id, "system", AutoRemediated, AutoNote)
            else Reported(cfg, es, t.inc.id, t.call.actor, ApprovedResolved, ResolvedNote)
  {
    hide Next, OnSave, OnAudit, OnNotify, ToSave, ToAudit, ToNotify;
    ActorIs(t.call);
    Peel(cfg, t, es, o);
    RecordsResolution(cfg, t);
    AuditKind(cfg, t, es[0]);
    var t2, r2 := OnAudit(cfg, t), es[1..];
    Peel(cfg, t2, r2, o);
    if cfg.messaging {
      ReportsResolution(t2);
      NotifyKind(cfg, t2, r2[0]);
      Peel(cfg, OnNotify(t2, r2[0].ok), r2[1..], o);
    }
  }

  lemma {:induction false} CheckTold(cfg: Config, t: Thread, es: seq<Event>, o: Outcome)
    requires Tells(cfg, t, es, o) && t.pc.Verifying? && t.inc.plan.Some?
    ensures CheckLog(cfg, t.call, t.inc, t.inc.plan.value.steps, t.pc.i, es, o)
    decreases |es|, 0
  {
    hide Next, OnLook, FailLog, CheckedLog, ProbeLog;
    Peel(cfg, t, es, o);
    LookKind(cfg, t, es[0]);
    LookPath(t, es[0].sight);
    var t1, r1 := OnLook(t, t.pc.i, es[0].sight), es[1..];
    match es[0].sight
    case Good => CheckedTold(cfg, t1, t.pc.i + 1, r1, o);
    case Bad => FailTold(cfg, t1, VerificationFailed, r1, o);
    case DependsOn(_) => ProbeTold(cfg, t1, r1, o);
  }

  lemma {:induction false} ProbeTold(cfg: Config, t: Thread, es: seq<Event>, o: Outcome)
    requires Tells(cfg, t, es, o) && t.pc.Probing? && t.inc.plan.Some?
    ensures ProbeLog(cfg, t.call, t.inc, t.inc.plan.value.steps, t.pc.i, t.pc.target, es, o)
    decreases |es|, 0
  {
    hide Next, OnProbe, FailLog, CheckedLog;
    Peel(cfg, t, es, o);
    ProbeKind(cfg, t, es[0]);
    ProbePath(t, es[0].ok);
    var t1, r1 := OnProbe(t, es[0].ok), es[1..];
    if es[0].ok {
      CheckedTold(cfg, t1, t.pc.i + 1, r1, o);
    } else {
      FailTold(cfg, t1, VerificationFailed, r1, o);
    }
  }

  lemma {:induction false} CheckedTold(cfg: Config, t: Thread, n: nat, es: seq<Event>, o: Outcome)
    requires Tells(cfg, t, es, o) && t.inc.plan.Some? && t.pc == Checked(t.inc.plan.value.steps, n)
    ensures CheckedLog(cfg, t.call, t.inc, t.inc.plan.value.steps, n, es, o)
    decreases |es|, 1
  {
    hide Next, Tells, ResolveLog, CheckLog, Recorded;
    if n < |t.inc.plan.value.steps| {
      CheckTold(cfg, t, es, o);
    } else {
      VerdictTold(cfg, t, es, o);
    }
  }

  lemma VerdictTold(cfg: Config, t: Thread, es: seq<Event>, o: Outcome)
    requires Tells(cfg, t, es, o) && t.pc == VerifiedAudit
    ensures es != [] && Recorded(es[0], t.inc.id, if t.call.Alert? then "system" else t.call.actor, HealthVerified)
    ensures ResolveLog(cfg, t.call, t.inc, es[1..], o)
  {
    hide Next, Tells, OnAudit, ToAudit, ResolveLog;
    ActorIs(t.call);
    Peel(cfg, t, es, o);
    RecordsVerdict(cfg, t);
    AuditKind(cfg, t, es[0]);
    ResolveTold(cfg, OnAudit(cfg, t), es[1..], o);
  }

  lemma {:induction false} StepTold(cfg: Config, t: Thread, es: seq<Event>, o: Outcome)
    requires Tells(cfg, t, es, o) && t.pc.Running? && t.inc.plan.Some?
    ensures StepLog(cfg, t.call, t.inc, t.inc.plan.value.steps, t.pc.i, es, o)
    decreases |es|
  {
    hide Next, OnStep, FailLog, CheckLog, ResolveLog;
    Peel(cfg, t, es, o);
    StepKind(cfg, t, es[0]);
    StepPath(cfg, t, es[0].weather, es[0].ok);
    var t1, r1 := OnStep(cfg, t, t.pc.i, es[0].weather, es[0].ok), es[1..];
    if !es[0].ok {
      FailTold(cfg, t1, ExecutionFailed, r1, o);
    } else if t.pc.i + 1 < |t.inc.plan.value.steps| {
      StepTold(cfg, t1, r1, o);
    } else if cfg.verifier {
      CheckTold(cfg, t1, r1, o);
    } else {
      ResolveTold(cfg, t1, r1, o);
    }
  }

  lemma SettleTold(cfg: Config, t: Thread, es: seq<Event>, o: Outcome)
    requires Tells(cfg, t, es, o) && t == Enter(t).(env := t.env, entered := t.entered)
    ensures SettleLog(cfg, t.call, t.inc, es, o)
  {
    hide Next, FailLog, StepLog;
    if t.inc.plan.None? || t.inc.plan.value.steps == [] {
      FailTold(cfg, t, ExecutionFailed, es, o);
    } else {
      StepTold(cfg, t, es, o);
    }
  }

  // ----- Approvals and rejections -----

  lemma ClaimTold(cfg: Config, t: Thread, es: seq<Event>, o: Outcome)
    requires Tells(cfg, t, es, o) && t.pc == Claiming && t.call.Approve?
    ensures ClaimLog(cfg, t.call, t.inc, es, o)
  {
    hide Next, OnSave, ApprovedLog, ToSave;
    Peel(cfg, t, es, o);
    SaveKind(cfg, t, es[0]);
    ClaimPath(t, es[0].ok);
    var t1, r1 := OnSave(t, es[0].ok), es[1..];
    Peel(cfg, t1, r1, o);
    if es[0].ok {
      ApprovedTold(cfg, t1, r1, o);
    }
  }

  lemma ApprovedTold(cfg: Config, t: Thread, es: seq<Event>, o: Outcome)
    requires Tells(cfg, t, es, o) && t.pc == ApproveAudit && t.call.Approve?
    ensures ApprovedLog(cfg, t.call, t.inc, es, o)
  {
    hide Next, OnAudit, ToAudit, SettleLog;
    Peel(cfg, t, es, o);
    ApprovedPath(cfg, t);
    AuditKind(cfg, t, es[0]);
    SettleTold(cfg, OnAudit(cfg, t), es[1..], o);
  }

  /** What the two decisions have in common: only a waiting incident is decided. */
  lemma DecideTold(cfg: Config, t: Thread, es: seq<Event>, o: Outcome)
    requires Tells(cfg, t, es, o) && t.pc == Loading && !t.call.FollowUp?
    ensures es != [] && es[0].Load? && es[0].id == t.call.id
    ensures match es[0].found
            case None => es[1..] == [] && o == LookupFailed
            case Some(inc) =>
              if inc.status == Resolved || inc.status == Failed then es[1..] == [] && o == AlreadyTerminal
              else if inc.status != AwaitingApproval then es[1..] == [] && o == WrongStatus
              else
                var t1 := OnLoad(t, es[0].found);
                Tells(cfg, t1, es[1..], o) && t1 == t.(inc := inc, saw := t1.saw, pc := Decides(t.call))
  {
    hide Next, Tells, OnLoad, Decides;
    Peel(cfg, t, es, o);
    LoadKind(cfg, t, es[0]);
    LoadPath(t, es[0].found);
    Peel(cfg, OnLoad(t, es[0].found), es[1..], o);
  }

  lemma ApproveTold(cfg: Config, t: Thread, es: seq<Event>, o: Outcome)
    requires Tells(cfg, t, es, o) && t.pc == Loading && t.call.Approve?
    ensures ApproveLog(cfg, t.call, es, o)
  {
    hide Next, Tells, OnLoad, ClaimLog;
    DecideTold(cfg, t, es, o);
    if es[0].found.Some? && es[0].found.value.status == AwaitingApproval {
      ClaimTold(cfg, OnLoad(t, es[0].found), es[1..], o);
    }
  }

  lemma RejectTold(cfg: Config, t: Thread, es: seq<Event>, o: Outcome)
    requires Tells(cfg, t, es, o) && t.pc == Loading && t.call.Reject?
    ensures RejectLog(cfg, t.call, es, o)
  {
    hide Next, Tells, OnLoad, RefuseLog;
    DecideTold(cfg, t, es, o);
    if es[0].found.Some? && es[0].found.value.status == AwaitingApproval {
      RefuseTold(cfg, OnLoad(t, es[0].found), es[1..], o);
    }
  }

  lemma RefuseTold(cfg: Config, t: Thread, es: seq<Event>, o: Outcome)
    requires Tells(cfg, t, es, o) && t.pc == RejectSave && t.call.Reject?
    ensures RefuseLog(cfg, t.call.actor, t.inc, es, o)
  {
    hide Next, OnSave, OnAudit, OnNotify, ToAudit, ToNotify;
    ActorIs(t.call);
    Peel(cfg, t, es, o);
    SavesRejection(t);
    SaveKind(cfg, t, es[0]);
    var t1, r1 := OnSave(t, es[0].ok), es[1..];
    Peel(cfg, t1, r1, o);
    if es[0].ok {
      RecordsRejection(cfg, t1);
      AuditKind(cfg, t1, r1[0]);
      var t2, r2 := OnAudit(cfg, t1), r1[1..];
      Peel(cfg, t2, r2, o);
      if cfg.messaging {
        ReportsRejection(t2);
        NotifyKind(cfg, t2, r2[0]);
        Peel(cfg, OnNotify(t2, r2[0].ok), r2[1..], o);
      }
    }
  }

  // ----- Follow-ups and alerts -----

  /** The context search of a thread, and where it leads. */
  lemma SearchTold(cfg: Config, t: Thread, es: seq<Event>, o: Outcome) 
    requires Tells(cfg, t, es, o) && (t.pc.MatchingContext? || t.pc.FollowMatch?)
    ensures Searched(t.inc.labels, es) && Tells(cfg, Machine.Found(t, Context(es)), Rest(es), o)
  {
    hide Next, OnMatch, OnList, Machine.Found;
    ContextPath(t);
    Peel(cfg, t, es, o);
    MatchKind(cfg, t, es[0]);
    if es[0].books == Some([]) {
      var t1 := t.(pc := Lists(t));
      Peel(cfg, t1, es[1..], o);
      ListKind(cfg, t1, es[1]);
      assert es[1..][1..] == es[2..];
    }
  }

  /** The search with its outcome. */
  lemma ContextTold(cfg: Config, t: Thread, es: seq<Event>, o: Outcome)
    requires Tells(cfg, t, es, o) && (t.pc.MatchingContext? || t.pc.FollowMatch?)
    ensures Searched(t.inc.labels, es)
    ensures Context(es).Some? ==>
              Tells(cfg, t.(pc := if t.pc.FollowMatch? then FollowInvestigate else Pc.Investigating,
                            context := Context(es).value), Rest(es), o)
    ensures Context(es).None? ==>
              Tells(cfg, t.(pc := if t.pc.FollowMatch? then Done(InvestigationFailed) else AbortSave), Rest(es), o)
  {
    hide Next, Tells, Searched, Context, Rest;
    SearchTold(cfg, t, es, o);
  }

  lemma AskTold(cfg: Config, t: Thread, es: seq<Event>, o: Outcome)
    requires Tells(cfg, t, es, o) && t.pc == FollowMatch && t.call.FollowUp?
    ensures AskLog(cfg, t.call.actor, t.inc, es, o)
  {
    hide Next, Tells, Searched, Context, Rest, AnswerLog;
    ContextTold(cfg, t, es, o);
    if Context(es).Some? {
      AnswerTold(cfg, t.(pc := FollowInvestigate, context := Context(es).value), Rest(es), o);
    } else {
      Peel(cfg, t.(pc := Done(InvestigationFailed)), Rest(es), o);
    }
  }

  lemma AnswerTold(cfg: Config, t: Thread, es: seq<Event>, o: Outcome)
    requires Tells(cfg, t, es, o) && t.pc == FollowInvestigate && t.call.FollowUp?
    ensures AnswerLog(cfg, t.call.actor, t.inc.id, t.context, es, o)
  {
    hide Next, Reported;
    Peel(cfg, t, es, o);
    PlanKind(cfg, t, es[0]);
    var t1, r1 := OnPlan(t, es[0].plan), es[1..];
    Peel(cfg, t1, r1, o);
    if es[0].plan.Some? {
      FollowedTold(cfg, t1, r1, o);
    }
  }

  lemma FollowedTold(cfg: Config, t: Thread, es: seq<Event>, o: Outcome)
    requires Tells(cfg, t, es, o) && t.pc == FollowAudit && t.call.FollowUp?
    ensures o == Succeeded && |es| == Report(cfg)
    ensures Reported(cfg, es, t.inc.id, t.call.actor, FollowedUp, FollowUpNote)
  {
    hide Next, OnAudit, ToAudit, OnNotify, ToNotify;
    Peel(cfg, t, es, o);
    FollowedPath(cfg, t);
    AuditKind(cfg, t, es[0]);
    var t1, r1 := OnAudit(cfg, t), es[1..];
    Peel(cfg, t1, r1, o);
    if cfg.messaging {
      NotifyKind(cfg, t1, r1[0]);
      AnsweredPath(t1, r1[0].ok);
      Peel(cfg, OnNotify(t1, r1[0].ok), r1[1..], o);
    }
  }

  lemma ReadTold(cfg: Config, t: Thread, es: seq<Event>, o: Outcome)
    requires Tells(cfg, t, es, o) && t.pc == Loading && t.call.FollowUp?
    ensures es != [] && es[0].Load? && es[0].id == t.call.id
    ensures match es[0].found
            case None => es[1..] == [] && o == LookupFailed
            case Some(inc) => Tells(cfg, t.(inc := inc, pc := FollowMatch), es[1..], o)
  {
    hide Next, Tells, OnLoad;
    Peel(cfg, t, es, o);
    LoadKind(cfg, t, es[0]);
    LoadPath(t, es[0].found);
    Peel(cfg, OnLoad(t, es[0].found), es[1..], o);
  }

  lemma FollowTold(cfg: Config, t: Thread, es: seq<Event>, o: Outcome)
    requires Tells(cfg, t, es, o) && t.call.FollowUp?
    requires t.pc == if TrimSpace(t.call.question) == "" then Done(EmptyQuestion) else Loading
    ensures FollowLog(cfg, t.call, es, o)
  {
    hide Next, Tells, AskLog, TrimSpace;
    if t.pc == Loading {
      ReadTold(cfg, t, es, o);
      if es[0].found.Some? {
        AskTold(cfg, t.(inc := es[0].found.value, pc := FollowMatch), es[1..], o);
      }
    } else {
      Peel(cfg, t, es, o);
    }
  }

  lemma ParkTold(cfg: Config, t: Thread, es: seq<Event>, o: Outcome)
    requires Tells(cfg, t, es, o) && t.pc == ParkAudit
    ensures ParkLog(cfg, t.inc, es, o)
  {
    hide Next, AbortLog, OnAudit, ToAudit, OnNotify, ToNotify;
    Peel(cfg, t, es, o);
    ParkedPath(cfg, t);
    AuditKind(cfg, t, es[0]);
    var t1, r1 := OnAudit(cfg, t), es[1..];
    Peel(cfg, t1, r1, o);
    if cfg.messaging {
      NotifyKind(cfg, t1, r1[0]);
      RequestPath(t1, r1[0].ok);
      var t2, r2 := OnNotify(t1, r1[0].ok), r1[1..];
      assert es[2..] == r2;
      Peel(cfg, t2, r2, o);
      if !r1[0].ok {
        AbortTold(cfg, t2, r2, o);
      }
    }
  }

  lemma DispatchTold(cfg: Config, t: Thread, p: ActionPlan, es: seq<Event>, o: Outcome)
    requires Tells(cfg, t, es, o) && t.call.Alert? && t.pc == if MayRun(p) then Claiming else Parking
    ensures DispatchLog(cfg, t.call, t.inc, p, es, o)
  {
    hide Next, Tells, SettleLog, AbortLog, ParkLog, Saved;
    if MayRun(p) {
      UnattendedTold(cfg, t, es, o);
    } else {
      AttendedTold(cfg, t, es, o);
    }
  }

  lemma UnattendedTold(cfg: Config, t: Thread, es: seq<Event>, o: Outcome)
    requires Tells(cfg, t, es, o) && t.call.Alert? && t.pc == Claiming
    ensures es != [] && Saved(es[0], t.inc.(status := Executing))
    ensures if es[0].ok then SettleLog(cfg, t.call, t.inc.(status := Executing), es[1..], o)
            else AbortLog(cfg, t.inc.(status := Executing), es[1..], o)
  {
    hide Next, Tells, OnSave, ToSave, SettleLog, AbortLog, Enter;
    Peel(cfg, t, es, o);
    SaveKind(cfg, t, es[0]);
    ClaimPath(t, es[0].ok);
    var t1, r1 := OnSave(t, es[0].ok), es[1..];
    if es[0].ok {
      Entering(t.(inc := ToSave(t), claimed := true));
      SettleTold(cfg, t1, r1, o);
    } else {
      AbortTold(cfg, t1, r1, o);
    }
  }

  lemma AttendedTold(cfg: Config, t: Thread, es: seq<Event>, o: Outcome)
    requires Tells(cfg, t, es, o) && t.call.Alert? && t.pc == Parking
    ensures var parked := t.inc.(risk := RequiresApproval, status := AwaitingApproval);
            && es != [] && Saved(es[0], parked)
            && if es[0].ok then ParkLog(cfg, parked, es[1..], o) else AbortLog(cfg, parked, es[1..], o)
  {
    hide Next, Tells, OnSave, ToSave, AbortLog, ParkLog;
    Peel(cfg, t, es, o);
    SaveKind(cfg, t, es[0]);
    ParkPath(t, es[0].ok);
    var t1, r1 := OnSave(t, es[0].ok), es[1..];
    if es[0].ok {
      ParkTold(cfg, t1, r1, o);
    } else {
      AbortTold(cfg, t1, r1, o);
    }
  }

  lemma Entering(t: Thread)
    ensures var u := Enter(t); u == Enter(u).(env := u.env, entered := u.entered) && u.call == t.call && u.inc == t.inc
  {
  }

  lemma AdoptTold(cfg: Config, t: Thread, es: seq<Event>, o: Outcome)
    requires Tells(cfg, t, es, o) && t.call.Alert? && t.pc == Pc.Investigating
    ensures AdoptLog(cfg, t.call, t.inc, t.unmatched, t.context, es, o)
  {
    hide Next, Tells, OnPlan, AbortLog, PlannedLog;
    ModelTold(cfg, t, es, o);
    if es[0].plan.None? {
      NoPlanPath(t);
      AbortTold(cfg, OnPlan(t, None), es[1..], o);
    } else {
      AdoptedTold(cfg, t, es[0].plan.value, es[1..], o);
    }
  }

  lemma ModelTold(cfg: Config, t: Thread, es: seq<Event>, o: Outcome)
    requires Tells(cfg, t, es, o) && t.pc == Pc.Investigating
    ensures es != [] && es[0].Investigate? && es[0].id == t.inc.id && es[0].context == t.context
    ensures Tells(cfg, OnPlan(t, es[0].plan), es[1..], o)
  {
    hide Next, Tells, OnPlan;
    Peel(cfg, t, es, o);
    PlanKind(cfg, t, es[0]);
  }

  lemma AdoptedTold(cfg: Config, t: Thread, plan: ActionPlan, es: seq<Event>, o: Outcome)
    requires Tells(cfg, OnPlan(t, Some(plan)), es, o) && t.call.Alert? && t.pc == Pc.Investigating
    ensures var p := if t.unmatched then plan.(risk := RequiresApproval) else plan;
            PlannedLog(cfg, t.call, t.inc.(plan := Some(p), risk := p.risk), p, es, o)
  {
    hide Next, Tells, OnPlan, PlannedLog;
    PlanPath(t, plan);
    var p := if t.unmatched then plan.(risk := RequiresApproval) else plan;
    PlannedTold(cfg, t.(pc := Planning, inc := t.inc.(plan := Some(p), risk := p.risk)), p, es, o);
  }

  lemma NoPlanPath(t: Thread)
    requires t.pc == Pc.Investigating
    ensures OnPlan(t, None) == t.(pc := AbortSave)
  {
  }

  lemma PlannedTold(cfg: Config, t: Thread, p: ActionPlan, es: seq<Event>, o: Outcome)
    requires Tells(cfg, t, es, o) && t.call.Alert? && t.pc == Planning && t.inc.plan == Some(p)
    ensures PlannedLog(cfg, t.call, t.inc, p, es, o)
  {
    hide Next, OnAudit, ToAudit, MayRun, DispatchLog;
    Peel(cfg, t, es, o);
    PlannedPath(cfg, t, p);
    AuditKind(cfg, t, es[0]);
    DispatchTold(cfg, OnAudit(cfg, t), p, es[1..], o);
  }

  lemma InvestigateTold(cfg: Config, t: Thread, es: seq<Event>, o: Outcome)
    requires Tells(cfg, t, es, o) && t.call.Alert? && t.pc == MatchingContext
    ensures InvestigateLog(cfg, t.call, t.inc, t.unmatched, es, o)
  {
    hide Next, Tells, Searched, Context, Rest, AbortLog, AdoptLog;
    ContextTold(cfg, t, es, o);
    if Context(es).Some? {
      AdoptTold(cfg, t.(pc := Pc.Investigating, context := Context(es).value), Rest(es), o);
    } else {
      AbortTold(cfg, t.(pc := AbortSave), Rest(es), o);
    }
  }

  lemma IngestTold(cfg: Config, t: Thread, es: seq<Event>, o: Outcome)
    requires Tells(cfg, t, es, o) && t.call.Alert? && t.pc == Ingesting
    ensures IngestLog(cfg, t.call, t.inc, es, o)
  {
    hide Next, AbortLog, InvestigateLog, OnAudit, ToAudit, OnMatch;
    Peel(cfg, t, es, o);
    IngestPath(cfg, t);
    AuditKind(cfg, t, es[0]);
    var t1, r1 := t.(pc := Pc.Matching), es[1..];
    Peel(cfg, t1, r1, o);
    MatchKind(cfg, t1, r1[0]);
    MatchPath(t1, r1[0].books);
    var t2, r2 := OnMatch(t1, r1[0].books), r1[1..];
    assert es[2..] == r2;
    if r1[0].books.None? {
      AbortTold(cfg, t2, r2, o);
    } else {
      InvestigateTold(cfg, t2, r2, o);
    }
  }

  lemma AlertTold(cfg: Config, t: Thread, es: seq<Event>, o: Outcome)
    requires Tells(cfg, t, es, o) && t.call.Alert? && t.pc == Creating
    requires t.inc == NewIncident(t.call.id, t.call.labels, t.call.fingerprint)
    ensures AlertLog(cfg, t.call, es, o)
  {
    hide Next, IngestLog;
    Peel(cfg, t, es, o);
    CreateKind(cfg, t, es[0]);
    if es[0].ok {
      IngestTold(cfg, t.(pc := Ingesting), es[1..], o);
    } else {
      Peel(cfg, t.(pc := Done(CreateFailed)), es[1..], o);
    }
  }

  /** Where a call on an incident begins, once its actor has passed the gate. */
  predicate AtGate(t: Thread) {
    && !t.call.Alert?
    && t.pc == if t.call.FollowUp? && TrimSpace(t.call.question) == "" then Done(EmptyQuestion) else Loading
  }

  lemma AllowedTold(cfg: Config, t: Thread, es: seq<Event>, o: Outcome)
    requires Tells(cfg, t, es, o) && AtGate(t)
    ensures AllowedLog(cfg, t.call, es, o)
  {
    hide Next, Tells, ApproveLog, RejectLog, FollowLog, TrimSpace;
    match t.call
    case Approve(_, _) => ApproveTold(cfg, t, es, o);
    case Reject(_, _) => RejectTold(cfg, t, es, o);
    case FollowUp(_, _, _) => FollowTold(cfg, t, es, o);
  }

  /** From its start, every complete sequence of port calls of a call tells its story. */
  lemma StartTells(cfg: Config, call: Call, es: seq<Event>, o: Outcome)
    requires Tells(cfg, Start(cfg, call), es, o)
    ensures Story(cfg, call, es, o)
  {
    hide Next, Tells, AlertLog, AllowedLog, TrimSpace, NewIncident;
    var t := Start(cfg, call);
    if call.Alert? {
      AlertTold(cfg, t, es, o);
    } else if call.actor in cfg.approvers {
      AllowedTold(cfg, t, es, o);
    } else {
      Peel(cfg, t, es, o);
    }
  }

  // ----- Plays and runs -----

  /** A play followed by what its thread still tells. */
  lemma {:induction false} PlayLeads(cfg: Config, w: World, t: Thread, es: seq<Event>, rest: seq<Event>, o: Outcome)
    requires IsPlay(cfg, w, t, es) && Tells(cfg, Play(cfg, w, t, es).1, rest, o)
    ensures Tells(cfg, t, es + rest, o)
  {
    hide Possible, Next, Apply;
    if es == [] {
      assert es + rest == rest;
    } else {
      var n := |es| - 1;
      PlayLeads(cfg, w, t, es[..n], [es[n]] + rest, o);
      assert es[..n] + ([es[n]] + rest) == es + rest;
    }
  }

  /** A complete play of a call tells its story. */
  lemma PlayTells(cfg: Config, w: World, call: Call, es: seq<Event>)
    requires IsPlay(cfg, w, Start(cfg, call), es) && Play(cfg, w, Start(cfg, call), es).1.pc.Done?
    ensures Story(cfg, call, es, Play(cfg, w, Start(cfg, call), es).1.pc.outcome)
  {
    hide Start, Story, IsPlay, Play;
    var t := Play(cfg, w, Start(cfg, call), es).1;
    PlayLeads(cfg, w, Start(cfg, call), es, [], t.pc.outcome);
    assert es + [] == es;
    StartTells(cfg, call, es, t.pc.outcome);
  }

  /** What a call that has ended has made of the ports since a moment of its play. */
  lemma SinceTells(cfg: Config, w: World, t: Thread, a: seq<Event>, b: seq<Event>)
    requires IsPlay(cfg, w, t, a + b) && Play(cfg, w, t, a + b).1.pc.Done?
    ensures Tells(cfg, Play(cfg, w, t, a).1, b, Play(cfg, w, t, a + b).1.pc.outcome)
  {
    hide Play, IsPlay, Next;
    PlaySplit(cfg, w, t, a, b);
    var (w', t') := Play(cfg, w, t, a);
    PlayLeads(cfg, w', t', b, [], Play(cfg, w', t', b).1.pc.outcome);
    assert b + [] == b;
  }

  /** The port calls of thread `k` in the first `n` steps. */
  function EventsOf(ls: seq<Label>, n: nat, k: nat): seq<Event>
    requires n <= |ls|
  {
    if n == 0 then []
    else EventsOf(ls, n - 1, k) + if ls[n - 1].Port? && ls[n - 1].tid == k then [ls[n - 1].e] else []
  }

  lemma {:induction false} NoEventsYet(cfg: Config, ss: seq<Sys>, ls: seq<Label>, n: nat, k: nat)
    requires Run(cfg, ss, ls) && n <= |ls| && |ss| == |ls| + 1 && k >= |ss[n].threads|
    ensures EventsOf(ls, n, k) == []
  {
    hide Run, Next, Start, Possible, Apply, Entered;
    if n > 0 {
      RunAt(cfg, ss, ls, n - 1);
      NoEventsYet(cfg, ss, ls, n - 1, k);
    }
  }

  lemma CrashedIsSilent(cfg: Config, t: Thread, es: seq<Event>, o: Outcome)
    requires t.pc.Crashed?
    ensures !Tells(cfg, t, es, o)
  {
    if Tells(cfg, t, es, o) {
      Peel(cfg, t, es, o);
      StillActive(cfg, t, es[0]);
    }
    hide Next;
  }

  /** The calls of a thread so far, followed by what it still tells. */
  lemma {:induction false} RunLeads(cfg: Config, ss: seq<Sys>, ls: seq<Label>, n: nat, k: nat, rest: seq<Event>,
                                    o: Outcome)
    requires Run(cfg, ss, ls) && n <= |ls| && |ss| == |ls| + 1 && k < |ss[n].threads|
    requires Tells(cfg, ss[n].threads[k], rest, o)
    ensures Tells(cfg, Start(cfg, ss[n].threads[k].call), EventsOf(ls, n, k) + rest, o)
  {
    hide Run, Next, Start, Possible, Apply, Entered;
    RunShape(cfg, ss, ls);
    if n > 0 {
      var s, l, s' := ss[n - 1], ls[n - 1], ss[n];
      RunAt(cfg, ss, ls, n - 1);
      if l.Spawn? && k == |s.threads| {
        StartCall(cfg, l.call);
        NoEventsYet(cfg, ss, ls, n - 1, k);
        assert EventsOf(ls, n, k) + rest == rest;
      } else if l.Port? && l.tid == k {
        NextKeeps(cfg, s.threads[k], l.e);
        RunLeads(cfg, ss, ls, n - 1, k, [l.e] + rest, o);
        assert EventsOf(ls, n - 1, k) + ([l.e] + rest) == EventsOf(ls, n, k) + rest;
      } else {
        if l.Crash? && l.tid == k {
          CrashedIsSilent(cfg, s'.threads[k], rest, o);
        }
        RunLeads(cfg, ss, ls, n - 1, k, rest, o);
        assert EventsOf(ls, n, k) == EventsOf(ls, n - 1, k);
      }
    }
  }

  /** In every run the port calls of each completed call, in their order, tell its story. */
  lemma EveryCallTellsItsStory(cfg: Config, ss: seq<Sys>, ls: seq<Label>, n: nat, k: nat)
    requires Run(cfg, ss, ls) && n <= |ls| && |ss| == |ls| + 1
    requires k < |ss[n].threads| && ss[n].threads[k].pc.Done?
    ensures var t := ss[n].threads[k]; Story(cfg, t.call, EventsOf(ls, n, k), t.pc.outcome)
  {
    hide Run, Story, Start;
    var t := ss[n].threads[k];
    RunLeads(cfg, ss, ls, n, k, [], t.pc.outcome);
    assert EventsOf(ls, n, k) + [] == EventsOf(ls, n, k);
    StartTells(cfg, t.call, EventsOf(ls, n, k), t.pc.outcome);
  }

  lemma {:induction false} EventAt(ls: seq<Label>, n: nat, k: nat, p: nat) returns (i: nat)
    requires n <= |ls| && p < |EventsOf(ls, n, k)|
    ensures i < n && ls[i] == Port(k, EventsOf(ls, n, k)[p])
  {
    if p < |EventsOf(ls, n - 1, k)| {
      i := EventAt(ls, n - 1, k, p);
    } else {
      i := n - 1;
    }
  }

  /** A follow-up asks about its own incident. */
  lemma Asks(cfg: Config, t: Thread, e: Event)
    requires LocalOk(cfg, t) && t.call.FollowUp? && e.Investigate? && Next(cfg, t, e).Some?
    ensures e.id == t.call.id
  {
  }

  /** A follow-up that has succeeded asked the model about its incident, earlier in the run. */
  lemma FollowUpAskedTheModel(cfg: Config, ss: seq<Sys>, ls: seq<Label>, n: nat, k: nat)
      returns (i: nat, books: seq<Runbook>, plan: ActionPlan)
    requires Run(cfg, ss, ls) && n <= |ls| && |ss| == |ls| + 1
    requires k < |ss[n].threads| && ss[n].threads[k].call.FollowUp? && ss[n].threads[k].pc == Done(Succeeded)
    ensures i < n && ls[i] == Port(k, Event.Investigate(ss[n].threads[k].call.id, books, Some(plan)))
  {
    hide Run, Story, LocalOk, Summary;
    var call := ss[n].threads[k].call;
    EveryCallTellsItsStory(cfg, ss, ls, n, k);
    var es := EventsOf(ls, n, k);
    var inc, search, b, p, _, _ := FollowUpAnswered(cfg, call, es);
    books, plan := b, p;
    i := EventAt(ls, n, k, 1 + |search|);
    Histories.ThreadKept(cfg, ss, ls, i);
    RunLater(cfg, ss, ls, i, n, k);
    Asks(cfg, ss[i].threads[k], ls[i].e);
  }
}
