/** The audit trail as a language, and what every completed call leaves behind, in serialised
    runs whose repository does not fail and in which no call is cut. */
module AuditTrail {
  import opened Domain
  import opened Machine
  import opened Interleaved
  import opened Serial

  /** Where a trail stands. */
  datatype Q =
    | QEmpty | QIngested | QPlanned | QAutoVerified | QAutoFailed
    | QWaiting | QApproved | QApprovedVerified | QResolved | QFailed | QStray

  function Delta(q: Q, a: Action): Q {
    match q
    case QEmpty => if a.Ingested? then QIngested else QStray
    case QIngested => if a.HandlingFailed? then QFailed else if a.Planned? then QPlanned else QStray
    case QPlanned =>
      if a.HealthVerified? then QAutoVerified
      else if a.AutoRemediated? then QResolved
      else if a.ExecutionFailed? || a.VerificationFailed? then QAutoFailed
      else if a.AwaitingHuman? then QWaiting
      else QStray
    case QAutoVerified => if a.AutoRemediated? then QResolved else QStray
    case QAutoFailed => if a.HandlingFailed? then QFailed else QStray
    case QWaiting =>
      if a.HandlingFailed? || a.Rejected? then QFailed else if a.Approved? then QApproved else QStray
    case QApproved =>
      if a.ExecutionFailed? || a.VerificationFailed? then QFailed
      else if a.HealthVerified? then QApprovedVerified
      else if a.ApprovedResolved? then QResolved
      else QStray
    case QApprovedVerified => if a.ApprovedResolved? then QResolved else QStray
    case _ => QStray
  }

  function Reach(w: seq<Action>): Q {
    if w == [] then QEmpty else Delta(Reach(w[..|w| - 1]), w[|w| - 1])
  }

  predicate Accepting(q: Q) {
    q.QWaiting? || q.QResolved? || q.QFailed?
  }

  function StatusOf(q: Q): Status {
    match q case QWaiting => AwaitingApproval case QResolved => Resolved case _ => Failed
  }

  /** The complete trails: ingested (failed | plan (verified? auto | (execution_failed |
      verification_failed) failed | awaiting (nothing | failed | rejected | approved
      (execution_failed | verification_failed | verified? resolved)))). */
  predicate Word(w: seq<Action>) {
    || w == [Ingested, HandlingFailed]
    || w == [Ingested, Planned, AutoRemediated]
    || w == [Ingested, Planned, HealthVerified, AutoRemediated]
    || w == [Ingested, Planned, ExecutionFailed, HandlingFailed]
    || w == [Ingested, Planned, VerificationFailed, HandlingFailed]
    || w == [Ingested, Planned, AwaitingHuman]
    || w == [Ingested, Planned, AwaitingHuman, HandlingFailed]
    || w == [Ingested, Planned, AwaitingHuman, Rejected]
    || w == [Ingested, Planned, AwaitingHuman, Approved, ExecutionFailed]
    || w == [Ingested, Planned, AwaitingHuman, Approved, VerificationFailed]
    || w == [Ingested, Planned, AwaitingHuman, Approved, ApprovedResolved]
    || w == [Ingested, Planned, AwaitingHuman, Approved, HealthVerified, ApprovedResolved]
  }

  predicate Leads(q: Q, w: seq<Action>) {
    match q
    case QEmpty => w == []
    case QIngested => w == [Ingested]
    case QPlanned => w == [Ingested, Planned]
    case QAutoVerified => w == [Ingested, Planned, HealthVerified]
    case QAutoFailed => w == [Ingested, Planned, ExecutionFailed] || w == [Ingested, Planned, VerificationFailed]
    case QWaiting => w == [Ingested, Planned, AwaitingHuman]
    case QApproved => w == [Ingested, Planned, AwaitingHuman, Approved]
    case QApprovedVerified => w == [Ingested, Planned, AwaitingHuman, Approved, HealthVerified]
    case QStray => true
    case _ => Word(w)
  }

  lemma {:induction false} ReachLeads(w: seq<Action>)
    ensures Leads(Reach(w), w)
  {
    if w != [] {
      var n := |w| - 1;
      ReachLeads(w[..n]);
      assert w == w[..n] + [w[n]];
    }
  }

  lemma ReachSnoc(w: seq<Action>, a: Action)
    ensures Reach(w + [a]) == Delta(Reach(w), a)
  {
    assert (w + [a])[..|w|] == w;
  }

  lemma Spell(v: seq<Action>, a: Action, w: seq<Action>)
    requires w == v + [a]
    ensures Reach(w) == Delta(Reach(v), a)
  {
    ReachSnoc(v, a);
  }

  /** Where the prefixes of the complete trails lead. */
  lemma Prefixes()
    ensures Reach([Ingested]) == QIngested && Reach([Ingested, Planned]) == QPlanned
    ensures Reach([Ingested, Planned, HealthVerified]) == QAutoVerified
    ensures Reach([Ingested, Planned, ExecutionFailed]) == Reach([Ingested, Planned, VerificationFailed]) == QAutoFailed
    ensures Reach([Ingested, Planned, AwaitingHuman]) == QWaiting
    ensures Reach([Ingested, Planned, AwaitingHuman, Approved]) == QApproved
    ensures Reach([Ingested, Planned, AwaitingHuman, Approved, HealthVerified]) == QApprovedVerified
  {
    assert Reach([]) == QEmpty;
    hide Reach;
    Spell([], Ingested, [Ingested]);
    Spell([Ingested], Planned, [Ingested, Planned]);
    Spell([Ingested, Planned], HealthVerified, [Ingested, Planned, HealthVerified]);
    Spell([Ingested, Planned], ExecutionFailed, [Ingested, Planned, ExecutionFailed]);
    Spell([Ingested, Planned], VerificationFailed, [Ingested, Planned, VerificationFailed]);
    Spell([Ingested, Planned], AwaitingHuman, [Ingested, Planned, AwaitingHuman]);
    Spell([Ingested, Planned, AwaitingHuman], Approved, [Ingested, Planned, AwaitingHuman, Approved]);
    Spell([Ingested, Planned, AwaitingHuman, Approved], HealthVerified,
          [Ingested, Planned, AwaitingHuman, Approved, HealthVerified]);
  }

  lemma WordsAreAccepted(w: seq<Action>)
    requires Word(w)
    ensures Accepting(Reach(w))
  {
    hide Reach;
    Prefixes();
    var n := |w| - 1;
    Spell(w[..n], w[n], w);
    assert w[..n] == [Ingested]
        || w[..n] == [Ingested, Planned]
        || w[..n] == [Ingested, Planned, HealthVerified]
        || w[..n] == [Ingested, Planned, ExecutionFailed]
        || w[..n] == [Ingested, Planned, VerificationFailed]
        || w[..n] == [Ingested, Planned, AwaitingHuman]
        || w[..n] == [Ingested, Planned, AwaitingHuman, Approved]
        || w[..n] == [Ingested, Planned, AwaitingHuman, Approved, HealthVerified];
  }

  /** The automaton accepts exactly the complete trails. */
  lemma AcceptsExactlyWords(w: seq<Action>)
    ensures Accepting(Reach(w)) <==> Word(w)
  {
    hide Reach;
    ReachLeads(w);
    if Word(w) {
      WordsAreAccepted(w);
    }
  }

  /** An incident's audit actions in order, without the follow-up answers. */
  function Trail(audit: seq<AuditRecord>, id: Id): seq<Action> {
    if audit == [] then []
    else
      var r := audit[|audit| - 1];
      Trail(audit[..|audit| - 1], id) + if r.id == id && !r.action.FollowedUp? then [r.action] else []
  }

  lemma TrailSnoc(audit: seq<AuditRecord>, r: AuditRecord, id: Id)
    ensures Trail(audit + [r], id) == Trail(audit, id) + if r.id == id && !r.action.FollowedUp? then [r.action] else []
  {
    assert (audit + [r])[..|audit|] == audit;
  }

  // ----- One thread -----

  /** Where its incident's trail stands while a thread holds it. */
  function Expected(cfg: Config, t: Thread): Q {
    match t.pc
    case Ingesting => QEmpty
    case Matching => QIngested
    case MatchingContext => QIngested
    case Listing => QIngested
    case Investigating => QIngested
    case Planning => QIngested
    case Parking => QPlanned
    case ParkAudit => QPlanned
    case RequestingApproval => QWaiting
    case Claiming => if t.call.Alert? then QPlanned else QWaiting
    case ApproveAudit => QWaiting
    case Resolving =>
      if t.call.Alert? then (if cfg.verifier then QAutoVerified else QPlanned)
      else (if cfg.verifier then QApprovedVerified else QApproved)
    case ResolvedAudit =>
      if t.call.Alert? then (if cfg.verifier then QAutoVerified else QPlanned)
      else (if cfg.verifier then QApprovedVerified else QApproved)
    case ResolvedNotify => QResolved
    case FailNotify => if t.call.Alert? then QAutoFailed else QFailed
    case AbortSave => if t.entered then QAutoFailed else if t.parked then QWaiting else QIngested
    case AbortAudit => if t.entered then QAutoFailed else if t.parked then QWaiting else QIngested
    case AbortNotify => QFailed
    case RejectSave => QWaiting
    case RejectAudit => QWaiting
    case RejectNotify => QFailed
    case _ => if t.call.Alert? then QPlanned else QApproved
  }

  /** The status in memory after the last save, and the two reasons an execution fails. */
  predicate MemoryOk(cfg: Config, t: Thread) {
    && (t.pc.Verifying? || t.pc.Probing? || t.pc.VerifiedAudit? ==> cfg.verifier)
    && (t.pc.FailSave? || t.pc.FailAudit? ==> t.pc.why.ExecutionFailed? || t.pc.why.VerificationFailed?)
    && (t.pc.FailAudit? || t.pc.FailNotify? || t.pc.AbortAudit? || t.pc.AbortNotify? || t.pc.RejectAudit?
        || t.pc.RejectNotify?
        ==> t.inc.status == Failed)
    && (t.pc.ResolvedAudit? || t.pc.ResolvedNotify? ==> t.inc.status == Resolved)
    && (t.pc.ParkAudit? || t.pc.RequestingApproval? ==> t.inc.status == AwaitingApproval)
  }

  /** Memory and store agree on the incident. */
  predicate Synced(t: Thread) {
    if t.pc.Done? then ReturnsIncident(t.pc.outcome)
    else !(t.pc.Creating? || t.pc.Loading? || t.pc.Planning? || t.pc.Parking? || (t.pc.Claiming? && t.call.Alert?)
           || t.pc.Crashed?)
  }

  ghost predicate QuietStep(cfg: Config, t: Thread, e: Event, t': Thread) {
    && MemoryOk(cfg, t') && t'.inc.id == t.inc.id
    && (e.Append? ==> e.rec.id == t.inc.id && !e.rec.action.FollowedUp?)
    && (var q := if e.Append? then Delta(Expected(cfg, t), e.rec.action) else Expected(cfg, t);
        if Holding(t') then Expected(cfg, t') == q
        else t'.pc.Done? && Accepting(q) && StatusOf(q) == t'.inc.status)
    && (Synced(t') ==> if e.Save? then e.inc == t'.inc else Synced(t) && t'.inc == t.inc)
    && (t'.pc.Done? ==> ReturnsIncident(t'.pc.outcome))
  }

  /** A thread that holds its incident makes a call, and a repository that does not fail answers. */
  ghost predicate Quietly(cfg: Config, t: Thread, e: Event) {
    && LocalOk(cfg, t) && MemoryOk(cfg, t) && Next(cfg, t, e).Some? && Holding(t)
    && (e.Save? || e.Append? ==> e.ok)
  }

  lemma EnteredInExecution(cfg: Config, t: Thread)
    requires LocalOk(cfg, t)
    ensures InExecution(t.pc) ==> t.entered
  {
    hide CanAutoRemediate;
  }

  lemma FailDelta(why: Action)
    ensures why.ExecutionFailed? || why.VerificationFailed? ==>
              Delta(QPlanned, why) == QAutoFailed && Delta(QApproved, why) == QFailed
  {
  }

  lemma QuietIngesting(cfg: Config, t: Thread, e: Event)
    requires Quietly(cfg, t, e) && t.pc.Ingesting?
    ensures QuietStep(cfg, t, e, Next(cfg, t, e).value)
  {
    hide Next, CanAutoRemediate, OnSave, ToSave, OnNotify, ToNotify, OnMatch, OnList, OnPlan, OnLoad, OnStep, Enter;
    AuditKind(cfg, t, e);
  }

  lemma QuietMatching(cfg: Config, t: Thread, e: Event)
    requires Quietly(cfg, t, e) && (t.pc.Matching? || t.pc.MatchingContext?)
    ensures QuietStep(cfg, t, e, Next(cfg, t, e).value)
  {
    hide Delta, Accepting, StatusOf, Next, CanAutoRemediate, OnSave, ToSave, OnAudit, ToAudit, OnNotify, ToNotify,
         OnList, OnPlan, OnLoad, OnStep, Enter;
    MatchKind(cfg, t, e);
  }

  lemma QuietListing(cfg: Config, t: Thread, e: Event)
    requires Quietly(cfg, t, e) && t.pc.Listing?
    ensures QuietStep(cfg, t, e, Next(cfg, t, e).value)
  {
    hide Delta, Accepting, StatusOf, Next, CanAutoRemediate, OnSave, ToSave, OnAudit, ToAudit, OnNotify, ToNotify,
         OnMatch, OnPlan, OnLoad, OnStep, Enter;
    ListKind(cfg, t, e);
  }

  lemma QuietInvestigating(cfg: Config, t: Thread, e: Event)
    requires Quietly(cfg, t, e) && t.pc.Investigating?
    ensures QuietStep(cfg, t, e, Next(cfg, t, e).value)
  {
    hide Delta, Accepting, StatusOf, Next, CanAutoRemediate, OnSave, ToSave, OnAudit, ToAudit, OnNotify, ToNotify,
         OnMatch, OnList, OnLoad, OnStep, Enter;
    PlanKind(cfg, t, e);
  }

  lemma QuietPlanning(cfg: Config, t: Thread, e: Event)
    requires Quietly(cfg, t, e) && t.pc.Planning?
    ensures QuietStep(cfg, t, e, Next(cfg, t, e).value)
  {
    hide Next, CanAutoRemediate, OnSave, ToSave, OnNotify, ToNotify, OnMatch, OnList, OnPlan, OnLoad, OnStep, Enter;
    AuditKind(cfg, t, e);
  }

  lemma QuietParking(cfg: Config, t: Thread, e: Event)
    requires Quietly(cfg, t, e) && t.pc.Parking?
    ensures QuietStep(cfg, t, e, Next(cfg, t, e).value)
  {
    hide Next, CanAutoRemediate, OnAudit, ToAudit, OnNotify, ToNotify, OnMatch, OnList, OnPlan, OnLoad, OnStep, Enter;
    SaveKind(cfg, t, e);
  }

  lemma QuietParkAudit(cfg: Config, t: Thread, e: Event)
    requires Quietly(cfg, t, e) && t.pc.ParkAudit?
    ensures QuietStep(cfg, t, e, Next(cfg, t, e).value)
  {
    hide LocalOk, Next, CanAutoRemediate, OnSave, ToSave, OnNotify, ToNotify, OnMatch, OnList, OnPlan, OnLoad, OnStep,
         Enter;
    AuditKind(cfg, t, e);
  }

  lemma QuietRequesting(cfg: Config, t: Thread, e: Event)
    requires Quietly(cfg, t, e) && t.pc.RequestingApproval?
    ensures QuietStep(cfg, t, e, Next(cfg, t, e).value)
  {
    hide Next, CanAutoRemediate, OnSave, ToSave, OnAudit, ToAudit, OnMatch, OnList, OnPlan, OnLoad, OnStep, Enter;
    NotifyKind(cfg, t, e);
  }

  lemma QuietAbortSave(cfg: Config, t: Thread, e: Event)
    requires Quietly(cfg, t, e) && t.pc.AbortSave?
    ensures QuietStep(cfg, t, e, Next(cfg, t, e).value)
  {
    hide Delta, Accepting, StatusOf, Next, CanAutoRemediate, OnAudit, ToAudit, OnNotify, ToNotify, OnMatch, OnList,
         OnPlan, OnLoad, OnStep, Enter;
    SaveKind(cfg, t, e);
  }

  lemma QuietAbortAudit(cfg: Config, t: Thread, e: Event)
    requires Quietly(cfg, t, e) && t.pc.AbortAudit?
    ensures QuietStep(cfg, t, e, Next(cfg, t, e).value)
  {
    hide Next, CanAutoRemediate, OnSave, ToSave, OnNotify, ToNotify, OnMatch, OnList, OnPlan, OnLoad, OnStep, Enter;
    AuditKind(cfg, t, e);
  }

  lemma QuietAbortNotify(cfg: Config, t: Thread, e: Event)
    requires Quietly(cfg, t, e) && t.pc.AbortNotify?
    ensures QuietStep(cfg, t, e, Next(cfg, t, e).value)
  {
    hide LocalOk, Next, CanAutoRemediate, OnSave, ToSave, OnAudit, ToAudit, OnMatch, OnList, OnPlan, OnLoad, OnStep,
         Enter;
    NotifyKind(cfg, t, e);
  }

  lemma QuietClaiming(cfg: Config, t: Thread, e: Event)
    requires Quietly(cfg, t, e) && t.pc.Claiming?
    ensures QuietStep(cfg, t, e, Next(cfg, t, e).value)
  {
    hide Next, CanAutoRemediate, OnAudit, ToAudit, OnNotify, ToNotify, OnMatch, OnList, OnPlan, OnLoad, OnStep;
    SaveKind(cfg, t, e);
  }

  lemma QuietApproveAudit(cfg: Config, t: Thread, e: Event)
    requires Quietly(cfg, t, e) && t.pc.ApproveAudit?
    ensures QuietStep(cfg, t, e, Next(cfg, t, e).value)
  {
    hide Next, CanAutoRemediate, OnSave, ToSave, OnNotify, ToNotify, OnMatch, OnList, OnPlan, OnLoad, OnStep;
    AuditKind(cfg, t, e);
  }

  lemma QuietRunning(cfg: Config, t: Thread, e: Event)
    requires Quietly(cfg, t, e) && t.pc.Running?
    ensures QuietStep(cfg, t, e, Next(cfg, t, e).value)
  {
    hide Delta, Accepting, StatusOf, LocalOk, Runs, Next, CanAutoRemediate, OnSave, ToSave, OnAudit, ToAudit, OnNotify,
         ToNotify, OnMatch, OnList, OnPlan, OnLoad, OnStep, Enter;
    EnteredInExecution(cfg, t);
    StepOutcome(cfg, t, e);
  }

  lemma QuietVerifying(cfg: Config, t: Thread, e: Event)
    requires Quietly(cfg, t, e) && (t.pc.Verifying? || t.pc.Probing?)
    ensures QuietStep(cfg, t, e, Next(cfg, t, e).value)
  {
    hide Delta, Accepting, StatusOf, LocalOk, Next, CanAutoRemediate, OnSave, ToSave, OnAudit, ToAudit, OnNotify,
         ToNotify, OnMatch, OnList, OnPlan, OnLoad, OnStep, OnLook, OnProbe, Enter;
    CheckOutcome(cfg, t, e);
  }

  lemma QuietVerifiedAudit(cfg: Config, t: Thread, e: Event)
    requires Quietly(cfg, t, e) && t.pc.VerifiedAudit?
    ensures QuietStep(cfg, t, e, Next(cfg, t, e).value)
  {
    hide LocalOk, Next, CanAutoRemediate, OnSave, ToSave, OnNotify, ToNotify, OnMatch, OnList, OnPlan, OnLoad, OnStep,
         Enter;
    AuditKind(cfg, t, e);
  }

  lemma QuietResolving(cfg: Config, t: Thread, e: Event)
    requires Quietly(cfg, t, e) && t.pc.Resolving?
    ensures QuietStep(cfg, t, e, Next(cfg, t, e).value)
  {
    hide LocalOk, Next, CanAutoRemediate, OnAudit, ToAudit, OnNotify, ToNotify, OnMatch, OnList, OnPlan, OnLoad,
         OnStep, Enter;
    SaveKind(cfg, t, e);
  }

  lemma QuietResolvedAudit(cfg: Config, t: Thread, e: Event)
    requires Quietly(cfg, t, e) && t.pc.ResolvedAudit?
    ensures QuietStep(cfg, t, e, Next(cfg, t, e).value)
  {
    hide LocalOk, Next, CanAutoRemediate, OnSave, ToSave, OnNotify, ToNotify, OnMatch, OnList, OnPlan, OnLoad, OnStep,
         Enter;
    AuditKind(cfg, t, e);
  }

  lemma QuietFailing(cfg: Config, t: Thread, e: Event)
    requires Quietly(cfg, t, e) && t.pc.FailSave?
    ensures QuietStep(cfg, t, e, Next(cfg, t, e).value)
  {
    hide Delta, Accepting, StatusOf, LocalOk, Next, CanAutoRemediate, OnAudit, ToAudit, OnNotify, ToNotify, OnMatch,
         OnList, OnPlan, OnLoad, OnStep, Enter;
    EnteredInExecution(cfg, t);
    SaveKind(cfg, t, e);
  }

  lemma QuietFailed(cfg: Config, t: Thread, e: Event)
    requires Quietly(cfg, t, e) && t.pc.FailAudit?
    ensures QuietStep(cfg, t, e, Next(cfg, t, e).value)
  {
    hide Delta, LocalOk, Next, CanAutoRemediate, OnSave, ToSave, OnNotify, ToNotify, OnMatch, OnList, OnPlan, OnLoad,
         OnStep, Enter;
    FailDelta(t.pc.why);
    EnteredInExecution(cfg, t);
    AuditKind(cfg, t, e);
  }

  lemma QuietResolvedNotify(cfg: Config, t: Thread, e: Event)
    requires Quietly(cfg, t, e) && t.pc.ResolvedNotify?
    ensures QuietStep(cfg, t, e, Next(cfg, t, e).value)
  {
    hide Next, CanAutoRemediate, OnSave, ToSave, OnAudit, ToAudit, OnMatch, OnList, OnPlan, OnLoad, OnStep, Enter;
    NotifyKind(cfg, t, e);
  }

  lemma QuietFailNotify(cfg: Config, t: Thread, e: Event)
    requires Quietly(cfg, t, e) && t.pc.FailNotify?
    ensures QuietStep(cfg, t, e, Next(cfg, t, e).value)
  {
    hide LocalOk, Next, CanAutoRemediate, OnSave, ToSave, OnAudit, ToAudit, OnMatch, OnList, OnPlan, OnLoad, OnStep,
         Enter;
    EnteredInExecution(cfg, t);
    NotifyKind(cfg, t, e);
  }

  lemma QuietRejectSave(cfg: Config, t: Thread, e: Event)
    requires Quietly(cfg, t, e) && t.pc.RejectSave?
    ensures QuietStep(cfg, t, e, Next(cfg, t, e).value)
  {
    hide LocalOk, Next, CanAutoRemediate, OnAudit, ToAudit, OnNotify, ToNotify, OnMatch, OnList, OnPlan, OnLoad,
         OnStep, Enter;
    SaveKind(cfg, t, e);
  }

  lemma QuietRejectAudit(cfg: Config, t: Thread, e: Event)
    requires Quietly(cfg, t, e) && t.pc.RejectAudit?
    ensures QuietStep(cfg, t, e, Next(cfg, t, e).value)
  {
    hide LocalOk, Next, CanAutoRemediate, OnSave, ToSave, OnNotify, ToNotify, OnMatch, OnList, OnPlan, OnLoad, OnStep,
         Enter;
    AuditKind(cfg, t, e);
  }

  lemma QuietRejectNotify(cfg: Config, t: Thread, e: Event)
    requires Quietly(cfg, t, e) && t.pc.RejectNotify?
    ensures QuietStep(cfg, t, e, Next(cfg, t, e).value)
  {
    hide LocalOk, Next, CanAutoRemediate, OnSave, ToSave, OnAudit, ToAudit, OnMatch, OnList, OnPlan, OnLoad, OnStep,
         Enter;
    NotifyKind(cfg, t, e);
  }

  lemma HeldStep(cfg: Config, t: Thread, e: Event)
    requires Quietly(cfg, t, e)
    ensures QuietStep(cfg, t, e, Next(cfg, t, e).value)
  {
    hide LocalOk, MemoryOk, Next, QuietStep;
    if t.pc.Ingesting? {
      QuietIngesting(cfg, t, e);
    } else if t.pc.Matching? || t.pc.MatchingContext? {
      QuietMatching(cfg, t, e);
    } else if t.pc.Listing? {
      QuietListing(cfg, t, e);
    } else if t.pc.Investigating? {
      QuietInvestigating(cfg, t, e);
    } else if t.pc.Planning? {
      QuietPlanning(cfg, t, e);
    } else if t.pc.Parking? {
      QuietParking(cfg, t, e);
    } else if t.pc.ParkAudit? {
      QuietParkAudit(cfg, t, e);
    } else if t.pc.RequestingApproval? {
      QuietRequesting(cfg, t, e);
    } else if t.pc.AbortSave? {
      QuietAbortSave(cfg, t, e);
    } else if t.pc.AbortAudit? {
      QuietAbortAudit(cfg, t, e);
    } else if t.pc.AbortNotify? {
      QuietAbortNotify(cfg, t, e);
    } else if t.pc.Claiming? {
      QuietClaiming(cfg, t, e);
    } else if t.pc.ApproveAudit? {
      QuietApproveAudit(cfg, t, e);
    } else if t.pc.Running? {
      QuietRunning(cfg, t, e);
    } else if t.pc.Verifying? || t.pc.Probing? {
      QuietVerifying(cfg, t, e);
    } else if t.pc.VerifiedAudit? {
      QuietVerifiedAudit(cfg, t, e);
    } else if t.pc.Resolving? {
      QuietResolving(cfg, t, e);
    } else if t.pc.ResolvedAudit? {
      QuietResolvedAudit(cfg, t, e);
    } else if t.pc.FailSave? {
      QuietFailing(cfg, t, e);
    } else if t.pc.FailAudit? {
      QuietFailed(cfg, t, e);
    } else if t.pc.ResolvedNotify? {
      QuietResolvedNotify(cfg, t, e);
    } else if t.pc.FailNotify? {
      QuietFailNotify(cfg, t, e);
    } else if t.pc.RejectSave? {
      QuietRejectSave(cfg, t, e);
    } else if t.pc.RejectAudit? {
      QuietRejectAudit(cfg, t, e);
    } else {
      QuietRejectNotify(cfg, t, e);
    }
  }

  /** Steps of a thread that holds no incident it may write. */
  ghost predicate LooseStep(cfg: Config, t: Thread, e: Event, t': Thread) {
    && !e.Save? && !e.Remediate? && MemoryOk(cfg, t') && !t'.pc.Crashed?
    && (e.Append? ==> e.rec.action.FollowedUp? && e.rec.id == t.inc.id && Synced(t))
    && (e.Create? <==> t.pc.Creating?)
    && (e.Create? ==>
          && e.inc.id == t.inc.id
          && (e.ok ==> t'.pc.Ingesting? && t'.inc == e.inc) && (!e.ok ==> t'.pc == Done(CreateFailed)))
    && (!e.Create? && Synced(t') ==> if e.Load? then e.found == Some(t'.inc) else Synced(t) && t'.inc == t.inc)
    && (!e.Create? && Holding(t') ==>
          e.Load? && t'.inc.status == AwaitingApproval && (t'.pc.Claiming? || t'.pc.RejectSave?) && !t'.call.Alert?)
  }

  lemma LooseOpening(cfg: Config, t: Thread, e: Event)
    requires Next(cfg, t, e).Some? && (t.pc.Creating? || t.pc.Loading?)
    requires LocalOk(cfg, t)
    ensures LooseStep(cfg, t, e, Next(cfg, t, e).value)
  {
    hide CanAutoRemediate, OnSave, ToSave, OnAudit, ToAudit, OnNotify, ToNotify, OnMatch, OnList, OnPlan, OnStep, Enter;
  }

  lemma LooseBooks(cfg: Config, t: Thread, e: Event)
    requires Next(cfg, t, e).Some? && (t.pc.FollowMatch? || t.pc.FollowList? || t.pc.FollowInvestigate?)
    requires LocalOk(cfg, t)
    ensures LooseStep(cfg, t, e, Next(cfg, t, e).value)
  {
    hide Next, CanAutoRemediate, OnSave, ToSave, OnAudit, ToAudit, OnNotify, ToNotify, OnLoad, OnStep, Enter;
    if t.pc.FollowMatch? {
      MatchKind(cfg, t, e);
    } else if t.pc.FollowList? {
      ListKind(cfg, t, e);
    } else {
      PlanKind(cfg, t, e);
    }
  }

  lemma LooseAnswer(cfg: Config, t: Thread, e: Event)
    requires Next(cfg, t, e).Some? && (t.pc.FollowAudit? || t.pc.FollowReply?)
    requires LocalOk(cfg, t)
    ensures LooseStep(cfg, t, e, Next(cfg, t, e).value)
  {
    hide Next, CanAutoRemediate, OnSave, ToSave, OnMatch, OnList, OnPlan, OnLoad, OnStep, Enter;
    if t.pc.FollowAudit? {
      AuditKind(cfg, t, e);
    } else {
      NotifyKind(cfg, t, e);
    }
  }

  lemma LooseStepOk(cfg: Config, t: Thread, e: Event)
    requires LocalOk(cfg, t) && Next(cfg, t, e).Some? && !Holding(t) && Active(t)
    ensures LooseStep(cfg, t, e, Next(cfg, t, e).value)
  {
    hide LocalOk, Next, LooseStep;
    if t.pc.Creating? || t.pc.Loading? {
      LooseOpening(cfg, t, e);
    } else if t.pc.FollowMatch? || t.pc.FollowList? || t.pc.FollowInvestigate? {
      LooseBooks(cfg, t, e);
    } else {
      LooseAnswer(cfg, t, e);
    }
  }

  // ----- All threads together -----

  ghost predicate HolderOf(t: Thread, id: Id) {
    Holding(t) && t.inc.id == id
  }

  /** The incident's trail agrees with the thread that holds it, or is complete and agrees with its status. */
  ghost predicate TrailOk(cfg: Config, w: World, t: Thread, id: Id)
    requires id in w.store
  {
    var q := Reach(Trail(w.audit, id));
    if HolderOf(t, id) then q == Expected(cfg, t) else Accepting(q) && StatusOf(q) == w.store[id].status
  }

  /** The last thread, alone with the store and the audit log. */
  ghost predicate QuietWorld(cfg: Config, w: World, t: Thread) {
    && (forall r :: r in w.audit ==> r.id in w.store)
    && (forall id :: id in w.store ==> TrailOk(cfg, w, t, id))
    && MemoryOk(cfg, t) && !t.pc.Crashed?
    && (Synced(t) ==> t.inc.id in w.store && w.store[t.inc.id] == t.inc)
  }

  ghost predicate QInv(cfg: Config, s: Sys) {
    && SInv(cfg, s)
    && (s.threads == [] ==> s.w.store == map[] && s.w.audit == [])
    && (s.threads != [] ==> QuietWorld(cfg, s.w, s.threads[|s.threads| - 1]))
  }

  lemma {:induction false} NoTrail(audit: seq<AuditRecord>, id: Id)
    requires forall r :: r in audit ==> r.id != id
    ensures Trail(audit, id) == []
  {
    if audit != [] {
      NoTrail(audit[..|audit| - 1], id);
    }
  }

  lemma QuietHold(cfg: Config, w: World, t: Thread, e: Event, t': Thread)
    requires QuietWorld(cfg, w, t) && Holding(t) && t.inc.id in w.store
    requires QuietStep(cfg, t, e, t') && Stays(t, e, t')
    requires e.Save? || e.Append? ==> e.ok
    ensures QuietWorld(cfg, Apply(cfg, w, e), t')
  {
    hide Expected, Delta, MemoryOk, Synced, Accepting, Holding, Reach, Trail, EntersFrom;
    var w' := Apply(cfg, w, e);
    DoneIsSynced(t');
    forall id | id in w'.store ensures TrailOk(cfg, w', t', id) {
      assert TrailOk(cfg, w, t, id);
      if e.Append? {
        TrailSnoc(w.audit, e.rec, id);
        assert Trail(w.audit, id) + [] == Trail(w.audit, id);
        ReachSnoc(Trail(w.audit, id), e.rec.action);
      }
    }
  }

  lemma DoneIsSynced(t: Thread)
    ensures t.pc.Done? && ReturnsIncident(t.pc.outcome) ==> Synced(t)
    ensures t.pc.Done? ==> !t.pc.Crashed? && !Holding(t)
    ensures t.pc.Crashed? ==> !Holding(t)
  {
  }

  lemma QuietLoose(cfg: Config, w: World, t: Thread, e: Event, t': Thread)
    requires QuietWorld(cfg, w, t) && !Holding(t) && LooseStep(cfg, t, e, t')
    requires Possible(cfg, w, e) && RepoHealthy(w, e)
    requires e.Load? && e.found.Some? ==> e.found.value.id == e.id
    requires t.pc.Creating? ==> t.inc.id !in w.store
    ensures QuietWorld(cfg, Apply(cfg, w, e), t')
  {
    hide Delta, MemoryOk, Holding, Reach, Trail, EntersFrom, Expected, Accepting;
    var w' := Apply(cfg, w, e);
    assert e.Append? ==> Trail(w.audit, e.rec.id) + [] == Trail(w.audit, e.rec.id);
    if e.Create? {
      NoTrail(w.audit, t.inc.id);
      CreatedTrail(cfg, t');
    }
    forall id | id in w'.store ensures TrailOk(cfg, w', t', id) {
      if id in w.store {
        assert TrailOk(cfg, w, t, id);
        if e.Append? {
          TrailSnoc(w.audit, e.rec, id);
          assert Trail(w.audit, id) + [] == Trail(w.audit, id);
        }
        if HolderOf(t', id) && !e.Create? {
          WaitingTrail(cfg, t', Reach(Trail(w.audit, id)));
        }
      }
    }
  }

  lemma CreatedTrail(cfg: Config, t: Thread)
    ensures t.pc.Ingesting? ==> Expected(cfg, t) == Reach([]) && Holding(t)
    ensures t.pc == Done(CreateFailed) ==> !Synced(t)
  {
  }

  lemma WaitingTrail(cfg: Config, t: Thread, q: Q)
    requires (t.pc.Claiming? || t.pc.RejectSave?) && !t.call.Alert?
    ensures Accepting(q) && StatusOf(q) == AwaitingApproval ==> q == Expected(cfg, t)
  {
  }

  lemma QuietSpawn(cfg: Config, w: World, t: Thread, call: Call)
    requires QuietWorld(cfg, w, t) && !Active(t)
    ensures QuietWorld(cfg, w, Start(cfg, call))
  {
    hide Reach, Trail, Accepting, Delta, Expected;
    var u := Start(cfg, call);
    forall id | id in w.store ensures TrailOk(cfg, w, u, id) {
      assert TrailOk(cfg, w, t, id);
    }
  }

  lemma QuietFirst(cfg: Config, w: World, call: Call)
    requires w.store == map[] && w.audit == []
    ensures QuietWorld(cfg, w, Start(cfg, call))
  {
  }

  lemma HealthyOk(cfg: Config, w: World, t: Thread, e: Event, t': Thread)
    requires RepoHealthy(w, e) && Stays(t, e, t') && t.inc.id in w.store
    ensures e.Save? || e.Append? ==> e.ok
  {
    hide EntersFrom;
  }

  lemma ThreadQuiet(cfg: Config, s: Sys, t: Thread, e: Event)
    requires QuietWorld(cfg, s.w, t) && LocalOk(cfg, t) && HeldOk(s, t) && Next(cfg, t, e).Some? && Active(t)
    requires Possible(cfg, s.w, e) && RepoHealthy(s.w, e)
    requires e.Load? && e.found.Some? ==> e.found.value.id == e.id
    ensures QuietWorld(cfg, Apply(cfg, s.w, e), Next(cfg, t, e).value)
  {
    hide Next, QuietWorld, LocalOk, MemoryOk, Possible, Apply, RepoHealthy, QuietStep, LooseStep, Stays, Holding,
         StatusFits;
    var t' := Next(cfg, t, e).value;
    QuietMemory(cfg, s.w, t);
    if Holding(t) {
      HoldingStep(cfg, t, e, s.w.store[t.inc.id].status);
      HealthyOk(cfg, s.w, t, e, t');
      HeldStep(cfg, t, e);
      QuietHold(cfg, s.w, t, e, t');
    } else {
      LooseStepOk(cfg, t, e);
      QuietLoose(cfg, s.w, t, e, t');
    }
  }

  lemma PortQuiet(cfg: Config, s: Sys, k: nat, e: Event, s': Sys)
    requires QInv(cfg, s) && Step(cfg, s, Port(k, e), s') && RepoHealthy(s.w, e) && SInv(cfg, s')
    ensures QInv(cfg, s')
  {
    hide SInv, Next, QuietWorld, LocalOk, HeldOk, Possible, Apply, RepoHealthy, Active;
    PortActive(cfg, s, k, e, s');
    LoadedInSerial(cfg, s, e);
    ThreadQuiet(cfg, s, s.threads[k], e);
  }

  lemma QuietMemory(cfg: Config, w: World, t: Thread)
    requires QuietWorld(cfg, w, t)
    ensures MemoryOk(cfg, t)
  {
    hide MemoryOk;
  }

  lemma SpawnQuiet(cfg: Config, s: Sys, call: Call, s': Sys)
    requires QInv(cfg, s) && Step(cfg, s, Spawn(call), s') && Quiescent(s) && SInv(cfg, s')
    ensures QInv(cfg, s')
  {
    hide SInv, QuietWorld, Start, Active;
    assert s'.threads[|s'.threads| - 1] == Start(cfg, call);
    if s.threads == [] {
      QuietFirst(cfg, s.w, call);
    } else {
      QuietSpawn(cfg, s.w, s.threads[|s.threads| - 1], call);
    }
  }

  lemma OutsideQuiet(cfg: Config, s: Sys, c: Cluster.State, s': Sys)
    requires QInv(cfg, s) && Step(cfg, s, Outside(c), s') && SInv(cfg, s')
    ensures QInv(cfg, s')
  {
    hide SInv, Reach, Trail, Expected, MemoryOk, Synced;
    if s.threads != [] {
      var t := s.threads[|s.threads| - 1];
      forall id | id in s'.w.store ensures TrailOk(cfg, s'.w, t, id) {
        assert TrailOk(cfg, s.w, t, id);
      }
    }
  }

  lemma QuietIsSerial(cfg: Config, s: Sys)
    requires QInv(cfg, s)
    ensures SInv(cfg, s)
  {
    hide SInv, QuietWorld;
  }

  lemma QuietStepKeeps(cfg: Config, s: Sys, l: Label, s': Sys)
    requires QInv(cfg, s) && SerialStep(cfg, s, l, s') && !l.Crash?
    requires l.Port? ==> RepoHealthy(s.w, l.e)
    ensures QInv(cfg, s')
  {
    hide QInv, SInv, Step, Quiescent, RepoHealthy;
    QuietIsSerial(cfg, s);
    SerialStepKeeps(cfg, s, l, s');
    match l
    case Port(k, e) => PortQuiet(cfg, s, k, e, s');
    case Spawn(call) => SpawnQuiet(cfg, s, call, s');
    case Outside(c) => OutsideQuiet(cfg, s, c, s');
  }

  lemma QuietInitially(cfg: Config, s: Sys)
    requires SInv(cfg, s) && Initial(s)
    ensures QInv(cfg, s)
  {
    hide SInv;
  }

  lemma {:induction false} QuietAlways(cfg: Config, ss: seq<Sys>, ls: seq<Label>, n: nat)
    requires Run(cfg, ss, ls) && Serialised(ss, ls) && NoCrash(ls) && Healthy(ss, ls) && n <= |ls|
    ensures QInv(cfg, ss[n])
  {
    hide Run;
    RunShape(cfg, ss, ls);
    if n == 0 {
      SerialAlways(cfg, ss, ls, 0);
      QuietInitially(cfg, ss[0]);
    } else {
      QuietAlways(cfg, ss, ls, n - 1);
      hide QInv, Step, Quiescent, RepoHealthy;
      RunAt(cfg, ss, ls, n - 1);
      QuietStepKeeps(cfg, ss[n - 1], ls[n - 1], ss[n]);
    }
  }

  // ----- Theorems -----

  /** Between calls every incident's trail is complete, its status is the one the trail
      determines, and so no incident is left under investigation or executing. */
  lemma TrailsAreWords(cfg: Config, ss: seq<Sys>, ls: seq<Label>, n: nat, id: Id)
    requires Run(cfg, ss, ls) && Serialised(ss, ls) && NoCrash(ls) && Healthy(ss, ls)
    requires n <= |ls| && Quiescent(ss[n]) && id in ss[n].w.store
    ensures var w := Trail(ss[n].w.audit, id);
            && Word(w)
            && ss[n].w.store[id].status == StatusOf(Reach(w))
            && ss[n].w.store[id].status in {AwaitingApproval, Resolved, Failed}
  {
    hide Run, SInv, Reach, Trail, Word, Expected, MemoryOk, Synced;
    RunShape(cfg, ss, ls);
    QuietAlways(cfg, ss, ls, n);
    AcceptsExactlyWords(Trail(ss[n].w.audit, id));
    var t := ss[n].threads[|ss[n].threads| - 1];
    assert TrailOk(cfg, ss[n].w, t, id);
    assert !Active(t);
  }

  /** A completed call that hands back an incident hands back the stored one. */
  lemma ReturnedIsStored(cfg: Config, ss: seq<Sys>, ls: seq<Label>, n: nat)
    requires Run(cfg, ss, ls) && Serialised(ss, ls) && NoCrash(ls) && Healthy(ss, ls)
    requires n <= |ls| && ss[n].threads != []
    ensures var t := ss[n].threads[|ss[n].threads| - 1];
            t.pc.Done? && ReturnsIncident(t.pc.outcome) ==>
              t.inc.id in ss[n].w.store && ss[n].w.store[t.inc.id] == t.inc
  {
    hide Run;
    RunShape(cfg, ss, ls);
    QuietAlways(cfg, ss, ls, n);
    DoneIsSynced(ss[n].threads[|ss[n].threads| - 1]);
    hide SInv, TrailOk, MemoryOk, Synced;
  }

  lemma FollowUpEvents(cfg: Config, t: Thread, e: Event)
    requires LocalOk(cfg, t) && t.call.FollowUp? && Next(cfg, t, e).Some?
    ensures !e.Create? && !e.Save? && !e.Remediate?
    ensures e.Append? ==> e.rec == AuditRecord(t.inc.id, t.call.actor, FollowedUp)
  {
    hide CanAutoRemediate;
  }

  /** In every run, interleaved or not, a follow-up changes no incident and no cluster object;
      it only ever adds its own answer to the audit log. */
  lemma FollowUpChangesNothing(cfg: Config, ss: seq<Sys>, ls: seq<Label>, i: nat)
    requires Run(cfg, ss, ls) && i < |ls| && ls[i].Port? && ls[i].tid < |ss[i].threads|
    requires ss[i].threads[ls[i].tid].call.FollowUp?
    ensures ss[i + 1].w.store == ss[i].w.store && ss[i + 1].w.cluster == ss[i].w.cluster
    ensures ss[i + 1].w.audit == ss[i].w.audit
            || exists r :: ss[i + 1].w.audit == ss[i].w.audit + [r] && r.action == FollowedUp
  {
    hide Run;
    RunShape(cfg, ss, ls);
    Always(cfg, ss, ls, i);
    RunAt(cfg, ss, ls, i);
    FollowUpEvents(cfg, ss[i].threads[ls[i].tid], ls[i].e);
    hide Next, Inv, Possible;
  }
}
