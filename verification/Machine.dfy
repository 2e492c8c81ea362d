/** Each service call as a thread of port calls. Next says which port call a thread makes and
    where each outcome leads; the world is what the ports hold. */
module Machine {
  import opened Text
  import opened Domain
  import opened Cluster
  import opened Verifier

  datatype Config = Config(wires: Wiring, verifier: bool, messaging: bool, approvers: set<string>)

  datatype World = World(store: map<Id, Incident>, audit: seq<AuditRecord>, cluster: State)

  datatype Note = ApprovalRequest | ResolvedNote | FailedNote | AutoNote | FollowUpNote

  /** One port call with its outcome. */
  datatype Event =
    | Create(inc: Incident, ok: bool)
    | Load(id: Id, found: Option<Incident>)
    | Save(inc: Incident, ok: bool)
    | Append(rec: AuditRecord, ok: bool)
    | MatchBooks(labels: map<string, string>, books: Option<seq<Runbook>>)
    | ListBooks(books: Option<seq<Runbook>>)
    | Investigate(id: Id, context: seq<Runbook>, plan: Option<ActionPlan>)
    | Remediate(id: Id, index: nat, step: ActionStep, weather: Weather, ok: bool)
    | Look(id: Id, index: nat, step: ActionStep, faults: Reads, sight: Sight)
    | Probe(id: Id, target: Key, fails: bool, ok: bool)
    | Notify(id: Id, note: Note, ok: bool)

  /** The outcomes a port may give in this world. Any call may fail without effect. */
  ghost predicate Possible(cfg: Config, w: World, e: Event) {
    match e
    case Create(inc, ok) => ok ==> inc.id !in w.store
    case Load(id, found) => found.Some? ==> id in w.store && w.store[id] == found.value
    case Save(inc, ok) => ok ==> inc.id in w.store
    case Remediate(_, _, step, o, ok) => ok <==> Error(cfg.wires, w.cluster, step, o).None?
    case Look(_, _, step, faults, sight) => sight == Seen(w.cluster, step, faults)
    case Probe(_, target, fails, ok) => ok <==> !fails && WorkloadReady(w.cluster, target)
    case _ => true
  }

  /** A repository call that does not fail of its own accord. */
  predicate RepoHealthy(w: World, e: Event) {
    match e
    case Create(inc, ok) => inc.id !in w.store ==> ok
    case Load(id, found) => id in w.store ==> found.Some?
    case Save(inc, ok) => inc.id in w.store ==> ok
    case Append(_, ok) => ok
    case _ => true
  }

  function Apply(cfg: Config, w: World, e: Event): World {
    match e
    case Create(inc, ok) => if ok then w.(store := w.store[inc.id := inc]) else w
    case Save(inc, ok) => if ok then w.(store := w.store[inc.id := inc]) else w
    case Append(rec, ok) => if ok then w.(audit := w.audit + [rec]) else w
    case Remediate(_, _, step, o, _) => w.(cluster := After(cfg.wires, w.cluster, step, o))
    case _ => w
  }

  /** The calls of the two services. */
  datatype Call =
    | Alert(id: Id, labels: map<string, string>, fingerprint: string)
    | Approve(id: Id, actor: string)
    | Reject(id: Id, actor: string)
    | FollowUp(id: Id, actor: string, question: string)

  datatype Outcome =
    | Succeeded | HandledFailed | Denied | EmptyQuestion | CreateFailed | LookupFailed
    | AlreadyTerminal | WrongStatus | SaveFailed | ExecutionError | InvestigationFailed

  /** The outcomes that hand an incident back to the caller. */
  predicate ReturnsIncident(o: Outcome) {
    !(o.Denied? || o.EmptyQuestion? || o.CreateFailed? || o.LookupFailed?)
  }

  /** The port call a thread makes next. */
  datatype Pc =
    | Creating | Ingesting | Matching | MatchingContext | Listing | Investigating | Planning
    | Parking | ParkAudit | RequestingApproval
    | Loading | Claiming | ApproveAudit
    | Running(i: nat) | Verifying(i: nat) | Probing(i: nat, target: Key) | VerifiedAudit
    | Resolving | ResolvedAudit | ResolvedNotify
    | FailSave(why: Action) | FailAudit(why: Action) | FailNotify
    | AbortSave | AbortAudit | AbortNotify
    | RejectSave | RejectAudit | RejectNotify
    | FollowMatch | FollowList | FollowInvestigate | FollowAudit | FollowReply
    | Done(outcome: Outcome) | Crashed

  /** A call in progress: the incident it holds in memory, and its history. */
  datatype Thread = Thread(
    call: Call, pc: Pc, inc: Incident,
    unmatched: bool, context: seq<Runbook>,
    env: seq<Weather>,
    saw: bool, parked: bool, claimed: bool, entered: bool)

  predicate Active(t: Thread) {
    !t.pc.Done? && !t.pc.Crashed?
  }

  function NewIncident(id: Id, labels: map<string, string>, fingerprint: string): Incident {
    Incident(id, Status.Investigating, OtherRisk(""), None,
             if fingerprint == "" then labels else labels["fingerprint" := fingerprint])
  }

  function Start(cfg: Config, call: Call): Thread {
    var nothing := Incident(call.id, Failed, OtherRisk(""), None, map[]);
    var blank := Thread(call, Loading, nothing, false, [], [], false, false, false, false);
    match call
    case Alert(id, labels, fp) => blank.(pc := Creating, inc := NewIncident(id, labels, fp))
    case _ =>
      if call.actor !in cfg.approvers then blank.(pc := Done(Denied))
      else if call.FollowUp? && TrimSpace(call.question) == "" then blank.(pc := Done(EmptyQuestion))
      else blank
  }

  function ActorOf(call: Call): string {
    if call.Alert? then "system" else call.actor
  }

  /** Into the executor: a plan without steps fails at once. */
  function Enter(t: Thread): Thread {
    var pc := if t.inc.plan.None? || t.inc.plan.value.steps == [] then FailSave(ExecutionFailed) else Running(0);
    t.(entered := true, env := [], pc := pc)
  }

  /** Where a failed execution leads: back to the handling of the alert, or to the end. */
  function Unwound(call: Call): Pc {
    if call.Alert? then AbortSave else Done(ExecutionError)
  }

  function AfterFail(t: Thread): Thread {
    t.(pc := Unwound(t.call))
  }

  function AfterSteps(cfg: Config, t: Thread): Pc {
    if cfg.verifier then Verifying(0) else Resolving
  }

  // ----- Saving the incident -----

  predicate Saves(pc: Pc) {
    pc.Parking? || pc.AbortSave? || pc.Claiming? || pc.Resolving? || pc.FailSave? || pc.RejectSave?
  }

  /** The incident as a thread saves it. */
  function ToSave(t: Thread): Incident {
    match t.pc
    case Parking => t.inc.(risk := RequiresApproval, status := AwaitingApproval)
    case Claiming => t.inc.(status := Executing)
    case Resolving => t.inc.(status := Resolved)
    case _ => t.inc.(status := Failed)
  }

  /** After a save the copy in memory has changed, whether or not the repository took it. */
  function OnSave(t: Thread, ok: bool): Thread {
    var u := t.(inc := ToSave(t));
    match t.pc
    case Parking => u.(parked := ok, pc := if ok then ParkAudit else AbortSave)
    case Claiming =>
      if t.call.Alert? then (if ok then Enter(u.(claimed := true)) else u.(claimed := false, pc := AbortSave))
      else u.(claimed := ok, pc := if ok then ApproveAudit else Done(SaveFailed))
    case Resolving => u.(pc := if ok then ResolvedAudit else if t.call.Alert? then AbortSave else Done(SaveFailed))
    case FailSave(why) => u.(pc := FailAudit(why))
    case RejectSave => u.(pc := if ok then RejectAudit else Done(SaveFailed))
    case _ => u.(pc := AbortAudit)
  }

  // ----- The audit log -----

  predicate Audits(pc: Pc) {
    || pc.Ingesting? || pc.Planning? || pc.ParkAudit? || pc.AbortAudit? || pc.ApproveAudit? || pc.VerifiedAudit?
    || pc.ResolvedAudit? || pc.FailAudit? || pc.RejectAudit? || pc.FollowAudit?
  }

  function ToAudit(t: Thread): AuditRecord {
    match t.pc
    case Ingesting => AuditRecord(t.inc.id, "system", Ingested)
    case Planning => AuditRecord(t.inc.id, "llm", Planned)
    case ParkAudit => AuditRecord(t.inc.id, "system", AwaitingHuman)
    case AbortAudit => AuditRecord(t.inc.id, "system", HandlingFailed)
    case ApproveAudit => AuditRecord(t.inc.id, ActorOf(t.call), Approved)
    case VerifiedAudit => AuditRecord(t.inc.id, ActorOf(t.call), HealthVerified)
    case ResolvedAudit =>
      AuditRecord(t.inc.id, ActorOf(t.call), if t.call.Alert? then AutoRemediated else ApprovedResolved)
    case FailAudit(why) => AuditRecord(t.inc.id, ActorOf(t.call), why)
    case RejectAudit => AuditRecord(t.inc.id, ActorOf(t.call), Rejected)
    case _ => AuditRecord(t.inc.id, ActorOf(t.call), FollowedUp)
  }

  function OnAudit(cfg: Config, t: Thread): Thread {
    match t.pc
    case Ingesting => t.(pc := Matching)
    case Planning =>
      t.(pc := if t.inc.plan.Some? && CanAutoRemediate(t.inc.plan.value) then Claiming else Parking)
    case ParkAudit => t.(pc := if cfg.messaging then RequestingApproval else Done(Succeeded))
    case AbortAudit => t.(pc := if cfg.messaging then AbortNotify else Done(HandledFailed))
    case ApproveAudit => Enter(t)
    case VerifiedAudit => t.(pc := Resolving)
    case ResolvedAudit => t.(pc := if cfg.messaging then ResolvedNotify else Done(Succeeded))
    case FailAudit(_) => if cfg.messaging then t.(pc := FailNotify) else AfterFail(t)
    case RejectAudit => t.(pc := if cfg.messaging then RejectNotify else Done(Succeeded))
    case _ => t.(pc := if cfg.messaging then FollowReply else Done(Succeeded))
  }

  // ----- Messages -----

  predicate Notifies(pc: Pc) {
    || pc.RequestingApproval? || pc.AbortNotify? || pc.ResolvedNotify?
    || pc.FailNotify? || pc.RejectNotify? || pc.FollowReply?
  }

  function ToNotify(t: Thread): Note {
    match t.pc
    case RequestingApproval => ApprovalRequest
    case ResolvedNotify => if t.call.Alert? then AutoNote else ResolvedNote
    case FollowReply => FollowUpNote
    case _ => FailedNote
  }

  /** Only the request for approval minds whether it was delivered. */
  function OnNotify(t: Thread, ok: bool): Thread {
    match t.pc
    case RequestingApproval => t.(pc := if ok then Done(Succeeded) else AbortSave)
    case AbortNotify => t.(pc := Done(HandledFailed))
    case FailNotify => AfterFail(t)
    case _ => t.(pc := Done(Succeeded))
  }

  // ----- Runbooks and the model -----

  predicate MatchesBooks(pc: Pc) {
    pc.Matching? || pc.MatchingContext? || pc.FollowMatch?
  }

  function OnMatch(t: Thread, books: Option<seq<Runbook>>): Thread {
    if books.None? then t.(pc := if t.pc.FollowMatch? then Done(InvestigationFailed) else AbortSave)
    else if t.pc.Matching? then t.(pc := MatchingContext, unmatched := books.value == [])
    else if books.value == [] then t.(pc := if t.pc.FollowMatch? then FollowList else Listing)
    else t.(pc := if t.pc.FollowMatch? then FollowInvestigate else Pc.Investigating, context := books.value)
  }

  function OnList(t: Thread, books: Option<seq<Runbook>>): Thread {
    if books.None? then t.(pc := if t.pc.FollowList? then Done(InvestigationFailed) else AbortSave)
    else t.(pc := if t.pc.FollowList? then FollowInvestigate else Pc.Investigating, context := books.value)
  }

  /** The model's plan, under the override for alerts no runbook matched. */
  function Ruled(t: Thread, plan: ActionPlan): ActionPlan {
    if t.unmatched then plan.(risk := RequiresApproval) else plan
  }

  /** The plan is adopted; a follow-up only reads it. */
  function OnPlan(t: Thread, plan: Option<ActionPlan>): Thread {
    if t.pc.FollowInvestigate? then t.(pc := if plan.None? then Done(InvestigationFailed) else FollowAudit)
    else if plan.None? then t.(pc := AbortSave)
    else t.(pc := Planning, inc := t.inc.(plan := Some(Ruled(t, plan.value)), risk := Ruled(t, plan.value).risk))
  }

  // ----- Reading an incident, executing and verifying -----

  function OnLoad(t: Thread, found: Option<Incident>): Thread {
    if found.None? then t.(pc := Done(LookupFailed))
    else
      var u := t.(inc := found.value);
      if t.call.FollowUp? then u.(pc := FollowMatch)
      else if Terminal(u.inc.status) then u.(pc := Done(AlreadyTerminal))
      else if u.inc.status != AwaitingApproval then u.(pc := Done(WrongStatus))
      else u.(saw := true, pc := if t.call.Approve? then Claiming else RejectSave)
  }

  predicate Runs(t: Thread, index: nat, step: ActionStep) {
    && t.pc == Running(index)
    && t.inc.plan.Some? && index < |t.inc.plan.value.steps| && step == t.inc.plan.value.steps[index]
  }

  function OnStep(cfg: Config, t: Thread, index: nat, weather: Weather, ok: bool): Thread
    requires t.inc.plan.Some?
  {
    var u := t.(env := t.env + [weather]);
    if !ok then u.(pc := FailSave(ExecutionFailed))
    else if index + 1 < |t.inc.plan.value.steps| then u.(pc := Running(index + 1))
    else u.(pc := AfterSteps(cfg, t))
  }

  // The verifier reads object by object, so that the cluster may change between two reads. Of
  // an auto scaling group, or for an unknown tool, it looks at nothing.

  predicate Checks(t: Thread, index: nat, step: ActionStep) {
    && t.pc == Verifying(index)
    && t.inc.plan.Some? && index < |t.inc.plan.value.steps| && step == t.inc.plan.value.steps[index]
  }

  predicate Probes(t: Thread, target: Key) {
    t.pc.Probing? && t.pc.target == target && t.inc.plan.Some?
  }

  /** After a check that passed. */
  function AfterCheck(t: Thread, index: nat): Pc
    requires t.inc.plan.Some?
  {
    if index + 1 < |t.inc.plan.value.steps| then Verifying(index + 1) else VerifiedAudit
  }

  function OnLook(t: Thread, index: nat, sight: Sight): Thread
    requires t.inc.plan.Some?
  {
    match sight
    case Good => t.(pc := AfterCheck(t, index))
    case Bad => t.(pc := FailSave(VerificationFailed))
    case DependsOn(target) => t.(pc := Probing(index, target))
  }

  function OnProbe(t: Thread, ok: bool): Thread
    requires t.pc.Probing? && t.inc.plan.Some?
  {
    t.(pc := if ok then AfterCheck(t, t.pc.i) else FailSave(VerificationFailed))
  }

  /** The thread after port call `e`, if `e` is the call it makes next. */
  function Next(cfg: Config, t: Thread, e: Event): Option<Thread> {
    match e
    case Create(inc, ok) =>
      if t.pc.Creating? && inc == t.inc then Some(t.(pc := if ok then Ingesting else Done(CreateFailed))) else None
    case Load(id, found) => if t.pc.Loading? && id == t.call.id then Some(OnLoad(t, found)) else None
    case Save(inc, ok) => if Saves(t.pc) && inc == ToSave(t) then Some(OnSave(t, ok)) else None
    case Append(rec, _) => if Audits(t.pc) && rec == ToAudit(t) then Some(OnAudit(cfg, t)) else None
    case MatchBooks(labels, books) =>
      if MatchesBooks(t.pc) && labels == t.inc.labels then Some(OnMatch(t, books)) else None
    case ListBooks(books) => if t.pc.Listing? || t.pc.FollowList? then Some(OnList(t, books)) else None
    case Investigate(id, context, plan) =>
      if (t.pc.Investigating? || t.pc.FollowInvestigate?) && id == t.inc.id && context == t.context then
        Some(OnPlan(t, plan))
      else None
    case Remediate(id, index, step, weather, ok) =>
      if id == t.inc.id && Runs(t, index, step) then Some(OnStep(cfg, t, index, weather, ok)) else None
    case Look(id, index, step, _, sight) =>
      if id == t.inc.id && Checks(t, index, step) then Some(OnLook(t, index, sight)) else None
    case Probe(id, target, _, ok) =>
      if id == t.inc.id && Probes(t, target) then Some(OnProbe(t, ok)) else None
    case Notify(id, note, ok) =>
      if Notifies(t.pc) && id == t.inc.id && note == ToNotify(t) then Some(OnNotify(t, ok)) else None
  }

  // A thread's place decides the kind of its next port call and where its outcome leads.

  lemma SaveKind(cfg: Config, t: Thread, e: Event)
    requires Saves(t.pc) && Next(cfg, t, e).Some?
    ensures e.Save? && e.inc == ToSave(t) && Next(cfg, t, e) == Some(OnSave(t, e.ok))
  {
    hide ToSave, ToAudit, ToNotify, OnSave, OnAudit, OnNotify, OnMatch, OnList, OnPlan, OnLoad, OnStep;
  }

  lemma AuditKind(cfg: Config, t: Thread, e: Event)
    requires Audits(t.pc) && Next(cfg, t, e).Some?
    ensures e.Append? && e.rec == ToAudit(t) && Next(cfg, t, e) == Some(OnAudit(cfg, t))
  {
    hide ToSave, ToAudit, ToNotify, OnSave, OnAudit, OnNotify, OnMatch, OnList, OnPlan, OnLoad, OnStep;
  }

  lemma NotifyKind(cfg: Config, t: Thread, e: Event)
    requires Notifies(t.pc) && Next(cfg, t, e).Some?
    ensures e.Notify? && e.id == t.inc.id && e.note == ToNotify(t) && Next(cfg, t, e) == Some(OnNotify(t, e.ok))
  {
    hide ToSave, ToAudit, ToNotify, OnSave, OnAudit, OnNotify, OnMatch, OnList, OnPlan, OnLoad, OnStep;
  }

  lemma MatchKind(cfg: Config, t: Thread, e: Event)
    requires MatchesBooks(t.pc) && Next(cfg, t, e).Some?
    ensures e.MatchBooks? && e.labels == t.inc.labels && Next(cfg, t, e) == Some(OnMatch(t, e.books))
  {
    hide ToSave, ToAudit, ToNotify, OnSave, OnAudit, OnNotify, OnMatch, OnList, OnPlan, OnLoad, OnStep;
  }

  lemma ListKind(cfg: Config, t: Thread, e: Event)
    requires (t.pc.Listing? || t.pc.FollowList?) && Next(cfg, t, e).Some?
    ensures e.ListBooks? && Next(cfg, t, e) == Some(OnList(t, e.books))
  {
    hide ToSave, ToAudit, ToNotify, OnSave, OnAudit, OnNotify, OnMatch, OnList, OnPlan, OnLoad, OnStep;
  }

  lemma PlanKind(cfg: Config, t: Thread, e: Event)
    requires (t.pc.Investigating? || t.pc.FollowInvestigate?) && Next(cfg, t, e).Some?
    ensures e.Investigate? && e.id == t.inc.id && e.context == t.context && Next(cfg, t, e) == Some(OnPlan(t, e.plan))
  {
    hide ToSave, ToAudit, ToNotify, OnSave, OnAudit, OnNotify, OnMatch, OnList, OnPlan, OnLoad, OnStep;
  }

  lemma LoadKind(cfg: Config, t: Thread, e: Event)
    requires t.pc.Loading? && Next(cfg, t, e).Some?
    ensures e.Load? && e.id == t.call.id && Next(cfg, t, e) == Some(OnLoad(t, e.found))
  {
    hide ToSave, ToAudit, ToNotify, OnSave, OnAudit, OnNotify, OnMatch, OnList, OnPlan, OnLoad, OnStep;
  }

  /** A remediator call only moves the thread on. */
  lemma StepOutcome(cfg: Config, t: Thread, e: Event)
    requires t.pc.Running? && Next(cfg, t, e).Some?
    ensures e.Remediate? && e.id == t.inc.id && t.inc.plan.Some?
    ensures var t' := Next(cfg, t, e).value;
            && t' == t.(env := t'.env, pc := t'.pc)
            && (|| t'.pc == FailSave(ExecutionFailed) || t'.pc == AfterSteps(cfg, t)
                || (t'.pc == Running(t.pc.i + 1) && t.pc.i + 1 < |t.inc.plan.value.steps|))
  {
    hide ToSave, ToAudit, ToNotify, OnSave, OnAudit, OnNotify, OnMatch, OnList, OnPlan, OnLoad;
  }

  // A failed execution is saved, recorded and reported, in that order.

  lemma SavesFailure(t: Thread, why: Action)
    requires t.pc == FailSave(why)
    ensures Saves(t.pc) && ToSave(t) == t.inc.(status := Failed)
    ensures forall ok :: OnSave(t, ok) == t.(inc := ToSave(t), pc := FailAudit(why))
  {
  }

  lemma RecordsFailure(cfg: Config, t: Thread, why: Action)
    requires t.pc == FailAudit(why)
    ensures Audits(t.pc) && ToAudit(t) == AuditRecord(t.inc.id, ActorOf(t.call), why)
    ensures OnAudit(cfg, t) == t.(pc := if cfg.messaging then FailNotify else Unwound(t.call))
  {
    hide ActorOf, Unwound;
  }

  lemma ReportsFailure(t: Thread)
    requires t.pc == FailNotify
    ensures Notifies(t.pc) && ToNotify(t) == FailedNote
    ensures forall ok :: OnNotify(t, ok) == t.(pc := Unwound(t.call))
  {
    hide Unwound;
  }

  // So is an alert that cannot be handled.

  lemma SavesAbort(t: Thread)
    requires t.pc == AbortSave
    ensures Saves(t.pc) && ToSave(t) == t.inc.(status := Failed)
    ensures forall ok :: OnSave(t, ok) == t.(inc := ToSave(t), pc := AbortAudit)
  {
  }

  lemma RecordsAbort(cfg: Config, t: Thread)
    requires t.pc == AbortAudit
    ensures Audits(t.pc) && ToAudit(t) == AuditRecord(t.inc.id, "system", HandlingFailed)
    ensures OnAudit(cfg, t) == t.(pc := if cfg.messaging then AbortNotify else Done(HandledFailed))
  {
  }

  lemma ReportsAbort(t: Thread)
    requires t.pc == AbortNotify
    ensures Notifies(t.pc) && ToNotify(t) == FailedNote
    ensures forall ok :: OnNotify(t, ok) == t.(pc := Done(HandledFailed))
  {
  }

  // So is a rejection; only its save can end it early.

  lemma SavesRejection(t: Thread)
    requires t.pc == RejectSave
    ensures Saves(t.pc) && ToSave(t) == t.inc.(status := Failed)
    ensures forall ok :: OnSave(t, ok) == t.(inc := ToSave(t), pc := if ok then RejectAudit else Done(SaveFailed))
  {
  }

  lemma RecordsRejection(cfg: Config, t: Thread)
    requires t.pc == RejectAudit
    ensures Audits(t.pc) && ToAudit(t) == AuditRecord(t.inc.id, ActorOf(t.call), Rejected)
    ensures OnAudit(cfg, t) == t.(pc := if cfg.messaging then RejectNotify else Done(Succeeded))
  {
    hide ActorOf;
  }

  lemma ReportsRejection(t: Thread)
    requires t.pc == RejectNotify
    ensures Notifies(t.pc) && ToNotify(t) == FailedNote
    ensures forall ok :: OnNotify(t, ok) == t.(pc := Done(Succeeded))
  {
  }

  lemma RecordsVerdict(cfg: Config, t: Thread)
    requires t.pc == VerifiedAudit
    ensures Audits(t.pc) && ToAudit(t) == AuditRecord(t.inc.id, ActorOf(t.call), HealthVerified)
    ensures OnAudit(cfg, t) == t.(pc := Resolving)
  {
    hide ActorOf;
  }

  // And so is a success.

  lemma SavesResolution(t: Thread)
    requires t.pc == Resolving
    ensures Saves(t.pc) && ToSave(t) == t.inc.(status := Resolved)
    ensures OnSave(t, true) == t.(inc := ToSave(t), pc := ResolvedAudit)
    ensures OnSave(t, false) == t.(inc := ToSave(t), pc := if t.call.Alert? then AbortSave else Done(SaveFailed))
  {
  }

  lemma RecordsResolution(cfg: Config, t: Thread)
    requires t.pc == ResolvedAudit
    ensures Audits(t.pc)
    ensures ToAudit(t) ==
            AuditRecord(t.inc.id, ActorOf(t.call), if t.call.Alert? then AutoRemediated else ApprovedResolved)
    ensures OnAudit(cfg, t) == t.(pc := if cfg.messaging then ResolvedNotify else Done(Succeeded))
  {
    hide ActorOf;
  }

  lemma ReportsResolution(t: Thread)
    requires t.pc == ResolvedNotify
    ensures Notifies(t.pc) && ToNotify(t) == if t.call.Alert? then AutoNote else ResolvedNote
    ensures forall ok :: OnNotify(t, ok) == t.(pc := Done(Succeeded))
  {
  }

  /** A context search moves the thread to the list, to the model, or to its failure. */
  lemma ContextPath(t: Thread)
    requires t.pc.MatchingContext? || t.pc.FollowMatch?
    ensures forall books {:trigger OnMatch(t, books)} ::
              OnMatch(t, books) == if books == Some([]) then t.(pc := Lists(t)) else Found(t, books)
    ensures forall books :: OnList(t.(pc := Lists(t)), books) == Found(t, books)
  {
  }

  function Lists(t: Thread): Pc {
    if t.pc.FollowMatch? then FollowList else Listing
  }

  function Found(t: Thread, books: Option<seq<Runbook>>): Thread {
    if books.None? then t.(pc := if t.pc.FollowMatch? then Done(InvestigationFailed) else AbortSave)
    else t.(pc := if t.pc.FollowMatch? then FollowInvestigate else Pc.Investigating, context := books.value)
  }

  /** The plan of an alert, under the override for alerts no runbook matched. */
  lemma PlanPath(t: Thread, plan: ActionPlan)
    requires t.pc == Pc.Investigating
    ensures var u, p := OnPlan(t, Some(plan)), Ruled(t, plan);
            u == t.(pc := Planning, inc := u.inc) && u.inc == t.inc.(plan := Some(p), risk := p.risk)
  {
    hide Ruled;
  }

  /** A read of the verifier only moves the thread on. */
  lemma CheckOutcome(cfg: Config, t: Thread, e: Event)
    requires (t.pc.Verifying? || t.pc.Probing?) && Next(cfg, t, e).Some?
    ensures (e.Look? || e.Probe?) && e.id == t.inc.id && t.inc.plan.Some?
    ensures var t' := Next(cfg, t, e).value;
            && t' == t.(pc := t'.pc)
            && (|| t'.pc == FailSave(VerificationFailed) || t'.pc == VerifiedAudit
                || (t'.pc == Verifying(t.pc.i + 1) && t.pc.i + 1 < |t.inc.plan.value.steps|)
                || (t'.pc.Probing? && t'.pc.i == t.pc.i < |t.inc.plan.value.steps| && t.pc.Verifying?))
  {
    hide ToSave, ToAudit, ToNotify, OnSave, OnAudit, OnNotify, OnMatch, OnList, OnPlan, OnLoad, OnStep;
  }

  /** Nothing but a save changes the call, or whether the thread has parked or claimed its incident. */
  predicate SameFlags(t: Thread, u: Thread) {
    u.call == t.call && u.parked == t.parked && u.claimed == t.claimed
  }

  lemma SaveKeepsCall(t: Thread, ok: bool)
    ensures OnSave(t, ok).call == t.call
  {
    hide ToSave;
  }

  lemma AuditKeeps(cfg: Config, t: Thread)
    ensures SameFlags(t, OnAudit(cfg, t))
  {
    hide CanAutoRemediate;
  }

  lemma NotifyKeeps(t: Thread, ok: bool)
    ensures SameFlags(t, OnNotify(t, ok))
  {
  }

  lemma MatchKeeps(t: Thread, books: Option<seq<Runbook>>)
    ensures SameFlags(t, OnMatch(t, books))
  {
  }

  lemma ListKeeps(t: Thread, books: Option<seq<Runbook>>)
    ensures SameFlags(t, OnList(t, books))
  {
  }

  lemma PlanKeeps(t: Thread, plan: Option<ActionPlan>)
    ensures SameFlags(t, OnPlan(t, plan))
  {
  }

  lemma LoadKeeps(t: Thread, found: Option<Incident>)
    ensures SameFlags(t, OnLoad(t, found))
  {
    hide Terminal;
  }

  lemma RemediateKeeps(cfg: Config, t: Thread, index: nat, weather: Weather, ok: bool)
    requires t.inc.plan.Some?
    ensures SameFlags(t, OnStep(cfg, t, index, weather, ok))
  {
  }

  lemma NextKeeps(cfg: Config, t: Thread, e: Event)
    requires Next(cfg, t, e).Some?
    ensures Next(cfg, t, e).value.call == t.call
    ensures !e.Save? ==> SameFlags(t, Next(cfg, t, e).value)
  {
    hide OnSave, OnAudit, OnNotify, OnMatch, OnList, OnPlan, OnLoad, OnStep, ToSave, ToAudit, ToNotify;
    match e
    case Save(_, ok) => SaveKeepsCall(t, ok);
    case Append(_, _) => AuditKeeps(cfg, t);
    case Notify(_, _, ok) => NotifyKeeps(t, ok);
    case MatchBooks(_, books) => MatchKeeps(t, books);
    case ListBooks(books) => ListKeeps(t, books);
    case Investigate(_, _, plan) => PlanKeeps(t, plan);
    case Load(_, found) => LoadKeeps(t, found);
    case Remediate(_, index, _, weather, ok) => RemediateKeeps(cfg, t, index, weather, ok);
    case _ =>
  }

  // ----- Systems of threads -----

  /** One entry into the executor, with the cluster it started from. */
  datatype Entry = Entry(tid: nat, id: Id, plan: Option<ActionPlan>, base: State)

  /** `owner` maps each incident to the thread of the alert that created it. */
  datatype Sys = Sys(w: World, threads: seq<Thread>, owner: map<Id, nat>, entries: seq<Entry>)

  datatype Label =
    | Spawn(call: Call)
    | Port(tid: nat, e: Event)
    | Crash(tid: nat)
    | Outside(c: State)

  ghost predicate Initial(s: Sys) {
    && s.w.store == map[] && s.w.audit == [] && s.w.cluster.writes == []
    && s.threads == [] && s.owner == map[] && s.entries == []
  }

  /** The executor entries after thread `k` became `t`. */
  function Entered(s: Sys, k: nat, t: Thread, c: State): seq<Entry>
    requires k < |s.threads|
  {
    var u := s.threads[k];
    if t.entered && !u.entered then s.entries + [Entry(k, u.inc.id, t.inc.plan, c)] else s.entries
  }

  ghost predicate PortStep(cfg: Config, s: Sys, k: nat, e: Event, s': Sys) {
    && k < |s.threads|
    && Possible(cfg, s.w, e)
    && Next(cfg, s.threads[k], e).Some?
    && var t' := Next(cfg, s.threads[k], e).value;
       var w' := Apply(cfg, s.w, e);
       s' == Sys(w', s.threads[k := t'], s.owner, Entered(s, k, t', w'.cluster))
  }

  ghost predicate Step(cfg: Config, s: Sys, l: Label, s': Sys) {
    match l
    case Spawn(call) =>
      && (call.Alert? ==> call.id !in s.owner)
      && s' == s.(threads := s.threads + [Start(cfg, call)],
                  owner := if call.Alert? then s.owner[call.id := |s.threads|] else s.owner)
    case Port(k, e) => PortStep(cfg, s, k, e, s')
    case Crash(k) =>
      k < |s.threads| && Active(s.threads[k]) && s' == s.(threads := s.threads[k := s.threads[k].(pc := Crashed)])
    case Outside(c) => s' == s.(w := s.w.(cluster := c.(writes := s.w.cluster.writes)))
  }

  /** A run: `ss[i]` goes to `ss[i + 1]` by `ls[i]`. */
  ghost predicate Run(cfg: Config, ss: seq<Sys>, ls: seq<Label>) {
    && |ss| == |ls| + 1
    && Initial(ss[0])
    && forall i {:trigger ls[i]} :: 0 <= i < |ls| ==> Step(cfg, ss[i], ls[i], ss[i + 1])
  }

  lemma RunShape(cfg: Config, ss: seq<Sys>, ls: seq<Label>)
    requires Run(cfg, ss, ls)
    ensures |ss| == |ls| + 1 && Initial(ss[0])
  {
  }

  lemma RunAt(cfg: Config, ss: seq<Sys>, ls: seq<Label>, i: nat)
    requires Run(cfg, ss, ls) && i < |ls|
    ensures |ss| == |ls| + 1 && Step(cfg, ss[i], ls[i], ss[i + 1])
  {
  }

  predicate Quiescent(s: Sys) {
    forall k :: 0 <= k < |s.threads| ==> !Active(s.threads[k])
  }

  /** Serialised: a call begins only when no other is in progress. */
  ghost predicate Serialised(ss: seq<Sys>, ls: seq<Label>)
    requires |ss| == |ls| + 1
  {
    forall i :: 0 <= i < |ls| && ls[i].Spawn? ==> Quiescent(ss[i])
  }

  ghost predicate NoOutside(ls: seq<Label>) {
    forall l :: l in ls ==> !l.Outside?
  }

  ghost predicate NoCrash(ls: seq<Label>) {
    forall l :: l in ls ==> !l.Crash?
  }

  ghost predicate Healthy(ss: seq<Sys>, ls: seq<Label>)
    requires |ss| == |ls| + 1
  {
    forall i :: 0 <= i < |ls| && ls[i].Port? ==> RepoHealthy(ss[i].w, ls[i].e)
  }
}
