/** What the port calls of one service call are, from the first to the last: a grammar of whole
    calls, read from the front, that every completed call of every run obeys. */
module Stories {
  import opened Text
  import opened Domain
  import opened Cluster
  import opened Verifier
  import opened Machine

  // ----- The grammar -----

  predicate Saved(e: Event, inc: Incident) {
    e.Save? && e.inc == inc
  }

  predicate Recorded(e: Event, id: Id, actor: string, action: Action) {
    e.Append? && e.rec == AuditRecord(id, actor, action)
  }

  /** How many calls a record and its message take. */
  function Report(cfg: Config): nat {
    if cfg.messaging then 2 else 1
  }

  /** First a record and then, with messaging, a message. */
  predicate Reported(cfg: Config, es: seq<Event>, id: Id, actor: string, action: Action, note: Note) {
    && |es| >= Report(cfg) && Recorded(es[0], id, actor, action)
    && (cfg.messaging ==> es[1].Notify? && es[1].id == id && es[1].note == note)
  }

  /** An alert that cannot be handled is saved as failed and reported. */
  predicate AbortLog(cfg: Config, inc: Incident, es: seq<Event>, o: Outcome) {
    && o == HandledFailed && |es| == 1 + Report(cfg)
    && Saved(es[0], inc.(status := Failed)) && Reported(cfg, es[1..], inc.id, "system", HandlingFailed, FailedNote)
  }

  /** A failed execution is saved and reported, whether or not the save succeeds; an alert then
      goes through its own failure. */
  predicate FailLog(cfg: Config, call: Call, inc: Incident, why: Action, es: seq<Event>, o: Outcome) {
    && |es| >= 1 + Report(cfg)
    && Saved(es[0], inc.(status := Failed))
    && Reported(cfg, es[1..], inc.id, if call.Alert? then "system" else call.actor, why, FailedNote)
    && var rest := es[1..][Report(cfg)..];
       if call.Alert? then AbortLog(cfg, inc.(status := Failed), rest, o) else rest == [] && o == ExecutionError
  }

  /** Resolved is saved, and reported only if the save succeeds. */
  predicate ResolveLog(cfg: Config, call: Call, inc: Incident, es: seq<Event>, o: Outcome) {
    && es != [] && Saved(es[0], inc.(status := Resolved))
    && if es[0].ok then
         && o == Succeeded && |es| == 1 + Report(cfg)
         && (if call.Alert? then Reported(cfg, es[1..], inc.id, "system", AutoRemediated, AutoNote)
             else Reported(cfg, es[1..], inc.id, call.actor, ApprovedResolved, ResolvedNote))
       else if call.Alert? then AbortLog(cfg, inc.(status := Resolved), es[1..], o)
       else es[1..] == [] && o == SaveFailed
  }

  /** The checks from step `i` on, one read after the other, up to the first that fails. */
  predicate CheckLog(cfg: Config, call: Call, inc: Incident, steps: seq<ActionStep>, i: nat, es: seq<Event>, o: Outcome)
    decreases |es|, 0
  {
    && i < |steps| && es != [] && es[0].Look?
    && es[0].id == inc.id && es[0].index == i && es[0].step == steps[i]
    && match es[0].sight
       case Good => CheckedLog(cfg, call, inc, steps, i + 1, es[1..], o)
       case Bad => FailLog(cfg, call, inc, VerificationFailed, es[1..], o)
       case DependsOn(target) => ProbeLog(cfg, call, inc, steps, i, target, es[1..], o)
  }

  /** The check of step `i` rests on a workload of its own. */
  predicate ProbeLog(cfg: Config, call: Call, inc: Incident, steps: seq<ActionStep>, i: nat, target: Key,
                     es: seq<Event>, o: Outcome)
    decreases |es|, 0
  {
    && es != [] && es[0].Probe? && es[0].id == inc.id && es[0].target == target
    && if es[0].ok then CheckedLog(cfg, call, inc, steps, i + 1, es[1..], o)
       else FailLog(cfg, call, inc, VerificationFailed, es[1..], o)
  }

  /** The first `n` steps have been checked. */
  predicate CheckedLog(cfg: Config, call: Call, inc: Incident, steps: seq<ActionStep>, n: nat,
                       es: seq<Event>, o: Outcome)
    decreases |es|, 1
  {
    if n < |steps| then CheckLog(cfg, call, inc, steps, n, es, o)
    else
      && es != [] && Recorded(es[0], inc.id, if call.Alert? then "system" else call.actor, HealthVerified)
      && ResolveLog(cfg, call, inc, es[1..], o)
  }

  /** The steps from `i` on, each by one remediator call, up to the first that fails. */
  predicate StepLog(cfg: Config, call: Call, inc: Incident, steps: seq<ActionStep>, i: nat, es: seq<Event>, o: Outcome)
    decreases |es|
  {
    && i < |steps| && es != [] && es[0].Remediate?
    && es[0].id == inc.id && es[0].index == i && es[0].step == steps[i]
    && if !es[0].ok then FailLog(cfg, call, inc, ExecutionFailed, es[1..], o)
       else if i + 1 < |steps| then StepLog(cfg, call, inc, steps, i + 1, es[1..], o)
       else if cfg.verifier then CheckLog(cfg, call, inc, steps, 0, es[1..], o)
       else ResolveLog(cfg, call, inc, es[1..], o)
  }

  /** An incident claimed for execution; a plan without steps fails at once. */
  predicate SettleLog(cfg: Config, call: Call, inc: Incident, es: seq<Event>, o: Outcome) {
    if inc.plan.None? || inc.plan.value.steps == [] then FailLog(cfg, call, inc, ExecutionFailed, es, o)
    else StepLog(cfg, call, inc, inc.plan.value.steps, 0, es, o)
  }

  /** Read, claimed, recorded, executed. */
  predicate ApproveLog(cfg: Config, call: Call, es: seq<Event>, o: Outcome)
    requires call.Approve?
  {
    && es != [] && es[0].Load? && es[0].id == call.id
    && match es[0].found
       case None => es[1..] == [] && o == LookupFailed
       case Some(inc) =>
         if inc.status == Resolved || inc.status == Failed then es[1..] == [] && o == AlreadyTerminal
         else if inc.status != AwaitingApproval then es[1..] == [] && o == WrongStatus
         else ClaimLog(cfg, call, inc, es[1..], o)
  }

  predicate ClaimLog(cfg: Config, call: Call, inc: Incident, es: seq<Event>, o: Outcome)
    requires call.Approve?
  {
    && es != [] && Saved(es[0], inc.(status := Executing))
    && if es[0].ok then ApprovedLog(cfg, call, inc.(status := Executing), es[1..], o)
       else es[1..] == [] && o == SaveFailed
  }

  predicate ApprovedLog(cfg: Config, call: Call, inc: Incident, es: seq<Event>, o: Outcome)
    requires call.Approve?
  {
    es != [] && Recorded(es[0], inc.id, call.actor, Approved) && SettleLog(cfg, call, inc, es[1..], o)
  }

  /** Read, saved as failed, reported. */
  predicate RejectLog(cfg: Config, call: Call, es: seq<Event>, o: Outcome)
    requires call.Reject?
  {
    && es != [] && es[0].Load? && es[0].id == call.id
    && match es[0].found
       case None => es[1..] == [] && o == LookupFailed
       case Some(inc) =>
         if inc.status == Resolved || inc.status == Failed then es[1..] == [] && o == AlreadyTerminal
         else if inc.status != AwaitingApproval then es[1..] == [] && o == WrongStatus
         else RefuseLog(cfg, call.actor, inc, es[1..], o)
  }

  predicate RefuseLog(cfg: Config, actor: string, inc: Incident, es: seq<Event>, o: Outcome) {
    && es != [] && Saved(es[0], inc.(status := Failed))
    && if es[0].ok then
         o == Succeeded && |es| == 1 + Report(cfg) && Reported(cfg, es[1..], inc.id, actor, Rejected, FailedNote)
       else es[1..] == [] && o == SaveFailed
  }

  /** The search for context: the matching runbooks and, only when there are none, all of them. */
  predicate Searched(labels: map<string, string>, es: seq<Event>) {
    && es != [] && es[0].MatchBooks? && es[0].labels == labels
    && (es[0].books == Some([]) ==> |es| >= 2 && es[1].ListBooks?)
  }

  function Context(es: seq<Event>): Option<seq<Runbook>> {
    if es == [] || !es[0].MatchBooks? then None
    else if es[0].books != Some([]) then es[0].books
    else if |es| >= 2 && es[1].ListBooks? then es[1].books
    else None
  }

  /** The calls after the search. */
  function Rest(es: seq<Event>): seq<Event> {
    if es == [] || !es[0].MatchBooks? then es
    else if es[0].books == Some([]) && |es| >= 2 then es[2..]
    else es[1..]
  }

  /** Read, investigated again under the same context rule, recorded and answered; nothing is
      ever saved or executed. */
  predicate FollowLog(cfg: Config, call: Call, es: seq<Event>, o: Outcome)
    requires call.FollowUp?
  {
    if TrimSpace(call.question) == "" then es == [] && o == EmptyQuestion
    else
      && es != [] && es[0].Load? && es[0].id == call.id
      && match es[0].found
         case None => es[1..] == [] && o == LookupFailed
         case Some(inc) => AskLog(cfg, call.actor, inc, es[1..], o)
  }

  predicate AskLog(cfg: Config, actor: string, inc: Incident, es: seq<Event>, o: Outcome) {
    && Searched(inc.labels, es)
    && if Context(es).None? then Rest(es) == [] && o == InvestigationFailed
       else AnswerLog(cfg, actor, inc.id, Context(es).value, Rest(es), o)
  }

  /** One question to the model about this incident with this context, recorded and answered. */
  predicate AnswerLog(cfg: Config, actor: string, id: Id, context: seq<Runbook>, es: seq<Event>, o: Outcome) {
    && es != [] && es[0].Investigate? && es[0].id == id && es[0].context == context
    && if es[0].plan.None? then es[1..] == [] && o == InvestigationFailed
       else
         o == Succeeded && |es| == 1 + Report(cfg) && Reported(cfg, es[1..], id, actor, FollowedUp, FollowUpNote)
  }

  /** Created, recorded, investigated and dispatched. */
  predicate AlertLog(cfg: Config, call: Call, es: seq<Event>, o: Outcome)
    requires call.Alert?
  {
    var labels := if call.fingerprint == "" then call.labels else call.labels["fingerprint" := call.fingerprint];
    var inc := Incident(call.id, Status.Investigating, OtherRisk(""), None, labels);
    && es != [] && es[0].Create? && es[0].inc == inc
    && if es[0].ok then IngestLog(cfg, call, inc, es[1..], o) else es[1..] == [] && o == CreateFailed
  }

  predicate IngestLog(cfg: Config, call: Call, inc: Incident, es: seq<Event>, o: Outcome)
    requires call.Alert?
  {
    && |es| >= 2 && Recorded(es[0], inc.id, "system", Ingested) && es[1].MatchBooks? && es[1].labels == inc.labels
    && if es[1].books.None? then AbortLog(cfg, inc, es[2..], o)
       else InvestigateLog(cfg, call, inc, es[1].books.value == [], es[2..], o)
  }

  predicate InvestigateLog(cfg: Config, call: Call, inc: Incident, unmatched: bool, es: seq<Event>, o: Outcome)
    requires call.Alert?
  {
    && Searched(inc.labels, es)
    && if Context(es).None? then AbortLog(cfg, inc, Rest(es), o)
       else AdoptLog(cfg, call, inc, unmatched, Context(es).value, Rest(es), o)
  }

  /** The model's plan is adopted with its own risk, except that an alert no runbook matched
      needs approval. */
  predicate AdoptLog(cfg: Config, call: Call, inc: Incident, unmatched: bool, context: seq<Runbook>,
                     es: seq<Event>, o: Outcome)
    requires call.Alert?
  {
    && es != [] && es[0].Investigate? && es[0].id == inc.id && es[0].context == context
    && if es[0].plan.None? then AbortLog(cfg, inc, es[1..], o)
       else
         var p := if unmatched then es[0].plan.value.(risk := RequiresApproval) else es[0].plan.value;
         PlannedLog(cfg, call, inc.(plan := Some(p), risk := p.risk), p, es[1..], o)
  }

  predicate PlannedLog(cfg: Config, call: Call, inc: Incident, p: ActionPlan, es: seq<Event>, o: Outcome)
    requires call.Alert?
  {
    es != [] && Recorded(es[0], inc.id, "llm", Planned) && DispatchLog(cfg, call, inc, p, es[1..], o)
  }

  /** Executed unattended if the plan may be, and otherwise parked and announced. */
  predicate DispatchLog(cfg: Config, call: Call, inc: Incident, p: ActionPlan, es: seq<Event>, o: Outcome)
    requires call.Alert?
  {
    && es != []
    && if p.steps != [] && p.risk == AutoRemediate && p.confidence >= 0.7
          && (forall step :: step in p.steps ==> step.tool == PatchHPAMaxReplicas) then
         && Saved(es[0], inc.(status := Executing))
         && if es[0].ok then SettleLog(cfg, call, inc.(status := Executing), es[1..], o)
            else AbortLog(cfg, inc.(status := Executing), es[1..], o)
       else
         var parked := inc.(risk := RequiresApproval, status := AwaitingApproval);
         && Saved(es[0], parked)
         && if es[0].ok then ParkLog(cfg, parked, es[1..], o) else AbortLog(cfg, parked, es[1..], o)
  }

  /** A request for approval that is not delivered fails the alert. */
  predicate ParkLog(cfg: Config, inc: Incident, es: seq<Event>, o: Outcome) {
    && Reported(cfg, es, inc.id, "system", AwaitingHuman, ApprovalRequest)
    && var rest := es[Report(cfg)..];
       if cfg.messaging && !es[1].ok then AbortLog(cfg, inc, rest, o) else rest == [] && o == Succeeded
  }

  /** A call on an incident, once its actor has passed the gate. */
  predicate AllowedLog(cfg: Config, call: Call, es: seq<Event>, o: Outcome)
    requires !call.Alert?
  {
    match call
    case Approve(_, _) => ApproveLog(cfg, call, es, o)
    case Reject(_, _) => RejectLog(cfg, call, es, o)
    case FollowUp(_, _, _) => FollowLog(cfg, call, es, o)
  }

  /** The port calls of a whole call with this outcome. */
  predicate Story(cfg: Config, call: Call, es: seq<Event>, o: Outcome) {
    if call.Alert? then AlertLog(cfg, call, es, o)
    else if call.actor !in cfg.approvers then es == [] && o == Denied
    else AllowedLog(cfg, call, es, o)
  }

  /** A follow-up that succeeds, written out. */
  lemma FollowUpAnswered(cfg: Config, call: Call, es: seq<Event>)
      returns (inc: Incident, search: seq<Event>, books: seq<Runbook>, plan: ActionPlan, kept: bool, sent: bool)
    requires call.FollowUp? && Story(cfg, call, es, Succeeded)
    ensures call.actor in cfg.approvers && TrimSpace(call.question) != ""
    ensures || (search == [MatchBooks(inc.labels, Some(books))] && books != [])
            || search == [MatchBooks(inc.labels, Some([])), ListBooks(Some(books))]
    ensures es == [Load(call.id, Some(inc))] + search
                  + [Event.Investigate(inc.id, books, Some(plan)),
                     Append(AuditRecord(inc.id, call.actor, FollowedUp), kept)]
                  + if cfg.messaging then [Notify(inc.id, FollowUpNote, sent)] else []
  {
    hide TrimSpace;
    inc := es[0].found.value;
    var ask := es[1..];
    books := Context(ask).value;
    var answer := Rest(ask);
    search := ask[..|ask| - |answer|];
    plan, kept := answer[0].plan.value, answer[1].ok;
    sent := cfg.messaging && answer[2].ok;
    assert es == [es[0]] + ask;
    assert ask == search + answer;
    assert answer == [answer[0], answer[1]] + answer[2..];
  }
}
