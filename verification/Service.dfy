/** IncidentService and ApprovalService, as methods that assign the fields of an incident and
    call fallible ports. A ghost thread follows every port call, so
    each service call is proved to be a complete play of its thread. */
module Service {
  import opened Text
  import opened Domain
  import opened Cluster
  import opened Executor
  import opened Verifier
  import opened Machine
  import opened Plays
  import opened Stories
  import opened Storytelling

  /** An incident held in memory. */
  class IncidentRecord {
    const id: Id
    var status: Status
    var risk: RiskLevel
    var plan: Option<ActionPlan>
    const labels: map<string, string>

    constructor (i: Incident)
      ensures Value() == i
    {
      id, status, risk, plan, labels := i.id, i.status, i.risk, i.plan, i.labels;
    }

    function Value(): Incident
      reads this
    {
      Incident(id, status, risk, plan, labels)
    }
  }

  /** The ports the services are wired to. Each call may fail; `log` records the calls of the
      service call in progress, which began in `begun` as `first` and has reached `th`. */
  class Ports {
    const cfg: Config
    const exec: PlanExecutor
    const health: HealthVerifier
    var store: map<Id, Incident>
    var audit: seq<AuditRecord>
    ghost var begun: World
    ghost var first: Thread
    ghost var log: seq<Event>
    ghost var th: Thread

    ghost predicate Wired() {
      exec.Valid() && exec.Wires() == cfg.wires && health.api == exec.api
    }

    constructor (cfg: Config, exec: PlanExecutor, health: HealthVerifier)
      requires exec.Valid() && exec.Wires() == cfg.wires && health.api == exec.api
      ensures Wired() && this.cfg == cfg && this.exec == exec && store == map[] && audit == []
    {
      this.cfg, this.exec, this.health := cfg, exec, health;
      store, audit := map[], [];
    }

    ghost function W(): World
      reads this, exec.api
    {
      World(store, audit, exec.api.Value())
    }

    /** The calls so far are a play of the call's thread from the world it began in. */
    ghost predicate Valid()
      reads this, exec.api
    {
      Wired() && IsPlay(cfg, begun, first, log) && Play(cfg, begun, first, log) == (W(), th)
    }

    /** The call begun in `w` has played to its end. */
    ghost predicate Completed(call: Call, w: World)
      reads this, exec.api
    {
      Valid() && first == Start(cfg, call) && begun == w && th.pc.Done?
    }

    /** The log of a call that has ended is its whole story. */
    lemma Ended(call: Call)
      requires Valid() && first == Start(cfg, call) && th.pc.Done?
      ensures Story(cfg, call, log, th.pc.outcome)
    {
      hide Play, IsPlay, Start, Story;
      PlayTells(cfg, begun, call, log);
    }

    ghost method Begin(call: Call)
      requires Wired()
      modifies this`begun, this`first, this`log, this`th
      ensures Valid() && first == th == Start(cfg, call) && begun == W() && W() == old(W()) && log == []
    {
      begun, first, log, th := W(), Start(cfg, call), [], Start(cfg, call);
    }

    /** The thread is ready for this call, whatever its outcome. */
    ghost method Took(e: Event, w: World)
      requires Wired() && IsPlay(cfg, begun, first, log) && Play(cfg, begun, first, log) == (w, th)
      requires Possible(cfg, w, e) && Next(cfg, th, e).Some? && W() == Apply(cfg, w, e)
      modifies this`log, this`th
      ensures Valid() && th == Next(cfg, old(th), e).value && W() == Apply(cfg, w, e)
      ensures log == old(log) + [e]
    {
      PlayOne(cfg, begun, first, log, e);
      hide Possible, Next, Apply, Play, IsPlay;
      log, th := log + [e], Next(cfg, th, e).value;
    }

    method Create(inc: IncidentRecord) returns (ok: bool)
      requires Valid() && th.pc.Creating? && th.inc == inc.Value()
      modifies this`store, this`log, this`th
      ensures Valid() && first == old(first) && begun == old(begun)
      ensures th == old(th).(pc := if ok then Ingesting else Done(CreateFailed))
      ensures ok ==> inc.id !in old(store)
      ensures store == if ok then old(store)[inc.id := inc.Value()] else old(store)
      ensures log == old(log) + [Event.Create(inc.Value(), ok)]
    {
      hide Play, IsPlay;
      ghost var w := W();
      var down: bool := *;
      ok := !down && inc.id !in store;
      if ok {
        store := store[inc.id := inc.Value()];
      }
      Took(Event.Create(inc.Value(), ok), w);
    }

    method Load(id: Id) returns (found: IncidentRecord?)
      requires Valid() && th.pc.Loading? && id == th.call.id
      modifies this`log, this`th
      ensures Valid() && first == old(first) && begun == old(begun)
      ensures found != null ==> fresh(found) && id in store && found.Value() == store[id]
      ensures log == old(log) + [Event.Load(id, if found == null then None else Some(found.Value()))]
      ensures th == OnLoad(old(th), if found == null then None else Some(found.Value()))
    {
      hide Play, IsPlay, OnLoad;
      ghost var w := W();
      var down: bool := *;
      if down || id !in store {
        found := null;
      } else {
        found := new IncidentRecord(store[id]);
      }
      Took(Event.Load(id, if found == null then None else Some(found.Value())), w);
    }

    method Save(inc: IncidentRecord) returns (ok: bool)
      requires Valid() && Saves(th.pc) && inc.Value() == ToSave(th)
      modifies this`store, this`log, this`th
      ensures Valid() && first == old(first) && begun == old(begun)
      ensures th == OnSave(old(th), ok)
      ensures ok ==> inc.id in old(store)
      ensures store == if ok then old(store)[inc.id := inc.Value()] else old(store)
      ensures log == old(log) + [Event.Save(inc.Value(), ok)]
    {
      hide Play, IsPlay, OnSave, ToSave;
      ghost var w := W();
      var down: bool := *;
      ok := !down && inc.id in store;
      if ok {
        store := store[inc.id := inc.Value()];
      }
      Took(Event.Save(inc.Value(), ok), w);
    }

    /** A failing append is logged and otherwise ignored. */
    method Audit(id: Id, actor: string, action: Action)
      requires Valid() && Audits(th.pc) && AuditRecord(id, actor, action) == ToAudit(th)
      modifies this`audit, this`log, this`th
      ensures Valid() && first == old(first) && begun == old(begun)
      ensures th == OnAudit(cfg, old(th))
      ensures var rec := AuditRecord(id, actor, action);
              || (audit == old(audit) + [rec] && log == old(log) + [Event.Append(rec, true)])
              || (audit == old(audit) && log == old(log) + [Event.Append(rec, false)])
    {
      hide Play, IsPlay, OnAudit, ToAudit;
      ghost var w := W();
      var rec := AuditRecord(id, actor, action);
      var ok: bool := *;
      if ok {
        audit := audit + [rec];
      }
      Took(Event.Append(rec, ok), w);
    }

    method MatchBooks(labels: map<string, string>) returns (books: Option<seq<Runbook>>)
      requires Valid() && labels == th.inc.labels
      requires MatchesBooks(th.pc)
      modifies this`log, this`th
      ensures Valid() && first == old(first) && begun == old(begun)
      ensures th == OnMatch(old(th), books) && log == old(log) + [Event.MatchBooks(labels, books)]
    {
      hide Play, IsPlay, OnMatch;
      ghost var w := W();
      books := *;
      Took(Event.MatchBooks(labels, books), w);
    }

    method ListBooks() returns (books: Option<seq<Runbook>>)
      requires Valid() && (th.pc.Listing? || th.pc.FollowList?)
      modifies this`log, this`th
      ensures Valid() && first == old(first) && begun == old(begun)
      ensures th == OnList(old(th), books) && log == old(log) + [Event.ListBooks(books)]
    {
      hide Play, IsPlay, OnList;
      ghost var w := W();
      books := *;
      Took(Event.ListBooks(books), w);
    }

    method Investigate(inc: IncidentRecord, context: seq<Runbook>) returns (plan: Option<ActionPlan>)
      requires Valid() && (th.pc.Investigating? || th.pc.FollowInvestigate?)
      requires inc.id == th.inc.id && context == th.context
      modifies this`log, this`th
      ensures Valid() && first == old(first) && begun == old(begun)
      ensures th == OnPlan(old(th), plan) && log == old(log) + [Event.Investigate(inc.id, context, plan)]
    {
      hide Play, IsPlay, OnPlan;
      ghost var w := W();
      plan := *;
      Took(Event.Investigate(inc.id, context, plan), w);
    }

    method Notify(inc: IncidentRecord, note: Note) returns (ok: bool)
      requires Valid() && Notifies(th.pc) && inc.id == th.inc.id && note == ToNotify(th)
      modifies this`log, this`th
      ensures Valid() && first == old(first) && begun == old(begun)
      ensures th == OnNotify(old(th), ok) && log == old(log) + [Event.Notify(inc.id, note, ok)]
    {
      hide Play, IsPlay, OnNotify, ToNotify;
      ghost var w := W();
      ok := *;
      Took(Event.Notify(inc.id, note, ok), w);
    }

    /** Verifies the plan, read by read. The first `n` steps are checked, with these faults. */
    method Verify(inc: IncidentRecord) returns (ok: bool, ghost faults: seq<Reads>, ghost n: nat)
      requires Valid() && th.pc == Verifying(0) && inc.id == th.inc.id && inc.plan == th.inc.plan
      requires inc.plan.Some? && inc.plan.value.steps != []
      modifies this`log, this`th
      ensures Valid() && first == old(first) && begun == old(begun)
      ensures ok <==> Verified(exec.api.Value(), inc.plan, faults)
      ensures ok ==> n == |inc.plan.value.steps|
      ensures !ok ==>
                && 0 < n <= |inc.plan.value.steps|
                && !Passes(exec.api.Value(), inc.plan.value.steps[n - 1], ReadsAt(faults, n - 1))
      ensures log == old(log) + Looks(exec.api.Value(), inc.id, inc.plan.value.steps, faults, n)
      ensures th == old(th).(pc := if ok then VerifiedAudit else FailSave(VerificationFailed))
    {
      hide Play, IsPlay, Next, Looks, Passes, Possible, Apply;
      ghost var w := W();
      var down: seq<Reads> := *;
      faults := down;
      var notes;
      ok, notes := health.Verify(inc.plan, down);
      n := notes;
      ghost var steps := inc.plan.value.steps;
      ghost var u := if ok then th.(pc := VerifiedAudit) else th.(pc := FailSave(VerificationFailed));
      if ok {
        var _ := PlayChecks(cfg, w, th, faults, |steps|);
      } else {
        var _ := PlayFailingCheck(cfg, w, th, faults, n - 1);
      }
      PlayConcat(cfg, begun, first, log, Looks(w.cluster, inc.id, steps, faults, n));
      log, th := log + Looks(w.cluster, inc.id, steps, faults, n), u;
    }

    /** Runs the plan. The thread has entered the executor; a plan without steps leaves it failing. */
    method Execute(inc: IncidentRecord) returns (failed: bool)
      requires Valid() && th.inc.plan == inc.plan
      requires th.pc == (if inc.plan.None? || inc.plan.value.steps == [] then FailSave(ExecutionFailed) else Running(0))
      modifies exec.api, this`log, this`th
      ensures Valid() && first == old(first) && begun == old(begun)
      ensures !failed ==> inc.plan.Some? && inc.plan.value.steps != []
      ensures th.pc == (if failed then FailSave(ExecutionFailed) else AfterSteps(cfg, old(th)))
      ensures th == old(th).(pc := th.pc, env := th.env)
    {
      hide Next, Play, IsPlay, Possible, Fold, After, Error, Succeed;
      ghost var w := W();
      var env: seq<Weather> := *;
      var out, err := exec.Execute(inc.plan, env);
      failed := err.Some?;
      if err == Some(NoSteps) {
        return;
      }
      ghost var steps := inc.plan.value.steps;
      if err.None? {
        ghost var u := PlaySteps(cfg, w, th, env, |steps|);
        ghost var es := Calls(cfg.wires, w.cluster, th.inc.id, steps, env, |steps|);
        PlayConcat(cfg, begun, first, log, es);
        log, th := log + es, u;
      } else {
        ghost var u, es := PlayFailingStep(cfg, w, th, env, err.value.index);
        PlayConcat(cfg, begun, first, log, es);
        log, th := log + es, u;
      }
    }
  }

  /** The orchestration of alert ingestion, investigation, dispatch and settling. */
  class IncidentService {
    const ports: Ports

    constructor (ports: Ports)
      ensures this.ports == ports
    {
      this.ports := ports;
    }

    /** The thread of call `call` is in progress and holds `inc`. */
    ghost predicate Holds(inc: IncidentRecord, call: Call)
      reads ports, ports.exec.api, inc
    {
      ports.Valid() && ports.th.inc == inc.Value() && ports.th.call == call
    }

    /** The call in progress is the one that began as `first` in world `begun`. */
    ghost predicate Same(first: Thread, begun: World)
      reads ports
    {
      ports.first == first && ports.begun == begun
    }

    /** What a call has made of the ports since it passed the gate, as `t` with `log`. */
    lemma Told(log: seq<Event>, t: Thread)
      requires ports.Valid() && ports.th.pc.Done? && log <= ports.log && AtGate(t)
      requires t == Play(ports.cfg, ports.begun, ports.first, log).1
      ensures AllowedLog(ports.cfg, t.call, ports.log[|log|..], ports.th.pc.outcome)
    {
      hide Play, IsPlay, AllowedLog, AtGate, Tells;
      assert log + ports.log[|log|..] == ports.log;
      SinceTells(ports.cfg, ports.begun, ports.first, log, ports.log[|log|..]);
      AllowedTold(ports.cfg, t, ports.log[|log|..], ports.th.pc.outcome);
    }

    lemma Now()
      requires ports.Valid()
      ensures ports.th == Play(ports.cfg, ports.begun, ports.first, ports.log).1
    {
    }

    /** A finished call hands back its incident exactly when its outcome says so. */
    ghost predicate Returns(inc: IncidentRecord?)
      reads ports, inc
    {
      && ports.th.pc.Done?
      && (var o := ports.th.pc.outcome;
          inc == null <==> o == Denied || o == EmptyQuestion || o == CreateFailed || o == LookupFailed)
      && (inc != null ==> inc.Value() == ports.th.inc)
    }

    /** Handles one alert: the incident is persisted, investigated and dispatched; a failure is
        recorded on the incident and is not an error for the webhook. */
    method HandleAlert(id: Id, labels: map<string, string>, fingerprint: string) returns (inc: IncidentRecord?)
      requires ports.Wired()
      modifies ports, ports.exec.api
      ensures ports.Completed(Alert(id, labels, fingerprint), old(ports.W()))
      ensures Story(ports.cfg, Alert(id, labels, fingerprint), ports.log, ports.th.pc.outcome)
      ensures Returns(inc)
    {
      hide Ports.Valid, Ports.W, Next, Play, IsPlay, CanAutoRemediate, Enter, Story;
      ghost var call := Alert(id, labels, fingerprint);
      ports.Begin(call);
      inc := new IncidentRecord(NewIncident(id, labels, fingerprint));
      var ok := ports.Create(inc);
      if !ok {
        ports.Ended(call);
        return null;
      }
      ports.Audit(id, "system", Ingested);
      var failed := InvestigateAndDispatch(inc, call);
      if failed {
        FailHandling(inc, call);
      }
      ports.Ended(call);
    }

    /** The error branch of HandleAlert. */
    method FailHandling(inc: IncidentRecord, ghost call: Call)
      requires Holds(inc, call) && call.Alert? && ports.th.pc.AbortSave?
      modifies ports, ports.exec.api, inc
      ensures Holds(inc, call) && Same(old(ports.first), old(ports.begun))
      ensures ports.th.pc == Done(HandledFailed)
    {
      hide Ports.Valid, Ports.W, ActorOf, ToSave, OnSave, ToAudit, OnAudit, ToNotify, OnNotify, Saves, Audits, Notifies;
      SavesAbort(ports.th);
      inc.status := Failed;
      var _ := ports.Save(inc);
      RecordsAbort(ports.cfg, ports.th);
      ports.Audit(inc.id, "system", HandlingFailed);
      if ports.cfg.messaging {
        ReportsAbort(ports.th);
        var _ := ports.Notify(inc, FailedNote);
      }
    }

    method InvestigateAndDispatch(inc: IncidentRecord, ghost call: Call) returns (failed: bool)
      requires Holds(inc, call) && call.Alert? && ports.th.pc.Matching?
      modifies ports, ports.exec.api, inc
      ensures Holds(inc, call) && Same(old(ports.first), old(ports.begun))
      ensures ports.th.pc == (if failed then AbortSave else Done(Succeeded))
    {
      hide Ports.Valid, Ports.W;
      var matched := ports.MatchBooks(inc.labels);
      if matched.None? {
        return true;
      }
      var context, _ := ContextRunbooks(inc.labels);
      if context.None? {
        return true;
      }
      failed := Investigate(inc, matched.value == [], context.value, call);
    }

    /** InvestigateAndDispatch once the context is known. */
    method Investigate(inc: IncidentRecord, unmatched: bool, context: seq<Runbook>, ghost call: Call)
        returns (failed: bool)
      requires Holds(inc, call) && call.Alert? && ports.th.pc == Pc.Investigating
      requires unmatched == ports.th.unmatched && context == ports.th.context
      modifies ports, ports.exec.api, inc
      ensures Holds(inc, call) && Same(old(ports.first), old(ports.begun))
      ensures ports.th.pc == (if failed then AbortSave else Done(Succeeded))
    {
      hide Ports.Valid, Ports.W;
      ghost var t := ports.th;
      var plan := ports.Investigate(inc, context);
      if plan.None? {
        assert OnPlan(t, plan) == t.(pc := AbortSave);
        return true;
      }
      var p := plan.value;
      if unmatched {
        p := p.(risk := RequiresApproval);
      }
      PlanPath(t, plan.value);
      inc.plan := Some(p);
      inc.risk := p.risk;
      failed := Dispatch(inc, p, call);
    }

    /** The dispatch half of InvestigateAndDispatch. */
    method Dispatch(inc: IncidentRecord, p: ActionPlan, ghost call: Call) returns (failed: bool)
      requires Holds(inc, call) && call.Alert? && ports.th.pc.Planning? && inc.plan == Some(p)
      modifies ports, ports.exec.api, inc
      ensures Holds(inc, call) && Same(old(ports.first), old(ports.begun))
      ensures ports.th.pc == (if failed then AbortSave else Done(Succeeded))
    {
      hide Ports.Valid, Ports.W, Next, Play, IsPlay, CanAutoRemediate, Enter;
      ports.Audit(inc.id, "llm", Planned);
      if CanAutoRemediate(p) {
        failed := AutoRemediate(inc, call);
      } else {
        failed := AskForApproval(inc, call);
      }
    }

    /** The approval half of the dispatch. */
    method AskForApproval(inc: IncidentRecord, ghost call: Call) returns (failed: bool)
      requires Holds(inc, call) && call.Alert? && ports.th.pc.Parking?
      modifies ports, ports.exec.api, inc
      ensures Holds(inc, call) && Same(old(ports.first), old(ports.begun))
      ensures ports.th.pc == (if failed then AbortSave else Done(Succeeded))
    {
      hide Ports.Valid, Ports.W, Next, Play, IsPlay, CanAutoRemediate, Enter;
      inc.risk := RequiresApproval;
      inc.status := AwaitingApproval;
      var ok := ports.Save(inc);
      if !ok {
        return true;
      }
      ports.Audit(inc.id, "system", AwaitingHuman);
      if ports.cfg.messaging {
        var sent := ports.Notify(inc, ApprovalRequest);
        if !sent {
          return true;
        }
      }
      return false;
    }

    method AutoRemediate(inc: IncidentRecord, ghost call: Call) returns (failed: bool)
      requires Holds(inc, call) && call.Alert? && ports.th.pc.Claiming?
      modifies ports, ports.exec.api, inc
      ensures Holds(inc, call) && Same(old(ports.first), old(ports.begun))
      ensures ports.th.pc == (if failed then AbortSave else Done(Succeeded))
    {
      hide Ports.Valid, Ports.W, OnSave, ToSave, CanAutoRemediate;
      ClaimPath(ports.th, true);
      ClaimPath(ports.th, false);
      inc.status := Executing;
      var ok := ports.Save(inc);
      if !ok {
        return true;
      }
      failed := SettleExecution(inc, "system", AutoRemediated, true, call);
    }

    /** Executes an authorised plan. */
    method ExecuteApprovedPlan(id: Id, actor: string) returns (inc: IncidentRecord?)
      requires ports.Valid() && ports.th.pc.Loading? && ports.th.call == Approve(id, actor)
      modifies ports, ports.exec.api
      ensures ports.Valid() && Same(old(ports.first), old(ports.begun)) && ports.th.pc.Done?
      ensures Returns(inc)
    {
      hide Ports.Valid, Ports.W, Next, Play, IsPlay, CanAutoRemediate, Enter;
      inc := ports.Load(id);
      if inc == null {
        return;
      }
      if Terminal(inc.status) {
        return;
      }
      if inc.status != AwaitingApproval {
        return;
      }
      ExecuteWaiting(inc, actor);
    }

    /** ExecuteApprovedPlan once the incident is known to be waiting. */
    method ExecuteWaiting(inc: IncidentRecord, actor: string)
      requires Holds(inc, ports.th.call) && ports.th.call.Approve? && ports.th.call.actor == actor
               && ports.th.pc.Claiming?
      modifies ports, ports.exec.api, inc
      ensures Holds(inc, old(ports.th.call)) && Same(old(ports.first), old(ports.begun))
      ensures ports.th.pc.Done? && ReturnsIncident(ports.th.pc.outcome)
    {
      hide Ports.Valid, Ports.W, Next, Play, IsPlay, CanAutoRemediate;
      inc.status := Executing;
      var ok := ports.Save(inc);
      if !ok {
        return;
      }
      ports.Audit(inc.id, actor, Approved);
      var _ := SettleExecution(inc, actor, ApprovedResolved, false, ports.th.call);
    }

    method SettleExecution(inc: IncidentRecord, actor: string, success: Action, auto: bool, ghost call: Call)
        returns (failed: bool)
      requires Holds(inc, call) && (auto <==> call.Alert?) && actor == ActorOf(call)
      requires success == (if auto then AutoRemediated else ApprovedResolved)
      requires ports.th.pc ==
               if inc.plan.None? || inc.plan.value.steps == [] then FailSave(ExecutionFailed) else Running(0)
      modifies ports, ports.exec.api, inc
      ensures Holds(inc, call) && Same(old(ports.first), old(ports.begun))
      ensures auto ==> ports.th.pc == (if failed then AbortSave else Done(Succeeded))
      ensures !auto ==>
                && ports.th.pc.Done? && ReturnsIncident(ports.th.pc.outcome)
                && (failed <==> ports.th.pc.outcome != Succeeded)
    {
      hide Ports.Valid, Ports.W, ActorOf, ToAudit, OnAudit, Looks, Passes, Verified, Audits;
      var execFailed := ports.Execute(inc);
      if execFailed {
        FailExecution(inc, actor, ExecutionFailed, call);
        return true;
      }
      if ports.cfg.verifier {
        var healthy, _, _ := ports.Verify(inc);
        if !healthy {
          FailExecution(inc, actor, VerificationFailed, call);
          return true;
        }
        RecordsVerdict(ports.cfg, ports.th);
        ports.Audit(inc.id, actor, HealthVerified);
      }
      failed := Resolve(inc, actor, success, auto, call);
    }

    /** The last part of SettleExecution, after a healthy verification. */
    method Resolve(inc: IncidentRecord, actor: string, success: Action, auto: bool, ghost call: Call)
        returns (failed: bool)
      requires Holds(inc, call) && (auto <==> call.Alert?) && actor == ActorOf(call)
      requires success == (if auto then AutoRemediated else ApprovedResolved)
      requires ports.th.pc.Resolving?
      modifies ports, ports.exec.api, inc
      ensures Holds(inc, call) && Same(old(ports.first), old(ports.begun))
      ensures auto ==> ports.th.pc == (if failed then AbortSave else Done(Succeeded))
      ensures !auto ==>
                && ports.th.pc.Done? && ReturnsIncident(ports.th.pc.outcome)
                && (failed <==> ports.th.pc.outcome != Succeeded)
    {
      hide Ports.Valid, Ports.W, ActorOf, ToSave, OnSave, ToAudit, OnAudit, ToNotify, OnNotify, Saves, Audits, Notifies;
      SavesResolution(ports.th);
      inc.status := Resolved;
      var ok := ports.Save(inc);
      if !ok {
        return true;
      }
      RecordsResolution(ports.cfg, ports.th);
      ports.Audit(inc.id, actor, success);
      if ports.cfg.messaging {
        ReportsResolution(ports.th);
        var _ := ports.Notify(inc, if auto then AutoNote else ResolvedNote);
      }
      return false;
    }

    method FailExecution(inc: IncidentRecord, actor: string, action: Action, ghost call: Call)
      requires Holds(inc, call) && actor == ActorOf(call) && ports.th.pc == FailSave(action)
      modifies ports, ports.exec.api, inc
      ensures Holds(inc, call) && Same(old(ports.first), old(ports.begun))
      ensures ports.th.pc == if call.Alert? then AbortSave else Done(ExecutionError)
    {
      hide Ports.Valid, Ports.W, ActorOf, ToSave, OnSave, ToAudit, OnAudit, ToNotify, OnNotify, Saves, Audits, Notifies;
      SavesFailure(ports.th, action);
      inc.status := Failed;
      var _ := ports.Save(inc);
      RecordsFailure(ports.cfg, ports.th, action);
      ports.Audit(inc.id, actor, action);
      if ports.cfg.messaging {
        ReportsFailure(ports.th);
        var _ := ports.Notify(inc, FailedNote);
      }
    }

    method Reject(id: Id, actor: string) returns (inc: IncidentRecord?)
      requires ports.Valid() && ports.th.pc.Loading? && ports.th.call == Call.Reject(id, actor)
      modifies ports, ports.exec.api
      ensures ports.Valid() && Same(old(ports.first), old(ports.begun)) && ports.th.pc.Done?
      ensures Returns(inc)
    {
      hide Ports.Valid, Ports.W, Next, Play, IsPlay, CanAutoRemediate, Enter;
      inc := ports.Load(id);
      if inc == null {
        return;
      }
      if Terminal(inc.status) {
        return;
      }
      if inc.status != AwaitingApproval {
        return;
      }
      RejectWaiting(inc, actor);
    }

    /** Reject once the incident is known to be waiting. */
    method RejectWaiting(inc: IncidentRecord, actor: string)
      requires Holds(inc, ports.th.call) && ports.th.call.Reject? && ports.th.call.actor == actor
               && ports.th.pc.RejectSave?
      modifies ports, ports.exec.api, inc
      ensures Holds(inc, old(ports.th.call)) && Same(old(ports.first), old(ports.begun))
      ensures ports.th.pc.Done? && ReturnsIncident(ports.th.pc.outcome)
    {
      hide Ports.Valid, Ports.W, ToSave, OnSave, ToAudit, OnAudit, ToNotify, OnNotify, Saves, Audits, Notifies;
      ghost var t := ports.th;
      SavesRejection(t);
      inc.status := Failed;
      var ok := ports.Save(inc);
      if !ok {
        return;
      }
      RecordsRejection(ports.cfg, ports.th);
      ports.Audit(inc.id, actor, Rejected);
      if ports.cfg.messaging {
        ReportsRejection(ports.th);
        var _ := ports.Notify(inc, FailedNote);
      }
    }

    /** Answers an on-call question. The remediators are out of its reach. */
    method FollowUp(id: Id, actor: string, question: string) returns (inc: IncidentRecord?)
      requires ports.Valid() && ports.th.call == Call.FollowUp(id, actor, question)
      requires ports.th.pc == if TrimSpace(question) == "" then Done(EmptyQuestion) else Loading
      modifies ports
      ensures old(ports.log) <= ports.log
      ensures ports.Valid() && Same(old(ports.first), old(ports.begun)) && ports.th.pc.Done?
      ensures FollowLog(ports.cfg, old(ports.th.call), ports.log[|old(ports.log)|..], ports.th.pc.outcome)
      ensures Returns(inc)
    {
      hide Ports.Valid, Ports.W, Play, TrimSpace, FollowLog;
      ghost var log, t := ports.log, ports.th;
      Now();
      if TrimSpace(question) == "" {
        inc := null;
      } else {
        inc := Ask(id, actor);
      }
      Told(log, t);
    }

    /** FollowUp with a question. */
    method Ask(id: Id, actor: string) returns (inc: IncidentRecord?)
      requires ports.Valid() && ports.th.pc.Loading?
      requires ports.th.call.FollowUp? && ports.th.call.id == id && ports.th.call.actor == actor
      modifies ports
      ensures old(ports.log) <= ports.log
      ensures ports.Valid() && Same(old(ports.first), old(ports.begun)) && ports.th.pc.Done?
      ensures Returns(inc)
    {
      hide Ports.Valid, Ports.W, OnLoad;
      ghost var t := ports.th;
      inc := ports.Load(id);
      LoadPath(t, if inc == null then None else Some(inc.Value()));
      if inc == null {
        return;
      }
      AskAbout(inc, actor);
    }

    /** FollowUp once the incident has been read. */
    method AskAbout(inc: IncidentRecord, actor: string)
      requires Holds(inc, ports.th.call) && ports.th.call.FollowUp? && ports.th.call.actor == actor
               && ports.th.pc.FollowMatch?
      modifies ports
      ensures old(ports.log) <= ports.log
      ensures Holds(inc, old(ports.th.call)) && Same(old(ports.first), old(ports.begun))
              && inc.Value() == old(inc.Value())
      ensures ports.th.pc.Done? && ReturnsIncident(ports.th.pc.outcome)
    {
      hide Ports.Valid, Ports.W, OnPlan, Machine.Found;
      ghost var t := ports.th;
      var books, _ := ContextRunbooks(inc.labels);
      FoundPath(t, books);
      if books.None? {
        return;
      }
      t := ports.th;
      var plan := ports.Investigate(inc, books.value);
      FollowPlanPath(t, plan);
      if plan.Some? {
        Answer(inc, actor);
      }
    }

    /** The end of FollowUp, once the model has answered. */
    method Answer(inc: IncidentRecord, actor: string)
      requires Holds(inc, ports.th.call) && ports.th.call.FollowUp? && ports.th.call.actor == actor
               && ports.th.pc.FollowAudit?
      modifies ports
      ensures old(ports.log) <= ports.log
      ensures Holds(inc, old(ports.th.call)) && Same(old(ports.first), old(ports.begun))
              && inc.Value() == old(inc.Value())
      ensures ports.th.pc.Done? && ReturnsIncident(ports.th.pc.outcome)
    {
      hide Ports.Valid, Ports.W, Next, Play, IsPlay, CanAutoRemediate, Enter;
      ports.Audit(inc.id, actor, FollowedUp);
      if ports.cfg.messaging {
        var _ := ports.Notify(inc, FollowUpNote);
      }
    }

    /** What the repository of runbooks answered: the matching runbooks, or all of them when
        none match. The list is asked for only then. */
    ghost predicate Context(labels: map<string, string>, calls: seq<Event>, books: Option<seq<Runbook>>) {
      || (calls == [Event.MatchBooks(labels, books)] && books != Some([]))
      || calls == [Event.MatchBooks(labels, Some([]))] + [Event.ListBooks(books)]
    }

    method ContextRunbooks(labels: map<string, string>) returns (books: Option<seq<Runbook>>, ghost calls: seq<Event>)
      requires ports.Valid() && labels == ports.th.inc.labels
               && (ports.th.pc.MatchingContext? || ports.th.pc.FollowMatch?)
      modifies ports`log, ports`th
      ensures ports.Valid() && Same(old(ports.first), old(ports.begun))
      ensures ports.log == old(ports.log) + calls && Context(labels, calls, books)
      ensures ports.th == Found(old(ports.th), books)
    {
      hide Ports.Valid, Ports.W, OnMatch, OnList, Found;
      ghost var t, log := ports.th, ports.log;
      ContextPath(t);
      books := ports.MatchBooks(labels);
      calls := [Event.MatchBooks(labels, books)];
      if books.None? || books.value != [] {
        return;
      }
      books := ports.ListBooks();
      calls := calls + [Event.ListBooks(books)];
    }
  }

  /** The human-in-the-loop gate in front of the incident service. */
  class ApprovalService {
    const incidents: IncidentService
    const approvers: set<string>

    /** An allow-list of identities; one without any denies everybody. */
    constructor (incidents: IncidentService, ids: seq<string>)
      ensures this.incidents == incidents && approvers == Names(ids)
    {
      var m := CollectNames(ids);
      this.incidents, this.approvers := incidents, m;
    }

    predicate IsAllowed(actor: string) {
      actor in approvers
    }

    ghost predicate Ready() {
      incidents.ports.Wired() && approvers == incidents.ports.cfg.approvers
    }

    method Approve(id: Id, actor: string) returns (inc: IncidentRecord?)
      requires Ready()
      modifies incidents.ports, incidents.ports.exec.api
      ensures incidents.ports.Completed(Call.Approve(id, actor), old(incidents.ports.W()))
      ensures Story(incidents.ports.cfg, Call.Approve(id, actor), incidents.ports.log, incidents.ports.th.pc.outcome)
      ensures incidents.Returns(inc)
      ensures !IsAllowed(actor) ==>
                inc == null && incidents.ports.W() == old(incidents.ports.W()) && incidents.ports.log == []
    {
      hide Ports.Valid, Ports.W, Next, Play, IsPlay, CanAutoRemediate, Story;
      incidents.ports.Begin(Call.Approve(id, actor));
      if !IsAllowed(actor) {
        incidents.ports.Ended(Call.Approve(id, actor));
        return null;
      }
      inc := incidents.ExecuteApprovedPlan(id, actor);
      incidents.ports.Ended(Call.Approve(id, actor));
    }

    method Reject(id: Id, actor: string) returns (inc: IncidentRecord?)
      requires Ready()
      modifies incidents.ports, incidents.ports.exec.api
      ensures incidents.ports.Completed(Call.Reject(id, actor), old(incidents.ports.W()))
      ensures Story(incidents.ports.cfg, Call.Reject(id, actor), incidents.ports.log, incidents.ports.th.pc.outcome)
      ensures incidents.Returns(inc)
      ensures !IsAllowed(actor) ==>
                inc == null && incidents.ports.W() == old(incidents.ports.W()) && incidents.ports.log == []
    {
      hide Ports.Valid, Ports.W, Next, Play, IsPlay, CanAutoRemediate, Story;
      incidents.ports.Begin(Call.Reject(id, actor));
      if !IsAllowed(actor) {
        incidents.ports.Ended(Call.Reject(id, actor));
        return null;
      }
      inc := incidents.Reject(id, actor);
      incidents.ports.Ended(Call.Reject(id, actor));
    }

    method FollowUp(id: Id, actor: string, question: string) returns (inc: IncidentRecord?)
      requires Ready()
      modifies incidents.ports
      ensures incidents.ports.Completed(Call.FollowUp(id, actor, question), old(incidents.ports.W()))
      ensures Story(incidents.ports.cfg, Call.FollowUp(id, actor, question), incidents.ports.log,
                    incidents.ports.th.pc.outcome)
      ensures incidents.Returns(inc)
      ensures !IsAllowed(actor) ==>
                inc == null && incidents.ports.W() == old(incidents.ports.W()) && incidents.ports.log == []
    {
      hide Ports.Valid, Ports.W, Next, Play, IsPlay, CanAutoRemediate, TrimSpace, Story;
      incidents.ports.Begin(Call.FollowUp(id, actor, question));
      if !IsAllowed(actor) {
        incidents.ports.Ended(Call.FollowUp(id, actor, question));
        return null;
      }
      inc := incidents.FollowUp(id, actor, question);
      incidents.ports.Ended(Call.FollowUp(id, actor, question));
    }
  }
}
