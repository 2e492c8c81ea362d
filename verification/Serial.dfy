/** What holds when calls are serialised, although any port may fail and a crash may cut a
    call after any port call. */
module Serial {
  import opened Domain
  import opened Cluster
  import opened Machine
  import opened Interleaved

  /** The lifecycle: how a persisted status may be overwritten. */
  predicate Edge(from: Status, to: Status) {
    match from
    case Investigating => to == AwaitingApproval || to == Executing || to == Failed
    case AwaitingApproval => to == Executing || to == Failed
    case Executing => to == Resolved || to == Failed
    case Failed => to == Failed
    case Resolved => false
  }

  /** The statuses its incident may have in the store while a thread is at this point. */
  predicate StatusFits(t: Thread, st: Status) {
    if BeforePlan(t.pc) || t.pc.Planning? || t.pc.Parking? then st == Status.Investigating
    else if t.pc.Claiming? then st == (if t.call.Alert? then Status.Investigating else AwaitingApproval)
    else if t.pc.ParkAudit? || t.pc.RequestingApproval? || t.pc.RejectSave? then st == AwaitingApproval
    else if t.pc.ApproveAudit? || t.pc.Running? || t.pc.Verifying? || t.pc.Probing? || t.pc.VerifiedAudit?
        || t.pc.Resolving? || t.pc.FailSave? then
      st == Executing
    else if t.pc.FailAudit? || t.pc.FailNotify? then st == Executing || st == Failed
    else if t.pc.ResolvedAudit? || t.pc.ResolvedNotify? then st == Resolved
    else if Aborting(t.pc) then
      && (st == Status.Investigating || st == AwaitingApproval || st == Executing || st == Failed)
      && (t.entered ==> st == Executing || st == Failed)
    else if t.pc.RejectAudit? || t.pc.RejectNotify? then st == Failed
    else true
  }

  /** Threads that hold an incident they may still write. */
  predicate Holding(t: Thread) {
    && Active(t) && !t.pc.Creating? && !t.pc.Loading?
    && !(t.pc.FollowMatch? || t.pc.FollowList? || t.pc.FollowInvestigate? || t.pc.FollowAudit? || t.pc.FollowReply?)
  }

  ghost predicate OneActive(s: Sys) {
    forall k :: 0 <= k < |s.threads| - 1 ==> !Active(s.threads[k])
  }

  /** Executing, or past it. */
  predicate Underway(st: Status) {
    st == Executing || st == Resolved || st == Failed
  }

  ghost predicate Begun(w: World, id: Id) {
    id in w.store && Underway(w.store[id].status)
  }

  ghost predicate EnteredOk(s: Sys) {
    && (forall j :: 0 <= j < |s.entries| ==>
          Begun(s.w, s.entries[j].id))
    && (forall i, j :: 0 <= i < j < |s.entries| ==> s.entries[i].id != s.entries[j].id)
  }

  ghost predicate NotEntered(s: Sys, id: Id) {
    forall j :: 0 <= j < |s.entries| ==> s.entries[j].id != id
  }

  ghost predicate HeldOk(s: Sys, t: Thread) {
    && (t.pc.Creating? ==> t.inc.id !in s.w.store)
    && (Holding(t) ==> t.inc.id in s.w.store && StatusFits(t, s.w.store[t.inc.id].status))
    && (t.pc.ApproveAudit? ==> NotEntered(s, t.inc.id))
  }

  ghost predicate SInv(cfg: Config, s: Sys) {
    && Inv(cfg, s) && OneActive(s) && EnteredOk(s)
    && (s.threads != [] && Active(s.threads[|s.threads| - 1]) ==> HeldOk(s, s.threads[|s.threads| - 1]))
  }

  // ----- One thread alone with the store -----

  /** Local status changes: what a save replaces, and where that leaves the thread. */
  ghost predicate StatusStep(t: Thread, e: Event, st: Status, t': Thread) {
    && (e.Save? ==> Edge(st, e.inc.status))
    && (Holding(t') ==> StatusFits(t', if e.Save? && e.ok then e.inc.status else st))
    && (t'.entered && !t.entered ==> (if e.Save? && e.ok then e.inc.status else st) == Executing)
    && (t'.entered && !t.entered && t.pc.Claiming? ==> st == Status.Investigating)
    && (t'.pc.ApproveAudit? ==> t.pc.Claiming? && st == AwaitingApproval)
    && (e.Save? && Underway(st) ==> Underway(e.inc.status))
  }

  /** The executor is entered only from claiming or from the approval's audit record. */
  predicate EntersFrom(t: Thread, t': Thread) {
    t'.entered && !t.entered ==> t.pc.Claiming? || t.pc.ApproveAudit?
  }

  /** It goes on with the same incident, and enters the executor only from its two doors. */
  ghost predicate Stays(t: Thread, e: Event, t': Thread) {
    && !e.Create? && !e.Load? && !t'.pc.Creating?
    && t'.inc.id == t.inc.id && (e.Save? ==> e.inc.id == t.inc.id) && EntersFrom(t, t')
  }

  /** A thread that holds its incident, stored with status `st`, makes its next call. */
  ghost predicate Carrying(cfg: Config, t: Thread, e: Event, st: Status) {
    LocalOk(cfg, t) && Next(cfg, t, e).Some? && Holding(t) && StatusFits(t, st)
  }

  ghost predicate CarriesOn(cfg: Config, t: Thread, e: Event, st: Status)
    requires Next(cfg, t, e).Some?
  {
    StatusStep(t, e, st, Next(cfg, t, e).value) && Stays(t, e, Next(cfg, t, e).value)
  }

  lemma HoldIngesting(cfg: Config, t: Thread, e: Event, st: Status)
    requires Carrying(cfg, t, e, st) && t.pc.Ingesting?
    ensures CarriesOn(cfg, t, e, st)
  {
    hide Next, CanAutoRemediate, OnSave, ToSave, OnNotify, ToNotify, OnMatch, OnList, OnPlan, OnLoad, OnStep, Enter;
    AuditKind(cfg, t, e);
  }

  lemma HoldMatching(cfg: Config, t: Thread, e: Event, st: Status)
    requires Carrying(cfg, t, e, st) && (t.pc.Matching? || t.pc.MatchingContext?)
    ensures CarriesOn(cfg, t, e, st)
  {
    hide Next, CanAutoRemediate, OnSave, ToSave, OnAudit, ToAudit, OnNotify, ToNotify, OnList, OnPlan, OnLoad, OnStep,
         Enter;
    MatchKind(cfg, t, e);
  }

  lemma HoldListing(cfg: Config, t: Thread, e: Event, st: Status)
    requires Carrying(cfg, t, e, st) && t.pc.Listing?
    ensures CarriesOn(cfg, t, e, st)
  {
    hide Next, CanAutoRemediate, OnSave, ToSave, OnAudit, ToAudit, OnNotify, ToNotify, OnMatch, OnPlan, OnLoad, OnStep,
         Enter;
    ListKind(cfg, t, e);
  }

  lemma HoldInvestigating(cfg: Config, t: Thread, e: Event, st: Status)
    requires Carrying(cfg, t, e, st) && t.pc.Investigating?
    ensures CarriesOn(cfg, t, e, st)
  {
    hide Next, CanAutoRemediate, OnSave, ToSave, OnAudit, ToAudit, OnNotify, ToNotify, OnMatch, OnList, OnLoad, OnStep,
         Enter;
    PlanKind(cfg, t, e);
  }

  lemma HoldPlanning(cfg: Config, t: Thread, e: Event, st: Status)
    requires Carrying(cfg, t, e, st) && (t.pc.Planning? || t.pc.Parking?)
    ensures CarriesOn(cfg, t, e, st)
  {
    hide Next, CanAutoRemediate, OnNotify, ToNotify, OnMatch, OnList, OnPlan, OnLoad, OnStep, Enter;
    if t.pc.Planning? {
      AuditKind(cfg, t, e);
    } else {
      SaveKind(cfg, t, e);
    }
  }

  lemma HoldParked(cfg: Config, t: Thread, e: Event, st: Status)
    requires Carrying(cfg, t, e, st) && (t.pc.ParkAudit? || t.pc.RequestingApproval?)
    ensures CarriesOn(cfg, t, e, st)
  {
    hide Next, CanAutoRemediate, OnSave, ToSave, OnMatch, OnList, OnPlan, OnLoad, OnStep, Enter;
    if t.pc.ParkAudit? {
      AuditKind(cfg, t, e);
    } else {
      NotifyKind(cfg, t, e);
    }
  }

  lemma HoldAbortSave(cfg: Config, t: Thread, e: Event, st: Status)
    requires Carrying(cfg, t, e, st) && t.pc.AbortSave?
    ensures CarriesOn(cfg, t, e, st)
  {
    hide Next, CanAutoRemediate, OnAudit, ToAudit, OnNotify, ToNotify, OnMatch, OnList, OnPlan, OnLoad, OnStep, Enter;
    SaveKind(cfg, t, e);
  }

  lemma HoldAborted(cfg: Config, t: Thread, e: Event, st: Status)
    requires Carrying(cfg, t, e, st) && (t.pc.AbortAudit? || t.pc.AbortNotify?)
    ensures CarriesOn(cfg, t, e, st)
  {
    hide Next, CanAutoRemediate, OnSave, ToSave, OnMatch, OnList, OnPlan, OnLoad, OnStep, Enter;
    if t.pc.AbortAudit? {
      AuditKind(cfg, t, e);
    } else {
      NotifyKind(cfg, t, e);
    }
  }

  lemma HoldClaiming(cfg: Config, t: Thread, e: Event, st: Status)
    requires Carrying(cfg, t, e, st) && t.pc.Claiming?
    ensures CarriesOn(cfg, t, e, st)
  {
    hide Next, CanAutoRemediate, OnAudit, ToAudit, OnNotify, ToNotify, OnMatch, OnList, OnPlan, OnLoad, OnStep;
    SaveKind(cfg, t, e);
  }

  lemma HoldApproveAudit(cfg: Config, t: Thread, e: Event, st: Status)
    requires Carrying(cfg, t, e, st) && t.pc.ApproveAudit?
    ensures CarriesOn(cfg, t, e, st)
  {
    hide Next, CanAutoRemediate, OnSave, ToSave, OnNotify, ToNotify, OnMatch, OnList, OnPlan, OnLoad, OnStep;
    AuditKind(cfg, t, e);
  }

  lemma HoldRunning(cfg: Config, t: Thread, e: Event, st: Status)
    requires Carrying(cfg, t, e, st) && t.pc.Running?
    ensures CarriesOn(cfg, t, e, st)
  {
    hide Next, CanAutoRemediate, OnSave, ToSave, OnAudit, ToAudit, OnNotify, ToNotify, OnMatch, OnList, OnPlan, OnLoad,
         OnStep, Enter;
    StepOutcome(cfg, t, e);
  }

  lemma HoldVerifying(cfg: Config, t: Thread, e: Event, st: Status)
    requires Carrying(cfg, t, e, st) && (t.pc.Verifying? || t.pc.Probing?)
    ensures CarriesOn(cfg, t, e, st)
  {
    hide Next, CanAutoRemediate, OnSave, ToSave, OnAudit, ToAudit, OnNotify, ToNotify, OnMatch, OnList, OnPlan, OnLoad,
         OnStep, OnLook, OnProbe, Enter;
    CheckOutcome(cfg, t, e);
  }

  lemma HoldVerified(cfg: Config, t: Thread, e: Event, st: Status)
    requires Carrying(cfg, t, e, st) && t.pc.VerifiedAudit?
    ensures CarriesOn(cfg, t, e, st)
  {
    hide Next, CanAutoRemediate, OnSave, ToSave, OnNotify, ToNotify, OnMatch, OnList, OnPlan, OnLoad, OnStep, Enter;
    AuditKind(cfg, t, e);
  }

  lemma HoldResolving(cfg: Config, t: Thread, e: Event, st: Status)
    requires Carrying(cfg, t, e, st) && t.pc.Resolving?
    ensures CarriesOn(cfg, t, e, st)
  {
    hide Next, CanAutoRemediate, OnAudit, ToAudit, OnNotify, ToNotify, OnMatch, OnList, OnPlan, OnLoad, OnStep, Enter;
    SaveKind(cfg, t, e);
  }

  lemma HoldResolved(cfg: Config, t: Thread, e: Event, st: Status)
    requires Carrying(cfg, t, e, st) && (t.pc.ResolvedAudit? || t.pc.ResolvedNotify?)
    ensures CarriesOn(cfg, t, e, st)
  {
    hide Next, CanAutoRemediate, OnSave, ToSave, OnMatch, OnList, OnPlan, OnLoad, OnStep, Enter;
    if t.pc.ResolvedAudit? {
      AuditKind(cfg, t, e);
    } else {
      NotifyKind(cfg, t, e);
    }
  }

  lemma HoldFailing(cfg: Config, t: Thread, e: Event, st: Status)
    requires Carrying(cfg, t, e, st) && t.pc.FailSave?
    ensures CarriesOn(cfg, t, e, st)
  {
    hide Next, CanAutoRemediate, OnMatch, OnList, OnPlan, OnLoad, OnStep, Enter, OnAudit, ToAudit, OnNotify, ToNotify;
    SaveKind(cfg, t, e);
  }

  lemma HoldFailAudit(cfg: Config, t: Thread, e: Event, st: Status)
    requires Carrying(cfg, t, e, st) && t.pc.FailAudit?
    ensures CarriesOn(cfg, t, e, st)
  {
    hide Next, CanAutoRemediate, OnSave, ToSave, OnNotify, ToNotify, OnMatch, OnList, OnPlan, OnLoad, OnStep, Enter;
    AuditKind(cfg, t, e);
  }

  lemma HoldFailNotify(cfg: Config, t: Thread, e: Event, st: Status)
    requires Carrying(cfg, t, e, st) && t.pc.FailNotify?
    ensures CarriesOn(cfg, t, e, st)
  {
    hide Next, CanAutoRemediate, OnSave, ToSave, OnAudit, ToAudit, OnMatch, OnList, OnPlan, OnLoad, OnStep, Enter;
    NotifyKind(cfg, t, e);
  }

  lemma HoldRejectSave(cfg: Config, t: Thread, e: Event, st: Status)
    requires Carrying(cfg, t, e, st) && t.pc.RejectSave?
    ensures CarriesOn(cfg, t, e, st)
  {
    hide Next, CanAutoRemediate, OnAudit, ToAudit, OnNotify, ToNotify, OnMatch, OnList, OnPlan, OnLoad, OnStep, Enter;
    SaveKind(cfg, t, e);
  }

  lemma HoldRejected(cfg: Config, t: Thread, e: Event, st: Status)
    requires Carrying(cfg, t, e, st) && (t.pc.RejectAudit? || t.pc.RejectNotify?)
    ensures CarriesOn(cfg, t, e, st)
  {
    hide Next, CanAutoRemediate, OnSave, ToSave, OnMatch, OnList, OnPlan, OnLoad, OnStep, Enter;
    if t.pc.RejectAudit? {
      AuditKind(cfg, t, e);
    } else {
      NotifyKind(cfg, t, e);
    }
  }

  lemma HoldingStep(cfg: Config, t: Thread, e: Event, st: Status)
    requires LocalOk(cfg, t) && Next(cfg, t, e).Some? && Holding(t) && StatusFits(t, st)
    ensures StatusStep(t, e, st, Next(cfg, t, e).value) && Stays(t, e, Next(cfg, t, e).value)
  {
    hide LocalOk, Next, StatusStep, Stays, StatusFits;
    if t.pc.Ingesting? {
      HoldIngesting(cfg, t, e, st);
    } else if t.pc.Matching? || t.pc.MatchingContext? {
      HoldMatching(cfg, t, e, st);
    } else if t.pc.Listing? {
      HoldListing(cfg, t, e, st);
    } else if t.pc.Investigating? {
      HoldInvestigating(cfg, t, e, st);
    } else if t.pc.Planning? || t.pc.Parking? {
      HoldPlanning(cfg, t, e, st);
    } else if t.pc.ParkAudit? || t.pc.RequestingApproval? {
      HoldParked(cfg, t, e, st);
    } else if t.pc.AbortSave? {
      HoldAbortSave(cfg, t, e, st);
    } else if t.pc.AbortAudit? || t.pc.AbortNotify? {
      HoldAborted(cfg, t, e, st);
    } else if t.pc.Claiming? {
      HoldClaiming(cfg, t, e, st);
    } else if t.pc.ApproveAudit? {
      HoldApproveAudit(cfg, t, e, st);
    } else if t.pc.Running? {
      HoldRunning(cfg, t, e, st);
    } else if t.pc.Verifying? || t.pc.Probing? {
      HoldVerifying(cfg, t, e, st);
    } else if t.pc.VerifiedAudit? {
      HoldVerified(cfg, t, e, st);
    } else if t.pc.Resolving? {
      HoldResolving(cfg, t, e, st);
    } else if t.pc.ResolvedAudit? || t.pc.ResolvedNotify? {
      HoldResolved(cfg, t, e, st);
    } else if t.pc.FailSave? {
      HoldFailing(cfg, t, e, st);
    } else if t.pc.FailAudit? {
      HoldFailAudit(cfg, t, e, st);
    } else if t.pc.FailNotify? {
      HoldFailNotify(cfg, t, e, st);
    } else if t.pc.RejectSave? {
      HoldRejectSave(cfg, t, e, st);
    } else {
      HoldRejected(cfg, t, e, st);
    }
  }

  /** Steps of a thread that holds no incident. */
  ghost predicate FreeFits(t: Thread, e: Event, t': Thread) {
    && !e.Save? && t'.entered == t.entered && !t'.pc.ApproveAudit?
    && (e.Create? <==> t.pc.Creating?)
    && (e.Create? ==> e.inc == t.inc == t'.inc && (Holding(t') ==> e.ok && StatusFits(t', t.inc.status)))
    && (!e.Create? && Holding(t') ==> e.Load? && e.found == Some(t'.inc) && StatusFits(t', t'.inc.status))
    && !t'.pc.Creating?
  }

  lemma FreeCreating(cfg: Config, t: Thread, e: Event)
    requires LocalOk(cfg, t) && Next(cfg, t, e).Some? && t.pc.Creating?
    ensures FreeFits(t, e, Next(cfg, t, e).value)
  {
    hide CanAutoRemediate, OnSave, ToSave, OnAudit, ToAudit, OnNotify, ToNotify, OnMatch, OnList, OnPlan, OnLoad,
         OnStep, Enter;
  }

  lemma FreeLoading(cfg: Config, t: Thread, e: Event)
    requires LocalOk(cfg, t) && Next(cfg, t, e).Some? && t.pc.Loading?
    ensures FreeFits(t, e, Next(cfg, t, e).value)
  {
    hide Next, CanAutoRemediate, OnSave, ToSave, OnAudit, ToAudit, OnNotify, ToNotify, OnMatch, OnList, OnPlan, OnStep,
         Enter;
    LoadKind(cfg, t, e);
  }

  lemma FreeBooks(cfg: Config, t: Thread, e: Event)
    requires LocalOk(cfg, t) && Next(cfg, t, e).Some?
             && (t.pc.FollowMatch? || t.pc.FollowList? || t.pc.FollowInvestigate?)
    ensures FreeFits(t, e, Next(cfg, t, e).value)
  {
    hide Next, LocalOk, CanAutoRemediate, OnSave, ToSave, OnAudit, ToAudit, OnNotify, ToNotify, OnLoad, OnStep, Enter;
    if t.pc.FollowMatch? {
      MatchKind(cfg, t, e);
    } else if t.pc.FollowList? {
      ListKind(cfg, t, e);
    } else {
      PlanKind(cfg, t, e);
    }
  }

  lemma FreeAnswer(cfg: Config, t: Thread, e: Event)
    requires LocalOk(cfg, t) && Next(cfg, t, e).Some? && (t.pc.FollowAudit? || t.pc.FollowReply?)
    ensures FreeFits(t, e, Next(cfg, t, e).value)
  {
    hide Next, LocalOk, CanAutoRemediate, OnSave, ToSave, OnMatch, OnList, OnPlan, OnLoad, OnStep, Enter;
    if t.pc.FollowAudit? {
      AuditKind(cfg, t, e);
    } else {
      NotifyKind(cfg, t, e);
    }
  }

  lemma FreeStep(cfg: Config, t: Thread, e: Event)
    requires LocalOk(cfg, t) && Next(cfg, t, e).Some? && !Holding(t)
    ensures FreeFits(t, e, Next(cfg, t, e).value)
  {
    StillActive(cfg, t, e);
    hide LocalOk, Next, FreeFits;
    if t.pc.Creating? {
      FreeCreating(cfg, t, e);
    } else if t.pc.Loading? {
      FreeLoading(cfg, t, e);
    } else if t.pc.FollowMatch? || t.pc.FollowList? || t.pc.FollowInvestigate? {
      FreeBooks(cfg, t, e);
    } else {
      FreeAnswer(cfg, t, e);
    }
  }

  // ----- All threads together -----

  ghost predicate SerialStep(cfg: Config, s: Sys, l: Label, s': Sys) {
    Step(cfg, s, l, s') && (l.Spawn? ==> Quiescent(s))
  }

  lemma SpawnSerial(cfg: Config, s: Sys, call: Call, s': Sys)
    requires SInv(cfg, s) && SerialStep(cfg, s, Spawn(call), s')
    ensures SInv(cfg, s')
  {
    hide Inv, LocalOk, StatusFits;
    SpawnKeeps(cfg, s, call, s');
    StartPc(cfg, call);
    assert s'.threads[|s.threads|] == Start(cfg, call);
    if call.Alert? && call.id in s.w.store {
      OwnedStore(cfg, s, call.id);
    }
    assert EnteredOk(s');
  }

  lemma StartPc(cfg: Config, call: Call)
    ensures var t := Start(cfg, call);
            && (t.pc.Creating? <==> call.Alert?) && !Holding(t) && !t.pc.ApproveAudit?
            && (call.Alert? ==> t.inc.id == call.id)
  {
  }

  lemma OwnedStore(cfg: Config, s: Sys, id: Id)
    requires Inv(cfg, s) && id in s.w.store
    ensures id in s.owner
  {
  }

  lemma PortActive(cfg: Config, s: Sys, k: nat, e: Event, s': Sys)
    requires SInv(cfg, s) && Step(cfg, s, Port(k, e), s')
    ensures k == |s.threads| - 1 && Active(s.threads[k]) && HeldOk(s, s.threads[k]) && LocalOk(cfg, s.threads[k])
  {
    StillActive(cfg, s.threads[k], e);
    hide Next, Possible, Apply;
  }

  lemma SerialIsInv(cfg: Config, s: Sys)
    requires SInv(cfg, s)
    ensures Inv(cfg, s)
  {
    hide Inv;
  }

  lemma LoadedInSerial(cfg: Config, s: Sys, e: Event)
    requires SInv(cfg, s) && Possible(cfg, s.w, e)
    ensures e.Load? && e.found.Some? ==> e.found.value.id == e.id
  {
    SerialIsInv(cfg, s);
    LoadedId(cfg, s, e);
  }

  lemma PortHolding(cfg: Config, s: Sys, k: nat, e: Event, s': Sys)
    requires SInv(cfg, s) && Step(cfg, s, Port(k, e), s') && Holding(s.threads[k])
    ensures EnteredOk(s') && (Active(s'.threads[k]) ==> HeldOk(s', s'.threads[k]))
  {
    hide Next, Possible, LocalOk, Inv, StatusFits, Edge;
    var t, t' := s.threads[k], s'.threads[k];
    PortActive(cfg, s, k, e, s');
    HoldingStep(cfg, t, e, s.w.store[t.inc.id].status);
    EnteredHere(cfg, s, k);
    var st' := if e.Save? && e.ok then e.inc.status else s.w.store[t.inc.id].status;
    assert s'.w.store == if e.Save? && e.ok then s.w.store[t.inc.id := e.inc] else s.w.store;
    assert s'.w.store[t.inc.id].status == st';
    if t'.entered && !t.entered {
      assert NotEntered(s, t.inc.id);
    }
    forall j | 0 <= j < |s'.entries| ensures Begun(s'.w, s'.entries[j].id) {
      if j < |s.entries| {
        assert Begun(s.w, s.entries[j].id);
      }
    }
    if t'.pc.ApproveAudit? {
      assert NotEntered(s, t.inc.id);
      assert NotEntered(s', t'.inc.id);
    }
  }

  /** An incident still under investigation, or waiting, has not been executed. */
  lemma EnteredHere(cfg: Config, s: Sys, k: nat)
    requires EnteredOk(s) && k < |s.threads|
    requires s.threads[k].inc.id in s.w.store
    ensures var id := s.threads[k].inc.id; !Underway(s.w.store[id].status) ==> NotEntered(s, id)
  {
  }

  lemma NoEntry(s: Sys, k: nat, t: Thread, c: State)
    requires k < |s.threads| && t.entered == s.threads[k].entered
    ensures Entered(s, k, t, c) == s.entries
  {
  }

  lemma PortFree(cfg: Config, s: Sys, k: nat, e: Event, s': Sys)
    requires SInv(cfg, s) && Step(cfg, s, Port(k, e), s') && !Holding(s.threads[k])
    ensures EnteredOk(s') && (Active(s'.threads[k]) ==> HeldOk(s', s'.threads[k]))
  {
    hide Next, LocalOk, Inv, StatusFits, Edge, Underway, Entered;
    var t, t' := s.threads[k], s'.threads[k];
    PortActive(cfg, s, k, e, s');
    LoadedInSerial(cfg, s, e);
    FreeStep(cfg, t, e);
    CreatingIsInvestigating(cfg, t);
    assert s'.entries == s.entries by { NoEntry(s, k, t', s'.w.cluster); }
    forall j | 0 <= j < |s'.entries| ensures Begun(s'.w, s'.entries[j].id) {
      assert s.entries[j].id in s.w.store;
    }
  }

  predicate BeforePlanIsInvestigating(t: Thread) {
    t.pc.Creating? ==> t.inc.status == Status.Investigating
  }

  lemma CreatingIsInvestigating(cfg: Config, t: Thread)
    requires LocalOk(cfg, t)
    ensures BeforePlanIsInvestigating(t)
  {
  }

  lemma PortSerial(cfg: Config, s: Sys, k: nat, e: Event, s': Sys)
    requires SInv(cfg, s) && Step(cfg, s, Port(k, e), s') && Inv(cfg, s')
    ensures SInv(cfg, s')
  {
    hide Inv, Next, LocalOk, HeldOk, EnteredOk, Possible, Apply, Holding;
    PortActive(cfg, s, k, e, s');
    if Holding(s.threads[k]) {
      PortHolding(cfg, s, k, e, s');
    } else {
      PortFree(cfg, s, k, e, s');
    }
  }

  lemma CrashSerial(cfg: Config, s: Sys, k: nat, s': Sys)
    requires SInv(cfg, s) && Step(cfg, s, Crash(k), s') && Inv(cfg, s')
    ensures SInv(cfg, s')
  {
    hide Inv, Next, LocalOk, StatusFits;
  }

  lemma OutsideSerial(cfg: Config, s: Sys, c: State, s': Sys)
    requires SInv(cfg, s) && Step(cfg, s, Outside(c), s') && Inv(cfg, s')
    ensures SInv(cfg, s')
  {
    hide Inv, Next, LocalOk, StatusFits;
  }

  lemma SerialStepKeeps(cfg: Config, s: Sys, l: Label, s': Sys)
    requires SInv(cfg, s) && SerialStep(cfg, s, l, s')
    ensures SInv(cfg, s')
  {
    hide SInv, Inv, Step;
    SerialIsInv(cfg, s);
    StepKeeps(cfg, s, l, s');
    match l
    case Spawn(call) => SpawnSerial(cfg, s, call, s');
    case Port(k, e) => PortSerial(cfg, s, k, e, s');
    case Crash(k) => CrashSerial(cfg, s, k, s');
    case Outside(c) => OutsideSerial(cfg, s, c, s');
  }

  lemma {:induction false} SerialAlways(cfg: Config, ss: seq<Sys>, ls: seq<Label>, n: nat)
    requires Run(cfg, ss, ls) && Serialised(ss, ls) && n <= |ls|
    ensures SInv(cfg, ss[n])
  {
    hide Run;
    RunShape(cfg, ss, ls);
    if n > 0 {
      SerialAlways(cfg, ss, ls, n - 1);
      hide SInv, Step, Quiescent;
      RunAt(cfg, ss, ls, n - 1);
      SerialStepKeeps(cfg, ss[n - 1], ls[n - 1], ss[n]);
    }
  }

  // ----- Theorems -----

  /** Whatever fails and wherever a call is cut, no incident enters the executor twice. */
  lemma ExecutedAtMostOnce(cfg: Config, ss: seq<Sys>, ls: seq<Label>)
    requires Run(cfg, ss, ls) && Serialised(ss, ls)
    ensures var entries := ss[|ls|].entries;
            forall i, j :: 0 <= i < j < |entries| ==> entries[i].id != entries[j].id
  {
    hide Run;
    RunShape(cfg, ss, ls);
    SerialAlways(cfg, ss, ls, |ls|);
    hide Inv;
  }

  lemma RunningIsExecuting(s: Sys, t: Thread)
    requires HeldOk(s, t) && t.pc.Running?
    ensures t.inc.id in s.w.store && s.w.store[t.inc.id].status == Executing
  {
  }

  /** Every remediator call for an incident happens while it is persisted as executing. */
  lemma WritesOnlyWhileExecuting(cfg: Config, ss: seq<Sys>, ls: seq<Label>, i: nat)
    requires Run(cfg, ss, ls) && Serialised(ss, ls) && i < |ls| && ls[i].Port? && ls[i].e.Remediate?
    ensures var id := ls[i].e.id; id in ss[i].w.store && ss[i].w.store[id].status == Executing
  {
    hide Run, SInv, LocalOk, HeldOk, Next, Possible, Apply, Entered, Active;
    RunShape(cfg, ss, ls);
    SerialAlways(cfg, ss, ls, i);
    RunAt(cfg, ss, ls, i);
    PortActive(cfg, ss[i], ls[i].tid, ls[i].e, ss[i + 1]);
    var t := ss[i].threads[ls[i].tid];
    RemediatesWhenRunning(cfg, t, ls[i].e);
    RunningIsExecuting(ss[i], t);
  }

  lemma RemediatesWhenRunning(cfg: Config, t: Thread, e: Event)
    requires Next(cfg, t, e).Some? && e.Remediate?
    ensures t.pc.Running? && e.id == t.inc.id
  {
  }

  lemma StatusMoves(cfg: Config, s: Sys, l: Label, s': Sys, id: Id)
    requires SInv(cfg, s) && SerialStep(cfg, s, l, s')
    ensures id in s.w.store ==>
              && id in s'.w.store
              && (if l.Port? && l.e.Save? && l.e.ok && l.e.inc.id == id
                  then Edge(s.w.store[id].status, s'.w.store[id].status) && s'.w.store[id] == l.e.inc
                  else s'.w.store[id] == s.w.store[id])
    ensures id !in s.w.store && id in s'.w.store ==> s'.w.store[id].status == Status.Investigating
  {
    hide Next, LocalOk, Inv, StatusFits, Edge, EnteredOk, Entered, Start;
    if l.Port? {
      var k, e := l.tid, l.e;
      PortActive(cfg, s, k, e, s');
      var t := s.threads[k];
      LoadedInSerial(cfg, s, e);
      CreatingIsInvestigating(cfg, t);
      if Holding(t) {
        HoldingStep(cfg, t, e, s.w.store[t.inc.id].status);
      } else {
        FreeStep(cfg, t, e);
      }
    }
  }

  /** In every serialised run each save follows an edge of the lifecycle, so that resolved is
      never overwritten and failed only by failed; between saves nothing changes. */
  lemma StatusesFollowTheLifecycle(cfg: Config, ss: seq<Sys>, ls: seq<Label>, i: nat, id: Id)
    requires Run(cfg, ss, ls) && Serialised(ss, ls) && i < |ls|
    ensures id in ss[i].w.store ==>
              && id in ss[i + 1].w.store
              && (if ls[i].Port? && ls[i].e.Save? && ls[i].e.ok && ls[i].e.inc.id == id
                  then
                    var from, to := ss[i].w.store[id].status, ss[i + 1].w.store[id].status;
                    || (from == Status.Investigating && (to == AwaitingApproval || to == Executing || to == Failed))
                    || (from == AwaitingApproval && (to == Executing || to == Failed))
                    || (from == Executing && (to == Resolved || to == Failed))
                    || (from == Failed && to == Failed)
                  else ss[i + 1].w.store[id] == ss[i].w.store[id])
    ensures id !in ss[i].w.store && id in ss[i + 1].w.store ==> ss[i + 1].w.store[id].status == Status.Investigating
  {
    hide Run, SInv, Step, Quiescent, Edge;
    RunShape(cfg, ss, ls);
    SerialAlways(cfg, ss, ls, i);
    RunAt(cfg, ss, ls, i);
    StatusMoves(cfg, ss[i], ls[i], ss[i + 1], id);
    if id in ss[i].w.store && id in ss[i + 1].w.store {
      EdgeIs(ss[i].w.store[id].status, ss[i + 1].w.store[id].status);
    }
  }

  lemma EdgeIs(from: Status, to: Status)
    ensures Edge(from, to) <==>
              || (from == Status.Investigating && (to == AwaitingApproval || to == Executing || to == Failed))
              || (from == AwaitingApproval && (to == Executing || to == Failed))
              || (from == Executing && (to == Resolved || to == Failed))
              || (from == Failed && to == Failed)
  {
  }

  /** Terminal statuses are absorbing. */
  lemma {:induction false} TerminalIsForever(cfg: Config, ss: seq<Sys>, ls: seq<Label>, i: nat, j: nat, id: Id)
    requires Run(cfg, ss, ls) && Serialised(ss, ls) && i <= j <= |ls|
    requires id in ss[i].w.store && Terminal(ss[i].w.store[id].status)
    ensures id in ss[j].w.store && ss[j].w.store[id].status == ss[i].w.store[id].status
  {
    hide Run;
    RunShape(cfg, ss, ls);
    if i < j {
      hide Step, Quiescent;
      TerminalIsForever(cfg, ss, ls, i, j - 1, id);
      StatusesFollowTheLifecycle(cfg, ss, ls, j - 1, id);
    }
  }
}
