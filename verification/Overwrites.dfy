/** How a terminal status may be overwritten: only by a race, and never when the calls that
    write one incident do not overlap. */
module Overwrites {
  import opened Domain
  import opened Cluster
  import opened Verifier
  import opened Machine
  import opened Plays
  import opened Interleaved
  import opened Histories
  import opened Races
  import opened Scenarios
  import Recreated

  ghost predicate HasStatus(w: World, id: Id, st: Status) {
    id in w.store && w.store[id].status == st
  }

  /** Step `i` replaces the terminal status `st` by another status. */
  ghost predicate Overwrites(ss: seq<Sys>, ls: seq<Label>, i: nat, id: Id, st: Status)
    requires |ss| == |ls| + 1
  {
    && i < |ls| && Terminal(st) && HasStatus(ss[i].w, id, st)
    && ls[i].Port? && ls[i].e.Save? && ls[i].e.ok && ls[i].e.inc.id == id && ls[i].e.inc.status != st
  }

  // ----- Where a terminal status comes from -----

  lemma TerminalByASave(cfg: Config, ss: seq<Sys>, ls: seq<Label>, i: nat, id: Id, st: Status)
    requires Run(cfg, ss, ls) && |ss| == |ls| + 1 && i < |ls| && Terminal(st) && HasStatus(ss[i + 1].w, id, st)
    ensures HasStatus(ss[i].w, id, st) || Persists(ls[i], id, st)
  {
    hide Run, Next, Possible, LocalOk, Summary, Start, Entered;
    RunAt(cfg, ss, ls, i);
    if ls[i].Port? {
      ThreadKept(cfg, ss, ls, i);
      CreatesInvestigating(ss[i].threads[ls[i].tid], ls[i].e, ss[i + 1].threads[ls[i].tid]);
    }
  }

  /** The save after which the incident kept this terminal status. */
  lemma {:induction false} TerminalWasSaved(cfg: Config, ss: seq<Sys>, ls: seq<Label>, p: nat, n: nat,
                                            id: Id, st: Status)
      returns (m: nat)
    requires Run(cfg, ss, ls) && |ss| == |ls| + 1 && p <= n <= |ls| && Terminal(st)
    requires HasStatus(ss[n].w, id, st) && !HasStatus(ss[p].w, id, st)
    ensures p <= m < n && Persists(ls[m], id, st)
    ensures forall q :: m < q <= n ==> HasStatus(ss[q].w, id, st)
  {
    hide Run, HasStatus, Persists, Terminal;
    TerminalByASave(cfg, ss, ls, n - 1, id, st);
    if HasStatus(ss[n - 1].w, id, st) {
      m := TerminalWasSaved(cfg, ss, ls, p, n - 1, id, st);
    } else {
      m := n - 1;
    }
  }

  // ----- What a thread saves after a terminal status of its own -----

  predicate Ended(t: Thread, st: Status) {
    || t.pc.Done? || t.pc.Crashed?
    || (st == Resolved && (t.pc.ResolvedAudit? || t.pc.ResolvedNotify?))
    || (st == Failed && (Aborting(t.pc) || t.pc.FailAudit? || t.pc.FailNotify?
                         || t.pc.RejectAudit? || t.pc.RejectNotify?))
  }

  lemma SaveEnds(t: Thread)
    requires Saves(t.pc) && Terminal(ToSave(t).status)
    ensures Ended(OnSave(t, true), ToSave(t).status)
  {
    hide Enter;
  }

  lemma AuditStaysEnded(cfg: Config, t: Thread, st: Status)
    requires Ended(t, st) && Audits(t.pc)
    ensures Ended(OnAudit(cfg, t), st)
  {
    hide CanAutoRemediate, Enter;
  }

  lemma NotifyStaysEnded(t: Thread, st: Status)
    requires Ended(t, st) && Notifies(t.pc)
    ensures Ended(OnNotify(t, true), st) && Ended(OnNotify(t, false), st)
  {
  }

  lemma SaveStaysEnded(t: Thread, st: Status, ok: bool)
    requires Ended(t, st) && Saves(t.pc)
    ensures ToSave(t).status == st && Ended(OnSave(t, ok), st)
  {
    hide Enter;
  }

  lemma EndedKinds(t: Thread, st: Status)
    requires Ended(t, st) && Active(t)
    ensures Saves(t.pc) || Audits(t.pc) || Notifies(t.pc)
  {
  }

  lemma StaysEnded(cfg: Config, t: Thread, e: Event, st: Status)
    requires Ended(t, st) && Next(cfg, t, e).Some?
    ensures Ended(Next(cfg, t, e).value, st) && (e.Save? ==> e.inc.status == st)
  {
    StillActive(cfg, t, e);
    EndedKinds(t, st);
    hide Next, Ended, Active, Saves, Audits, Notifies, OnSave, ToSave, OnAudit, ToAudit, OnNotify, ToNotify;
    if Saves(t.pc) {
      SaveKind(cfg, t, e);
      SaveStaysEnded(t, st, e.ok);
    } else if Audits(t.pc) {
      AuditKind(cfg, t, e);
      AuditStaysEnded(cfg, t, st);
    } else {
      NotifyKind(cfg, t, e);
      NotifyStaysEnded(t, st);
    }
  }

  /** A thread that has persisted a terminal status persists no other one. */
  lemma {:induction false} EndedSince(cfg: Config, ss: seq<Sys>, ls: seq<Label>, m: nat, n: nat, id: Id, st: Status)
    requires Run(cfg, ss, ls) && |ss| == |ls| + 1 && m < n <= |ls| && Terminal(st) && Persists(ls[m], id, st)
    ensures ls[m].tid < |ss[n].threads| && Ended(ss[n].threads[ls[m].tid], st)
  {
    hide Run, Step, Next, Summary, LocalOk, Ended, OnSave, ToSave;
    var k := ls[m].tid;
    if n == m + 1 {
      ThreadKept(cfg, ss, ls, m);
      var t := ss[m].threads[k];
      SavesWhere(cfg, t, ls[m].e);
      SaveKind(cfg, t, ls[m].e);
      SaveEnds(t);
    } else {
      EndedSince(cfg, ss, ls, m, n - 1, id, st);
      RunAt(cfg, ss, ls, n - 1);
      RunLater(cfg, ss, ls, n - 1, n, k);
      StepThread(cfg, ss[n - 1], ls[n - 1], ss[n], k);
      CrashEnds(ss[n - 1].threads[k], st);
      if ls[n - 1].Port? && ls[n - 1].tid == k {
        PortIs(cfg, ss[n - 1], k, ls[n - 1].e, ss[n]);
        StaysEnded(cfg, ss[n - 1].threads[k], ls[n - 1].e, st);
      }
    }
  }

  lemma SavesWhere(cfg: Config, t: Thread, e: Event)
    requires Next(cfg, t, e).Some? && e.Save?
    ensures Saves(t.pc)
  {
    hide OnSave, ToSave;
  }

  lemma CrashEnds(t: Thread, st: Status)
    ensures Ended(t.(pc := Crashed), st)
  {
  }

  // ----- The race -----

  lemma SaversCall(t: Thread, e: Event, t': Thread)
    requires Summary(t, e, t') && e.Save?
    ensures e.inc.id == t.call.id && (t.call.Alert? || t.saw)
  {
  }

  lemma SaverDecides(cfg: Config, t: Thread)
    requires LocalOk(cfg, t) && t.saw
    ensures t.call.Approve? || t.call.Reject?
  {
    hide CanAutoRemediate;
  }

  /** Once it has parked its incident, an alert saves only failures. */
  lemma ParkedSavesFailed(cfg: Config, t: Thread, e: Event)
    requires LocalOk(cfg, t) && t.call.Alert? && t.parked && Next(cfg, t, e).Some? && e.Save?
    ensures e.inc.status == Failed
  {
    hide CanAutoRemediate, OnSave;
  }

  lemma ResolverApproves(cfg: Config, t: Thread, e: Event)
    requires LocalOk(cfg, t) && !t.call.Alert? && Next(cfg, t, e).Some? && e.Save? && e.inc.status == Resolved
    ensures t.call.Approve?
  {
    hide CanAutoRemediate, OnSave;
  }

  /** A decision that saves its incident read it as waiting before. */
  lemma DeciderRead(cfg: Config, ss: seq<Sys>, ls: seq<Label>, i: nat) returns (r: nat)
    requires Run(cfg, ss, ls) && |ss| == |ls| + 1 && i < |ls| && ls[i].Port? && ls[i].e.Save?
    requires ls[i].tid < |ss[i].threads| && !ss[i].threads[ls[i].tid].call.Alert?
    ensures r < i && ReadWaiting(ls, r, ls[i].tid, ls[i].e.inc.id)
  {
    hide Run, LocalOk, Summary, Next;
    ThreadKept(cfg, ss, ls, i);
    var k := ls[i].tid;
    SaversCall(ss[i].threads[k], ls[i].e, ss[i + 1].threads[k]);
    SawIsARead(cfg, ss, ls, i, k);
    r :| 0 <= r < i && ls[r].Port? && ls[r].tid == k && ls[r].e.Load? && ls[r].e.id == ss[i].threads[k].call.id
         && ls[r].e.found.Some? && ls[r].e.found.value.status == AwaitingApproval;
  }

  /** Of two saves of one incident at most one is by an alert, if different threads make them. */
  lemma OneOwner(cfg: Config, ss: seq<Sys>, ls: seq<Label>, m: nat, i: nat)
    requires Run(cfg, ss, ls) && |ss| == |ls| + 1 && m < i < |ls| && ls[m].Port? && ls[i].Port?
    requires ls[m].e.Save? && ls[i].e.Save? && ls[m].e.inc.id == ls[i].e.inc.id && ls[m].tid != ls[i].tid
    ensures ls[m].tid < |ss[m].threads| && ls[i].tid < |ss[i].threads|
    ensures ss[i].threads[ls[i].tid].call.Alert? ==> !ss[m].threads[ls[m].tid].call.Alert?
  {
    hide Run, LocalOk, Summary, Next, StoreOk, SeenOk, EntriesOk, WritesOk;
    ThreadKept(cfg, ss, ls, m);
    ThreadKept(cfg, ss, ls, i);
    var x, k := ls[m].tid, ls[i].tid;
    SaversCall(ss[m].threads[x], ls[m].e, ss[m + 1].threads[x]);
    SaversCall(ss[i].threads[k], ls[i].e, ss[i + 1].threads[k]);
    RunLater(cfg, ss, ls, m, i, x);
    Always(cfg, ss, ls, i);
  }

  /** In every run a terminal status is overwritten with another only by a race: another call
      persisted it, at `m`, and the call that overwrites it had by then, at `r`, either read the
      incident as waiting, or parked it as its alert. An alert overwrites only an approval's
      `resolved`, and with `failed`. */
  lemma OverwrittenOnlyByARace(cfg: Config, ss: seq<Sys>, ls: seq<Label>, i: nat, id: Id, st: Status)
      returns (r: nat, m: nat)
    requires Run(cfg, ss, ls) && |ss| == |ls| + 1 && Overwrites(ss, ls, i, id, st)
    ensures r < m < i && Persists(ls[m], id, st) && forall q :: m < q <= i ==> HasStatus(ss[q].w, id, st)
    ensures ls[r].Port? && ls[r].tid == ls[i].tid != ls[m].tid
    ensures ls[i].tid < |ss[i].threads| && ls[m].tid < |ss[m].threads|
    ensures var k, x := ss[i].threads[ls[i].tid].call, ss[m].threads[ls[m].tid].call;
            && k.id == x.id == id && !k.FollowUp? && !x.FollowUp?
            && if k.Alert? then
                 Persists(ls[r], id, AwaitingApproval) && x.Approve? && st == Resolved && ls[i].e.inc.status == Failed
               else
                 ReadWaiting(ls, r, ls[i].tid, id)
  {
    hide Run, LocalOk, Summary, Next, HasStatus, Persists, ReadWaiting, Terminal, Ended;
    RunShape(cfg, ss, ls);
    ThreadKept(cfg, ss, ls, i);
    var k := ls[i].tid;
    var t := ss[i].threads[k];
    SaversCall(t, ls[i].e, ss[i + 1].threads[k]);
    if t.call.Alert? {
      NothingHasStatus(ss[0], id, st);
      m := TerminalWasSaved(cfg, ss, ls, 0, i, id, st);
      SavedByAnother(cfg, ss, ls, m, i, id, st);
      r := AlertParkedBefore(cfg, ss, ls, m, i, id, st);
    } else {
      r := DeciderRead(cfg, ss, ls, i);
      WaitingThen(cfg, ss, ls, r, k, id);
      WaitingIsNot(ss[r].w, id, st);
      m := TerminalWasSaved(cfg, ss, ls, r, i, id, st);
      SavedByAnother(cfg, ss, ls, m, i, id, st);
      SaverDecides(cfg, t);
      LoadIsNoSave(ls, r, m, k, id, st);
    }
    OverwrittenBy(cfg, ss, ls, m, i, id, st);
  }

  lemma NothingHasStatus(s: Sys, id: Id, st: Status)
    requires Initial(s)
    ensures !HasStatus(s.w, id, st)
  {
  }

  lemma WaitingIsNot(w: World, id: Id, st: Status)
    requires Waits(w, id) && Terminal(st)
    ensures !HasStatus(w, id, st)
  {
  }

  lemma LoadIsNoSave(ls: seq<Label>, r: nat, m: nat, k: nat, id: Id, st: Status)
    requires m < |ls| && ReadWaiting(ls, r, k, id) && Persists(ls[m], id, st)
    ensures r != m && ls[r].Port? && ls[r].tid == k
  {
  }

  /** The status overwritten at `i` was saved by another thread. */
  lemma SavedByAnother(cfg: Config, ss: seq<Sys>, ls: seq<Label>, m: nat, i: nat, id: Id, st: Status)
    requires Run(cfg, ss, ls) && |ss| == |ls| + 1 && Overwrites(ss, ls, i, id, st) && m < i && Persists(ls[m], id, st)
    ensures ls[m].tid != ls[i].tid
  {
    hide Run, LocalOk, Summary, Next, HasStatus, Terminal, Ended;
    EndedSince(cfg, ss, ls, m, i, id, st);
    ThreadKept(cfg, ss, ls, i);
    if ls[m].tid == ls[i].tid {
      StaysEnded(cfg, ss[i].threads[ls[i].tid], ls[i].e, st);
    }
  }

  /** Both savers are calls about this incident, and no follow-ups. */
  lemma OverwrittenBy(cfg: Config, ss: seq<Sys>, ls: seq<Label>, m: nat, i: nat, id: Id, st: Status)
    requires Run(cfg, ss, ls) && |ss| == |ls| + 1 && Overwrites(ss, ls, i, id, st) && m < i && Persists(ls[m], id, st)
    ensures ls[i].tid < |ss[i].threads| && ls[m].tid < |ss[m].threads|
    ensures var k, x := ss[i].threads[ls[i].tid].call, ss[m].threads[ls[m].tid].call;
            k.id == x.id == id && !k.FollowUp? && !x.FollowUp?
  {
    hide Run, LocalOk, Summary, Next, HasStatus, Terminal;
    CallOfSaver(cfg, ss, ls, m);
    CallOfSaver(cfg, ss, ls, i);
  }

  lemma CallOfSaver(cfg: Config, ss: seq<Sys>, ls: seq<Label>, i: nat)
    requires Run(cfg, ss, ls) && |ss| == |ls| + 1 && i < |ls| && ls[i].Port? && ls[i].e.Save?
    ensures ls[i].tid < |ss[i].threads|
    ensures var k := ss[i].threads[ls[i].tid].call; k.id == ls[i].e.inc.id && !k.FollowUp?
  {
    hide Run, LocalOk, Summary, Next;
    ThreadKept(cfg, ss, ls, i);
    var t := ss[i].threads[ls[i].tid];
    SaversCall(t, ls[i].e, ss[i + 1].threads[ls[i].tid]);
    if t.saw {
      SaverDecides(cfg, t);
    }
  }

  /** An alert that overwrites had parked the incident before the decision read it. */
  lemma AlertParkedBefore(cfg: Config, ss: seq<Sys>, ls: seq<Label>, m: nat, i: nat, id: Id, st: Status)
      returns (r: nat)
    requires Run(cfg, ss, ls) && |ss| == |ls| + 1 && Overwrites(ss, ls, i, id, st)
    requires m < i && Persists(ls[m], id, st) && ls[m].tid != ls[i].tid
    requires ls[i].tid < |ss[i].threads| && ss[i].threads[ls[i].tid].call.Alert?
    ensures r < m && ls[r].Port? && ls[r].tid == ls[i].tid && Persists(ls[r], id, AwaitingApproval)
    ensures ls[m].tid < |ss[m].threads| && ss[m].threads[ls[m].tid].call.Approve?
    ensures st == Resolved && ls[i].e.inc.status == Failed
  {
    hide Run, LocalOk, Summary, Next, HasStatus, ReadWaiting, Waits;
    RunShape(cfg, ss, ls);
    OneOwner(cfg, ss, ls, m, i);
    var rx := DeciderRead(cfg, ss, ls, m);
    WaitingThen(cfg, ss, ls, rx, ls[m].tid, id);
    NothingWaits(ss[0], id);
    r := WaitingWasSaved(cfg, ss, ls, 0, rx, id);
    ParkedAlert(cfg, ss, ls, r, i, id);
    ThreadKept(cfg, ss, ls, i);
    ParkedSavesFailed(cfg, ss[i].threads[ls[i].tid], ls[i].e);
    ThreadKept(cfg, ss, ls, m);
    ResolverApproves(cfg, ss[m].threads[ls[m].tid], ls[m].e);
  }

  /** The alert that saves an incident is the one that parked it. */
  lemma ParkedAlert(cfg: Config, ss: seq<Sys>, ls: seq<Label>, r: nat, i: nat, id: Id)
    requires Run(cfg, ss, ls) && |ss| == |ls| + 1 && r < i < |ls| && Persists(ls[r], id, AwaitingApproval)
    requires ls[i].Port? && ls[i].e.Save? && ls[i].e.inc.id == id
    requires ls[i].tid < |ss[i].threads| && ss[i].threads[ls[i].tid].call.Alert?
    ensures ls[r].tid == ls[i].tid && ss[i].threads[ls[i].tid].parked
  {
    hide Run, LocalOk, Summary, Next, StoreOk, SeenOk, EntriesOk, WritesOk;
    RunShape(cfg, ss, ls);
    PersistAwaiting(cfg, ss, ls, r, id);
    CallOfSaver(cfg, ss, ls, i);
    RunLater(cfg, ss, ls, r, i, ls[r].tid);
    PersistedThread(cfg, ss, ls, r, ls[r].tid);
    RunLater(cfg, ss, ls, r + 1, i, ls[r].tid);
    Always(cfg, ss, ls, i);
  }

  // ----- Calls that do not overlap -----

  /** No alert, approval or rejection of an incident begins while another one is in progress. */
  ghost predicate CallsApart(ss: seq<Sys>, ls: seq<Label>)
    requires |ss| == |ls| + 1
  {
    forall i, k :: 0 <= i < |ls| && ls[i].Spawn? && !ls[i].call.FollowUp? && 0 <= k < |ss[i].threads|
                   && Active(ss[i].threads[k]) && !ss[i].threads[k].call.FollowUp? ==>
      ss[i].threads[k].call.id != ls[i].call.id
  }

  lemma RaceOverlapsCalls(cfg: Config, ss: seq<Sys>, ls: seq<Label>, i: nat, id: Id, st: Status)
    requires Run(cfg, ss, ls) && |ss| == |ls| + 1 && Overwrites(ss, ls, i, id, st)
    ensures !CallsApart(ss, ls)
  {
    hide Run, Persists, Active, ReadWaiting, HasStatus, Overwrites;
    RunShape(cfg, ss, ls);
    OverwritesActs(ss, ls, i, id, st);
    var r, m := OverwrittenOnlyByARace(cfg, ss, ls, i, id, st);
    PersistActs(ls, m, id, st);
    var k, x := ls[i].tid, ls[m].tid;
    RunLater(cfg, ss, ls, m, |ls|, x);
    RunLater(cfg, ss, ls, i, |ls|, k);
    if k < x {
      var j := BeganMeanwhile(cfg, ss, ls, k, x, i, m, |ls|);
    } else {
      var j := BeganMeanwhile(cfg, ss, ls, x, k, m, r, |ls|);
    }
  }

  lemma OverwritesActs(ss: seq<Sys>, ls: seq<Label>, i: nat, id: Id, st: Status)
    requires |ss| == |ls| + 1 && Overwrites(ss, ls, i, id, st)
    ensures i < |ls| && ls[i].Port?
  {
  }

  lemma PersistActs(ls: seq<Label>, m: nat, id: Id, st: Status)
    requires m < |ls| && Persists(ls[m], id, st)
    ensures ls[m].Port?
  {
  }

  lemma StatusStays(cfg: Config, ss: seq<Sys>, ls: seq<Label>, i: nat, id: Id, st: Status)
    requires Run(cfg, ss, ls) && |ss| == |ls| + 1 && i < |ls| && Terminal(st) && HasStatus(ss[i].w, id, st)
    ensures HasStatus(ss[i + 1].w, id, st) || Overwrites(ss, ls, i, id, st)
  {
    hide Run, Next, Summary, Start, Entered, After, Error;
    RunAt(cfg, ss, ls, i);
  }

  /** A terminal status is forever if no two calls that write the incident overlap. All else
      may interleave, fail or crash. */
  lemma {:induction false} TerminalWhenApart(cfg: Config, ss: seq<Sys>, ls: seq<Label>, i: nat, j: nat, id: Id)
    requires Run(cfg, ss, ls) && |ss| == |ls| + 1 && CallsApart(ss, ls) && i <= j <= |ls|
    requires id in ss[i].w.store && Terminal(ss[i].w.store[id].status)
    ensures id in ss[j].w.store && ss[j].w.store[id].status == ss[i].w.store[id].status
  {
    hide Run, CallsApart, Overwrites;
    if i < j {
      TerminalWhenApart(cfg, ss, ls, i, j - 1, id);
      var st := ss[i].w.store[id].status;
      StatusStays(cfg, ss, ls, j - 1, id, st);
      if Overwrites(ss, ls, j - 1, id, st) {
        RaceOverlapsCalls(cfg, ss, ls, j - 1, id, st);
      }
    }
  }

  // ----- Both kinds of race happen -----

  /** From any run that leaves an incident waiting: a rejection completes its save between the
      read and the claim of an approval, which then overwrites `failed` with `executing`. */
  lemma ApprovalOverwritesRejection(cfg: Config, ss: seq<Sys>, ls: seq<Label>, id: Id, actor: string)
      returns (ss': seq<Sys>, ls': seq<Label>)
    requires Run(cfg, ss, ls) && |ss| == |ls| + 1 && actor in cfg.approvers
    requires id in ss[|ls|].w.store && ss[|ls|].w.store[id].status == AwaitingApproval
    ensures Run(cfg, ss', ls') && |ss'| == |ls'| + 1 && ss <= ss' && |ls'| >= 2
    ensures Overwrites(ss', ls', |ls'| - 2, id, Failed) && Persists(ls'[|ls'| - 2], id, Executing)
  {
    hide Run, Start, Poised, Next, Possible, Apply, OnSave, Entered, Launched;
    var n := |ss[|ls|].threads|;
    StoredUnderItsId(cfg, ss, ls, id);
    var inc := ss[|ls|].w.store[id];
    ss', ls' := SpawnMore(cfg, ss, ls, Approve(id, actor));
    ss', ls' := SpawnMore(cfg, ss', ls', Call.Reject(id, actor));
    ss', ls' := ReadMore(cfg, ss', ls', n, Approve(id, actor));
    ss', ls' := ReadMore(cfg, ss', ls', n + 1, Call.Reject(id, actor));
    var t := ss'[|ls'|].threads[n + 1];
    RejectionSaved(cfg, ss'[|ls'|].w, Call.Reject(id, actor), inc);
    ss', ls' := PortMore(cfg, ss', ls', n + 1, Save(inc.(status := Failed), true), OnSave(t, true));
    var before := ss';
    ss', ls' := EnterMore(cfg, ss', ls', n, Approve(id, actor), inc);
    assert ss'[|ls'| - 2] == before[|before| - 1];
  }

  lemma RejectionSaved(cfg: Config, w: World, call: Call, inc: Incident)
    requires call.Reject? && inc.id in w.store
    ensures var t, e := Poised(cfg, call, inc), Save(inc.(status := Failed), true);
            && Possible(cfg, w, e) && Next(cfg, t, e) == Some(OnSave(t, true))
            && Apply(cfg, w, e) == w.(store := w.store[inc.id := inc.(status := Failed)])
  {
    hide OnSave;
  }

  /** An alert has parked its incident and not yet asked for approval; the approval comes early
      and resolves it. */
  lemma ResolvedEarly(cfg: Config, ns: string, name: string, id: Id, actor: string)
      returns (ss: seq<Sys>, ls: seq<Label>)
    requires cfg.verifier && cfg.messaging && actor in cfg.approvers
    requires cfg.wires.k8s.Some? && ns !in cfg.wires.k8s.value.protected
    ensures Run(cfg, ss, ls) && |ss| == |ls| + 1
    ensures var s := ss[|ls|];
            && HasStatus(s.w, id, Resolved) && |s.threads| == 2 && s.threads[1].call == Approve(id, actor)
            && s.threads[0].pc == RequestingApproval && s.threads[0].inc.id == id
  {
    hide Run, Serialised, Play, IsPlay, Start, Launched, Plain, Untroubled;
    hide Seen, IsCrashLoop, Recreated.Deletion, Recreated.Looping, Error, After;
    var c, step := Recreated.Looping(ns, name), Recreated.Deletion(ns, name);
    Recreated.LoopingIsFresh(ns, name);
    Recreated.DeletionSucceeds(cfg.wires, c, ns, name);
    Recreated.GonePasses(cfg.wires, c, ns, name);
    var es := AlertParks(cfg, World(map[], [], c), id, [step]);
    ss, ls := AlertRun(cfg, c, id, es);
    LaunchedHolds(cfg, Approve(id, actor), Waiting(id, [step]));
    ss, ls := ApproveMore(cfg, ss, ls, Approve(id, actor));
    ss, ls := StepMore(cfg, ss, ls, 1);
    ss, ls := LookMore(cfg, ss, ls, 1);
    ss, ls := ResolveMore(cfg, ss, ls, 1);
  }

  /** With one approval only: an alert parks its incident, the approval resolves it, and the
      alert, whose request for approval is not delivered, overwrites `resolved` with `failed`. */
  lemma AlertOverwritesResolved(cfg: Config, ns: string, name: string, id: Id, actor: string)
      returns (ss: seq<Sys>, ls: seq<Label>)
    requires cfg.verifier && cfg.messaging && actor in cfg.approvers
    requires cfg.wires.k8s.Some? && ns !in cfg.wires.k8s.value.protected
    ensures Run(cfg, ss, ls) && |ss| == |ls| + 1 && ls != []
    ensures |ss[|ls|].threads| == 2 && ss[|ls|].threads[1].call == Approve(id, actor)
    ensures Overwrites(ss, ls, |ls| - 1, id, Resolved) && Persists(ls[|ls| - 1], id, Failed)
  {
    hide Run, Next, Possible, Apply, Entered, OnSave;
    ss, ls := ResolvedEarly(cfg, ns, name, id, actor);
    var t := ss[|ls|].threads[0];
    AlertTold(cfg, ss[|ls|].w, t);
    ss, ls := PortMore(cfg, ss, ls, 0, Notify(id, ApprovalRequest, false), t.(pc := AbortSave));
    t := ss[|ls|].threads[0];
    AlertAborts(cfg, ss[|ls|].w, t);
    ss, ls := PortMore(cfg, ss, ls, 0, Save(t.inc.(status := Failed), true), OnSave(t, true));
  }

  lemma AlertTold(cfg: Config, w: World, t: Thread)
    requires t.pc == RequestingApproval
    ensures var e := Notify(t.inc.id, ApprovalRequest, false);
            Possible(cfg, w, e) && Apply(cfg, w, e) == w && Next(cfg, t, e) == Some(t.(pc := AbortSave))
  {
  }

  lemma AlertAborts(cfg: Config, w: World, t: Thread)
    requires t.pc == AbortSave && t.inc.id in w.store
    ensures var inc := t.inc.(status := Failed);
            && Possible(cfg, w, Save(inc, true)) && Next(cfg, t, Save(inc, true)) == Some(OnSave(t, true))
            && Apply(cfg, w, Save(inc, true)) == w.(store := w.store[inc.id := inc])
  {
    hide OnSave;
  }
}
