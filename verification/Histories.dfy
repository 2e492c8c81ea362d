/** Where the state of a run comes from: each flag, status and executor entry is traced back to
    the port call that made it. */
module Histories {
  import opened Domain
  import opened Machine
  import opened Interleaved

  // ----- Flags -----

  /** Only a save raises a flag, and only its own. */
  ghost predicate FlagsFit(t: Thread, e: Event, t': Thread) {
    && (t'.parked && !t.parked ==> e.Save? && e.ok && e.inc.status == AwaitingApproval)
    && (t'.claimed && !t.claimed ==> e.Save? && e.ok && e.inc.status == Executing)
  }

  lemma SaveFlags(t: Thread, ok: bool)
    requires Saves(t.pc)
    ensures FlagsFit(t, Save(ToSave(t), ok), OnSave(t, ok))
  {
    hide CanAutoRemediate;
  }

  lemma NextFlags(cfg: Config, t: Thread, e: Event)
    requires Next(cfg, t, e).Some?
    ensures FlagsFit(t, e, Next(cfg, t, e).value)
  {
    NextKeeps(cfg, t, e);
    hide OnSave, ToSave, OnAudit, ToAudit, OnNotify, ToNotify, OnLoad, OnMatch, OnList, OnPlan, OnStep;
    if e.Save? {
      SaveFlags(t, e.ok);
    }
  }

  /** Thread `k` persisted its incident with this status and plan, in the first `n` steps. */
  ghost predicate Saved(ls: seq<Label>, n: nat, k: nat, id: Id, status: Status, plan: Option<ActionPlan>)
    requires n <= |ls|
  {
    exists i :: 0 <= i < n && ls[i].Port? && ls[i].tid == k && Persists(ls[i], id, status) && ls[i].e.inc.plan == plan
  }

  ghost predicate FlagsAreSaves(ls: seq<Label>, n: nat, k: nat, t: Thread)
    requires n <= |ls|
  {
    && (t.parked ==> Saved(ls, n, k, t.call.id, AwaitingApproval, t.inc.plan))
    && (t.claimed ==> Saved(ls, n, k, t.call.id, Executing, t.inc.plan))
  }

  lemma FlagsLater(ls: seq<Label>, n: nat, k: nat, t: Thread, u: Thread)
    requires n < |ls| && FlagsAreSaves(ls, n, k, t)
    requires u.call == t.call && (t.parked || t.claimed ==> u.inc.plan == t.inc.plan)
    requires u.parked ==> t.parked || Saved(ls, n + 1, k, u.call.id, AwaitingApproval, u.inc.plan)
    requires u.claimed ==> t.claimed || Saved(ls, n + 1, k, u.call.id, Executing, u.inc.plan)
    ensures FlagsAreSaves(ls, n + 1, k, u)
  {
  }

  /** With a plan fixed at the dispatch, a raised flag keeps the plan. */
  lemma FlagKeepsPlan(cfg: Config, t: Thread, e: Event, t': Thread)
    requires LocalOk(cfg, t) && Summary(t, e, t') && (t.parked || t.claimed)
    ensures t'.inc.plan == t.inc.plan && t'.call == t.call
  {
  }

  lemma SummaryOfSave(t: Thread, e: Event, t': Thread)
    requires Summary(t, e, t') && e.Save?
    ensures e.inc.id == t.call.id == t'.call.id && e.inc.plan == t'.inc.plan
  {
  }

  lemma SummaryKeepsCall(t: Thread, e: Event, t': Thread)
    requires Summary(t, e, t')
    ensures t'.call == t.call
  {
  }

  lemma {:induction false} FlagsHaveSaves(cfg: Config, ss: seq<Sys>, ls: seq<Label>, n: nat, k: nat)
    requires Run(cfg, ss, ls) && n <= |ls| && |ss| == |ls| + 1 && k < |ss[n].threads|
    ensures FlagsAreSaves(ls, n, k, ss[n].threads[k])
  {
    hide Run, Inv, LocalOk, Summary, FlagsFit, Saved, Next, Start, Possible, Apply, Entered;
    RunShape(cfg, ss, ls);
    if n > 0 {
      var s, l, s' := ss[n - 1], ls[n - 1], ss[n];
      RunAt(cfg, ss, ls, n - 1);
      if l.Spawn? && k == |s.threads| {
        StartOk(cfg, l.call);
      } else {
        FlagsHaveSaves(cfg, ss, ls, n - 1, k);
        var t, t' := s.threads[k], s'.threads[k];
        if l.Port? && l.tid == k {
          ThreadKept(cfg, ss, ls, n - 1);
          NextFlags(cfg, t, l.e);
          FlagRaised(ls, n - 1, k, t, t');
          SummaryKeepsCall(t, l.e, t');
          if t.parked || t.claimed {
            FlagKeepsPlan(cfg, t, l.e, t');
          }
        }
        FlagsLater(ls, n - 1, k, t, t');
      }
    }
  }

  lemma FlagRaised(ls: seq<Label>, n: nat, k: nat, t: Thread, t': Thread)
    requires n < |ls| && ls[n].Port? && ls[n].tid == k && Summary(t, ls[n].e, t') && FlagsFit(t, ls[n].e, t')
    ensures t'.parked && !t.parked ==> Saved(ls, n + 1, k, t'.call.id, AwaitingApproval, t'.inc.plan)
    ensures t'.claimed && !t.claimed ==> Saved(ls, n + 1, k, t'.call.id, Executing, t'.inc.plan)
  {
    hide Summary;
    if ls[n].e.Save? {
      SummaryOfSave(t, ls[n].e, t');
      assert Persists(ls[n], t'.call.id, ls[n].e.inc.status) || !ls[n].e.ok;
    }
  }

  /** What a port call does to its thread, in a run. */
  lemma ThreadKept(cfg: Config, ss: seq<Sys>, ls: seq<Label>, i: nat)
    requires Run(cfg, ss, ls) && i < |ls| && |ss| == |ls| + 1 && ls[i].Port?
    ensures var k := ls[i].tid;
            && k < |ss[i].threads| && k < |ss[i + 1].threads|
            && LocalOk(cfg, ss[i].threads[k]) && Summary(ss[i].threads[k], ls[i].e, ss[i + 1].threads[k])
            && Next(cfg, ss[i].threads[k], ls[i].e) == Some(ss[i + 1].threads[k])
  {
    hide Run, Step, Next, Summary, LocalOk, OwnersOk, StoreOk, SeenOk, EntriesOk, WritesOk;
    RunAt(cfg, ss, ls, i);
    Always(cfg, ss, ls, i);
    PortKeeps(cfg, ss[i], ls[i].tid, ls[i].e, ss[i + 1]);
    PortIs(cfg, ss[i], ls[i].tid, ls[i].e, ss[i + 1]);
  }

  lemma PortIs(cfg: Config, s: Sys, k: nat, e: Event, s': Sys)
    requires Step(cfg, s, Port(k, e), s')
    ensures k < |s.threads| && k < |s'.threads| && Next(cfg, s.threads[k], e) == Some(s'.threads[k])
    ensures Possible(cfg, s.w, e) && s'.w == Apply(cfg, s.w, e)
            && s'.entries == Entered(s, k, s'.threads[k], s'.w.cluster)
  {
    hide Next, Possible, Apply, Entered;
  }

  // ----- Executor entries -----

  /** Step `m` put `entry` on record as number `j`. */
  ghost predicate Made(ss: seq<Sys>, ls: seq<Label>, m: nat, entry: Entry, j: nat)
    requires |ss| == |ls| + 1
  {
    && m < |ls| && ls[m].Port? && ls[m].tid == entry.tid
    && |ss[m].entries| == j && ss[m + 1].entries == ss[m].entries + [entry] && entry.base == ss[m + 1].w.cluster
  }

  /** A step records at most one entry, of the thread that just entered the executor. */
  lemma StepEntries(cfg: Config, s: Sys, l: Label, s': Sys)
    requires Step(cfg, s, l, s')
    ensures || s'.entries == s.entries
            || (l.Port? && l.tid < |s.threads| && l.tid < |s'.threads|
                && s'.threads[l.tid].entered && !s.threads[l.tid].entered
                && s'.entries == s.entries +
                     [Entry(l.tid, s.threads[l.tid].inc.id, s'.threads[l.tid].inc.plan, s'.w.cluster)])
  {
    hide Next, Possible, Apply, Start;
  }

  lemma {:induction false} EntryWasMade(cfg: Config, ss: seq<Sys>, ls: seq<Label>, n: nat, j: nat) returns (m: nat)
    requires Run(cfg, ss, ls) && n <= |ls| && |ss| == |ls| + 1 && j < |ss[n].entries|
    ensures m < n && Made(ss, ls, m, ss[n].entries[j], j)
  {
    hide Run, Step;
    RunShape(cfg, ss, ls);
    RunAt(cfg, ss, ls, n - 1);
    StepEntries(cfg, ss[n - 1], ls[n - 1], ss[n]);
    if j < |ss[n - 1].entries| {
      m := EntryWasMade(cfg, ss, ls, n - 1, j);
    } else {
      m := n - 1;
    }
  }

  /** Every entry into the executor comes after its incident's own dispatch: the alert itself
      persisted it as executing, or as awaiting approval, with exactly the plan executed. */
  lemma EveryExecutionWasDispatched(cfg: Config, ss: seq<Sys>, ls: seq<Label>, j: nat) returns (m: nat)
    requires Run(cfg, ss, ls) && |ss| == |ls| + 1 && j < |ss[|ls|].entries|
    ensures var s := ss[|ls|];
            var entry := s.entries[j];
            && Made(ss, ls, m, entry, j) && entry.id in s.owner
            && Saved(ls, m + 1, s.owner[entry.id], entry.id,
                     if entry.tid == s.owner[entry.id] then Executing else AwaitingApproval, entry.plan)
  {
    hide Run, LocalOk, StoreOk, SeenOk, WritesOk, Saved;
    m := EntryWasMade(cfg, ss, ls, |ls|, j);
    Always(cfg, ss, ls, m + 1);
    var s := ss[m + 1];
    assert s.entries[j] == ss[|ls|].entries[j];
    assert EntryOk(cfg, s, s.entries[j]);
    var k := s.owner[s.entries[j].id];
    FlagsHaveSaves(cfg, ss, ls, m + 1, k);
    RunLater(cfg, ss, ls, m + 1, |ls|, k);
  }

  lemma EnteredIsClaimed(cfg: Config, t: Thread)
    requires LocalOk(cfg, t) && t.entered
    ensures t.claimed
  {
  }

  ghost predicate HasEntry(s: Sys, k: nat, t: Thread) {
    exists j :: 0 <= j < |s.entries| && s.entries[j].tid == k && s.entries[j].id == t.call.id
                && s.entries[j].plan == t.inc.plan
  }

  lemma {:induction false} EnteredHasEntry(cfg: Config, ss: seq<Sys>, ls: seq<Label>, n: nat, k: nat)
    requires Run(cfg, ss, ls) && n <= |ls| && |ss| == |ls| + 1 && k < |ss[n].threads| && ss[n].threads[k].entered
    ensures HasEntry(ss[n], k, ss[n].threads[k])
  {
    hide Run, Step, Inv, LocalOk, Summary, Next, Start;
    RunShape(cfg, ss, ls);
    var s, l, s' := ss[n - 1], ls[n - 1], ss[n];
    RunAt(cfg, ss, ls, n - 1);
    StepEntries(cfg, s, l, s');
    StepThread(cfg, s, l, s', k);
    if k < |s.threads| {
      var t, t' := s.threads[k], s'.threads[k];
      if l.Port? && l.tid == k {
        ThreadKept(cfg, ss, ls, n - 1);
        SummaryKeepsCall(t, l.e, t');
        if t.entered {
          EnteredIsClaimed(cfg, t);
          FlagKeepsPlan(cfg, t, l.e, t');
        } else {
          EnteringKeepsId(t, l.e, t');
          PortIs(cfg, s, k, l.e, s');
          assert s'.entries[|s.entries|].id == t'.call.id;
        }
      }
      if t.entered {
        EnteredHasEntry(cfg, ss, ls, n - 1, k);
        var j :| 0 <= j < |s.entries| && s.entries[j].tid == k && s.entries[j].id == t.call.id
                 && s.entries[j].plan == t.inc.plan;
        assert s'.entries[j] == s.entries[j];
      }
    }
  }

  lemma EnteringKeepsId(t: Thread, e: Event, t': Thread)
    requires Summary(t, e, t') && t'.entered && !t.entered
    ensures t.inc.id == t.call.id
  {
  }

  /** What a step does to thread `k`. */
  lemma StepThread(cfg: Config, s: Sys, l: Label, s': Sys, k: nat)
    requires Step(cfg, s, l, s') && k < |s'.threads|
    ensures if k < |s.threads| then
              || (l.Port? && l.tid == k)
              || s'.threads[k] == s.threads[k]
              || (l == Crash(k) && s'.threads[k] == s.threads[k].(pc := Crashed) && Active(s.threads[k]))
            else
              l.Spawn? && k == |s.threads| && s'.threads[k].call == l.call && !s'.threads[k].entered
  {
    if l.Spawn? {
      StartOk(cfg, l.call);
      StartCall(cfg, l.call);
    }
    hide Next, Possible, Apply, Start;
  }

  /** Each remediator call performs the step of its own execution's plan. */
  lemma RemediatesTheEntry(cfg: Config, ss: seq<Sys>, ls: seq<Label>, i: nat) returns (j: nat)
    requires Run(cfg, ss, ls) && |ss| == |ls| + 1 && i < |ls| && ls[i].Port? && ls[i].e.Remediate?
    ensures j < |ss[i].entries|
    ensures var entry, e := ss[i].entries[j], ls[i].e;
            && entry.tid == ls[i].tid && entry.id == e.id
            && entry.plan.Some? && e.index < |entry.plan.value.steps| && e.step == entry.plan.value.steps[e.index]
  {
    hide Run, LocalOk, Summary;
    ThreadKept(cfg, ss, ls, i);
    var k, e := ls[i].tid, ls[i].e;
    var t := ss[i].threads[k];
    RemediateIs(cfg, t, e, ss[i + 1].threads[k]);
    hide Next;
    EnteredHasEntry(cfg, ss, ls, i, k);
    j :| 0 <= j < |ss[i].entries| && ss[i].entries[j].tid == k && ss[i].entries[j].id == t.call.id
         && ss[i].entries[j].plan == t.inc.plan;
  }

  lemma RemediateIs(cfg: Config, t: Thread, e: Event, t': Thread)
    requires e.Remediate? && Summary(t, e, t') && Next(cfg, t, e).Some?
    ensures t.entered && e.id == t.call.id
    ensures t.inc.plan.Some? && e.index < |t.inc.plan.value.steps| && e.step == t.inc.plan.value.steps[e.index]
  {
    hide OnStep;
  }

  // ----- Overlapping approvals -----

  ghost predicate Waits(w: World, id: Id) {
    id in w.store && w.store[id].status == AwaitingApproval
  }

  /** An incident comes to wait only by a save. */
  lemma WaitsByASave(cfg: Config, ss: seq<Sys>, ls: seq<Label>, i: nat, id: Id)
    requires Run(cfg, ss, ls) && |ss| == |ls| + 1 && i < |ls|
    ensures Waits(ss[i + 1].w, id) ==> Waits(ss[i].w, id) || Persists(ls[i], id, AwaitingApproval)
  {
    hide Run, Next, Possible, LocalOk, Summary, Start, Entered;
    RunAt(cfg, ss, ls, i);
    if ls[i].Port? {
      ThreadKept(cfg, ss, ls, i);
      CreatesInvestigating(ss[i].threads[ls[i].tid], ls[i].e, ss[i + 1].threads[ls[i].tid]);
    }
  }

  lemma CreatesInvestigating(t: Thread, e: Event, t': Thread)
    requires Summary(t, e, t')
    ensures e.Create? ==> e.inc.status == Status.Investigating
  {
  }

  lemma {:induction false} WaitingWasSaved(cfg: Config, ss: seq<Sys>, ls: seq<Label>, p: nat, n: nat, id: Id)
      returns (m: nat)
    requires Run(cfg, ss, ls) && |ss| == |ls| + 1 && p <= n <= |ls| && Waits(ss[n].w, id) && !Waits(ss[p].w, id)
    ensures p <= m < n && Persists(ls[m], id, AwaitingApproval)
  {
    hide Run, Waits, Persists;
    WaitsByASave(cfg, ss, ls, n - 1, id);
    if Persists(ls[n - 1], id, AwaitingApproval) {
      m := n - 1;
    } else {
      m := WaitingWasSaved(cfg, ss, ls, p, n - 1, id);
    }
  }

  /** Step `i` is thread `k`'s read that found incident `id` waiting. */
  ghost predicate ReadWaiting(ls: seq<Label>, i: nat, k: nat, id: Id) {
    && i < |ls| && ls[i].Port? && ls[i].tid == k && ls[i].e.Load? && ls[i].e.id == id
    && ls[i].e.found.Some? && ls[i].e.found.value.status == AwaitingApproval
  }

  /** Step `i` is the save by which thread `k` claimed incident `id`. */
  ghost predicate ClaimedBy(ls: seq<Label>, i: nat, k: nat, id: Id) {
    i < |ls| && ls[i].Port? && ls[i].tid == k && Persists(ls[i], id, Executing)
  }

  lemma ReadBeforeClaim(cfg: Config, ss: seq<Sys>, ls: seq<Label>, n: nat, k: nat) returns (r: nat, c: nat)
    requires Run(cfg, ss, ls) && |ss| == |ls| + 1 && n <= |ls| && k < |ss[n].threads|
    requires ss[n].threads[k].claimed && !ss[n].threads[k].call.Alert?
    ensures r < c < n && ReadWaiting(ls, r, k, ss[n].threads[k].call.id)
            && ClaimedBy(ls, c, k, ss[n].threads[k].call.id)
  {
    hide Run, LocalOk, Summary, Next;
    var id := ss[n].threads[k].call.id;
    FlagsHaveSaves(cfg, ss, ls, n, k);
    c :| 0 <= c < n && ls[c].Port? && ls[c].tid == k && Persists(ls[c], id, Executing);
    ThreadKept(cfg, ss, ls, c);
    SameCall(cfg, ss, ls, c, n, k);
    SaverSaw(ss[c].threads[k], ls[c].e, ss[c + 1].threads[k]);
    SawIsARead(cfg, ss, ls, c, k);
    r :| 0 <= r < c && ls[r].Port? && ls[r].tid == k && ls[r].e.Load? && ls[r].e.id == ss[c].threads[k].call.id
         && ls[r].e.found.Some? && ls[r].e.found.value.status == AwaitingApproval;
  }

  lemma SaverSaw(t: Thread, e: Event, t': Thread)
    requires Summary(t, e, t') && e.Save? && !t.call.Alert?
    ensures t.saw
  {
  }

  lemma SameCall(cfg: Config, ss: seq<Sys>, ls: seq<Label>, i: nat, j: nat, k: nat)
    requires Run(cfg, ss, ls) && |ss| == |ls| + 1 && i <= j <= |ls| && k < |ss[i].threads| && k < |ss[j].threads|
    ensures ss[j].threads[k].call == ss[i].threads[k].call
  {
    hide Run, Inv;
    RunLater(cfg, ss, ls, i, j, k);
  }

  lemma WaitingThen(cfg: Config, ss: seq<Sys>, ls: seq<Label>, r: nat, k: nat, id: Id)
    requires Run(cfg, ss, ls) && |ss| == |ls| + 1 && ReadWaiting(ls, r, k, id)
    ensures Waits(ss[r].w, id)
  {
    hide Run, Next, Apply, Entered;
    RunAt(cfg, ss, ls, r);
    PortIs(cfg, ss[r], k, ls[r].e, ss[r + 1]);
  }

  lemma ClaimedThen(cfg: Config, ss: seq<Sys>, ls: seq<Label>, c: nat, k: nat, id: Id)
    requires Run(cfg, ss, ls) && |ss| == |ls| + 1 && ClaimedBy(ls, c, k, id)
    ensures !Waits(ss[c + 1].w, id)
  {
    hide Run, Next, Possible, Entered;
    RunAt(cfg, ss, ls, c);
    PortIs(cfg, ss[c], k, ls[c].e, ss[c + 1]);
  }

  /** Nobody reads an incident as waiting after somebody who read it so has claimed it. */
  lemma NoReadAfterClaim(cfg: Config, ss: seq<Sys>, ls: seq<Label>, id: Id, r: nat, c: nat, k: nat, r': nat, k': nat)
    requires Run(cfg, ss, ls) && |ss| == |ls| + 1 && r < c
    requires ReadWaiting(ls, r, k, id) && ClaimedBy(ls, c, k, id) && ReadWaiting(ls, r', k', id)
    ensures r' < c
  {
    hide Run, Waits;
    RunShape(cfg, ss, ls);
    WaitingThen(cfg, ss, ls, r, k, id);
    WaitingThen(cfg, ss, ls, r', k', id);
    ClaimedThen(cfg, ss, ls, c, k, id);
    NothingWaits(ss[0], id);
    if r' > c {
      var m := WaitingWasSaved(cfg, ss, ls, 0, r, id);
      var m' := WaitingWasSaved(cfg, ss, ls, c + 1, r', id);
      NotAwaitingTwice(cfg, ss, ls, m, m', id);
    }
  }

  lemma NothingWaits(s: Sys, id: Id)
    requires Initial(s)
    ensures !Waits(s.w, id)
  {
  }

  /** In every run, interleaved in any way: an incident is executed twice only by two approvals
      each of which had read it as waiting before the other claimed it. */
  lemma ExecutedTwiceOnlyByARace(cfg: Config, ss: seq<Sys>, ls: seq<Label>, a: nat, b: nat)
      returns (ra: nat, ca: nat, rb: nat, cb: nat)
    requires Run(cfg, ss, ls) && |ss| == |ls| + 1 && a < b < |ss[|ls|].entries|
    requires ss[|ls|].entries[a].id == ss[|ls|].entries[b].id
    ensures var s := ss[|ls|];
            var x, y, id := s.entries[a].tid, s.entries[b].tid, s.entries[a].id;
            && x != y && x < |s.threads| && y < |s.threads| && s.threads[x].call.Approve? && s.threads[y].call.Approve?
            && ReadWaiting(ls, ra, x, id) && ClaimedBy(ls, ca, x, id)
            && ReadWaiting(ls, rb, y, id) && ClaimedBy(ls, cb, y, id)
            && ra < ca && rb < cb && ra < cb && rb < ca
  {
    hide Run, LocalOk, ReadWaiting, ClaimedBy, StoreOk, SeenOk, WritesOk;
    var s := ss[|ls|];
    var x, y, id := s.entries[a].tid, s.entries[b].tid, s.entries[a].id;
    ExecutionsAreJustified(cfg, ss, ls);
    Always(cfg, ss, ls, |ls|);
    assert EntryOk(cfg, s, s.entries[a]) && EntryOk(cfg, s, s.entries[b]);
    EnteredIsClaimed(cfg, s.threads[x]);
    EnteredIsClaimed(cfg, s.threads[y]);
    ra, ca := ReadBeforeClaim(cfg, ss, ls, |ls|, x);
    rb, cb := ReadBeforeClaim(cfg, ss, ls, |ls|, y);
    NoReadAfterClaim(cfg, ss, ls, id, ra, ca, x, rb, y);
    NoReadAfterClaim(cfg, ss, ls, id, rb, cb, y, ra, x);
  }

  // ----- Approvals that do not overlap -----

  /** No approval begins while another one of the same incident is in progress. */
  ghost predicate ApprovalsApart(ss: seq<Sys>, ls: seq<Label>)
    requires |ss| == |ls| + 1
  {
    forall i, k :: 0 <= i < |ls| && ls[i].Spawn? && ls[i].call.Approve? && 0 <= k < |ss[i].threads|
                   && Active(ss[i].threads[k]) && ss[i].threads[k].call.Approve? ==>
      ss[i].threads[k].call.id != ls[i].call.id
  }

  lemma {:induction false} ThreadWasSpawned(cfg: Config, ss: seq<Sys>, ls: seq<Label>, n: nat, k: nat) returns (i: nat)
    requires Run(cfg, ss, ls) && |ss| == |ls| + 1 && n <= |ls| && k < |ss[n].threads|
    ensures i < n && ls[i].Spawn? && |ss[i].threads| == k && ls[i].call == ss[n].threads[k].call
  {
    hide Run, Step;
    RunShape(cfg, ss, ls);
    RunAt(cfg, ss, ls, n - 1);
    StepThread(cfg, ss[n - 1], ls[n - 1], ss[n], k);
    if k < |ss[n - 1].threads| {
      i := ThreadWasSpawned(cfg, ss, ls, n - 1, k);
      SameCall(cfg, ss, ls, n - 1, n, k);
    } else {
      i := n - 1;
    }
  }

  /** A thread that acts at `j` was active ever since it began. */
  lemma {:induction false} ActiveBefore(cfg: Config, ss: seq<Sys>, ls: seq<Label>, i: nat, j: nat, k: nat)
    requires Run(cfg, ss, ls) && |ss| == |ls| + 1 && i <= j <= |ls| && k < |ss[i].threads| && k < |ss[j].threads|
    requires Active(ss[j].threads[k])
    ensures Active(ss[i].threads[k])
  {
    hide Run, Step, Next;
    if i < j {
      RunLater(cfg, ss, ls, i, j - 1, k);
      RunAt(cfg, ss, ls, j - 1);
      StepThread(cfg, ss[j - 1], ls[j - 1], ss[j], k);
      if ls[j - 1].Port? && ls[j - 1].tid == k {
        ThreadKept(cfg, ss, ls, j - 1);
        StillActive(cfg, ss[j - 1].threads[k], ls[j - 1].e);
      }
      ActiveBefore(cfg, ss, ls, i, j - 1, k);
    }
  }

  lemma ActsThen(cfg: Config, ss: seq<Sys>, ls: seq<Label>, i: nat, k: nat)
    requires Run(cfg, ss, ls) && |ss| == |ls| + 1 && i < |ls| && ls[i].Port? && ls[i].tid == k
    ensures k < |ss[i].threads| && Active(ss[i].threads[k])
  {
    hide Run, Next, Summary, LocalOk, Active;
    ThreadKept(cfg, ss, ls, i);
    StillActive(cfg, ss[i].threads[k], ls[i].e);
  }

  /** The later of two threads began while the earlier one, which acts afterwards, was active. */
  lemma BeganMeanwhile(cfg: Config, ss: seq<Sys>, ls: seq<Label>, x: nat, y: nat, c: nat, r: nat, n: nat)
      returns (i: nat)
    requires Run(cfg, ss, ls) && |ss| == |ls| + 1 && n <= |ls| && x < y < |ss[n].threads| && r < c < |ls| && c < n
    requires ls[c].Port? && ls[c].tid == x && ls[r].Port? && ls[r].tid == y
    ensures i < |ls| && ls[i].Spawn? && ls[i].call == ss[n].threads[y].call && x < |ss[i].threads|
    ensures Active(ss[i].threads[x]) && ss[i].threads[x].call == ss[n].threads[x].call
  {
    hide Run, Active;
    ActsThen(cfg, ss, ls, c, x);
    ActsThen(cfg, ss, ls, r, y);
    i := ThreadWasSpawned(cfg, ss, ls, r, y);
    SameCall(cfg, ss, ls, r, n, y);
    SameCall(cfg, ss, ls, i, n, x);
    ActiveBefore(cfg, ss, ls, i, c, x);
  }

  /** At most one execution per incident needs no more than this: no two approvals of one
      incident overlap. All else may interleave, fail or crash. */
  lemma ExecutedOnceWhenApart(cfg: Config, ss: seq<Sys>, ls: seq<Label>)
    requires Run(cfg, ss, ls) && |ss| == |ls| + 1 && ApprovalsApart(ss, ls)
    ensures var entries := ss[|ls|].entries;
            forall a, b :: 0 <= a < b < |entries| ==> entries[a].id != entries[b].id
  {
    hide Run, Persists;
    var s := ss[|ls|];
    forall a, b | 0 <= a < b < |s.entries| ensures s.entries[a].id != s.entries[b].id {
      if s.entries[a].id == s.entries[b].id {
        RaceOverlaps(cfg, ss, ls, a, b);
      }
    }
  }

  lemma RaceOverlaps(cfg: Config, ss: seq<Sys>, ls: seq<Label>, a: nat, b: nat)
    requires Run(cfg, ss, ls) && |ss| == |ls| + 1 && a < b < |ss[|ls|].entries|
    requires ss[|ls|].entries[a].id == ss[|ls|].entries[b].id
    ensures !ApprovalsApart(ss, ls)
  {
    hide Run, Persists, Active;
    var s := ss[|ls|];
    var x, y := s.entries[a].tid, s.entries[b].tid;
    var ra, ca, rb, cb := ExecutedTwiceOnlyByARace(cfg, ss, ls, a, b);
    ReadersCall(cfg, ss, ls, ra, x);
    ReadersCall(cfg, ss, ls, rb, y);
    if x < y {
      var i := BeganMeanwhile(cfg, ss, ls, x, y, ca, rb, |ls|);
    } else {
      var i := BeganMeanwhile(cfg, ss, ls, y, x, cb, ra, |ls|);
    }
  }

  /** A thread reads the incident of its call. */
  lemma ReadersCall(cfg: Config, ss: seq<Sys>, ls: seq<Label>, r: nat, k: nat)
    requires Run(cfg, ss, ls) && |ss| == |ls| + 1 && r < |ls| && ls[r].Port? && ls[r].tid == k && ls[r].e.Load?
    ensures k < |ss[|ls|].threads| && ls[r].e.id == ss[|ls|].threads[k].call.id
  {
    hide Run, LocalOk, Summary, OnLoad;
    ThreadKept(cfg, ss, ls, r);
    RunLater(cfg, ss, ls, r, |ls|, k);
  }
}
