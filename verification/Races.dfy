/** What serialising the calls is needed for: the read and the write of an approval are two
    port calls, and two approvals may interleave between them. */
module Races {
  import opened Domain
  import opened Machine
  import opened Interleaved
  import opened Plays

  lemma PortMore(cfg: Config, ss: seq<Sys>, ls: seq<Label>, k: nat, e: Event, t: Thread)
      returns (ss': seq<Sys>, ls': seq<Label>)
    requires Run(cfg, ss, ls) && |ss| == |ls| + 1 && k < |ss[|ls|].threads|
    requires Possible(cfg, ss[|ls|].w, e) && Next(cfg, ss[|ls|].threads[k], e) == Some(t)
    ensures Run(cfg, ss', ls') && |ss'| == |ls'| + 1 && ss <= ss' && ls' == ls + [Port(k, e)]
    ensures Serialised(ss, ls) ==> Serialised(ss', ls')
    ensures var s, s' := ss[|ls|], ss'[|ls'|];
            && s'.w == Apply(cfg, s.w, e) && s'.threads == s.threads[k := t]
            && s'.entries == Entered(s, k, t, s'.w.cluster)
  {
    hide Possible, Next, Apply, Run;
    var s := ss[|ls|];
    var w := Apply(cfg, s.w, e);
    var s' := Sys(w, s.threads[k := t], s.owner, Entered(s, k, t, w.cluster));
    RunOneMore(cfg, ss, ls, Port(k, e), s');
    ss', ls' := ss + [s'], ls + [Port(k, e)];
  }

  lemma SpawnMore(cfg: Config, ss: seq<Sys>, ls: seq<Label>, call: Call) returns (ss': seq<Sys>, ls': seq<Label>)
    requires Run(cfg, ss, ls) && |ss| == |ls| + 1 && !call.Alert?
    ensures Run(cfg, ss', ls') && |ss'| == |ls'| + 1 && ss <= ss' && ls' == ls + [Spawn(call)]
    ensures Serialised(ss, ls) && Quiescent(ss[|ls|]) ==> Serialised(ss', ls')
    ensures ss'[|ls'|] == ss[|ls|].(threads := ss[|ls|].threads + [Start(cfg, call)])
  {
    hide Run, Start;
    var s' := ss[|ls|].(threads := ss[|ls|].threads + [Start(cfg, call)]);
    RunOneMore(cfg, ss, ls, Spawn(call), s');
    ss', ls' := ss + [s'], ls + [Spawn(call)];
  }

  /** An approval or rejection that has read the waiting incident and not yet saved it. */
  function Poised(cfg: Config, call: Call, inc: Incident): Thread {
    Start(cfg, call).(inc := inc, saw := true, pc := if call.Approve? then Claiming else RejectSave)
  }

  /** An approval once it has claimed the incident and entered the executor. */
  function Launched(cfg: Config, call: Call, inc: Incident): Thread {
    Enter(Poised(cfg, call, inc.(status := Executing)).(claimed := true))
  }

  lemma ReadMore(cfg: Config, ss: seq<Sys>, ls: seq<Label>, k: nat, call: Call)
      returns (ss': seq<Sys>, ls': seq<Label>)
    requires Run(cfg, ss, ls) && |ss| == |ls| + 1 && k < |ss[|ls|].threads| && ss[|ls|].threads[k] == Start(cfg, call)
    requires (call.Approve? || call.Reject?) && call.actor in cfg.approvers
    requires call.id in ss[|ls|].w.store && ss[|ls|].w.store[call.id].status == AwaitingApproval
    ensures Run(cfg, ss', ls') && |ss'| == |ls'| + 1 && ss <= ss' && (Serialised(ss, ls) ==> Serialised(ss', ls'))
    ensures ls' == ls + [Port(k, Load(call.id, Some(ss[|ls|].w.store[call.id])))]
    ensures var s, s' := ss[|ls|], ss'[|ls'|];
            && s'.w == s.w && s'.entries == s.entries
            && s'.threads == s.threads[k := Poised(cfg, call, s.w.store[call.id])]
  {
    hide Run, Serialised;
    var inc := ss[|ls|].w.store[call.id];
    ss', ls' := PortMore(cfg, ss, ls, k, Load(call.id, Some(inc)), Poised(cfg, call, inc));
  }

  lemma EnterMore(cfg: Config, ss: seq<Sys>, ls: seq<Label>, k: nat, call: Call, inc: Incident)
      returns (ss': seq<Sys>, ls': seq<Label>)
    requires Run(cfg, ss, ls) && |ss| == |ls| + 1 && k < |ss[|ls|].threads|
             && ss[|ls|].threads[k] == Poised(cfg, call, inc)
    requires call.Approve? && call.actor in cfg.approvers && inc.id in ss[|ls|].w.store
    ensures Run(cfg, ss', ls') && |ss'| == |ls'| + 1 && ss <= ss' && (Serialised(ss, ls) ==> Serialised(ss', ls'))
    ensures ls' == ls + [Port(k, Save(inc.(status := Executing), true))]
                      + [Port(k, Append(AuditRecord(inc.id, call.actor, Approved), true))]
    ensures var s, s' := ss[|ls|], ss'[|ls'|];
            && s'.w.store == s.w.store[inc.id := inc.(status := Executing)] && s'.w.cluster == s.w.cluster
            && s'.threads == s.threads[k := Launched(cfg, call, inc)]
            && s'.entries == s.entries + [Entry(k, inc.id, inc.plan, s.w.cluster)]
  {
    hide Run, Serialised;
    var t := ss[|ls|].threads[k];
    var u := OnSave(t, true);
    var ss1, ls1 := PortMore(cfg, ss, ls, k, Save(ToSave(t), true), u);
    ss', ls' := PortMore(cfg, ss1, ls1, k, Append(ToAudit(u), true), OnAudit(cfg, u));
  }

  /** After any run that leaves an incident waiting, and with any allowed actor, two approvals
      can interleave so that both execute it: at most once needs the calls serialised. */
  lemma TwoApprovalsCanBothExecute(cfg: Config, ss: seq<Sys>, ls: seq<Label>, id: Id, actor: string)
      returns (ss': seq<Sys>, ls': seq<Label>)
    requires Run(cfg, ss, ls) && |ss| == |ls| + 1 && actor in cfg.approvers
    requires id in ss[|ls|].w.store && ss[|ls|].w.store[id].status == AwaitingApproval
    ensures Run(cfg, ss', ls') && |ss'| == |ls'| + 1 && ss <= ss'
    ensures var before, after := ss[|ls|].entries, ss'[|ls'|].entries;
            && |after| == |before| + 2 && before <= after
            && after[|before|].id == after[|before| + 1].id == id
            && after[|before|].tid != after[|before| + 1].tid
  {
    hide Run, Start;
    var call, n := Approve(id, actor), |ss[|ls|].threads|;
    StoredUnderItsId(cfg, ss, ls, id);
    var inc := ss[|ls|].w.store[id];
    ss', ls' := SpawnMore(cfg, ss, ls, call);
    ss', ls' := SpawnMore(cfg, ss', ls', call);
    ss', ls' := ReadMore(cfg, ss', ls', n, call);
    ss', ls' := ReadMore(cfg, ss', ls', n + 1, call);
    ss', ls' := EnterMore(cfg, ss', ls', n, call, inc);
    ss', ls' := EnterMore(cfg, ss', ls', n + 1, call, inc);
  }

  lemma StoredUnderItsId(cfg: Config, ss: seq<Sys>, ls: seq<Label>, id: Id)
    requires Run(cfg, ss, ls) && |ss| == |ls| + 1 && id in ss[|ls|].w.store
    ensures ss[|ls|].w.store[id].id == id
  {
    hide Run;
    Always(cfg, ss, ls, |ls|);
  }
}
