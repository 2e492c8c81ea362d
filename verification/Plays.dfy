/** The port calls of one service call, played through its thread. */
module Plays {
  import opened Domain
  import opened Cluster
  import opened Executor
  import opened Verifier
  import opened Machine

  /** The world and the thread after these events. */
  ghost function Play(cfg: Config, w: World, t: Thread, es: seq<Event>): (World, Thread) {
    if es == [] then (w, t)
    else
      var (w', t') := Play(cfg, w, t, es[..|es| - 1]);
      var e := es[|es| - 1];
      (Apply(cfg, w', e), match Next(cfg, t', e) case Some(u) => u case None => t')
  }

  /** Each event is the thread's next port call, with an outcome the world allows. */
  ghost predicate IsPlay(cfg: Config, w: World, t: Thread, es: seq<Event>) {
    es != [] ==>
      && IsPlay(cfg, w, t, es[..|es| - 1])
      && var (w', t') := Play(cfg, w, t, es[..|es| - 1]);
         Possible(cfg, w', es[|es| - 1]) && Next(cfg, t', es[|es| - 1]).Some?
  }

  lemma PlayOne(cfg: Config, w: World, t: Thread, es: seq<Event>, e: Event)
    requires IsPlay(cfg, w, t, es)
    requires Possible(cfg, Play(cfg, w, t, es).0, e) && Next(cfg, Play(cfg, w, t, es).1, e).Some?
    ensures IsPlay(cfg, w, t, es + [e])
    ensures Play(cfg, w, t, es + [e]) ==
            (Apply(cfg, Play(cfg, w, t, es).0, e), Next(cfg, Play(cfg, w, t, es).1, e).value)
  {
    hide Possible, Next, Apply;
    assert (es + [e])[..|es|] == es;
  }

  lemma {:induction false} PlayConcat(cfg: Config, w: World, t: Thread, a: seq<Event>, b: seq<Event>)
    ensures Play(cfg, w, t, a + b) == (var (w', t') := Play(cfg, w, t, a); Play(cfg, w', t', b))
    ensures IsPlay(cfg, w, t, a) && (var (w', t') := Play(cfg, w, t, a); IsPlay(cfg, w', t', b)) ==>
              IsPlay(cfg, w, t, a + b)
  {
    hide Possible, Next, Apply;
    if b == [] {
      assert a + b == a;
    } else {
      var n := |b| - 1;
      PlayConcat(cfg, w, t, a, b[..n]);
      assert (a + b)[..|a| + n] == a + b[..n];
    }
  }

  lemma NothingPlayed(cfg: Config, w: World, t: Thread)
    ensures IsPlay(cfg, w, t, []) && Play(cfg, w, t, []) == (w, t)
  {
  }

  lemma {:induction false} PlaySplit(cfg: Config, w: World, t: Thread, a: seq<Event>, b: seq<Event>)
    requires IsPlay(cfg, w, t, a + b)
    ensures var (w', t') := Play(cfg, w, t, a); IsPlay(cfg, w', t', b) && Play(cfg, w', t', b) == Play(cfg, w, t, a + b)
  {
    hide Possible, Next, Apply;
    PlayConcat(cfg, w, t, a, b);
    if b != [] {
      var n := |b| - 1;
      assert (a + b)[..|a| + n] == a + b[..n];
      PlaySplit(cfg, w, t, a, b[..n]);
      PlayConcat(cfg, w, t, a, b[..n]);
    }
  }

  lemma {:induction false} PlayKeepsCall(cfg: Config, w: World, t: Thread, es: seq<Event>)
    ensures Play(cfg, w, t, es).1.call == t.call
  {
    hide Next, Apply;
    if es != [] {
      var n := |es| - 1;
      PlayKeepsCall(cfg, w, t, es[..n]);
      var u := Play(cfg, w, t, es[..n]).1;
      if Next(cfg, u, es[n]).Some? {
        NextKeeps(cfg, u, es[n]);
      }
    }
  }

  /** The remediator calls for the first `n` steps. */
  ghost function Calls(x: Wiring, c: State, id: Id, steps: seq<ActionStep>, env: seq<Weather>, n: nat): seq<Event>
    requires n <= |steps|
  {
    seq(n, i requires 0 <= i < n => Remediate(id, i, steps[i], WeatherAt(env, i), ErrorAt(x, c, steps, env, i).None?))
  }

  /** One remediator call of a thread that has come to that step. */
  lemma OneStep(cfg: Config, w: World, t: Thread, e: Event) returns (u: Thread)
    requires e.Remediate? && e.id == t.inc.id && Runs(t, e.index, e.step)
    requires e.ok <==> Error(cfg.wires, w.cluster, e.step, e.weather).None?
    ensures Possible(cfg, w, e) && Next(cfg, t, e) == Some(u)
    ensures Apply(cfg, w, e) == w.(cluster := After(cfg.wires, w.cluster, e.step, e.weather))
    ensures u == t.(env := u.env, pc := if !e.ok then FailSave(ExecutionFailed)
                                        else if e.index + 1 < |t.inc.plan.value.steps| then Running(e.index + 1)
                                        else AfterSteps(cfg, t))
  {
    hide After, Error;
    u := OnStep(cfg, t, e.index, e.weather, e.ok);
  }

  /** Playing the calls of steps that succeed moves the thread on and folds the cluster. */
  lemma {:induction false} PlaySteps(cfg: Config, w: World, t: Thread, env: seq<Weather>, n: nat) returns (u: Thread)
    requires t.pc == Running(0) && t.inc.plan.Some? && t.inc.plan.value.steps != []
    requires n <= |t.inc.plan.value.steps| && Succeed(cfg.wires, w.cluster, t.inc.plan.value.steps, env, n)
    ensures var steps := t.inc.plan.value.steps;
            var es := Calls(cfg.wires, w.cluster, t.inc.id, steps, env, n);
            && IsPlay(cfg, w, t, es)
            && Play(cfg, w, t, es) == (w.(cluster := Fold(cfg.wires, w.cluster, steps, env, n)), u)
    ensures u == t.(env := u.env, pc := if n < |t.inc.plan.value.steps| then Running(n) else AfterSteps(cfg, t))
  {
    hide After, Error, Next, Possible;
    var steps := t.inc.plan.value.steps;
    var es := Calls(cfg.wires, w.cluster, t.inc.id, steps, env, n);
    if n == 0 {
      assert es == [];
      u := t;
    } else {
      var v := PlaySteps(cfg, w, t, env, n - 1);
      var before := Calls(cfg.wires, w.cluster, t.inc.id, steps, env, n - 1);
      var e := Remediate(t.inc.id, n - 1, steps[n - 1], WeatherAt(env, n - 1), true);
      assert ErrorAt(cfg.wires, w.cluster, steps, env, n - 1).None?;
      assert es == before + [e];
      u := OneStep(cfg, Play(cfg, w, t, before).0, v, e);
      PlayOne(cfg, w, t, before, e);
    }
  }

  /** One more call, for a step that fails. */
  lemma PlayFailingStep(cfg: Config, w: World, t: Thread, env: seq<Weather>, i: nat) returns (u: Thread, es: seq<Event>)
    requires t.pc == Running(0) && t.inc.plan.Some? && i < |t.inc.plan.value.steps|
    requires var steps := t.inc.plan.value.steps;
             Succeed(cfg.wires, w.cluster, steps, env, i) && ErrorAt(cfg.wires, w.cluster, steps, env, i).Some?
    ensures var steps := t.inc.plan.value.steps;
            && IsPlay(cfg, w, t, es)
            && Play(cfg, w, t, es) ==
               (w.(cluster := After(cfg.wires, Fold(cfg.wires, w.cluster, steps, env, i), steps[i],
                                    WeatherAt(env, i))), u)
    ensures u == t.(env := u.env, pc := FailSave(ExecutionFailed))
  {
    hide After, Error, Next, Possible;
    var steps := t.inc.plan.value.steps;
    var v := PlaySteps(cfg, w, t, env, i);
    var before := Calls(cfg.wires, w.cluster, t.inc.id, steps, env, i);
    var e := Remediate(t.inc.id, i, steps[i], WeatherAt(env, i), false);
    u := OneStep(cfg, Play(cfg, w, t, before).0, v, e);
    PlayOne(cfg, w, t, before, e);
    es := before + [e];
  }

  /** The reads of one step's check. */
  ghost function LooksOf(c: State, id: Id, i: nat, step: ActionStep, r: Reads): seq<Event> {
    [Look(id, i, step, r, Seen(c, step, r))] +
    match Seen(c, step, r)
    case DependsOn(target) => [Probe(id, target, r.deploymentFails, !r.deploymentFails && WorkloadReady(c, target))]
    case _ => []
  }

  /** The reads of the first `n` steps' checks. */
  ghost function Looks(c: State, id: Id, steps: seq<ActionStep>, rs: seq<Reads>, n: nat): seq<Event>
    requires n <= |steps|
  {
    if n == 0 then []
    else Looks(c, id, steps, rs, n - 1) + LooksOf(c, id, n - 1, steps[n - 1], ReadsAt(rs, n - 1))
  }

  lemma OneLook(cfg: Config, w: World, t: Thread, r: Reads)
    requires t.pc.Verifying? && t.inc.plan.Some? && t.pc.i < |t.inc.plan.value.steps|
    ensures var i, step := t.pc.i, t.inc.plan.value.steps[t.pc.i];
            var sight := Seen(w.cluster, step, r);
            var e := Look(t.inc.id, i, step, r, sight);
            Possible(cfg, w, e) && Apply(cfg, w, e) == w && Next(cfg, t, e) == Some(OnLook(t, i, sight))
  {
    hide Seen, OnLook;
  }

  lemma OneProbe(cfg: Config, w: World, t: Thread, fails: bool)
    requires t.pc.Probing? && t.inc.plan.Some?
    ensures var ok := !fails && WorkloadReady(w.cluster, t.pc.target);
            var e := Probe(t.inc.id, t.pc.target, fails, ok);
            Possible(cfg, w, e) && Apply(cfg, w, e) == w && Next(cfg, t, e) == Some(OnProbe(t, ok))
  {
    hide WorkloadReady, OnProbe;
  }

  /** One check of a thread that has come to it, in a cluster that stands still. */
  lemma PlayCheck(cfg: Config, w: World, t: Thread, r: Reads) returns (u: Thread)
    requires t.pc.Verifying? && t.inc.plan.Some? && t.pc.i < |t.inc.plan.value.steps|
    ensures var i, step := t.pc.i, t.inc.plan.value.steps[t.pc.i];
            var es := LooksOf(w.cluster, t.inc.id, i, step, r);
            && IsPlay(cfg, w, t, es) && Play(cfg, w, t, es) == (w, u)
            && u == t.(pc := if Passes(w.cluster, step, r) then AfterCheck(t, i) else FailSave(VerificationFailed))
  {
    hide Next, Possible, Apply, Seen, Passes, WorkloadReady;
    var i, step := t.pc.i, t.inc.plan.value.steps[t.pc.i];
    PassesAtOnce(w.cluster, step, r);
    OneLook(cfg, w, t, r);
    var sight := Seen(w.cluster, step, r);
    var e := Look(t.inc.id, i, step, r, sight);
    PlayOne(cfg, w, t, [], e);
    assert [] + [e] == [e];
    u := OnLook(t, i, sight);
    if sight.DependsOn? {
      OneProbe(cfg, w, u, r.deploymentFails);
      var ok := !r.deploymentFails && WorkloadReady(w.cluster, sight.target);
      PlayOne(cfg, w, t, [e], Probe(t.inc.id, sight.target, r.deploymentFails, ok));
      u := OnProbe(u, ok);
    } else {
      assert [e] + [] == [e];
    }
  }

  /** Playing the reads of checks that pass moves the thread on and leaves the world alone. */
  lemma {:induction false} PlayChecks(cfg: Config, w: World, t: Thread, rs: seq<Reads>, n: nat) returns (u: Thread)
    requires t.pc == Verifying(0) && t.inc.plan.Some? && t.inc.plan.value.steps != []
    requires n <= |t.inc.plan.value.steps|
    requires forall q :: 0 <= q < n ==> Passes(w.cluster, t.inc.plan.value.steps[q], ReadsAt(rs, q))
    ensures var steps := t.inc.plan.value.steps;
            var es := Looks(w.cluster, t.inc.id, steps, rs, n);
            && IsPlay(cfg, w, t, es) && Play(cfg, w, t, es) == (w, u)
            && u == t.(pc := if n < |steps| then Verifying(n) else VerifiedAudit)
  {
    hide Passes, LooksOf, Next, Possible, Apply, ReadsAt;
    var steps := t.inc.plan.value.steps;
    if n == 0 {
      u := t;
    } else {
      var v := PlayChecks(cfg, w, t, rs, n - 1);
      u := PlayCheck(cfg, w, v, ReadsAt(rs, n - 1));
      PlayConcat(cfg, w, t, Looks(w.cluster, t.inc.id, steps, rs, n - 1),
                 LooksOf(w.cluster, t.inc.id, n - 1, steps[n - 1], ReadsAt(rs, n - 1)));
    }
  }

  /** The reads up to a check that does not pass leave the thread failing. */
  lemma PlayFailingCheck(cfg: Config, w: World, t: Thread, rs: seq<Reads>, i: nat) returns (u: Thread)
    requires t.pc == Verifying(0) && t.inc.plan.Some? && i < |t.inc.plan.value.steps|
    requires forall q :: 0 <= q < i ==> Passes(w.cluster, t.inc.plan.value.steps[q], ReadsAt(rs, q))
    requires !Passes(w.cluster, t.inc.plan.value.steps[i], ReadsAt(rs, i))
    ensures var es := Looks(w.cluster, t.inc.id, t.inc.plan.value.steps, rs, i + 1);
            && IsPlay(cfg, w, t, es) && Play(cfg, w, t, es) == (w, u)
            && u == t.(pc := FailSave(VerificationFailed))
  {
    hide Passes, LooksOf, Next, Possible, Apply, ReadsAt;
    var steps := t.inc.plan.value.steps;
    var v := PlayChecks(cfg, w, t, rs, i);
    u := PlayCheck(cfg, w, v, ReadsAt(rs, i));
    PlayConcat(cfg, w, t, Looks(w.cluster, t.inc.id, steps, rs, i),
               LooksOf(w.cluster, t.inc.id, i, steps[i], ReadsAt(rs, i)));
  }

  // ----- Plays are runs -----

  lemma RunOneMore(cfg: Config, ss: seq<Sys>, ls: seq<Label>, l: Label, s': Sys)
    requires Run(cfg, ss, ls) && Step(cfg, ss[|ls|], l, s')
    ensures Run(cfg, ss + [s'], ls + [l])
    ensures (ss + [s'])[|ls| + 1] == s'
    ensures Serialised(ss, ls) && (l.Spawn? ==> Quiescent(ss[|ls|])) ==> Serialised(ss + [s'], ls + [l])
    ensures NoOutside(ls) && !l.Outside? ==> NoOutside(ls + [l])
    ensures NoCrash(ls) && !l.Crash? ==> NoCrash(ls + [l])
  {
    hide Step, Quiescent;
    var ss', ls' := ss + [s'], ls + [l];
    forall i | 0 <= i < |ls'| ensures Step(cfg, ss'[i], ls'[i], ss'[i + 1]) {
      if i < |ls| {
        RunAt(cfg, ss, ls, i);
        assert ss'[i] == ss[i] && ss'[i + 1] == ss[i + 1] && ls'[i] == ls[i];
      }
    }
  }

  /** A play of a call, begun at a quiescent moment of a serialised run, continues that run. */
  lemma {:induction false} PlayIsRun(cfg: Config, ss: seq<Sys>, ls: seq<Label>, call: Call, es: seq<Event>)
      returns (ss': seq<Sys>, ls': seq<Label>)
    requires Run(cfg, ss, ls) && Serialised(ss, ls) && NoOutside(ls) && NoCrash(ls)
    requires Quiescent(ss[|ls|]) && (call.Alert? ==> call.id !in ss[|ls|].owner)
    requires IsPlay(cfg, ss[|ls|].w, Start(cfg, call), es)
    ensures Run(cfg, ss', ls') && Serialised(ss', ls') && NoOutside(ls') && NoCrash(ls') && ss <= ss'
    ensures |ls'| == |ls| + 1 + |es|
            && ls' == ls + [Spawn(call)] + seq(|es|, i requires 0 <= i < |es| => Port(|ss[|ls|].threads|, es[i]))
    ensures var s, (w, t) := ss'[|ls'|], Play(cfg, ss[|ls|].w, Start(cfg, call), es);
            && s.w == w && s.threads == ss[|ls|].threads + [t]
            && s.owner == if call.Alert? then ss[|ls|].owner[call.id := |ss[|ls|].threads|] else ss[|ls|].owner
  {
    hide Possible, Next, Apply, Start, Run, Serialised, Quiescent, NoOutside, NoCrash;
    RunShape(cfg, ss, ls);
    var s, k := ss[|ls|], |ss[|ls|].threads|;
    if es == [] {
      var s' := s.(threads := s.threads + [Start(cfg, call)],
                   owner := if call.Alert? then s.owner[call.id := k] else s.owner);
      RunOneMore(cfg, ss, ls, Spawn(call), s');
      ss', ls' := ss + [s'], ls + [Spawn(call)];
      assert ls' == ls' + [];
    } else {
      var n := |es| - 1;
      ss', ls' := PlayIsRun(cfg, ss, ls, call, es[..n]);
      RunShape(cfg, ss', ls');
      var m, e := ss'[|ls'|], es[n];
      var (w, t) := Play(cfg, s.w, Start(cfg, call), es[..n]);
      var t' := Next(cfg, t, e).value;
      var w' := Apply(cfg, w, e);
      assert m.threads[k] == t;
      var m' := Sys(w', m.threads[k := t'], m.owner, Entered(m, k, t', w'.cluster));
      assert m'.threads == s.threads + [t'];
      RunOneMore(cfg, ss', ls', Port(k, e), m');
      ss', ls' := ss' + [m'], ls' + [Port(k, e)];
    }
  }
}
