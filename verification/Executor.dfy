/** The plan executor: the only path to the remediators. It stops at the first failing step. */
module Executor {
  import opened Domain
  import opened Cluster
  import opened Effects
  import opened ReplicaSets

  function WeatherAt(env: seq<Weather>, i: nat): Weather {
    if i < |env| then env[i] else CALM
  }

  /** The cluster after the first `n` steps. */
  function Fold(x: Wiring, c: State, steps: seq<ActionStep>, env: seq<Weather>, n: nat): State
    requires n <= |steps|
  {
    if n == 0 then c else After(x, Fold(x, c, steps, env, n - 1), steps[n - 1], WeatherAt(env, n - 1))
  }

  function ErrorAt(x: Wiring, c: State, steps: seq<ActionStep>, env: seq<Weather>, i: nat): Option<Refusal>
    requires i < |steps|
  {
    Error(x, Fold(x, c, steps, env, i), steps[i], WeatherAt(env, i))
  }

  ghost predicate Succeed(x: Wiring, c: State, steps: seq<ActionStep>, env: seq<Weather>, n: nat)
    requires n <= |steps|
  {
    forall i :: 0 <= i < n ==> ErrorAt(x, c, steps, env, i).None?
  }

  datatype ExecError = NoSteps | StepFailed(index: nat, why: Refusal)

  /** One line of the outcome text. */
  datatype Line = Line(number: nat, tool: Tool)

  ghost predicate LinesFor(out: seq<Line>, steps: seq<ActionStep>, n: nat)
    requires n <= |steps|
  {
    |out| == n && forall i :: 0 <= i < n ==> out[i] == Line(i + 1, steps[i].tool)
  }

  class PlanExecutor {
    const api: Api
    const k8s: RemediatorClient?
    const aws: AwsClient?

    ghost predicate Valid() {
      (k8s != null ==> k8s.api == api && k8s.guard.cap > 0) && (aws != null ==> aws.api == api)
    }

    function Wires(): Wiring {
      Wiring(if k8s == null then None else Some(k8s.guard), aws != null)
    }

    constructor (api: Api, k8s: RemediatorClient?, aws: AwsClient?)
      requires k8s != null ==> k8s.api == api && k8s.guard.cap > 0
      requires aws != null ==> aws.api == api
      ensures Valid() && this.api == api && this.k8s == k8s && this.aws == aws
    {
      this.api, this.k8s, this.aws := api, k8s, aws;
    }

    method RunStep(step: ActionStep, o: Weather) returns (err: Option<Refusal>)
      requires Valid()
      modifies api
      ensures api.Value() == After(Wires(), old(api.Value()), step, o)
      ensures err == Error(Wires(), old(api.Value()), step, o)
      ensures || step.tool.OtherTool?
              || (if step.tool.UpdateASGDesired? then aws == null else k8s == null) ==>
                err == Some(UnknownTool) && api.Value() == old(api.Value())
    {
      hide Previous, IsCrashLoop, Loops, ArgInt32, ArgString;
      var ns, name := ArgString(step.args, "namespace"), ArgString(step.args, "name");
      match step.tool {
        case OtherTool(_) =>
          return Some(UnknownTool);
        case UpdateASGDesired =>
          if aws == null {
            return Some(UnknownTool);
          }
          err := aws.UpdateASGDesiredCapacity(name, ArgInt32(step.args, "desired_capacity"), o);
        case PatchHPAMaxReplicas =>
          if k8s == null {
            return Some(UnknownTool);
          }
          err := k8s.PatchHPAMaxReplicas(ns, name, ArgInt32(step.args, "max_replicas"), o);
        case RestartRollout =>
          if k8s == null {
            return Some(UnknownTool);
          }
          err := k8s.RestartRollout(ns, name, o);
        case RollbackDeployment =>
          if k8s == null {
            return Some(UnknownTool);
          }
          err := k8s.RollbackDeployment(ns, name, o);
        case ScaleDeployment =>
          if k8s == null {
            return Some(UnknownTool);
          }
          err := k8s.ScaleDeployment(ns, name, ArgInt32(step.args, "replicas"), o);
        case DeleteCrashLoopPod =>
          if k8s == null {
            return Some(UnknownTool);
          }
          if (ns, name) in api.pods {
            CrashLoopExactly(api.pods[(ns, name)]);
          }
          err := k8s.DeleteCrashLoopPod(ns, name, o);
      }
    }

    /** Runs the steps in order up to the first error. */
    method Execute(plan: Option<ActionPlan>, env: seq<Weather>) returns (out: seq<Line>, err: Option<ExecError>)
      requires Valid()
      modifies api
      ensures (plan.None? || plan.value.steps == []) <==> err == Some(NoSteps)
      ensures err == Some(NoSteps) ==> out == [] && api.Value() == old(api.Value())
      ensures err.None? ==>
                var steps, c := plan.value.steps, old(api.Value());
                && Succeed(Wires(), c, steps, env, |steps|)
                && api.Value() == Fold(Wires(), c, steps, env, |steps|)
                && LinesFor(out, steps, |steps|)
      ensures err.Some? && err.value.StepFailed? ==>
                var steps, c, i := plan.value.steps, old(api.Value()), err.value.index;
                && i < |steps|
                && Succeed(Wires(), c, steps, env, i)
                && ErrorAt(Wires(), c, steps, env, i) == Some(err.value.why)
                && api.Value() == After(Wires(), Fold(Wires(), c, steps, env, i), steps[i], WeatherAt(env, i))
                && LinesFor(out, steps, i)
    {
      hide After, Error;
      if plan.None? || plan.value.steps == [] {
        return [], Some(NoSteps);
      }
      var steps := plan.value.steps;
      ghost var x, c := Wires(), api.Value();
      out := [];
      for i := 0 to |steps|
        invariant Succeed(x, c, steps, env, i)
        invariant api.Value() == Fold(x, c, steps, env, i)
        invariant LinesFor(out, steps, i)
      {
        var e := RunStep(steps[i], WeatherAt(env, i));
        if e.Some? {
          return out, Some(StepFailed(i, e.value));
        }
        out := out + [Line(i + 1, steps[i].tool)];
      }
      err := None;
    }
  }

  // ----- Effects of a run of steps -----

  /** `ws` is one guarded write per step, in order. */
  ghost predicate OneWriteEach(x: Wiring, steps: seq<ActionStep>, ws: seq<Write>, n: nat)
    requires n <= |steps|
  {
    |ws| == n && forall i :: 0 <= i < n ==> Fits(steps[i], ws[i]) && SafeWrite(x, ws[i])
  }

  /** Steps that succeed made exactly one write each, in order, and nothing else. */
  lemma {:induction false} SuccessWrites(x: Wiring, c: State, steps: seq<ActionStep>, env: seq<Weather>, n: nat)
      returns (ws: seq<Write>)
    requires n <= |steps| && Succeed(x, c, steps, env, n)
    ensures OneWriteEach(x, steps, ws, n)
    ensures Fold(x, c, steps, env, n) == Replay(c, ws)
  {
    hide After, Error, Accept, SafeWrite, Fits;
    if n == 0 {
      ws := [];
    } else {
      var before := SuccessWrites(x, c, steps, env, n - 1);
      var d := Fold(x, c, steps, env, n - 1);
      StepIsSafe(x, d, steps[n - 1], WeatherAt(env, n - 1));
      assert ErrorAt(x, c, steps, env, n - 1).None?;
      var w :| After(x, d, steps[n - 1], WeatherAt(env, n - 1)) == Accept(d, w) && SafeWrite(x, w)
               && Fits(steps[n - 1], w);
      ws := before + [w];
      assert ws[..n - 1] == before;
    }
  }

  /** A failing run wrote what the steps before the failure wrote, and at most the failing
      step's own ASG change. */
  lemma FailFastPrefix(x: Wiring, c: State, steps: seq<ActionStep>, env: seq<Weather>, i: nat)
      returns (ws: seq<Write>, extra: seq<Write>)
    requires i < |steps| && Succeed(x, c, steps, env, i) && ErrorAt(x, c, steps, env, i).Some?
    ensures OneWriteEach(x, steps, ws, i)
    ensures |extra| <= 1
    ensures extra != [] ==> steps[i].tool.UpdateASGDesired? && Fits(steps[i], extra[0]) && SafeWrite(x, extra[0])
    ensures After(x, Fold(x, c, steps, env, i), steps[i], WeatherAt(env, i)) == Replay(c, ws + extra)
  {
    hide After, Error, Accept, SafeWrite, Fits;
    ws := SuccessWrites(x, c, steps, env, i);
    var d, o := Fold(x, c, steps, env, i), WeatherAt(env, i);
    StepIsSafe(x, d, steps[i], o);
    if After(x, d, steps[i], o) == d {
      extra := [];
      assert ws + [] == ws;
    } else {
      var w :| After(x, d, steps[i], o) == Accept(d, w) && SafeWrite(x, w) && Fits(steps[i], w);
      extra := [w];
      assert (ws + extra)[..i] == ws;
    }
  }

  // Only a step of its own kind writes a field of an object.

  lemma KeepsMax(x: Wiring, c: State, step: ActionStep, o: Weather, k: Key)
    requires k in c.hpas && !(step.tool.PatchHPAMaxReplicas? && Named(step) == k)
    ensures var d := After(x, c, step, o).hpas; k in d && d[k].max == c.hpas[k].max
  {
    hide After, Error, Named, SafeWrite;
    StepIsSafe(x, c, step, o);
  }

  lemma AcceptKeepsReplicas(c: State, w: Write, k: Key)
    requires k in c.deployments && !(w.Scaled? && w.key == k)
    ensures var d := Accept(c, w).deployments; k in d && d[k].replicas == c.deployments[k].replicas
  {
  }

  lemma KeepsReplicas(x: Wiring, c: State, step: ActionStep, o: Weather, k: Key)
    requires k in c.deployments && !(step.tool.ScaleDeployment? && Named(step) == k)
    ensures var d := After(x, c, step, o).deployments; k in d && d[k].replicas == c.deployments[k].replicas
  {
    hide After, Error, Named, SafeWrite, Accept;
    StepIsSafe(x, c, step, o);
    if After(x, c, step, o) != c {
      var w :| After(x, c, step, o) == Accept(c, w) && SafeWrite(x, w) && Fits(step, w);
      AcceptKeepsReplicas(c, w, k);
    }
  }

  lemma AcceptKeepsTemplate(c: State, w: Write, k: Key)
    requires k in c.deployments && !((w.Restarted? || w.RolledBack?) && w.key == k)
    ensures var d := Accept(c, w).deployments; k in d && d[k].template == c.deployments[k].template
  {
  }

  lemma KeepsTemplate(x: Wiring, c: State, step: ActionStep, o: Weather, k: Key)
    requires k in c.deployments
    requires !((step.tool.RestartRollout? || step.tool.RollbackDeployment?) && Named(step) == k)
    ensures var d := After(x, c, step, o).deployments; k in d && d[k].template == c.deployments[k].template
  {
    hide After, Error, Named, SafeWrite, Accept;
    StepIsSafe(x, c, step, o);
    if After(x, c, step, o) != c {
      var w :| After(x, c, step, o) == Accept(c, w) && SafeWrite(x, w) && Fits(step, w);
      AcceptKeepsTemplate(c, w, k);
    }
  }

  lemma KeepsGroup(x: Wiring, c: State, step: ActionStep, o: Weather, name: string)
    requires name in c.asgs && !(step.tool.UpdateASGDesired? && Named(step).1 == name)
    ensures var d := After(x, c, step, o).asgs; name in d && d[name] == c.asgs[name]
  {
    hide After, Error, Named, SafeWrite;
    StepIsSafe(x, c, step, o);
  }

  /** Step `i` is the last patch of its HPA among the first `n` steps. */
  ghost predicate LastPatch(steps: seq<ActionStep>, n: nat, i: nat)
    requires i < n <= |steps|
  {
    && steps[i].tool.PatchHPAMaxReplicas?
    && forall j :: i < j < n && steps[j].tool.PatchHPAMaxReplicas? ==> Named(steps[j]) != Named(steps[i])
  }

  ghost predicate LastScale(steps: seq<ActionStep>, n: nat, i: nat)
    requires i < n <= |steps|
  {
    && steps[i].tool.ScaleDeployment?
    && forall j :: i < j < n && steps[j].tool.ScaleDeployment? ==> Named(steps[j]) != Named(steps[i])
  }

  ghost predicate LastGroup(steps: seq<ActionStep>, n: nat, i: nat)
    requires i < n <= |steps|
  {
    && steps[i].tool.UpdateASGDesired?
    && forall j :: i < j < n && steps[j].tool.UpdateASGDesired? ==> Named(steps[j]).1 != Named(steps[i]).1
  }

  /** Restarts and rollbacks both write the template. */
  predicate Rolls(tool: Tool) {
    tool.RestartRollout? || tool.RollbackDeployment?
  }

  ghost predicate LastRollout(steps: seq<ActionStep>, n: nat, i: nat)
    requires i < n <= |steps|
  {
    Rolls(steps[i].tool) && forall j :: i < j < n && Rolls(steps[j].tool) ==> Named(steps[j]) != Named(steps[i])
  }

  /** After a successful run every patched HPA has the maximum its last patch step asked for. */
  lemma {:induction false} LastPatchWins(x: Wiring, c: State, steps: seq<ActionStep>, env: seq<Weather>, n: nat, i: nat,
                                         ns: string, name: string, max: int)
    requires i < n <= |steps| && Succeed(x, c, steps, env, n) && LastPatch(steps, n, i)
    requires Denotes(steps[i], ns, name) && NumberArg(steps[i].args, "max_replicas", max)
    ensures var d := Fold(x, c, steps, env, n).hpas; (ns, name) in d && d[(ns, name)].max == max
  {
    hide Denotes, NumberArg, Named, After, Error;
    DenotesExactly(steps[i], ns, name);
    var d, o := Fold(x, c, steps, env, n - 1), WeatherAt(env, n - 1);
    assert ErrorAt(x, c, steps, env, n - 1).None?;
    if i < n - 1 {
      LastPatchWins(x, c, steps, env, n - 1, i, ns, name, max);
      KeepsMax(x, d, steps[n - 1], o, (ns, name));
    } else {
      PatchEffect(x, d, steps[i], o, ns, name, max);
    }
  }

  /** And every scaled Deployment the size its last scale step asked for. */
  lemma {:induction false} LastScaleWins(x: Wiring, c: State, steps: seq<ActionStep>, env: seq<Weather>, n: nat, i: nat,
                                         ns: string, name: string, size: int)
    requires i < n <= |steps| && Succeed(x, c, steps, env, n) && LastScale(steps, n, i)
    requires Denotes(steps[i], ns, name) && NumberArg(steps[i].args, "replicas", size)
    ensures var d := Fold(x, c, steps, env, n).deployments; (ns, name) in d && d[(ns, name)].replicas == Some(size)
  {
    hide Denotes, NumberArg, Named, After, Error;
    DenotesExactly(steps[i], ns, name);
    var d, o := Fold(x, c, steps, env, n - 1), WeatherAt(env, n - 1);
    assert ErrorAt(x, c, steps, env, n - 1).None?;
    if i < n - 1 {
      LastScaleWins(x, c, steps, env, n - 1, i, ns, name, size);
      KeepsReplicas(x, d, steps[n - 1], o, (ns, name));
    } else {
      ScaleEffect(x, d, steps[i], o, ns, name, size);
    }
  }

  /** And every auto scaling group the capacity its last step asked for. */
  lemma {:induction false} LastGroupWins(x: Wiring, c: State, steps: seq<ActionStep>, env: seq<Weather>, n: nat, i: nat,
                                         name: string, size: int)
    requires i < n <= |steps| && Succeed(x, c, steps, env, n) && LastGroup(steps, n, i)
    requires TextArg(steps[i].args, "name", name) && NumberArg(steps[i].args, "desired_capacity", size)
    ensures var d := Fold(x, c, steps, env, n).asgs; name in d && d[name] == size
  {
    hide TextArg, NumberArg, ArgString, After, Error;
    TextArgExactly(steps[i].args, "name", name);
    var d, o := Fold(x, c, steps, env, n - 1), WeatherAt(env, n - 1);
    assert ErrorAt(x, c, steps, env, n - 1).None?;
    if i < n - 1 {
      LastGroupWins(x, c, steps, env, n - 1, i, name, size);
      KeepsGroup(x, d, steps[n - 1], o, name);
    } else {
      AsgEffect(x, d, steps[i], o, name, size);
    }
  }

  /** The template of a Deployment is the one its last restart or rollback left: after a restart
      the spec before it with a new restart time. What a rollback leaves, Effects.RollbackInstalls
      says. */
  lemma {:induction false} LastRolloutWins(x: Wiring, c: State, steps: seq<ActionStep>, env: seq<Weather>, n: nat,
                                           i: nat, ns: string, name: string)
    requires i < n <= |steps| && Succeed(x, c, steps, env, n) && LastRollout(steps, n, i)
    requires Denotes(steps[i], ns, name)
    ensures var k := (ns, name);
            var before, after := Fold(x, c, steps, env, i).deployments, Fold(x, c, steps, env, i + 1).deployments;
            var d := Fold(x, c, steps, env, n).deployments;
            && k in before && k in after && k in d && d[k].template == after[k].template
            && (steps[i].tool.RestartRollout? ==>
                  d[k].template == Template(before[k].template.spec, WeatherAt(env, i).now))
  {
    hide Denotes, Named, After, Error;
    DenotesExactly(steps[i], ns, name);
    var d, o := Fold(x, c, steps, env, n - 1), WeatherAt(env, n - 1);
    assert ErrorAt(x, c, steps, env, n - 1).None?;
    if i < n - 1 {
      LastRolloutWins(x, c, steps, env, n - 1, i, ns, name);
      KeepsTemplate(x, d, steps[n - 1], o, (ns, name));
    } else if steps[i].tool.RestartRollout? {
      RestartEffect(x, d, steps[i], o, ns, name);
    } else {
      RollbackFinds(x, d, steps[i], o, ns, name);
    }
  }

  lemma NoNewPods(x: Wiring, c: State, step: ActionStep, o: Weather)
    ensures After(x, c, step, o).pods.Keys <= c.pods.Keys
    ensures step.tool.DeleteCrashLoopPod? && Error(x, c, step, o).None? ==> Named(step) !in After(x, c, step, o).pods
  {
    hide After, Error, Named, SafeWrite;
    StepIsSafe(x, c, step, o);
  }

  /** A pod that was deleted is gone at the end, for no step brings one back. */
  lemma {:induction false} DeletedStaysDeleted(x: Wiring, c: State, steps: seq<ActionStep>, env: seq<Weather>, n: nat,
                                               i: nat)
    requires i < n <= |steps| && Succeed(x, c, steps, env, n) && steps[i].tool.DeleteCrashLoopPod?
    ensures Named(steps[i]) !in Fold(x, c, steps, env, n).pods
  {
    hide After, Error, Named;
    assert ErrorAt(x, c, steps, env, n - 1).None?;
    NoNewPods(x, Fold(x, c, steps, env, n - 1), steps[n - 1], WeatherAt(env, n - 1));
    if i < n - 1 {
      DeletedStaysDeleted(x, c, steps, env, n - 1, i);
    }
  }
}
