/** The cluster and cloud objects the service can write, and the guarded clients that write them. */
module Cluster {
  import opened Text
  import opened Domain
  import opened Spelling
  import opened ReplicaSets
  import opened Sorting

  /** Namespace and name. */
  type Key = (string, string)

  datatype HPA = HPA(max: int, current: int, targetKind: string, targetName: string)
  datatype Deployment = Deployment(uid: string, replicas: Option<int>, ready: int, unavailable: int, template: Template)
  datatype Container = Container(waiting: Option<string>, terminated: bool, restarts: int, ready: bool)
  datatype Condition = Condition(ty: string, status: string, reason: string)
  datatype Pod = Pod(containers: seq<Container>, deleting: bool, conditions: seq<Condition>)

  /** One write accepted by the cluster or the cloud. */
  datatype Write =
    | HpaMax(key: Key, max: int)
    | Restarted(key: Key, at: string)
    | RolledBack(key: Key, template: Template)
    | Scaled(key: Key, replicas: int)
    | PodDeleted(key: Key)
    | AsgDesired(name: string, desired: int)

  /** The objects, and the history of accepted writes. */
  datatype State = State(
    hpas: map<Key, HPA>,
    deployments: map<Key, Deployment>,
    replicaSets: map<string, seq<ReplicaSet>>,
    pods: map<Key, Pod>,
    asgs: map<string, int>,
    writes: seq<Write>)

  function Accept(c: State, w: Write): State {
    var c' := c.(writes := c.writes + [w]);
    match w
    case HpaMax(k, n) => if k in c.hpas then c'.(hpas := c.hpas[k := c.hpas[k].(max := n)]) else c'
    case Restarted(k, at) =>
      if k in c.deployments then
        var d := c.deployments[k];
        c'.(deployments := c.deployments[k := d.(template := d.template.(restartedAt := at))])
      else c'
    case RolledBack(k, t) =>
      if k in c.deployments then c'.(deployments := c.deployments[k := c.deployments[k].(template := t)]) else c'
    case Scaled(k, n) =>
      if k in c.deployments then c'.(deployments := c.deployments[k := c.deployments[k].(replicas := Some(n))]) else c'
    case PodDeleted(k) => c'.(pods := c.pods - {k})
    case AsgDesired(name, n) => c'.(asgs := c.asgs[name := n])
  }

  /** The objects after accepting `ws` in order. */
  function Replay(c: State, ws: seq<Write>): State {
    if ws == [] then c else Accept(Replay(c, ws[..|ws| - 1]), ws[|ws| - 1])
  }

  // ----- What the clients decide -----

  /** A Kubernetes client's guard: protected namespaces and the replica cap. */
  datatype Guard = Guard(protected: set<string>, cap: Int32)

  /** The remediators wired into the executor. */
  datatype Wiring = Wiring(k8s: Option<Guard>, aws: bool)

  datatype Refusal = ProtectedNamespace | ReplicaCapExceeded | InvalidToolArgs | UnknownTool | CallFailed

  /** What the environment does during one step: whether an API call fails, whether the
      read after an ASG write fails, the clock, and how the sort breaks ties. */
  datatype Weather = Weather(callFails: bool, readBackFails: bool, now: string, order: seq<ReplicaSet>)

  const CALM := Weather(false, false, "", [])

  const MAX_ASG: Int32 := 30

  /** Some container waits in CrashLoopBackOff, or restarted and is not ready. */
  predicate IsCrashLoop(p: Pod) {
    exists i :: 0 <= i < |p.containers| &&
                var x := p.containers[i];
                x.waiting == Some("CrashLoopBackOff") || (x.terminated && x.restarts > 0 && !x.ready)
  }

  /** A container that waits in CrashLoopBackOff, or that ended, was restarted and is not ready. */
  predicate Loops(x: Container) {
    || (x.waiting.Some? && x.waiting.value == "CrashLoopBackOff")
    || (!x.ready && x.restarts >= 1 && x.terminated)
  }

  lemma CrashLoopExactly(p: Pod)
    ensures IsCrashLoop(p) <==> exists x :: x in p.containers && Loops(x)
  {
    forall i | 0 <= i < |p.containers|
      ensures Loops(p.containers[i]) <==>
              var x := p.containers[i];
              x.waiting == Some("CrashLoopBackOff") || (x.terminated && x.restarts > 0 && !x.ready)
    {
    }
    if IsCrashLoop(p) {
      var i :| 0 <= i < |p.containers| && Loops(p.containers[i]);
      assert p.containers[i] in p.containers;
    }
    if x :| x in p.containers && Loops(x) {
      var i :| 0 <= i < |p.containers| && p.containers[i] == x;
      assert Loops(p.containers[i]);
    }
  }

  function RangeRefusal(n: Int32, low: Int32, cap: Int32): Option<Refusal> {
    if n < low then Some(InvalidToolArgs) else if n > cap then Some(ReplicaCapExceeded) else None
  }

  function Namespace(c: State, ns: string): seq<ReplicaSet> {
    if ns in c.replicaSets then c.replicaSets[ns] else []
  }

  /** The namespaced object or auto scaling group a step names. */
  function Named(step: ActionStep): Key {
    (ArgString(step.args, "namespace"), ArgString(step.args, "name"))
  }

  lemma DenotesExactly(step: ActionStep, ns: string, name: string)
    ensures Denotes(step, ns, name) <==> Named(step) == (ns, name)
  {
    hide TextArg, ArgString;
    TextArgExactly(step.args, "namespace", ns);
    TextArgExactly(step.args, "name", name);
  }

  /** The one write a step stands for in this cluster, or why it is refused. */
  datatype Decision = Do(w: Write) | Refuse(r: Refusal)

  function Decide(x: Wiring, c: State, step: ActionStep, o: Weather): Decision {
    var k := Named(step);
    if step.tool.OtherTool? then Refuse(UnknownTool)
    else if step.tool.UpdateASGDesired? then
      var n := ArgInt32(step.args, "desired_capacity");
      if !x.aws then Refuse(UnknownTool)
      else if RangeRefusal(n, 0, MAX_ASG).Some? then Refuse(RangeRefusal(n, 0, MAX_ASG).value)
      else if o.callFails || k.1 !in c.asgs then Refuse(CallFailed)
      else Do(AsgDesired(k.1, n))
    else if x.k8s.None? then Refuse(UnknownTool)
    else if k.0 in x.k8s.value.protected then Refuse(ProtectedNamespace)
    else
      match step.tool
      case PatchHPAMaxReplicas =>
        var n := ArgInt32(step.args, "max_replicas");
        if RangeRefusal(n, 1, x.k8s.value.cap).Some? then Refuse(RangeRefusal(n, 1, x.k8s.value.cap).value)
        else if o.callFails || k !in c.hpas then Refuse(CallFailed)
        else Do(HpaMax(k, n))
      case ScaleDeployment =>
        var n := ArgInt32(step.args, "replicas");
        if RangeRefusal(n, 1, x.k8s.value.cap).Some? then Refuse(RangeRefusal(n, 1, x.k8s.value.cap).value)
        else if o.callFails || k !in c.deployments then Refuse(CallFailed)
        else Do(Scaled(k, n))
      case RestartRollout =>
        if o.callFails || k !in c.deployments then Refuse(CallFailed) else Do(Restarted(k, o.now))
      case RollbackDeployment =>
        if o.callFails || k !in c.deployments then Refuse(CallFailed)
        else
          (match Previous(Namespace(c, k.0), k.1, c.deployments[k].uid, o.order)
           case None => Refuse(InvalidToolArgs)
           case Some(prev) => Do(RolledBack(k, prev.template)))
      case DeleteCrashLoopPod =>
        if o.callFails || k !in c.pods then Refuse(CallFailed)
        else if !IsCrashLoop(c.pods[k]) then Refuse(InvalidToolArgs)
        else Do(PodDeleted(k))
  }

  function After(x: Wiring, c: State, step: ActionStep, o: Weather): State {
    match Decide(x, c, step, o) case Do(w) => Accept(c, w) case Refuse(_) => c
  }

  /** The error a step reports. An ASG step also reports a failing read after its write. */
  function Error(x: Wiring, c: State, step: ActionStep, o: Weather): Option<Refusal> {
    match Decide(x, c, step, o)
    case Do(w) => if w.AsgDesired? && o.readBackFails then Some(CallFailed) else None
    case Refuse(r) => Some(r)
  }

  // ----- The clients -----

  /** The API server and the cloud, as objects. */
  class Api {
    var hpas: map<Key, HPA>
    var deployments: map<Key, Deployment>
    var replicaSets: map<string, seq<ReplicaSet>>
    var pods: map<Key, Pod>
    var asgs: map<string, int>
    ghost var writes: seq<Write>

    constructor (c: State)
      ensures Value() == c
    {
      hpas, deployments, replicaSets := c.hpas, c.deployments, c.replicaSets;
      pods, asgs, writes := c.pods, c.asgs, c.writes;
    }

    ghost function Value(): State
      reads this
    {
      State(hpas, deployments, replicaSets, pods, asgs, writes)
    }
  }

  /** The non-blank names of a configuration list, trimmed. */
  function Names(names: seq<string>): set<string> {
    set i | 0 <= i < |names| && TrimSpace(names[i]) != "" :: TrimSpace(names[i])
  }

  lemma BlankEnds(l: string, n: string, r: string)
    requires Blank(l) && Blank(r) && n != "" && !White(n[0]) && !White(n[|n| - 1])
    ensures TrimSpace(l + n + r) == n
  {
    hide White, IsSpace, Trim;
    BlankIsSpace(l);
    BlankIsSpace(r);
    WhiteIsSpace(n[0]);
    WhiteIsSpace(n[|n| - 1]);
    TrimAround(l, n, r, IsSpace);
  }

  /** A name is collected exactly if it is not empty, neither begins nor ends with white space, and
      is an entry of the list but for white space around it. */
  lemma CollectsEntries(names: seq<string>, i: nat, l: string, n: string, r: string)
    requires i < |names| && names[i] == l + n + r && Blank(l) && Blank(r)
    requires n != "" && !White(n[0]) && !White(n[|n| - 1])
    ensures n in Names(names)
  {
    hide TrimSpace;
    BlankEnds(l, n, r);
  }

  lemma CollectsOnlyEntries(names: seq<string>, n: string) returns (i: nat, l: string, r: string)
    requires n in Names(names)
    ensures n != "" && i < |names| && names[i] == l + n + r && Blank(l) && Blank(r)
  {
    hide TrimSpace, Blank;
    i :| 0 <= i < |names| && TrimSpace(names[i]) == n;
    var m;
    l, m, r := TrimParts(names[i]);
    BlankIsSpace(l);
    BlankIsSpace(r);
  }

  method CollectNames(names: seq<string>) returns (m: set<string>)
    ensures m == Names(names)
  {
    hide TrimSpace;
    m := {};
    for i := 0 to |names|
      invariant m == Names(names[..i])
    {
      var n := TrimSpace(names[i]);
      assert forall j :: 0 <= j <= i ==> names[..i + 1][j] == names[j];
      if n != "" {
        m := m + {n};
      }
    }
    assert names[..|names|] == names;
  }

  /** The write-scoped Kubernetes client. */
  class RemediatorClient {
    const api: Api
    const guard: Guard

    constructor (api: Api, protected: seq<string>, maxReplicas: Int32)
      ensures this.api == api && guard.protected == Names(protected)
      ensures guard.cap == (if maxReplicas <= 0 then 30 else maxReplicas)
      ensures guard.cap > 0
    {
      var names := CollectNames(protected);
      this.api := api;
      this.guard := Guard(names, if maxReplicas <= 0 then 30 else maxReplicas);
    }

    method PatchHPAMaxReplicas(ns: string, name: string, maxReplicas: Int32, o: Weather) returns (err: Option<Refusal>)
      modifies api
      ensures err.None? <==>
              && ns !in guard.protected && 1 <= maxReplicas <= guard.cap
              && !o.callFails && (ns, name) in old(api.hpas)
      ensures err.None? ==> api.Value() == Accept(old(api.Value()), HpaMax((ns, name), maxReplicas))
      ensures err.None? ==>
                var c, k := old(api.Value()), (ns, name);
                api.Value() == c.(hpas := c.hpas[k := c.hpas[k].(max := maxReplicas)],
                                  writes := c.writes + [HpaMax(k, maxReplicas)])
      ensures err.Some? ==> api.Value() == old(api.Value())
      ensures err.Some? ==>
                err == Some(if ns in guard.protected then ProtectedNamespace
                            else if maxReplicas < 1 then InvalidToolArgs
                            else if maxReplicas > guard.cap then ReplicaCapExceeded
                            else CallFailed)
    {
      if ns in guard.protected {
        return Some(ProtectedNamespace);
      }
      if maxReplicas < 1 {
        return Some(InvalidToolArgs);
      }
      if maxReplicas > guard.cap {
        return Some(ReplicaCapExceeded);
      }
      var k := (ns, name);
      if o.callFails || k !in api.hpas {
        return Some(CallFailed);
      }
      api.hpas := api.hpas[k := api.hpas[k].(max := maxReplicas)];
      api.writes := api.writes + [HpaMax(k, maxReplicas)];
      return None;
    }

    method ScaleDeployment(ns: string, name: string, replicas: Int32, o: Weather) returns (err: Option<Refusal>)
      modifies api
      ensures err.None? <==>
              && ns !in guard.protected && 1 <= replicas <= guard.cap
              && !o.callFails && (ns, name) in old(api.deployments)
      ensures err.None? ==> api.Value() == Accept(old(api.Value()), Scaled((ns, name), replicas))
      ensures err.None? ==>
                var c, k := old(api.Value()), (ns, name);
                api.Value() == c.(deployments := c.deployments[k := c.deployments[k].(replicas := Some(replicas))],
                                  writes := c.writes + [Scaled(k, replicas)])
      ensures err.Some? ==> api.Value() == old(api.Value())
      ensures err.Some? ==>
                err == Some(if ns in guard.protected then ProtectedNamespace
                            else if replicas < 1 then InvalidToolArgs
                            else if replicas > guard.cap then ReplicaCapExceeded
                            else CallFailed)
    {
      if ns in guard.protected {
        return Some(ProtectedNamespace);
      }
      if replicas < 1 {
        return Some(InvalidToolArgs);
      }
      if replicas > guard.cap {
        return Some(ReplicaCapExceeded);
      }
      var k := (ns, name);
      if o.callFails || k !in api.deployments {
        return Some(CallFailed);
      }
      api.deployments := api.deployments[k := api.deployments[k].(replicas := Some(replicas))];
      api.writes := api.writes + [Scaled(k, replicas)];
      return None;
    }

    method RestartRollout(ns: string, name: string, o: Weather) returns (err: Option<Refusal>)
      modifies api
      ensures err.None? <==> ns !in guard.protected && !o.callFails && (ns, name) in old(api.deployments)
      ensures err.None? ==> api.Value() == Accept(old(api.Value()), Restarted((ns, name), o.now))
      ensures err.None? ==>
                var c, k := old(api.Value()), (ns, name);
                var d := c.deployments[k];
                api.Value() == c.(deployments := c.deployments[k := d.(template := Template(d.template.spec, o.now))],
                                  writes := c.writes + [Restarted(k, o.now)])
      ensures err.Some? ==> api.Value() == old(api.Value())
      ensures err.Some? ==> err == Some(if ns in guard.protected then ProtectedNamespace else CallFailed)
    {
      if ns in guard.protected {
        return Some(ProtectedNamespace);
      }
      var k := (ns, name);
      if o.callFails || k !in api.deployments {
        return Some(CallFailed);
      }
      var d := api.deployments[k];
      api.deployments := api.deployments[k := d.(template := d.template.(restartedAt := o.now))];
      api.writes := api.writes + [Restarted(k, o.now)];
      return None;
    }

    method RollbackDeployment(ns: string, name: string, o: Weather) returns (err: Option<Refusal>)
      modifies api
      ensures var c, k := old(api.Value()), (ns, name);
              if ns in guard.protected then err == Some(ProtectedNamespace) && api.Value() == c
              else if o.callFails || k !in c.deployments then err == Some(CallFailed) && api.Value() == c
              else
                var prev := Previous(Namespace(c, ns), name, c.deployments[k].uid, o.order);
                if prev.None? then err == Some(InvalidToolArgs) && api.Value() == c
                else
                  var t := prev.value.template;
                  && err == None && api.Value() == Accept(c, RolledBack(k, t))
                  && api.Value() == c.(deployments := c.deployments[k := c.deployments[k].(template := t)],
                                       writes := c.writes + [RolledBack(k, t)])
    {
      hide AnySort, OwnedByDeployment;
      if ns in guard.protected {
        return Some(ProtectedNamespace);
      }
      var k := (ns, name);
      if o.callFails || k !in api.deployments {
        return Some(CallFailed);
      }
      var dep := api.deployments[k];
      var list := if ns in api.replicaSets then api.replicaSets[ns] else [];
      var owned: seq<ReplicaSet> := [];
      for i := 0 to |list|
        invariant owned == Owned(list[..i], name, dep.uid)
      {
        assert list[..i + 1][..i] == list[..i];
        if !OwnedByDeployment(list[i], name, dep.uid) {
          continue;
        }
        owned := owned + [list[i]];
      }
      assert list[..|list|] == list;
      if |owned| < 2 {
        return Some(InvalidToolArgs);
      }
      owned := AnySort(owned, NewerRevision, o.order);
      var prev := owned[1];
      api.deployments := api.deployments[k := dep.(template := prev.template)];
      api.writes := api.writes + [RolledBack(k, prev.template)];
      return None;
    }

    method DeleteCrashLoopPod(ns: string, name: string, o: Weather) returns (err: Option<Refusal>)
      modifies api
      ensures var c, k := old(api.Value()), (ns, name);
              if ns in guard.protected then err == Some(ProtectedNamespace) && api.Value() == c
              else if o.callFails || k !in c.pods then err == Some(CallFailed) && api.Value() == c
              else if !(exists x :: x in c.pods[k].containers && Loops(x)) then
                err == Some(InvalidToolArgs) && api.Value() == c
              else
                && err == None && api.Value() == Accept(c, PodDeleted(k))
                && api.Value() == c.(pods := map q | q in c.pods && q != k :: c.pods[q],
                                     writes := c.writes + [PodDeleted(k)])
    {
      if ns in guard.protected {
        return Some(ProtectedNamespace);
      }
      var k := (ns, name);
      if o.callFails || k !in api.pods {
        return Some(CallFailed);
      }
      CrashLoopExactly(api.pods[k]);
      if !IsCrashLoop(api.pods[k]) {
        return Some(InvalidToolArgs);
      }
      api.pods := api.pods - {k};
      api.writes := api.writes + [PodDeleted(k)];
      return None;
    }
  }

  /** The AWS client: it writes the desired capacity and then reads the group back. */
  class AwsClient {
    const api: Api

    constructor (api: Api)
      ensures this.api == api
    {
      this.api := api;
    }

    method UpdateASGDesiredCapacity(name: string, desired: Int32, o: Weather) returns (err: Option<Refusal>)
      modifies api
      ensures var c := old(api.Value());
              var wrote := 0 <= desired <= 30 && !o.callFails && name in c.asgs;
              && api.Value() == (if wrote then Accept(c, AsgDesired(name, desired)) else c)
              && api.Value() == (if !wrote then c else
                                 c.(asgs := c.asgs[name := desired], writes := c.writes + [AsgDesired(name, desired)]))
              && err == (if desired < 0 then Some(InvalidToolArgs)
                         else if desired > 30 then Some(ReplicaCapExceeded)
                         else if wrote && !o.readBackFails then None else Some(CallFailed))
    {
      if desired < 0 {
        return Some(InvalidToolArgs);
      }
      if desired > MAX_ASG {
        return Some(ReplicaCapExceeded);
      }
      if o.callFails || name !in api.asgs {
        return Some(CallFailed);
      }
      api.asgs := api.asgs[name := desired];
      api.writes := api.writes + [AsgDesired(name, desired)];
      if o.readBackFails {
        return Some(CallFailed);
      }
      return None;
    }
  }

  // ----- Safety of writes -----

  /** A write within the guards. */
  predicate SafeWrite(x: Wiring, w: Write) {
    match w
    case AsgDesired(_, n) => x.aws && 0 <= n <= 30
    case HpaMax(k, n) => x.k8s.Some? && k.0 !in x.k8s.value.protected && 1 <= n <= x.k8s.value.cap
    case Scaled(k, n) => x.k8s.Some? && k.0 !in x.k8s.value.protected && 1 <= n <= x.k8s.value.cap
    case Restarted(k, _) => x.k8s.Some? && k.0 !in x.k8s.value.protected
    case RolledBack(k, _) => x.k8s.Some? && k.0 !in x.k8s.value.protected
    case PodDeleted(k) => x.k8s.Some? && k.0 !in x.k8s.value.protected
  }

  /** The write touches the object the step names, and is of the step's kind. */
  predicate Fits(step: ActionStep, w: Write) {
    var k := Named(step);
    match step.tool
    case PatchHPAMaxReplicas => w.HpaMax? && w.key == k && w.max == ArgInt32(step.args, "max_replicas")
    case ScaleDeployment => w.Scaled? && w.key == k && w.replicas == ArgInt32(step.args, "replicas")
    case RestartRollout => w.Restarted? && w.key == k
    case RollbackDeployment => w.RolledBack? && w.key == k
    case DeleteCrashLoopPod => w.PodDeleted? && w.key == k
    case UpdateASGDesired => w.AsgDesired? && w.name == k.1 && w.desired == ArgInt32(step.args, "desired_capacity")
    case OtherTool(_) => false
  }

  /** Whatever the arguments: a step makes at most one write, within the guards, to the
      object it names; and only an ASG step may both write and report an error. */
  lemma StepIsSafe(x: Wiring, c: State, step: ActionStep, o: Weather)
    ensures var c' := After(x, c, step, o);
            || c' == c
            || (exists w :: c' == Accept(c, w) && SafeWrite(x, w) && Fits(step, w))
    ensures Error(x, c, step, o).None? ==> After(x, c, step, o).writes != c.writes
    ensures Error(x, c, step, o).Some? && After(x, c, step, o) != c ==> step.tool.UpdateASGDesired?
  {
    hide Previous, IsCrashLoop, ArgInt32, ArgString;
    var d := Decide(x, c, step, o);
    if d.Do? {
      assert SafeWrite(x, d.w) && Fits(step, d.w);
      assert After(x, c, step, o) == Accept(c, d.w);
    }
  }

  ghost predicate AgreeExcept<K, V>(a: map<K, V>, b: map<K, V>, k: K) {
    a - {k} == b - {k}
  }

  /** Everything but the object `k`, and all kinds but the tool's, is as it was. */
  ghost predicate OnlyNamed(tool: Tool, k: Key, c: State, d: State) {
    && (if tool.PatchHPAMaxReplicas? then AgreeExcept(c.hpas, d.hpas, k) else c.hpas == d.hpas)
    && (if tool.ScaleDeployment? || tool.RestartRollout? || tool.RollbackDeployment?
        then AgreeExcept(c.deployments, d.deployments, k)
        else c.deployments == d.deployments)
    && (if tool.DeleteCrashLoopPod? then AgreeExcept(c.pods, d.pods, k) else c.pods == d.pods)
    && (if tool.UpdateASGDesired? then AgreeExcept(c.asgs, d.asgs, k.1) else c.asgs == d.asgs)
    && c.replicaSets == d.replicaSets
  }

  lemma ExceptUpdate<K, V>(m: map<K, V>, k: K, v: V)
    ensures AgreeExcept(m, m[k := v], k) && AgreeExcept(m, m - {k}, k) && AgreeExcept(m, m, k)
  {
  }

  lemma AcceptFrame(c: State, step: ActionStep, w: Write)
    requires Fits(step, w)
    ensures OnlyNamed(step.tool, Named(step), c, Accept(c, w))
  {
    hide Named, ArgInt32, AgreeExcept;
    match w
    case HpaMax(k, n) => ExceptUpdate(c.hpas, k, if k in c.hpas then c.hpas[k].(max := n) else HPA(n, 0, "", ""));
    case AsgDesired(name, n) => ExceptUpdate(c.asgs, name, n);
    case PodDeleted(k) => ExceptUpdate(c.pods, k, Pod([], false, []));
    case _ =>
      var d := Accept(c, w).deployments;
      if w.key in c.deployments {
        ExceptUpdate(c.deployments, w.key, d[w.key]);
      } else {
        ExceptUpdate(c.deployments, w.key, Deployment("", None, 0, 0, Template("", "")));
      }
  }

  /** A step leaves every object but the one it names as it was, whatever its outcome. */
  lemma StepFrame(x: Wiring, c: State, step: ActionStep, o: Weather)
    ensures OnlyNamed(step.tool, Named(step), c, After(x, c, step, o))
  {
    hide After, Error, SafeWrite, Fits, Accept, Named;
    StepIsSafe(x, c, step, o);
    if After(x, c, step, o) != c {
      var w :| After(x, c, step, o) == Accept(c, w) && SafeWrite(x, w) && Fits(step, w);
      AcceptFrame(c, step, w);
    }
  }

  ghost predicate AgreeIn<V>(a: map<Key, V>, b: map<Key, V>, ns: string) {
    forall k: Key :: k.0 == ns ==> (k in a <==> k in b) && (k in a ==> a[k] == b[k])
  }

  /** The two states agree on everything in namespace `ns`. */
  ghost predicate SameNamespace(c: State, d: State, ns: string) {
    && AgreeIn(c.hpas, d.hpas, ns)
    && AgreeIn(c.deployments, d.deployments, ns)
    && AgreeIn(c.pods, d.pods, ns)
    && Namespace(c, ns) == Namespace(d, ns)
  }

  /** Every size is the one in `c`, or within its cap. */
  ghost predicate HpasWithin(x: Wiring, a: map<Key, HPA>, b: map<Key, HPA>) {
    forall k :: k in b ==> k in a && (b[k].max == a[k].max || (x.k8s.Some? && 1 <= b[k].max <= x.k8s.value.cap))
  }

  ghost predicate DeploymentsWithin(x: Wiring, a: map<Key, Deployment>, b: map<Key, Deployment>) {
    forall k :: k in b ==>
      && k in a
      && (b[k].replicas == a[k].replicas
          || (x.k8s.Some? && b[k].replicas.Some? && 1 <= b[k].replicas.value <= x.k8s.value.cap))
  }

  ghost predicate AsgsWithin(a: map<string, int>, b: map<string, int>) {
    forall n :: n in b ==> (n in a && b[n] == a[n]) || 0 <= b[n] <= 30
  }

  ghost predicate WithinCaps(x: Wiring, c: State, d: State) {
    HpasWithin(x, c.hpas, d.hpas) && DeploymentsWithin(x, c.deployments, d.deployments) && AsgsWithin(c.asgs, d.asgs)
  }

  lemma AgreeAfterUpdate<V>(a: map<Key, V>, b: map<Key, V>, ns: string, k: Key, v: V)
    requires AgreeIn(a, b, ns) && k.0 != ns
    ensures AgreeIn(a, b[k := v], ns) && AgreeIn(a, b - {k}, ns)
  {
  }

  lemma AcceptKeepsNamespace(x: Wiring, c: State, d: State, w: Write, ns: string)
    requires SafeWrite(x, w) && x.k8s.Some? && ns in x.k8s.value.protected
    requires SameNamespace(c, d, ns)
    ensures SameNamespace(c, Accept(d, w), ns)
  {
    hide AgreeIn;
    var e := Accept(d, w);
    match w
    case HpaMax(k, n) =>
      if k in d.hpas {
        AgreeAfterUpdate(c.hpas, d.hpas, ns, k, e.hpas[k]);
      }
    case PodDeleted(k) =>
      if k in d.pods {
        AgreeAfterUpdate(c.pods, d.pods, ns, k, d.pods[k]);
      } else {
        assert e.pods == d.pods;
      }
    case AsgDesired(name, n) =>
    case _ =>
      if w.key in d.deployments {
        AgreeAfterUpdate(c.deployments, d.deployments, ns, w.key, e.deployments[w.key]);
      }
  }

  lemma AcceptKeepsHpas(x: Wiring, c: State, d: State, w: Write)
    requires SafeWrite(x, w) && HpasWithin(x, c.hpas, d.hpas)
    ensures HpasWithin(x, c.hpas, Accept(d, w).hpas)
  {
  }

  lemma AcceptKeepsDeployments(x: Wiring, c: State, d: State, w: Write)
    requires SafeWrite(x, w) && DeploymentsWithin(x, c.deployments, d.deployments)
    ensures DeploymentsWithin(x, c.deployments, Accept(d, w).deployments)
  {
  }

  lemma AcceptKeepsAsgs(x: Wiring, c: State, d: State, w: Write)
    requires SafeWrite(x, w) && AsgsWithin(c.asgs, d.asgs)
    ensures AsgsWithin(c.asgs, Accept(d, w).asgs)
  {
  }

  lemma AcceptKeepsCaps(x: Wiring, c: State, d: State, w: Write)
    requires SafeWrite(x, w) && WithinCaps(x, c, d)
    ensures WithinCaps(x, c, Accept(d, w))
  {
    hide HpasWithin, DeploymentsWithin, AsgsWithin, Accept, SafeWrite;
    AcceptKeepsHpas(x, c, d, w);
    AcceptKeepsDeployments(x, c, d, w);
    AcceptKeepsAsgs(x, c, d, w);
  }

  /** Any run of safe writes leaves protected namespaces alone and every size within its cap. */
  lemma {:induction false} SafeWritesAreSafe(x: Wiring, c: State, ws: seq<Write>, ns: string)
    requires forall w :: w in ws ==> SafeWrite(x, w)
    ensures x.k8s.Some? && ns in x.k8s.value.protected ==> SameNamespace(c, Replay(c, ws), ns)
    ensures WithinCaps(x, c, Replay(c, ws))
  {
    if ws != [] {
      var n := |ws| - 1;
      SafeWritesAreSafe(x, c, ws[..n], ns);
      assert ws[n] in ws;
      hide SameNamespace, WithinCaps, SafeWrite, Accept;
      AcceptKeepsCaps(x, c, Replay(c, ws[..n]), ws[n]);
      if x.k8s.Some? && ns in x.k8s.value.protected {
        AcceptKeepsNamespace(x, c, Replay(c, ws[..n]), ws[n], ns);
      }
    }
  }

  lemma AcceptRecords(c: State, w: Write)
    ensures Accept(c, w).writes == c.writes + [w]
  {
  }

  lemma {:induction false} ReplayWrites(c: State, ws: seq<Write>)
    ensures Replay(c, ws).writes == c.writes + ws
  {
    hide Accept;
    if ws == [] {
      assert c.writes + [] == c.writes;
    } else {
      ReplayWrites(c, ws[..|ws| - 1]);
      AcceptRecords(Replay(c, ws[..|ws| - 1]), ws[|ws| - 1]);
      assert c.writes + ws == c.writes + ws[..|ws| - 1] + [ws[|ws| - 1]];
    }
  }
}
