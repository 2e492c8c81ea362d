/** Values of the domain layer: risk levels, action plans, runbooks, incidents. */
module Domain {
  import opened Text

  datatype Option<+T> = None | Some(value: T)

  /** A RiskLevel string: the two constants of the domain, or any other text. */
  datatype RiskLevel = AutoRemediate | RequiresApproval | OtherRisk(text: string)

  function RiskText(r: RiskLevel): string {
    match r
    case AutoRemediate => "auto_remediate"
    case RequiresApproval => "requires_approval"
    case OtherRisk(text) => text
  }

  function ParseRiskLevel(raw: string): Option<RiskLevel> {
    var s := ToLower(TrimSpace(raw));
    if s in {"auto_remediate", "auto", "low"} then Some(AutoRemediate)
    else if s in {"requires_approval", "approval", "high", "medium"} then Some(RequiresApproval)
    else None
  }

  datatype Tool =
    | PatchHPAMaxReplicas
    | UpdateASGDesired
    | RestartRollout
    | RollbackDeployment
    | ScaleDeployment
    | DeleteCrashLoopPod
    | OtherTool(name: string)

  type Int32 = x: int | -0x8000_0000 <= x < 0x8000_0000

  /** The dynamic type of one argument. `platform` is what the processor yields when
      a float64 outside the int32 range is converted. */
  datatype ArgValue =
    | StringArg(s: string)
    | Float64Arg(v: real, platform: Int32)
    | IntArg(n: int)
    | JsonNumberArg(int64: int)
    | OtherArg

  type Args = map<string, ArgValue>

  function ArgString(args: Args, key: string): string {
    if key in args && args[key].StringArg? then args[key].s else ""
  }

  /** The low 32 bits of `n`, read as a signed number. */
  function Wrap32(n: int): (r: Int32)
    ensures (r - n) % 0x1_0000_0000 == 0
  {
    (n + 0x8000_0000) % 0x1_0000_0000 - 0x8000_0000
  }

  function Truncate(v: real): int {
    if v >= 0.0 then v.Floor else -((-v).Floor)
  }

  function ArgInt32(args: Args, key: string): Int32 {
    if key !in args then 0
    else
      match args[key]
      case Float64Arg(v, platform) =>
        var t := Truncate(v);
        if -0x8000_0000 <= t < 0x8000_0000 then t else platform
      case IntArg(n) => Wrap32(n)
      case JsonNumberArg(n) => Wrap32(n)
      case StringArg(_) => 0
      case OtherArg => 0
  }

  /** `s` is the string argument under this key, or empty when there is none. */
  predicate TextArg(args: Args, key: string, s: string) {
    if key in args && args[key].StringArg? then args[key] == StringArg(s) else s == ""
  }

  /** `n` is the number a step is given under this key: a float loses its fraction, a wide integer
      its high bits, and anything else counts as zero. */
  predicate NumberArg(args: Args, key: string, n: int) {
    && -2147483648 <= n <= 2147483647
    && if key !in args then n == 0
       else
         match args[key]
         case Float64Arg(v, platform) =>
           if v <= -2147483649.0 || v >= 2147483648.0 then n == platform
           else (if v < 0.0 then v <= n as real <= 0.0 else 0.0 <= n as real <= v) && -1.0 < v - n as real < 1.0
         case IntArg(m) => (n - m) % 4294967296 == 0
         case JsonNumberArg(m) => (n - m) % 4294967296 == 0
         case _ => n == 0
  }

  lemma TextArgExactly(args: Args, key: string, s: string)
    ensures TextArg(args, key, s) <==> s == ArgString(args, key)
  {
  }

  lemma TruncateToward(v: real, n: int)
    ensures v >= 0.0 ==> (n == Truncate(v) <==> 0.0 <= n as real <= v && v - n as real < 1.0)
    ensures v < 0.0 ==> (n == Truncate(v) <==> v <= n as real <= 0.0 && n as real - v < 1.0)
  {
    if v >= 0.0 {
      assert n as real <= v < n as real + 1.0 ==> n == v.Floor;
    } else {
      assert n as real - 1.0 < v <= n as real ==> -n == (-v).Floor;
    }
  }

  lemma WrapUnique(m: int, n: int)
    requires -2147483648 <= n <= 2147483647
    ensures (n - m) % 4294967296 == 0 <==> n == Wrap32(m)
  {
  }

  /** The number a step is given, whatever the dynamic type of its argument. */
  lemma NumberArgExactly(args: Args, key: string, n: int)
    ensures NumberArg(args, key, n) <==> n == ArgInt32(args, key)
  {
    hide Truncate, Wrap32;
    if key in args && -2147483648 <= n <= 2147483647 {
      match args[key]
      case Float64Arg(v, _) =>
        TruncateToward(v, n);
        TruncateToward(v, Truncate(v));
      case IntArg(m) => WrapUnique(m, n);
      case JsonNumberArg(m) => WrapUnique(m, n);
      case _ =>
    }
  }

  /** Decoded as a float, an integer or a JSON number, an int32 is passed on as it is. */
  lemma NumbersArePassedOn(args: Args, key: string, n: Int32)
    requires key in args
    requires || args[key] == IntArg(n) || args[key] == JsonNumberArg(n)
             || (args[key].Float64Arg? && args[key].v == n as real)
    ensures ArgInt32(args, key) == n
  {
    NumberArgExactly(args, key, n);
  }

  datatype ActionStep = ActionStep(tool: Tool, args: Args)

  /** The namespace and the name a step gives. */
  predicate Denotes(step: ActionStep, ns: string, name: string) {
    TextArg(step.args, "namespace", ns) && TextArg(step.args, "name", name)
  }

  datatype ActionPlan = ActionPlan(risk: RiskLevel, confidence: real, runbookId: string, steps: seq<ActionStep>)

  /** Policy on top of the suggested risk level. */
  predicate CanAutoRemediate(p: ActionPlan) {
    && p.steps != []
    && p.risk == AutoRemediate
    && p.confidence >= 0.7
    && forall i :: 0 <= i < |p.steps| ==> p.steps[i].tool == PatchHPAMaxReplicas
  }

  datatype Runbook = Runbook(id: string, title: string, risk: RiskLevel, matchLabels: map<string, string>, body: string)

  predicate Matches(rb: Runbook, labels: map<string, string>) {
    && |rb.matchLabels| != 0
    && forall k :: k in rb.matchLabels ==>
         && k in labels
         && (rb.matchLabels[k] == "" || EqualFold(labels[k], rb.matchLabels[k]))
  }

  function Matching(books: seq<Runbook>, labels: map<string, string>): (r: seq<Runbook>)
    ensures forall rb :: rb in r <==> rb in books && Matches(rb, labels)
  {
    if books == [] then []
    else
      var n := |books| - 1;
      Matching(books[..n], labels) + if Matches(books[n], labels) then [books[n]] else []
  }

  /** The matching runbooks keep the order of the list, each as often as it is there. */
  lemma MatchingOneMore(books: seq<Runbook>, rb: Runbook, labels: map<string, string>)
    ensures Matching([], labels) == []
    ensures Matching(books + [rb], labels) == Matching(books, labels) + if Matches(rb, labels) then [rb] else []
  {
    hide Matches;
    assert (books + [rb])[..|books|] == books;
  }

  datatype Status = Investigating | AwaitingApproval | Executing | Resolved | Failed

  predicate Terminal(s: Status) {
    s == Resolved || s == Failed
  }

  type Id = string

  datatype Incident = Incident(id: Id, status: Status, risk: RiskLevel, plan: Option<ActionPlan>,
                               labels: map<string, string>)

  /** The audit actions the service writes. */
  datatype Action =
    | Ingested | HandlingFailed | Planned | AwaitingHuman | Approved | Rejected | FollowedUp
    | HealthVerified | AutoRemediated | ApprovedResolved | ExecutionFailed | VerificationFailed

  datatype AuditRecord = AuditRecord(id: Id, actor: string, action: Action)
}
