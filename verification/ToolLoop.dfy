/** The investigator: a bounded loop of model calls and tool calls that ends in a plan. The
    model, the tools' answers and the JSON decoders are arbitrary. */
module ToolLoop {
  import opened Text
  import opened Domain
  import opened Policy

  const MAX_TOOL_ITERATIONS: nat := 8

  const K8S_DEFS: seq<string> := [
    "get_pod", "list_pods", "get_deployment", "list_events", "get_pod_logs", "get_hpa", "list_hpas",
    "list_replicaset_revisions"]
  const AWS_DEFS: seq<string> := ["describe_eks_cluster", "get_cloudwatch_metric", "describe_asg"]
  const GITHUB_COMPARE := "github_compare"
  const GET_ARGO_APPLICATION := "get_argo_application"
  const PATCH_HPA := "patch_hpa_max_replicas"
  const UPDATE_ASG := "update_asg_desired_capacity"

  // ----- Messages -----

  datatype FunctionCall = FunctionCall(name: string, arguments: string)
  datatype ToolCall = ToolCall(id: string, fn: Option<FunctionCall>)
  datatype Choice = Choice(content: string, calls: seq<ToolCall>)

  datatype Part =
    | TextPart(text: string)
    | CallPart(call: ToolCall)
    | ResponsePart(id: string, name: string, content: string)
  datatype Role = SystemRole | HumanRole | AiRole | ToolRole
  datatype Message = Message(role: Role, parts: seq<Part>)

  function CallsIn(parts: seq<Part>): seq<ToolCall> {
    if parts == [] then []
    else
      var n := |parts| - 1;
      CallsIn(parts[..n]) + if parts[n].CallPart? then [parts[n].call] else []
  }

  function NameOf(tc: ToolCall): string {
    if tc.fn.None? then "" else tc.fn.value.name
  }

  /** Message `k` answers call `tc`. */
  predicate Answers(m: Message, tc: ToolCall) {
    && m.role == ToolRole && |m.parts| == 1
    && m.parts[0].ResponsePart? && m.parts[0].id == tc.id && m.parts[0].name == NameOf(tc)
  }

  /** The assistant's message at `i` is followed directly by one response per call, in order. */
  predicate CallsAnswered(ms: seq<Message>, i: nat)
    requires i < |ms|
  {
    var calls := CallsIn(ms[i].parts);
    && i + |calls| < |ms|
    && (forall j :: 0 <= j < |calls| ==> Answers(ms[i + 1 + j], calls[j]))
    && (i + |calls| + 1 < |ms| ==> ms[i + |calls| + 1].role != ToolRole)
  }

  /** The response at `i` belongs to an assistant's message before it. */
  predicate BelongsToACall(ms: seq<Message>, i: nat)
    requires i < |ms|
  {
    exists a :: 0 <= a < i && ms[a].role == AiRole && i - a <= |CallsIn(ms[a].parts)|
  }

  /** Every assistant message with tool calls is followed directly by exactly one response per
      call, with the same ids in the same order, and there are no other responses. */
  predicate Answered(ms: seq<Message>) {
    && (forall i :: 0 <= i < |ms| && ms[i].role == AiRole ==> CallsAnswered(ms, i))
    && (forall i :: 0 <= i < |ms| && ms[i].role == ToolRole ==> BelongsToACall(ms, i))
  }

  /** The text, if there is any, then the calls. */
  predicate Spoken(parts: seq<Part>, choice: Choice) {
    && CallsIn(parts) == choice.calls
    && |parts| == |choice.calls| + (if choice.content != "" then 1 else 0)
    && (choice.content != "" ==> parts[0] == TextPart(choice.content))
  }

  /** One turn: the assistant's message, then the responses. */
  ghost predicate IsTurn(block: seq<Message>, choice: Choice) {
    && |block| == 1 + |choice.calls|
    && block[0].role == AiRole && Spoken(block[0].parts, choice)
    && forall j :: 0 <= j < |choice.calls| ==> Answers(block[1 + j], choice.calls[j])
  }

  lemma StillBelongs(ms: seq<Message>, block: seq<Message>, choice: Choice, i: nat)
    requires Answered(ms) && IsTurn(block, choice) && i < |ms + block| && (ms + block)[i].role == ToolRole
    ensures BelongsToACall(ms + block, i)
  {
    hide CallsIn, Answers, Spoken, CallsAnswered;
    var all, n := ms + block, |ms|;
    if i < n {
      assert BelongsToACall(ms, i);
      var a :| 0 <= a < i && ms[a].role == AiRole && i - a <= |CallsIn(ms[a].parts)|;
      assert all[a] == ms[a];
    } else {
      TurnShape(block, choice);
      assert all[n] == block[0] && all[i] == block[i - n];
    }
  }

  lemma StillAnswered(ms: seq<Message>, block: seq<Message>, choice: Choice, i: nat)
    requires Answered(ms) && IsTurn(block, choice) && i < |ms + block| && (ms + block)[i].role == AiRole
    ensures CallsAnswered(ms + block, i)
  {
    hide CallsIn, Answers, BelongsToACall;
    var all, n := ms + block, |ms|;
    if i < n {
      assert all[i] == ms[i] && CallsAnswered(ms, i);
      TurnShape(block, choice);
      var calls := CallsIn(ms[i].parts);
      forall j | 0 <= j < |calls| ensures Answers(all[i + 1 + j], calls[j]) {
        assert all[i + 1 + j] == ms[i + 1 + j];
      }
    } else {
      assert all[i] == block[i - n];
      OnlyTheFirstSpeaks(block, choice);
      assert i == n;
      forall j | 0 <= j < |choice.calls| ensures Answers(all[n + 1 + j], choice.calls[j]) {
        assert all[n + 1 + j] == block[1 + j];
      }
    }
  }

  lemma TurnShape(block: seq<Message>, choice: Choice)
    requires IsTurn(block, choice)
    ensures block[0].role == AiRole && |CallsIn(block[0].parts)| == |choice.calls| == |block| - 1
  {
    hide CallsIn;
  }

  lemma OnlyTheFirstSpeaks(block: seq<Message>, choice: Choice)
    requires IsTurn(block, choice)
    ensures forall k :: 1 <= k < |block| ==> block[k].role == ToolRole
  {
    hide CallsIn, Spoken;
    forall k | 1 <= k < |block| ensures block[k].role == ToolRole {
      assert Answers(block[1 + (k - 1)], choice.calls[k - 1]);
    }
  }

  lemma TurnKeepsAnswered(ms: seq<Message>, block: seq<Message>, choice: Choice)
    requires Answered(ms) && IsTurn(block, choice)
    ensures Answered(ms + block)
  {
    hide CallsAnswered, BelongsToACall, IsTurn;
    var all := ms + block;
    forall i | 0 <= i < |all| && all[i].role == ToolRole ensures BelongsToACall(all, i) {
      StillBelongs(ms, block, choice, i);
    }
    forall i | 0 <= i < |all| && all[i].role == AiRole ensures CallsAnswered(all, i) {
      StillAnswered(ms, block, choice, i);
    }
  }

  /** What the model is sent is well formed whenever it is the prompt and completed turns. */
  lemma PromptIsAnswered(system: string, user: string)
    ensures Answered(Prompt(system, user))
  {
  }

  function Prompt(system: string, user: string): seq<Message> {
    [Message(SystemRole, [TextPart(system)]), Message(HumanRole, [TextPart(user)])]
  }

  /** A message that is nothing but the response to this call, with some content. */
  predicate Response(m: Message, tc: ToolCall) {
    && m.role == ToolRole && |m.parts| == 1 && m.parts[0].ResponsePart?
    && m.parts == [ResponsePart(tc.id, match tc.fn case None => "" case Some(fn) => fn.name, m.parts[0].content)]
  }

  /** A turn, message by message: what the model said, its text before its calls, and then for each
      call, in order, a message that carries the id and the name of that call. */
  lemma TurnTells(block: seq<Message>, choice: Choice)
    requires IsTurn(block, choice)
    ensures |block| == 1 + |choice.calls|
    ensures block[0].role == AiRole
    ensures block[0].parts == (if choice.content == "" then [] else [TextPart(choice.content)])
                              + seq(|choice.calls|, i requires 0 <= i < |choice.calls| => CallPart(choice.calls[i]))
    ensures forall j :: 0 <= j < |choice.calls| ==> Response(block[1 + j], choice.calls[j])
  {
    hide CallsIn;
    var parts, k := block[0].parts, if choice.content == "" then 0 else 1;
    CallsOnly(parts[..k], parts[k..]);
    assert parts == parts[..k] + parts[k..];
    NoCalls(choice.content);
    assert parts[..k] == if choice.content == "" then [] else [TextPart(choice.content)];
    assert CallsIn(parts[..k]) == [];
    assert parts[k..] == seq(|choice.calls|, i requires 0 <= i < |choice.calls| => CallPart(choice.calls[i]));
    forall j | 0 <= j < |choice.calls|
      ensures Response(block[1 + j], choice.calls[j])
    {
      assert Answers(block[1 + j], choice.calls[j]);
      var p := block[1 + j].parts[0];
      assert block[1 + j].parts == [ResponsePart(p.id, p.name, p.content)];
    }
  }

  lemma NoCalls(text: string)
    ensures CallsIn([]) == [] && CallsIn([TextPart(text)]) == []
  {
    assert [TextPart(text)][..0] == [];
  }

  /** If every part of a message but the first few is needed to hold its calls, each is one. */
  lemma {:induction false} CallsOnly(head: seq<Part>, rest: seq<Part>)
    ensures |CallsIn(head + rest)| <= |CallsIn(head)| + |rest|
    ensures |CallsIn(head + rest)| == |CallsIn(head)| + |rest| ==>
              rest == seq(|rest|, i requires 0 <= i < |rest| => CallPart(CallsIn(head + rest)[|CallsIn(head)| + i]))
              && CallsIn(head) <= CallsIn(head + rest)
  {
    if rest == [] {
      assert head + rest == head;
    } else {
      var n := |rest| - 1;
      CallsOnly(head, rest[..n]);
      assert (head + rest)[..|head| + n] == head + rest[..n];
    }
  }

  lemma PromptTells(system: string, user: string)
    ensures Prompt(system, user) == [Message(SystemRole, [TextPart(system)]), Message(HumanRole, [TextPart(user)])]
  {
  }

  method ToolCallParts(choice: Choice) returns (parts: seq<Part>)
    ensures Spoken(parts, choice)
  {
    parts := [];
    if choice.content != "" {
      parts := parts + [TextPart(choice.content)];
    }
    ghost var head := parts;
    for i := 0 to |choice.calls|
      invariant |parts| == |head| + i && head <= parts
      invariant CallsIn(parts) == choice.calls[..i]
    {
      var more := parts + [CallPart(choice.calls[i])];
      assert more[..|parts|] == parts;
      parts := more;
    }
  }

  // ----- The tools -----

  datatype Port = K8sReads | AwsReads | GitHubReads | ArgoReads | K8sWrites | AwsWrites

  predicate Investigative(p: Port) {
    !p.K8sWrites? && !p.AwsWrites?
  }

  /** One use of a port. */
  datatype Use = Use(port: Port, tool: string, args: Args)

  datatype Reply = Result(text: string) | Failure(text: string)

  /** The systems behind the ports, and the decoder of tool arguments. */
  class Backends {
    const decode: string -> Option<Args>
    ghost var log: seq<Use>

    constructor (decode: string -> Option<Args>)
      ensures this.decode == decode && log == []
    {
      this.decode := decode;
      log := [];
    }

    function Arguments(text: string): Option<Args> {
      if text == "" then Some(map[]) else decode(text)
    }

    method Ask(port: Port, tool: string, args: Args) returns (r: Reply)
      modifies this
      ensures log == old(log) + [Use(port, tool, args)]
    {
      log := log + [Use(port, tool, args)];
      r := *;
    }
  }

  class K8sExecutor {
    const back: Backends
    const remediator: bool

    constructor (back: Backends, remediator: bool)
      ensures this.back == back && this.remediator == remediator
    {
      this.back, this.remediator := back, remediator;
    }

    method Call(name: string, arguments: string) returns (r: Reply)
      modifies back
      ensures var args := back.Arguments(arguments);
              back.log == old(back.log) +
                if args.None? then []
                else if name in K8S_DEFS then [Use(K8sReads, name, args.value)]
                else if name == PATCH_HPA && remediator then [Use(K8sWrites, name, args.value)]
                else []
    {
      var args := back.Arguments(arguments);
      if args.None? {
        return Failure("invalid tool arguments");
      }
      if name in K8S_DEFS {
        r := back.Ask(K8sReads, name, args.value);
      } else if name == PATCH_HPA {
        if !remediator {
          return Failure("remediator not bound");
        }
        r := back.Ask(K8sWrites, name, args.value);
      } else {
        return Failure("unknown tool");
      }
    }
  }

  class AwsExecutor {
    const back: Backends
    const investigator: bool
    const remediator: bool

    constructor (back: Backends, investigator: bool, remediator: bool)
      ensures this.back == back && this.investigator == investigator && this.remediator == remediator
    {
      this.back, this.investigator, this.remediator := back, investigator, remediator;
    }

    method Call(name: string, arguments: string) returns (r: Reply)
      modifies back
      ensures var args := back.Arguments(arguments);
              back.log == old(back.log) +
                if args.None? then []
                else if name in AWS_DEFS && investigator then [Use(AwsReads, name, args.value)]
                else if name == UPDATE_ASG && remediator then [Use(AwsWrites, name, args.value)]
                else []
    {
      if !investigator && name != UPDATE_ASG {
        return Failure("aws investigator not bound");
      }
      var args := back.Arguments(arguments);
      if args.None? {
        return Failure("invalid tool arguments");
      }
      if name in AWS_DEFS {
        r := back.Ask(AwsReads, name, args.value);
      } else if name == UPDATE_ASG {
        if !remediator {
          return Failure("remediator not bound");
        }
        r := back.Ask(AwsWrites, name, args.value);
      } else {
        return Failure("unknown tool");
      }
    }
  }

  class ChangeExecutor {
    const back: Backends
    const github: bool
    const argo: bool

    constructor (back: Backends, github: bool, argo: bool)
      ensures this.back == back && this.github == github && this.argo == argo
    {
      this.back, this.github, this.argo := back, github, argo;
    }

    method Call(name: string, arguments: string) returns (r: Reply)
      modifies back
      ensures var args := back.Arguments(arguments);
              back.log == old(back.log) +
                if args.None? then []
                else if name == GITHUB_COMPARE && github then [Use(GitHubReads, name, args.value)]
                else if name == GET_ARGO_APPLICATION && argo then [Use(ArgoReads, name, args.value)]
                else []
    {
      var args := back.Arguments(arguments);
      if args.None? {
        return Failure("invalid tool arguments");
      }
      if name == GITHUB_COMPARE {
        if !github {
          return Failure("github investigator not bound");
        }
        r := back.Ask(GitHubReads, name, args.value);
      } else if name == GET_ARGO_APPLICATION {
        if !argo {
          return Failure("argo investigator not bound");
        }
        r := back.Ask(ArgoReads, name, args.value);
      } else {
        return Failure("unknown tool");
      }
    }
  }

  // ----- The model -----

  /** One model call: what it was sent and what it said; None for an error or no choices. */
  datatype Exchange = Exchange(sent: seq<Message>, said: Option<Choice>)

  class Model {
    ghost var talk: seq<Exchange>

    constructor ()
      ensures talk == []
    {
      talk := [];
    }

    method Generate(messages: seq<Message>) returns (choice: Option<Choice>)
      modifies this
      ensures talk == old(talk) + [Exchange(messages, choice)]
    {
      choice := *;
      talk := talk + [Exchange(messages, choice)];
    }
  }

  /** The exchange asked for tools, and so the conversation goes on. */
  predicate GoesOn(x: Exchange) {
    x.said.Some? && x.said.value.calls != []
  }

  /** `next` is `x` as the model saw it, then its answer and the responses. */
  ghost predicate Continues(x: Exchange, next: seq<Message>) {
    GoesOn(x) && x.sent <= next && IsTurn(next[|x.sent|..], x.said.value)
  }

  /** It opens with the prompt, every message list sent is answered, and every exchange but
      the last asked for tools and was continued. */
  ghost predicate Linked(talk: seq<Exchange>, prompt: seq<Message>) {
    && (talk != [] ==> talk[0].sent == prompt)
    && (forall k :: 0 <= k < |talk| ==> Answered(talk[k].sent))
    && (forall k :: 0 < k < |talk| ==> Continues(talk[k - 1], talk[k].sent))
  }

  /** A whole conversation stops early only on an answer that asks for no tools, or a failure. */
  ghost predicate Conversation(talk: seq<Exchange>, prompt: seq<Message>) {
    && 1 <= |talk| <= MAX_TOOL_ITERATIONS && Linked(talk, prompt)
    && (|talk| < MAX_TOOL_ITERATIONS ==> !GoesOn(talk[|talk| - 1]))
  }

  /** `next` is what the model is to be sent after `talk`. */
  ghost predicate Pending(talk: seq<Exchange>, prompt: seq<Message>, next: seq<Message>) {
    && Linked(talk, prompt) && Answered(next)
    && if talk == [] then next == prompt else Continues(talk[|talk| - 1], next)
  }

  lemma AllButTheLast(talk: seq<Exchange>, prompt: seq<Message>)
    requires Linked(talk, prompt) && talk != []
    ensures talk[0].sent == prompt
    ensures forall k :: 0 <= k < |talk| - 1 ==> GoesOn(talk[k])
  {
    hide Answered, IsTurn;
    forall k | 0 <= k < |talk| - 1 ensures GoesOn(talk[k]) {
      assert Continues(talk[k + 1 - 1], talk[k + 1].sent);
    }
  }

  lemma LinkedMore(talk: seq<Exchange>, prompt: seq<Message>, x: Exchange)
    requires Pending(talk, prompt, x.sent)
    ensures Linked(talk + [x], prompt)
  {
    hide Answered, Continues;
    var more := talk + [x];
    forall k | 0 < k < |more| ensures Continues(more[k - 1], more[k].sent) {
      assert more[k - 1] == talk[k - 1];
    }
  }

  // ----- The answer -----

  /** The first and the last position of `c`, or a position outside. */
  function FirstIndex(s: string, c: char): (i: int)
    ensures -1 <= i < |s|
    ensures if i < 0 then c !in s else s[i] == c && c !in s[..i]
  {
    if s == [] then -1
    else if s[0] == c then 0
    else
      var i := FirstIndex(s[1..], c);
      assert i >= 0 ==> s[..i + 1] == [s[0]] + s[1..][..i];
      if i < 0 then -1 else i + 1
  }

  function LastIndex(s: string, c: char): (i: int)
    ensures -1 <= i < |s|
    ensures if i < 0 then c !in s else s[i] == c && c !in s[i + 1..]
  {
    if s == [] then -1
    else if s[|s| - 1] == c then |s| - 1
    else
      var i := LastIndex(s[..|s| - 1], c);
      assert i >= 0 ==> s[i + 1..] == s[..|s| - 1][i + 1..] + [s[|s| - 1]];
      i
  }

  /** The text handed to the JSON decoder. */
  function JsonText(raw: string): string {
    var s := TrimSpace(raw);
    var i, j := FirstIndex(s, '{'), LastIndex(s, '}');
    if 0 <= i < j then s[i..j + 1] else s
  }

  /** The decoder sees exactly the object, whatever prose the model puts around it, as long as
      no `{` comes before it and no `}` after. */
  lemma FindsTheObject(before: string, obj: string, after: string)
    requires |obj| >= 2 && obj[0] == '{' && obj[|obj| - 1] == '}'
    requires '{' !in before && '}' !in after
    ensures JsonText(before + obj + after) == obj
  {
    hide TrimSpace, IsSpace, JsonText, FirstIndex, LastIndex;
    var raw := before + obj + after;
    var l, m, r := TrimParts(raw);
    var p, q := |before|, |before| + |obj| - 1;
    Braces();
    InTheMiddle(l, m, r, p);
    InTheMiddle(l, m, r, q);
    NotBefore(l, m, r, before, obj + after);
    NotAfter(l, m, r, before + obj, after);
    FirstIs(m, '{', p - |l|);
    LastIs(m, '}', q - |l|);
    JsonTextIs(raw, m, p - |l|, q - |l|);
    SliceOfTheMiddle(l, m, r, p, q + 1);
    assert raw[p..q + 1] == obj;
  }

  lemma JsonTextIs(raw: string, m: string, i: nat, j: nat)
    requires m == TrimSpace(raw) && FirstIndex(m, '{') == i && LastIndex(m, '}') == j && i < j
    ensures JsonText(raw) == m[i..j + 1]
  {
    hide TrimSpace, FirstIndex, LastIndex;
  }

  lemma NotBefore(l: string, m: string, r: string, before: string, rest: string)
    requires l + m + r == before + rest && '{' !in before && |l| <= |before| < |l| + |m|
    ensures forall k :: 0 <= k < |before| - |l| ==> m[k] != '{'
  {
    forall k | 0 <= k < |before| - |l| ensures m[k] != '{' {
      assert m[k] == (l + m + r)[|l| + k] == (before + rest)[|l| + k] == before[|l| + k];
    }
  }

  lemma NotAfter(l: string, m: string, r: string, before: string, after: string)
    requires l + m + r == before + after && '}' !in after && |l| < |before| <= |l| + |m|
    ensures forall k :: |before| - 1 - |l| < k < |m| ==> m[k] != '}'
  {
    forall k | |before| - 1 - |l| < k < |m| ensures m[k] != '}' {
      assert m[k] == (l + m + r)[|l| + k] == (before + after)[|l| + k] == after[|l| + k - |before|];
    }
  }

  lemma Braces()
    ensures !IsSpace('{') && !IsSpace('}')
  {
  }

  lemma InTheMiddle(l: string, m: string, r: string, p: nat)
    requires p < |l + m + r| && !IsSpace((l + m + r)[p])
    requires forall c :: c in l || c in r ==> IsSpace(c)
    ensures |l| <= p < |l| + |m| && m[p - |l|] == (l + m + r)[p]
  {
    hide IsSpace;
  }

  lemma SliceOfTheMiddle(l: string, m: string, r: string, p: nat, q: nat)
    requires |l| <= p <= q <= |l| + |m|
    ensures m[p - |l|..q - |l|] == (l + m + r)[p..q]
  {
  }

  lemma FirstIs(s: string, c: char, p: nat)
    requires p < |s| && s[p] == c && forall k :: 0 <= k < p ==> s[k] != c
    ensures FirstIndex(s, c) == p
  {
  }

  lemma LastIs(s: string, c: char, p: nat)
    requires p < |s| && s[p] == c && forall k :: p < k < |s| ==> s[k] != c
    ensures LastIndex(s, c) == p
  {
  }

  /** Without both braces the decoder sees all of the text, trimmed. */
  lemma NoObject(raw: string)
    requires '{' !in raw || '}' !in raw
    ensures JsonText(raw) == TrimSpace(raw)
  {
    hide TrimSpace;
    var l, m, r := TrimParts(raw);
    assert forall c :: c in m ==> c in raw;
  }

  // ----- The investigator -----

  /** The port a tool name stands for, when it is bound: never a remediator. */
  function Bound(name: string, aws: bool, github: bool, argo: bool): Option<Port> {
    if name in K8S_DEFS then Some(K8sReads)
    else if name in AWS_DEFS && aws then Some(AwsReads)
    else if name == GITHUB_COMPARE && github then Some(GitHubReads)
    else if name == GET_ARGO_APPLICATION && argo then Some(ArgoReads)
    else None
  }

  /** The port uses a sequence of tool calls stands for. */
  function Uses(back: Backends, calls: seq<ToolCall>, aws: bool, github: bool, argo: bool): seq<Use> {
    if calls == [] then []
    else
      var n := |calls| - 1;
      Uses(back, calls[..n], aws, github, argo) + UseOf(back, calls[n], aws, github, argo)
  }

  function UseOf(back: Backends, tc: ToolCall, aws: bool, github: bool, argo: bool): seq<Use> {
    if tc.fn.None? then []
    else
      var name, args := tc.fn.value.name, back.Arguments(tc.fn.value.arguments);
      var port := Bound(name, aws, github, argo);
      if port.Some? && args.Some? then [Use(port.value, name, args.value)] else []
  }

  /** Which port each tool name reaches. Arguments that cannot be decoded reach none, and neither
      does any other name. */
  lemma UseOfExactly(back: Backends, tc: ToolCall, aws: bool, github: bool, argo: bool)
    ensures UseOf(back, tc, aws, github, argo) ==
            if tc.fn.None? || (tc.fn.value.arguments != "" && back.decode(tc.fn.value.arguments).None?) then []
            else
              var name := tc.fn.value.name;
              var args := if tc.fn.value.arguments == "" then map[] else back.decode(tc.fn.value.arguments).value;
              if name in {"get_pod", "list_pods", "get_deployment", "list_events", "get_pod_logs", "get_hpa",
                          "list_hpas", "list_replicaset_revisions"} then [Use(K8sReads, name, args)]
              else if aws && name in {"describe_eks_cluster", "get_cloudwatch_metric", "describe_asg"} then
                [Use(AwsReads, name, args)]
              else if github && name == "github_compare" then [Use(GitHubReads, name, args)]
              else if argo && name == "get_argo_application" then [Use(ArgoReads, name, args)]
              else []
  {
  }

  /** All tool calls of a conversation. */
  ghost function AllCalls(talk: seq<Exchange>): seq<ToolCall> {
    if talk == [] then []
    else
      var n := |talk| - 1;
      AllCalls(talk[..n]) + if talk[n].said.Some? then talk[n].said.value.calls else []
  }

  /** Whatever the model asks for, no remediator port is among the uses. */
  lemma {:induction false} UsesOnlyInvestigate(back: Backends, calls: seq<ToolCall>, aws: bool, github: bool,
                                               argo: bool)
    ensures |Uses(back, calls, aws, github, argo)| <= |calls|
    ensures forall u :: u in Uses(back, calls, aws, github, argo) ==> Investigative(u.port)
  {
    if calls != [] {
      var n := |calls| - 1;
      UsesOnlyInvestigate(back, calls[..n], aws, github, argo);
    }
  }

  lemma {:induction false} UsesConcat(back: Backends, a: seq<ToolCall>, b: seq<ToolCall>, aws: bool, github: bool,
                                      argo: bool)
    ensures Uses(back, a + b, aws, github, argo) == Uses(back, a, aws, github, argo) + Uses(back, b, aws, github, argo)
  {
    hide UseOf;
    if b == [] {
      assert a + b == a;
    } else {
      var n := |b| - 1;
      UsesConcat(back, a, b[..n], aws, github, argo);
      assert (a + b)[..|a| + n] == a + b[..n];
    }
  }

  class Client {
    const model: Model
    const back: Backends
    const k8s: K8sExecutor
    const aws: AwsExecutor
    const changes: ChangeExecutor
    const toolIndex: set<string>
    const sanitize: string -> string
    const json: string -> Option<ActionPlan>

    ghost predicate Valid() {
      && k8s.back == back && aws.back == back && changes.back == back
      && !k8s.remediator && !aws.remediator
      && toolIndex == Offered(aws.investigator, changes.github || changes.argo)
    }

    static function Offered(aws: bool, changes: bool): set<string> {
      (set d | d in K8S_DEFS)
      + (if aws then set d | d in AWS_DEFS else {})
      + (if changes then {GITHUB_COMPARE, GET_ARGO_APPLICATION} else {})
    }

    static method Index(defs: seq<string>) returns (idx: set<string>)
      ensures idx == set d | d in defs
    {
      idx := {};
      for i := 0 to |defs|
        invariant idx == set d | d in defs[..i]
      {
        idx := idx + {defs[i]};
      }
      assert defs[..|defs|] == defs;
    }

    /** Only the definitions of bound investigators are offered; remediators are left unbound. */
    constructor (model: Model, back: Backends, aws: bool, github: bool, argo: bool,
                 sanitize: string -> string, json: string -> Option<ActionPlan>)
      ensures Valid()
      ensures this.model == model && this.back == back && this.json == json && this.sanitize == sanitize
      ensures this.aws.investigator == aws && changes.github == github && changes.argo == argo
    {
      var defs := K8S_DEFS;
      if aws {
        defs := defs + AWS_DEFS;
      }
      if github || argo {
        defs := defs + [GITHUB_COMPARE, GET_ARGO_APPLICATION];
      }
      this.model, this.back, this.json, this.sanitize := model, back, json, sanitize;
      var idx := Index(defs);
      this.toolIndex := idx;
      this.k8s := new K8sExecutor(back, false);
      this.aws := new AwsExecutor(back, aws, false);
      this.changes := new ChangeExecutor(back, github, argo);
    }

    function WrapTelemetry(kind: string, body: string): string {
      "<RAW_TELEMETRY kind=\"" + kind + "\">\n" + sanitize(body) + "\n</RAW_TELEMETRY>"
    }

    /** What the model is shown of a tool's answer: never the bare text. */
    function Shown(r: Reply): string {
      WrapTelemetry(if r.Failure? then "tool-error" else "tool-result", r.text)
    }

    method Dispatch(tc: ToolCall) returns (r: Reply)
      requires Valid()
      modifies back
      ensures back.log == old(back.log) + UseOf(back, tc, aws.investigator, changes.github, changes.argo)
    {
      if tc.fn.None? {
        return Failure("empty function call");
      }
      var name, args := tc.fn.value.name, tc.fn.value.arguments;
      if name !in toolIndex {
        return Failure("not an investigator tool");
      }
      if name in AWS_DEFS {
        r := aws.Call(name, args);
      } else if name == GITHUB_COMPARE || name == GET_ARGO_APPLICATION {
        r := changes.Call(name, args);
      } else {
        r := k8s.Call(name, args);
      }
    }

    /** One call and the response to it. */
    method Respond(tc: ToolCall) returns (m: Message)
      requires Valid()
      modifies back
      ensures Answers(m, tc)
      ensures exists r: Reply :: m == Message(ToolRole, [
                ResponsePart(tc.id, if tc.fn.None? then "" else tc.fn.value.name,
                             "<RAW_TELEMETRY kind=\"" + (if r.Failure? then "tool-error" else "tool-result") + "\">\n"
                             + sanitize(r.text) + "\n</RAW_TELEMETRY>")])
      ensures back.log == old(back.log) + UseOf(back, tc, aws.investigator, changes.github, changes.argo)
    {
      hide UseOf, Client.Valid;
      var r := Dispatch(tc);
      m := Message(ToolRole, [ResponsePart(tc.id, NameOf(tc), Shown(r))]);
      assert m.parts[0].content == "<RAW_TELEMETRY kind=\"" + (if r.Failure? then "tool-error" else "tool-result")
                                   + "\">\n" + sanitize(r.text) + "\n</RAW_TELEMETRY>";
    }

    ghost function UsesIn(talk: seq<Exchange>): seq<Use> {
      Uses(back, AllCalls(talk), aws.investigator, changes.github, changes.argo)
    }

    lemma EmptyTalk(prompt: seq<Message>)
      requires Answered(prompt)
      ensures Pending([], prompt, prompt) && UsesIn([]) == []
    {
      hide Answered;
    }

    lemma OneMoreExchange(talk: seq<Exchange>, x: Exchange)
      ensures UsesIn(talk + [x]) ==
              UsesIn(talk) +
              if x.said.None? then []
              else Uses(back, x.said.value.calls, aws.investigator, changes.github, changes.argo)
      ensures !GoesOn(x) ==> UsesIn(talk + [x]) == UsesIn(talk)
    {
      hide UseOf;
      assert (talk + [x])[..|talk|] == talk;
      if x.said.None? {
        assert AllCalls(talk) + [] == AllCalls(talk);
      } else {
        UsesConcat(back, AllCalls(talk), x.said.value.calls, aws.investigator, changes.github, changes.argo);
      }
    }

    lemma TurnContinues(x: Exchange, more: seq<Message>)
      requires GoesOn(x) && x.sent <= more && IsTurn(more[|x.sent|..], x.said.value)
      ensures Continues(x, more)
    {
    }

    /** Since `before` and `uses` one whole conversation took place, and the ports used are
        exactly those of its tool calls, none of them a remediator. */
    ghost predicate Conversed(before: seq<Exchange>, uses: seq<Use>, prompt: seq<Message>)
      reads model, back
    {
      && before <= model.talk && uses <= back.log
      && Conversation(model.talk[|before|..], prompt)
      && back.log[|uses|..] == UsesIn(model.talk[|before|..])
      && forall u :: u in back.log[|uses|..] ==> Investigative(u.port)
    }

    lemma Concludes(before: seq<Exchange>, uses: seq<Use>, talk: seq<Exchange>, prompt: seq<Message>)
      requires model.talk == before + talk && back.log == uses + UsesIn(talk) && Conversation(talk, prompt)
      ensures Conversed(before, uses, prompt)
    {
      hide Conversation, AllCalls, Uses, Investigative;
      assert model.talk[|before|..] == talk && back.log[|uses|..] == UsesIn(talk);
      UsesOnlyInvestigate(back, AllCalls(talk), aws.investigator, changes.github, changes.argo);
    }

    static function TextOf(said: Option<Choice>): Option<string> {
      if said.None? then None else Some(said.value.content)
    }

    /** One turn of the loop: the assistant's message, then each call and its response. */
    method Turn(choice: Choice, messages: seq<Message>) returns (more: seq<Message>)
      requires Valid() && Answered(messages)
      modifies back
      ensures messages <= more && IsTurn(more[|messages|..], choice) && Answered(more)
      ensures back.log == old(back.log) + Uses(back, choice.calls, aws.investigator, changes.github, changes.argo)
    {
      hide Answered, Answers, UseOf, Spoken, Client.WrapTelemetry, Client.Valid;
      var parts := ToolCallParts(choice);
      var block := [Message(AiRole, parts)];
      ghost var start := back.log;
      for i := 0 to |choice.calls|
        invariant |block| == 1 + i && block[0] == Message(AiRole, parts)
        invariant forall j :: 0 <= j < i ==> Answers(block[1 + j], choice.calls[j])
        invariant back.log == start + Uses(back, choice.calls[..i], aws.investigator, changes.github, changes.argo)
      {
        var tc := choice.calls[i];
        assert choice.calls[..i + 1][..i] == choice.calls[..i];
        var m := Respond(tc);
        block := block + [m];
      }
      assert choice.calls[..|choice.calls|] == choice.calls;
      TurnKeepsAnswered(messages, block, choice);
      more := messages + block;
      assert more[|messages|..] == block;
    }

    /** The loop of Investigate: it ends with the model's last text. For any behaviour of the
        model, only bound investigators are used: exactly those it named. */
    method Converse(prompt: seq<Message>) returns (text: Option<string>)
      requires Valid() && Answered(prompt)
      modifies model, back
      ensures Conversed(old(model.talk), old(back.log), prompt)
      ensures text == TextOf(model.talk[|model.talk| - 1].said)
      ensures var talk := model.talk[|old(model.talk)|..];
              && 1 <= |talk| <= 8 && talk[0].sent == prompt
              && (forall k :: 0 <= k < |talk| - 1 ==> talk[k].said.Some? && talk[k].said.value.calls != [])
              && (|talk| < 8 ==> var said := talk[|talk| - 1].said; said.None? || said.value.calls == [])
    {
      hide Answered, Continues, IsTurn, UseOf, Uses, AllCalls, Client.Valid, Linked;
      var messages := prompt;
      ghost var before, uses, talk: seq<Exchange> := model.talk, back.log, [];
      text := None;
      EmptyTalk(prompt);
      for i := 0 to MAX_TOOL_ITERATIONS
        invariant model.talk == before + talk && |talk| == i
        invariant Pending(talk, prompt, messages)
        invariant i > 0 ==> GoesOn(talk[i - 1]) && text == TextOf(talk[i - 1].said)
        invariant back.log == uses + UsesIn(talk)
      {
        var resp := model.Generate(messages);
        ghost var x := Exchange(messages, resp);
        LinkedMore(talk, prompt, x);
        OneMoreExchange(talk, x);
        talk := talk + [x];
        if resp.None? {
          text := None;
          break;
        }
        text := Some(resp.value.content);
        if resp.value.calls == [] {
          break;
        }
        messages := Turn(resp.value, messages);
        TurnContinues(x, messages);
      }
      Concludes(before, uses, talk, prompt);
      assert model.talk[|before|..] == talk;
      AllButTheLast(talk, prompt);
    }

    /** The plan in the model's last text, before any policy. */
    function Decoded(text: string): Option<ActionPlan> {
      if TrimSpace(text) == "" then None else json(JsonText(text))
    }

    /** The investigation ends in the plan of the model's last text, under the runbooks. */
    method Investigate(system: string, user: string, runbooks: seq<Runbook>) returns (plan: Plan?)
      requires Valid()
      modifies model, back
      ensures Conversed(old(model.talk), old(back.log), Prompt(system, user))
      ensures model.talk[|old(model.talk)|..] != []
      ensures model.talk[|old(model.talk)|..][0].sent ==
              [Message(SystemRole, [TextPart(system)]), Message(HumanRole, [TextPart(user)])]
      ensures var text := TextOf(model.talk[|model.talk| - 1].said);
              var decoded := if text.None? then None else Decoded(text.value);
              && (plan == null <==> decoded.None?)
              && (plan != null ==> fresh(plan) && plan.Value() == UnderPolicy(Normalised(decoded.value), runbooks))
    {
      hide Client.Valid, Client.Conversed, Answered, Prompt, TrimSpace, JsonText, Normalised, UnderPolicy;
      PromptIsAnswered(system, user);
      PromptTells(system, user);
      var text := Converse(Prompt(system, user));
      plan := null;
      if text.None? || TrimSpace(text.value) == "" {
        return;
      }
      var decoded := json(JsonText(text.value));
      if decoded.None? {
        return;
      }
      plan := new Plan(decoded.value);
      ParseActionPlan(plan);
      ApplyRunbookPolicy(plan, runbooks);
    }
  }
}
