/** The risk policy pipeline: normalise the decoded plan, apply the runbooks, apply the
    runbook-match override, and ask whether the plan may run unattended. */
module Policy {
  import opened Domain
  import opened Spelling
  import opened Text

  /** A plan whose fields are assigned in place. */
  class Plan {
    var risk: RiskLevel
    var confidence: real
    var runbookId: string
    var steps: seq<ActionStep>

    constructor (p: ActionPlan)
      ensures Value() == p
    {
      risk, confidence, runbookId, steps := p.risk, p.confidence, p.runbookId, p.steps;
    }

    ghost function Value(): ActionPlan
      reads this
    {
      ActionPlan(risk, confidence, runbookId, steps)
    }
  }

  function Normalised(p: ActionPlan): ActionPlan {
    var risk := match ParseRiskLevel(RiskText(p.risk)) case Some(r) => r case None => RequiresApproval;
    ActionPlan(risk, if 0.0 <= p.confidence <= 1.0 then p.confidence else 0.0, p.runbookId, p.steps)
  }

  predicate Relevant(rb: Runbook, p: ActionPlan) {
    p.runbookId == "" || rb.id == p.runbookId
  }

  /** The runbooks let this plan keep an automatic risk. */
  predicate Permitted(p: ActionPlan, books: seq<Runbook>) {
    && CanAutoRemediate(p)
    && (exists rb :: rb in books && Relevant(rb, p) && rb.risk == AutoRemediate)
    && (forall rb :: rb in books && Relevant(rb, p) ==> rb.risk != RequiresApproval)
  }

  function UnderPolicy(p: ActionPlan, books: seq<Runbook>): ActionPlan {
    if Permitted(p, books) then p else p.(risk := RequiresApproval)
  }

  /** The model's risk is one of the words for an automatic one. */
  ghost predicate SaysAuto(risk: RiskLevel) {
    match risk
    case AutoRemediate => true
    case RequiresApproval => false
    case OtherRisk(text) => Spells(text, "auto_remediate") || Spells(text, "auto") || Spells(text, "low")
  }

  lemma SaysAutoExactly(risk: RiskLevel)
    ensures ParseRiskLevel(RiskText(risk)) == Some(AutoRemediate) <==> SaysAuto(risk)
    ensures ParseRiskLevel(RiskText(risk)) in {None, Some(AutoRemediate), Some(RequiresApproval)}
  {
    hide ParseRiskLevel, Spells;
    RiskWordsExactly(RiskText(risk));
    ItsOwnText();
  }

  lemma ItsOwnText()
    ensures ParseRiskLevel("auto_remediate") == Some(AutoRemediate)
    ensures ParseRiskLevel("requires_approval") == Some(RequiresApproval)
  {
    assert ToLower("auto_remediate") == "auto_remediate" && ToLower("requires_approval") == "requires_approval";
  }

  /** The tail of parseActionPlan, after the JSON text has been decoded into `plan`. */
  method ParseActionPlan(plan: Plan)
    modifies plan
    ensures plan.Value() == Normalised(old(plan.Value()))
    ensures plan.risk == if SaysAuto(old(plan.risk)) then AutoRemediate else RequiresApproval
    ensures plan.confidence == if 0.0 <= old(plan.confidence) <= 1.0 then old(plan.confidence) else 0.0
    ensures plan.runbookId == old(plan.runbookId) && plan.steps == old(plan.steps)
  {
    hide ParseRiskLevel, SaysAuto, RiskText;
    SaysAutoExactly(plan.risk);
    var rl := ParseRiskLevel(RiskText(plan.risk));
    if rl.Some? {
      plan.risk := rl.value;
    } else {
      plan.risk := RequiresApproval;
    }
    if plan.confidence < 0.0 || plan.confidence > 1.0 {
      plan.confidence := 0.0;
    }
  }

  method ApplyRunbookPolicy(plan: Plan, books: seq<Runbook>)
    modifies plan
    ensures plan.Value() == UnderPolicy(old(plan.Value()), books)
  {
    ghost var p := plan.Value();
    var allowsAuto := false;
    for i := 0 to |books|
      invariant plan.Value() == p
      invariant allowsAuto <==> exists k :: 0 <= k < i && Relevant(books[k], p) && books[k].risk == AutoRemediate
      invariant forall k :: 0 <= k < i && Relevant(books[k], p) ==> books[k].risk != RequiresApproval
    {
      var rb := books[i];
      if plan.runbookId != "" && rb.id != plan.runbookId {
        continue;
      }
      if rb.risk == RequiresApproval {
        assert rb in books && Relevant(rb, p);
        plan.risk := RequiresApproval;
        return;
      }
      if rb.risk == AutoRemediate {
        allowsAuto := true;
      }
    }
    assert forall rb :: rb in books ==> exists k :: 0 <= k < |books| && books[k] == rb;
    var auto := CanAutoRemediate(ActionPlan(plan.risk, plan.confidence, plan.runbookId, plan.steps));
    if !allowsAuto || !auto {
      plan.risk := RequiresApproval;
    }
  }

  /** What one investigation hands to dispatch: the model's decoded plan under the
      runbooks given to it as context, then the override for alerts no runbook matched. */
  function Staged(matched: seq<Runbook>, context: seq<Runbook>, decoded: ActionPlan): ActionPlan {
    var p := UnderPolicy(Normalised(decoded), context);
    if matched == [] then p.(risk := RequiresApproval) else p
  }

  /** The runbooks passed as context: those that match, or else all of them. */
  function ContextRunbooks(books: seq<Runbook>, labels: map<string, string>): seq<Runbook> {
    var matched := Matching(books, labels);
    if matched != [] then matched else books
  }

  /** The closed-form rule for unattended execution. */
  ghost predicate Unattended(books: seq<Runbook>, labels: map<string, string>, decoded: ActionPlan) {
    && (exists rb :: rb in books && Matches(rb, labels))
    && SaysAuto(decoded.risk)
    && 0.7 <= decoded.confidence <= 1.0
    && decoded.steps != []
    && (forall i :: 0 <= i < |decoded.steps| ==> decoded.steps[i].tool == PatchHPAMaxReplicas)
    && (exists rb :: rb in books && Matches(rb, labels) && (decoded.runbookId == "" || rb.id == decoded.runbookId)
                     && rb.risk == AutoRemediate)
    && (forall rb :: rb in books && Matches(rb, labels) && (decoded.runbookId == "" || rb.id == decoded.runbookId) ==>
          rb.risk != RequiresApproval)
  }

  /** The staged code runs a plan unattended exactly when the closed form says so. */
  lemma AutoRuleExact(books: seq<Runbook>, labels: map<string, string>, decoded: ActionPlan)
    ensures CanAutoRemediate(Staged(Matching(books, labels), ContextRunbooks(books, labels), decoded))
            <==> Unattended(books, labels, decoded)
    ensures var p := Staged(Matching(books, labels), ContextRunbooks(books, labels), decoded);
            && p.risk == (if Unattended(books, labels, decoded) then AutoRemediate else RequiresApproval)
            && p.runbookId == decoded.runbookId && p.steps == decoded.steps
            && p.confidence == if 0.0 <= decoded.confidence <= 1.0 then decoded.confidence else 0.0
  {
    hide CanAutoRemediate, Matching, ParseRiskLevel, RiskText, SaysAuto;
    SaysAutoExactly(decoded.risk);
    var matched, p := Matching(books, labels), Normalised(decoded);
    NormalisedAuto(decoded);
    OnlyAutomaticRuns(p.(risk := RequiresApproval));
    if matched == [] {
      assert forall rb :: rb in books && Matches(rb, labels) ==> rb in matched;
    } else {
      assert matched[0] in matched;
    }
  }

  /** A word for approval, an unknown word or none at all keeps a plan from running unattended,
      whatever the runbooks say. */
  lemma OtherWordsNeedApproval(matched: seq<Runbook>, context: seq<Runbook>, decoded: ActionPlan, text: string)
    requires decoded.risk == OtherRisk(text)
    requires || Spells(text, "requires_approval") || Spells(text, "approval")
             || Spells(text, "high") || Spells(text, "medium")
             || !(Spells(text, "auto_remediate") || Spells(text, "auto") || Spells(text, "low"))
    ensures !CanAutoRemediate(Staged(matched, context, decoded))
    ensures Staged(matched, context, decoded).risk == RequiresApproval
  {
    hide CanAutoRemediate, ParseRiskLevel, Spells;
    WordsDiffer(text);
    RiskWordsExactly(text);
    var p := Normalised(decoded);
    OnlyAutomaticRuns(p);
    OnlyAutomaticRuns(p.(risk := RequiresApproval));
  }

  lemma OnlyAutomaticRuns(p: ActionPlan)
    ensures CanAutoRemediate(p) ==> p.risk == AutoRemediate
  {
  }

  lemma NormalisedAuto(decoded: ActionPlan)
    ensures CanAutoRemediate(Normalised(decoded)) <==>
            && ParseRiskLevel(RiskText(decoded.risk)) == Some(AutoRemediate)
            && 0.7 <= decoded.confidence <= 1.0
            && decoded.steps != []
            && (forall i :: 0 <= i < |decoded.steps| ==> decoded.steps[i].tool == PatchHPAMaxReplicas)
  {
    hide ParseRiskLevel, RiskText;
  }

  lemma PolicyIgnoresOrder(p: ActionPlan, a: seq<Runbook>, b: seq<Runbook>)
    requires multiset(a) == multiset(b)
    ensures UnderPolicy(p, a) == UnderPolicy(p, b)
  {
    forall rb ensures rb in a <==> rb in b {
      assert rb in multiset(a) <==> rb in multiset(b);
    }
  }

  /** A second pass changes nothing, a pass only ever restricts, and afterwards the risk
      is automatic exactly for plans that may run unattended. */
  lemma PolicyAlgebra(p: ActionPlan, books: seq<Runbook>)
    ensures UnderPolicy(UnderPolicy(p, books), books) == UnderPolicy(p, books)
    ensures UnderPolicy(p, books).risk == AutoRemediate ==> p.risk == AutoRemediate
    ensures UnderPolicy(p, books).risk == AutoRemediate <==> CanAutoRemediate(UnderPolicy(p, books))
    ensures UnderPolicy(p, books).(risk := p.risk) == p
  {
  }
}
