/** The exact rule for unattended execution, seen through the port calls of an alert. */
module Dispatching {
  import opened Domain
  import Policy
  import opened Machine
  import opened Plays

  /** The runbook calls: match twice, and list them all when none match. */
  ghost function Gathering(labels: map<string, string>, books: seq<Runbook>): seq<Event> {
    var m := Event.MatchBooks(labels, Some(Domain.Matching(books, labels)));
    [m] + [m] + if Domain.Matching(books, labels) == [] then [ListBooks(Some(books))] else []
  }

  /** The model's answer under its context, and the record of it. */
  ghost function Answering(id: Id, context: seq<Runbook>, decoded: ActionPlan): seq<Event> {
    [Investigate(id, context, Some(Policy.UnderPolicy(Policy.Normalised(decoded), context)))]
    + [Append(AuditRecord(id, "llm", Planned), true)]
  }

  lemma Gathers(cfg: Config, w: World, t: Thread, books: seq<Runbook>) returns (u: Thread)
    requires t.pc == Pc.Matching
    ensures var es := Gathering(t.inc.labels, books);
            IsPlay(cfg, w, t, es) && Play(cfg, w, t, es) == (w, u)
    ensures u == t.(pc := Pc.Investigating, unmatched := Domain.Matching(books, t.inc.labels) == [],
                    context := Policy.ContextRunbooks(books, t.inc.labels))
  {
    hide Domain.Matching, OnSave, ToSave, OnAudit, ToAudit, OnNotify, ToNotify, OnLoad, OnStep, OnPlan;
    var matched := Domain.Matching(books, t.inc.labels);
    var m, l := Event.MatchBooks(t.inc.labels, Some(matched)), ListBooks(Some(books));
    PlayOne(cfg, w, t, [], m);
    assert [] + [m] == [m];
    PlayOne(cfg, w, t, [m], m);
    u := Next(cfg, Next(cfg, t, m).value, m).value;
    if matched == [] {
      PlayOne(cfg, w, t, [m] + [m], l);
      u := Next(cfg, u, l).value;
      assert Gathering(t.inc.labels, books) == [m] + [m] + [l];
    } else {
      assert Gathering(t.inc.labels, books) == [m] + [m];
    }
  }

  lemma Answered(cfg: Config, w: World, t: Thread, decoded: ActionPlan) returns (u: Thread)
    requires t.pc == Pc.Investigating
    ensures var es := Answering(t.inc.id, t.context, decoded);
            && IsPlay(cfg, w, t, es)
            && Play(cfg, w, t, es) == (w.(audit := w.audit + [AuditRecord(t.inc.id, "llm", Planned)]), u)
    ensures var p := Policy.UnderPolicy(Policy.Normalised(decoded), t.context);
            var q := if t.unmatched then p.(risk := RequiresApproval) else p;
            u == t.(inc := t.inc.(plan := Some(q), risk := q.risk),
                    pc := if CanAutoRemediate(q) then Claiming else Parking)
  {
    hide CanAutoRemediate, Policy.Normalised, Policy.UnderPolicy;
    hide OnSave, ToSave, OnNotify, ToNotify, OnLoad, OnStep, OnMatch, OnList;
    var i := Investigate(t.inc.id, t.context, Some(Policy.UnderPolicy(Policy.Normalised(decoded), t.context)));
    var a := Append(AuditRecord(t.inc.id, "llm", Planned), true);
    PlayOne(cfg, w, t, [], i);
    assert [] + [i] == [i];
    PlayOne(cfg, w, t, [i], a);
    u := Next(cfg, Next(cfg, t, i).value, a).value;
  }

  /** With an unchanging runbook set and a model whose decoded answer is `decoded`, the alert
      claims the incident for unattended execution exactly under the closed-form rule, and
      otherwise turns to a human; either way with the staged plan. */
  lemma UnattendedExactly(cfg: Config, w: World, t: Thread, books: seq<Runbook>, decoded: ActionPlan)
    requires t.pc == Pc.Matching
    ensures var labels := t.inc.labels;
            var context := Policy.ContextRunbooks(books, labels);
            var es := Gathering(labels, books) + Answering(t.inc.id, context, decoded);
            var u := Play(cfg, w, t, es).1;
            && IsPlay(cfg, w, t, es)
            && u.inc.plan == Some(Policy.Staged(Domain.Matching(books, labels), context, decoded))
            && u.pc == if Policy.Unattended(books, labels, decoded) then Claiming else Parking
  {
    hide Domain.Matching, CanAutoRemediate, Policy.ContextRunbooks, Policy.Normalised, Policy.UnderPolicy,
         Policy.Unattended;
    hide Play, IsPlay, Gathering, Answering;
    var context := Policy.ContextRunbooks(books, t.inc.labels);
    Policy.AutoRuleExact(books, t.inc.labels, decoded);
    var v := Gathers(cfg, w, t, books);
    var _ := Answered(cfg, w, v, decoded);
    PlayConcat(cfg, w, t, Gathering(t.inc.labels, books), Answering(t.inc.id, context, decoded));
  }
}
