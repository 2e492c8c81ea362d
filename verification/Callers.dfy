/** A caller of the repository who edits what it holds in place, aliasing and all. */
module Callers {
  import opened Domain
  import opened Repository

  /** A write the repository accepted, or what a read showed, of incidents and of the audit log. */
  datatype Access =
    | Wrote(value: Incident)
    | Saw(id: Id, found: Option<Incident>)
    | Recorded(rec: AuditRecord)
    | Listed(id: Id, records: seq<AuditRecord>)

  /** What the repository should hold: the last accepted write of each id. */
  function Ledger(log: seq<Access>): map<Id, Incident> {
    if log == [] then map[]
    else
      var m, x := Ledger(log[..|log| - 1]), log[|log| - 1];
      if x.Wrote? then m[x.value.id := x.value] else m
  }

  /** What the audit log should hold: every record, in order. */
  function Records(log: seq<Access>): seq<AuditRecord> {
    if log == [] then []
    else Records(log[..|log| - 1]) + if log[|log| - 1].Recorded? then [log[|log| - 1].rec] else []
  }

  /** A read shows the last accepted write before it, a listing all the records before it. */
  predicate Shows(before: seq<Access>, x: Access) {
    match x
    case Saw(id, found) => found == if id in Ledger(before) then Some(Ledger(before)[id]) else None
    case Listed(id, records) => records == RecordsOf(Records(before), id)
    case _ => true
  }

  predicate Honest(log: seq<Access>) {
    forall i :: 0 <= i < |log| ==> Shows(log[..i], log[i])
  }

  lemma OneMoreAccess(log: seq<Access>, x: Access)
    requires Honest(log) && Shows(log, x)
    ensures Honest(log + [x])
    ensures Ledger(log + [x]) == if x.Wrote? then Ledger(log)[x.value.id := x.value] else Ledger(log)
    ensures Records(log + [x]) == Records(log) + if x.Recorded? then [x.rec] else []
  {
    hide Shows;
    var more := log + [x];
    assert more[..|log|] == log;
    forall i | 0 <= i < |log| ensures more[..i] == log[..i] && more[i] == log[i] {
    }
  }

  lemma {:induction false} RecordsGrow(log: seq<Access>, more: seq<Access>)
    requires log <= more
    ensures Records(log) <= Records(more)
  {
    if log != more {
      assert log <= more[..|more| - 1];
      RecordsGrow(log, more[..|more| - 1]);
    }
  }

  /** An edit in place of an object the caller holds. */
  datatype Change =
    | SetId(id: Id)
    | SetStatus(status: Status)
    | SetRisk(risk: RiskLevel)
    | SetPlanRisk(risk: RiskLevel)
    | SetConfidence(confidence: real)
    | SetRunbookId(id: string)
    | SetLabel(key: string, value: string)
    | RemoveLabel(key: string)
    | SetArgument(i: nat, key: string, arg: ArgValue)
    | RemoveArgument(i: nat, key: string)
    | SetTool(i: nat, tool: Tool)
    | DropLabels
    | DropPlan
    | DropArguments(i: nat)
    | ShareLabels(other: nat)
    | SharePlan(other: nat)
    | ShareSteps(other: nat)
    | ShareArguments(i: nat, other: nat, j: nat)

  datatype Op =
    | Make(value: Incident)
    | Create(k: nat)
    | Update(k: nat)
    | Get(id: Id)
    | List(status: Option<Status>, limit: int)
    | Edit(k: nat, change: Change)
    | AppendAudit(rec: AuditRecord)
    | ListAudit(id: Id)

  /** Someone who holds `held` can reach nothing but `mine`. */
  ghost predicate Closed(held: seq<IncidentObject>, mine: set<object>)
    reads mine
  {
    && (forall k :: 0 <= k < |held| ==> held[k] in mine)
    && (forall o: IncidentObject :: o in mine ==>
          (o.labels != null ==> o.labels in mine) && (o.plan != null ==> o.plan in mine))
    && (forall p: PlanObject :: p in mine ==> p.steps in mine)
    && (forall a: array<StepCell> :: a in mine ==>
          forall i :: 0 <= i < a.Length && a[i].arguments != null ==> a[i].arguments in mine)
  }

  /** What is reachable from one more incident is closed in itself. */
  lemma CellsAreClosed(held: seq<IncidentObject>, mine: set<object>, inc: IncidentObject)
    requires Closed(held, mine)
    ensures Closed(held + [inc], mine + Cells(inc))
  {
  }

  lemma ValueKeepsId(inc: IncidentObject)
    ensures ValueOf(inc).id == inc.id
  {
  }

  /** New objects for an incident. */
  method NewSteps(steps: seq<ActionStep>) returns (a: array<StepCell>)
    ensures fresh(a) && fresh(ArgCells(a[..])) && StepValues(a[..]) == steps
  {
    a := new StepCell[|steps|](j requires 0 <= j < |steps| => StepCell(steps[j].tool, null));
    for i := 0 to |steps|
      invariant fresh(a) && fresh(ArgCells(a[..i]))
      invariant forall j :: 0 <= j < i ==> StepValue(a[j]) == steps[j]
    {
      var args := new ArgMap(steps[i].args);
      a[i] := StepCell(steps[i].tool, args);
      assert ArgCells(a[..i + 1]) == ArgCells(a[..i]) + {args};
    }
    assert a[..|steps|] == a[..];
  }

  method NewIncident(i: Incident) returns (inc: IncidentObject)
    ensures fresh(Cells(inc)) && ValueOf(inc) == i
  {
    var labels := new LabelMap(i.labels);
    var plan: PlanObject? := null;
    if i.plan.Some? {
      var p := i.plan.value;
      var steps := NewSteps(p.steps);
      plan := new PlanObject(p.risk, p.confidence, p.runbookId, steps);
    }
    inc := new IncidentObject(i.id, i.status, i.risk, plan, labels);
  }

  class Caller {
    const repo: MemoryRepo
    var held: seq<IncidentObject>
    /** All objects the caller can reach. */
    ghost var mine: set<object>
    ghost var log: seq<Access>

    /** Caller and repository share no object, and the repository holds what the ledger says. */
    ghost predicate Valid()
      reads this, mine, repo, repo.Repr
    {
      && Closed(held, mine) && mine !! repo.Repr && this !in repo.Repr && this !in mine && repo !in mine
      && repo.Valid() && repo.Contents() == Ledger(log) && repo.audit == Records(log) && Honest(log)
    }

    constructor (repo: MemoryRepo)
      requires repo.Valid() && repo.Contents() == map[] && repo.audit == []
      ensures Valid() && this.repo == repo && log == [] && held == []
    {
      this.repo := repo;
      held, mine, log := [], {}, [];
    }

    method Change(inc: IncidentObject, e: Change)
      requires this !in mine && Closed(held, mine) && inc in held
      modifies mine
      ensures Closed(held, mine)
    {
      match e
      case SetId(id) => inc.id := id;
      case SetStatus(status) => inc.status := status;
      case SetRisk(risk) => inc.risk := risk;
      case SetPlanRisk(risk) =>
        if inc.plan != null {
          inc.plan.risk := risk;
        }
      case SetConfidence(confidence) =>
        if inc.plan != null {
          inc.plan.confidence := confidence;
        }
      case SetRunbookId(id) =>
        if inc.plan != null {
          inc.plan.runbookId := id;
        }
      case SetLabel(key, value) =>
        if inc.labels != null {
          inc.labels.m := inc.labels.m[key := value];
        }
      case RemoveLabel(key) =>
        if inc.labels != null {
          inc.labels.m := inc.labels.m - {key};
        }
      case SetArgument(i, key, arg) =>
        if inc.plan != null && i < inc.plan.steps.Length && inc.plan.steps[i].arguments != null {
          var args := inc.plan.steps[i].arguments;
          args.m := args.m[key := arg];
        }
      case RemoveArgument(i, key) =>
        if inc.plan != null && i < inc.plan.steps.Length && inc.plan.steps[i].arguments != null {
          var args := inc.plan.steps[i].arguments;
          args.m := args.m - {key};
        }
      case SetTool(i, tool) =>
        if inc.plan != null && i < inc.plan.steps.Length {
          inc.plan.steps[i] := inc.plan.steps[i].(tool := tool);
        }
      case DropLabels => inc.labels := null;
      case DropPlan => inc.plan := null;
      case DropArguments(i) =>
        if inc.plan != null && i < inc.plan.steps.Length {
          inc.plan.steps[i] := inc.plan.steps[i].(arguments := null);
        }
      case ShareLabels(other) =>
        if other < |held| {
          inc.labels := held[other].labels;
        }
      case SharePlan(other) =>
        if other < |held| {
          inc.plan := held[other].plan;
        }
      case ShareSteps(other) =>
        if inc.plan != null && other < |held| && held[other].plan != null {
          inc.plan.steps := held[other].plan.steps;
        }
      case ShareArguments(i, other, j) =>
        if inc.plan != null && i < inc.plan.steps.Length && other < |held| && held[other].plan != null {
          var from := held[other].plan.steps;
          if j < from.Length {
            inc.plan.steps[i] := inc.plan.steps[i].(arguments := from[j].arguments);
          }
        }
    }

    method Edit(k: nat, e: Change)
      requires Valid()
      modifies mine
      ensures Valid() && mine == old(mine) && log == old(log) && repo.Contents() == old(repo.Contents())
    {
      if k < |held| {
        Change(held[k], e);
      }
    }

    method Create(k: nat)
      requires Valid()
      modifies this`log, repo
      ensures Valid() && held == old(held) && mine == old(mine)
      ensures log == old(log) +
                     if k < |held| && held[k].id !in old(Ledger(log)) then [Wrote(old(ValueOf(held[k])))] else []
    {
      hide ValueOf, Closed, MemoryRepo.Valid, MemoryRepo.Contents, Ledger, Honest, Records;
      if k < |held| {
        ghost var v := ValueOf(held[k]);
        ValueKeepsId(held[k]);
        var ok := repo.Create(held[k]);
        if ok {
          OneMoreAccess(log, Wrote(v));
          log := log + [Wrote(v)];
        }
      }
    }

    method Update(k: nat)
      requires Valid()
      modifies this`log, repo
      ensures Valid() && held == old(held) && mine == old(mine)
      ensures log == old(log) +
                     if k < |held| && held[k].id in old(Ledger(log)) then [Wrote(old(ValueOf(held[k])))] else []
    {
      hide ValueOf, Closed, MemoryRepo.Valid, MemoryRepo.Contents, Ledger, Honest, Records;
      if k < |held| {
        ghost var v := ValueOf(held[k]);
        ValueKeepsId(held[k]);
        var ok := repo.Update(held[k]);
        if ok {
          OneMoreAccess(log, Wrote(v));
          log := log + [Wrote(v)];
        }
      }
    }

    method Get(id: Id)
      requires Valid()
      modifies this
      ensures Valid() && repo.Contents() == old(repo.Contents()) && fresh(mine - old(mine))
      ensures log == old(log) + [Saw(id, if id in Ledger(old(log)) then Some(Ledger(old(log))[id]) else None)]
    {
      hide ValueOf, Cells, Closed, MemoryRepo.Valid, MemoryRepo.Contents, Ledger, Honest, Records;
      var inc := repo.Get(id);
      ghost var x := Saw(id, if inc == null then None else Some(ValueOf(inc)));
      OneMoreAccess(log, x);
      if inc != null {
        NotCells(inc);
        CellsAreClosed(held, mine, inc);
        held, mine := held + [inc], mine + Cells(inc);
      }
      log := log + [x];
    }

    lemma NotCells(inc: IncidentObject)
      ensures this !in Cells(inc) && repo !in Cells(inc)
    {
    }

    method Make(value: Incident)
      requires Valid()
      modifies this
      ensures Valid() && log == old(log) && repo.Contents() == old(repo.Contents()) && fresh(mine - old(mine))
    {
      hide ValueOf, Cells, Closed, MemoryRepo.Valid, MemoryRepo.Contents, Ledger, Honest, Records;
      var inc := NewIncident(value);
      NotCells(inc);
      CellsAreClosed(held, mine, inc);
      held, mine := held + [inc], mine + Cells(inc);
    }

    lemma SelectedAreStored(store: map<Id, Incident>, status: Option<Status>)
      ensures Selected(store, status) <= store.Keys
    {
    }

    method List(status: Option<Status>, limit: int)
      requires Valid()
      modifies this
      ensures Valid() && repo.Contents() == old(repo.Contents()) && fresh(mine - old(mine))
      ensures old(log) <= log && forall i :: |old(log)| <= i < |log| ==> log[i].Saw? && log[i].found.Some?
    {
      hide ValueOf, Cells, Closed, MemoryRepo.Valid, MemoryRepo.Contents, Ledger, Honest, Records, Selected;
      var out := repo.List(status, limit);
      SelectedAreStored(repo.Contents(), status);
      for k := 0 to |out|
        invariant Valid() && repo.Contents() == old(repo.Contents())
        invariant fresh(mine - old(mine))
        invariant forall j :: k <= j < |out| ==>
                    fresh(Cells(out[j])) && out[j].id in Ledger(log) && ValueOf(out[j]) == Ledger(log)[out[j].id]
        invariant old(log) <= log && forall i :: |old(log)| <= i < |log| ==> log[i].Saw? && log[i].found.Some?
      {
        ghost var x := Saw(out[k].id, Some(ValueOf(out[k])));
        OneMoreAccess(log, x);
        NotCells(out[k]);
        CellsAreClosed(held, mine, out[k]);
        held, mine, log := held + [out[k]], mine + Cells(out[k]), log + [x];
      }
    }

    method AppendAudit(rec: AuditRecord)
      requires Valid()
      modifies this`log, repo
      ensures Valid() && held == old(held) && mine == old(mine)
      ensures log == old(log) + [Recorded(rec)] && repo.Contents() == old(repo.Contents())
    {
      hide ValueOf, Closed, MemoryRepo.Valid, MemoryRepo.Contents, Ledger, Honest, Records;
      repo.AppendAudit(rec);
      OneMoreAccess(log, Recorded(rec));
      log := log + [Recorded(rec)];
    }

    method ListAudit(id: Id) returns (out: seq<AuditRecord>)
      requires Valid()
      modifies this`log
      ensures Valid() && held == old(held) && mine == old(mine)
      ensures log == old(log) + [Listed(id, out)] && repo.Contents() == old(repo.Contents())
    {
      hide ValueOf, Closed, MemoryRepo.Valid, MemoryRepo.Contents, Ledger, Honest, Records, RecordsOf;
      out := repo.ListAudit(id);
      OneMoreAccess(log, Listed(id, out));
      log := log + [Listed(id, out)];
    }

    /** Any sequence of calls and edits keeps caller and repository apart, leaves the repository
        with exactly the last accepted write of each incident, and only adds to the audit log. */
    method Run(ops: seq<Op>)
      requires Valid()
      modifies this, mine, repo
      ensures Valid() && old(log) <= log && old(repo.audit) <= repo.audit
    {
      hide Closed, MemoryRepo.Valid, MemoryRepo.Contents, Ledger, Honest, Records;
      for i := 0 to |ops|
        invariant Valid() && old(log) <= log && fresh(mine - old(mine))
      {
        match ops[i]
        case Make(value) => Make(value);
        case Create(k) => Create(k);
        case Update(k) => Update(k);
        case Get(id) => Get(id);
        case List(status, limit) => List(status, limit);
        case Edit(k, change) => Edit(k, change);
        case AppendAudit(rec) => AppendAudit(rec);
        case ListAudit(id) =>
          var _ := ListAudit(id);
      }
      RecordsGrow(old(log), log);
    }
  }
}
