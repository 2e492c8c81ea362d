/** The in-memory repository: it keeps deep copies, so that it shares no object with a caller. */
module Repository {
  import opened Domain

  // ----- Incidents as linked objects -----

  class LabelMap {
    var m: map<string, string>

    constructor (m: map<string, string>)
      ensures this.m == m
    {
      this.m := m;
    }
  }

  class ArgMap {
    var m: Args

    constructor (m: Args)
      ensures this.m == m
    {
      this.m := m;
    }
  }

  /** One element of a step slice: a struct that points to its argument map. */
  datatype StepCell = StepCell(tool: Tool, arguments: ArgMap?)

  class PlanObject {
    var risk: RiskLevel
    var confidence: real
    var runbookId: string
    var steps: array<StepCell>

    constructor (risk: RiskLevel, confidence: real, runbookId: string, steps: array<StepCell>)
      ensures this.risk == risk && this.confidence == confidence && this.runbookId == runbookId && this.steps == steps
    {
      this.risk, this.confidence, this.runbookId, this.steps := risk, confidence, runbookId, steps;
    }
  }

  class IncidentObject {
    var id: Id
    var status: Status
    var risk: RiskLevel
    var plan: PlanObject?
    var labels: LabelMap?

    constructor (id: Id, status: Status, risk: RiskLevel, plan: PlanObject?, labels: LabelMap?)
      ensures this.id == id && this.status == status && this.risk == risk && this.plan == plan && this.labels == labels
    {
      this.id, this.status, this.risk, this.plan, this.labels := id, status, risk, plan, labels;
    }
  }

  /** The objects reachable from a step slice, a plan and an incident. */
  ghost function ArgCells(s: seq<StepCell>): set<object> {
    set i | 0 <= i < |s| && s[i].arguments != null :: s[i].arguments as object
  }

  ghost function PlanCells(p: PlanObject): set<object>
    reads p, p.steps
  {
    {p, p.steps} + ArgCells(p.steps[..])
  }

  ghost function Cells(inc: IncidentObject): set<object>
    reads inc, if inc.plan == null then {} else {inc.plan, inc.plan.steps}
  {
    {inc} + (if inc.labels == null then {} else {inc.labels}) + if inc.plan == null then {} else PlanCells(inc.plan)
  }

  ghost function StepValue(c: StepCell): ActionStep
    reads if c.arguments == null then {} else {c.arguments}
  {
    ActionStep(c.tool, if c.arguments == null then map[] else c.arguments.m)
  }

  ghost function StepValues(s: seq<StepCell>): seq<ActionStep>
    reads ArgCells(s)
  {
    seq(|s|, i requires 0 <= i < |s| reads ArgCells(s) => StepValue(s[i]))
  }

  ghost function PlanValue(p: PlanObject): ActionPlan
    reads PlanCells(p)
  {
    ActionPlan(p.risk, p.confidence, p.runbookId, StepValues(p.steps[..]))
  }

  /** The incident as a value. */
  ghost function ValueOf(inc: IncidentObject): Incident
    reads Cells(inc)
  {
    Incident(inc.id, inc.status, inc.risk,
             if inc.plan == null then None else Some(PlanValue(inc.plan)),
             if inc.labels == null then map[] else inc.labels.m)
  }

  /** What an incident's value says, field by field; missing labels and arguments count as none. */
  lemma ValueTells(inc: IncidentObject)
    ensures var v := ValueOf(inc);
            && v.id == inc.id && v.status == inc.status && v.risk == inc.risk
            && (if inc.labels == null then v.labels == map[] else v.labels == inc.labels.m)
            && (v.plan.Some? <==> inc.plan != null)
            && (inc.plan != null ==>
                  var p, q := inc.plan, v.plan.value;
                  && q.risk == p.risk && q.confidence == p.confidence && q.runbookId == p.runbookId
                  && |q.steps| == p.steps.Length
                  && forall i :: 0 <= i < |q.steps| ==>
                       && q.steps[i].tool == p.steps[i].tool
                       && (if p.steps[i].arguments == null then q.steps[i].args == map[]
                           else q.steps[i].args == p.steps[i].arguments.m))
  {
  }

  /** Every object an incident leads to is among its cells. */
  lemma CellsReach(inc: IncidentObject)
    ensures inc in Cells(inc)
    ensures inc.labels != null ==> inc.labels in Cells(inc)
    ensures inc.plan != null ==>
              && inc.plan in Cells(inc) && inc.plan.steps in Cells(inc)
              && forall i :: 0 <= i < inc.plan.steps.Length && inc.plan.steps[i].arguments != null ==>
                   inc.plan.steps[i].arguments in Cells(inc)
  {
    if inc.plan != null {
      forall i | 0 <= i < inc.plan.steps.Length && inc.plan.steps[i].arguments != null
        ensures inc.plan.steps[i].arguments in ArgCells(inc.plan.steps[..])
      {
        assert inc.plan.steps[..][i] == inc.plan.steps[i];
      }
    }
  }

  /** An incident none of whose objects changed has its old value. */
  twostate lemma SameCells(inc: IncidentObject)
    requires unchanged(old(Cells(inc)))
    ensures Cells(inc) == old(Cells(inc)) && ValueOf(inc) == old(ValueOf(inc))
  {
    if inc.plan != null {
      assert PlanCells(inc.plan) == old(PlanCells(inc.plan));
      assert PlanValue(inc.plan) == old(PlanValue(inc.plan));
    }
  }

  // ----- Cloning -----

  method CloneLabels(labels: LabelMap) returns (cp: LabelMap)
    ensures fresh(cp) && cp.m == labels.m
  {
    cp := new LabelMap(map[]);
    var keys := labels.m.Keys;
    while keys != {}
      invariant keys <= labels.m.Keys && fresh(cp)
      invariant cp.m == map k | k in labels.m.Keys - keys :: labels.m[k]
      decreases |keys|
    {
      var k :| k in keys;
      cp.m := cp.m[k := labels.m[k]];
      keys := keys - {k};
    }
  }

  method CloneArgs(args: ArgMap) returns (cp: ArgMap)
    ensures fresh(cp) && cp.m == args.m
  {
    cp := new ArgMap(map[]);
    var keys := args.m.Keys;
    while keys != {}
      invariant keys <= args.m.Keys && fresh(cp)
      invariant cp.m == map k | k in args.m.Keys - keys :: args.m[k]
      decreases |keys|
    {
      var k :| k in keys;
      cp.m := cp.m[k := args.m[k]];
      keys := keys - {k};
    }
  }

  /** The slice is copied first and its argument maps are then replaced one by one. */
  method CloneSteps(steps: array<StepCell>) returns (cp: array<StepCell>)
    ensures fresh(cp) && fresh(ArgCells(cp[..]))
    ensures StepValues(cp[..]) == StepValues(steps[..])
    ensures cp.Length == steps.Length
    ensures forall i :: 0 <= i < cp.Length ==>
              && cp[i].tool == steps[i].tool && (cp[i].arguments == null <==> steps[i].arguments == null)
              && (cp[i].arguments != null ==> fresh(cp[i].arguments) && cp[i].arguments.m == steps[i].arguments.m)
  {
    cp := new StepCell[steps.Length](i requires 0 <= i < steps.Length reads steps => steps[i]);
    for i := 0 to cp.Length
      invariant fresh(cp) && fresh(ArgCells(cp[..i]))
      invariant forall j :: 0 <= j < i ==> StepValue(cp[j]) == StepValue(steps[j])
      invariant forall j :: 0 <= j < i ==>
                  && cp[j].tool == steps[j].tool && (cp[j].arguments == null <==> steps[j].arguments == null)
                  && (cp[j].arguments != null ==> fresh(cp[j].arguments) && cp[j].arguments.m == steps[j].arguments.m)
      invariant forall j :: i <= j < cp.Length ==> cp[j] == steps[j]
    {
      if cp[i].arguments != null {
        var args := CloneArgs(cp[i].arguments);
        cp[i] := cp[i].(arguments := args);
      }
      assert ArgCells(cp[..i + 1]) == ArgCells(cp[..i]) + if cp[i].arguments == null then {} else {cp[i].arguments};
    }
    assert cp[..cp.Length] == cp[..];
  }

  method ClonePlan(plan: PlanObject) returns (cp: PlanObject)
    ensures fresh(PlanCells(cp)) && PlanValue(cp) == PlanValue(plan)
  {
    var steps := CloneSteps(plan.steps);
    cp := new PlanObject(plan.risk, plan.confidence, plan.runbookId, steps);
  }

  method CloneIncident(inc: IncidentObject) returns (cp: IncidentObject)
    ensures fresh(Cells(cp)) && ValueOf(cp) == ValueOf(inc) == old(ValueOf(inc))
    ensures cp.id == inc.id && (cp.plan == null <==> inc.plan == null) && (cp.labels == null <==> inc.labels == null)
  {
    hide PlanValue;
    var labels := inc.labels;
    if inc.labels != null {
      labels := CloneLabels(inc.labels);
    }
    var plan := inc.plan;
    if inc.plan != null {
      plan := ClonePlan(inc.plan);
    }
    label cloned:
    cp := new IncidentObject(inc.id, inc.status, inc.risk, plan, labels);
    SameCells@cloned(inc);
    SameCells(inc);
  }

  // ----- The repository -----

  function RecordsOf(audit: seq<AuditRecord>, id: Id): seq<AuditRecord> {
    if audit == [] then []
    else
      var n := |audit| - 1;
      RecordsOf(audit[..n], id) + if audit[n].id == id then [audit[n]] else []
  }

  /** The records of an incident, in the order they were appended. */
  lemma RecordsOneMore(audit: seq<AuditRecord>, rec: AuditRecord, id: Id)
    ensures RecordsOf([], id) == []
    ensures RecordsOf(audit + [rec], id) == RecordsOf(audit, id) + if rec.id == id then [rec] else []
  {
    assert (audit + [rec])[..|audit|] == audit;
  }

  /** The stored incidents a filter lets through. */
  ghost function Selected(store: map<Id, Incident>, status: Option<Status>): set<Id> {
    set id | id in store && (status.None? || store[id].status == status.value)
  }

  /** The object holds what the store holds under `id`. */
  ghost predicate Copies(inc: IncidentObject, id: Id, store: map<Id, Incident>)
    reads Cells(inc)
  {
    inc.id == id && id in store && ValueOf(inc) == store[id]
  }

  /** The objects of `out` are among `mine`, and they hold what the store holds under `ids`. */
  ghost predicate Held(out: seq<IncidentObject>, ids: seq<Id>, store: map<Id, Incident>, mine: set<object>)
    reads mine
  {
    && |out| == |ids|
    && forall k :: 0 <= k < |out| ==>
         && out[k] in mine && (out[k].plan != null ==> out[k].plan in mine && out[k].plan.steps in mine)
         && Cells(out[k]) <= mine && Copies(out[k], ids[k], store)
  }

  lemma HeldNone(store: map<Id, Incident>)
    ensures Held([], [], store, {})
  {
  }

  /** The ids of `done`, each once. */
  ghost predicate Distinct(ids: seq<Id>, done: set<Id>) {
    (forall k :: 0 <= k < |ids| ==> ids[k] in done) && forall j, k :: 0 <= j < k < |ids| ==> ids[j] != ids[k]
  }

  lemma DistinctNone()
    ensures Distinct([], {})
  {
  }

  lemma DistinctMore(ids: seq<Id>, done: set<Id>, id: Id)
    requires Distinct(ids, done) && id !in done
    ensures Distinct(ids + [id], done + {id})
  {
  }

  /** Part way through a map: every selected id is done or still to come. */
  ghost predicate Splits(done: set<Id>, rest: set<Id>, all: set<Id>) {
    done !! rest && done <= all <= done + rest
  }

  lemma SplitsAtFirst(rest: set<Id>, all: set<Id>)
    requires all <= rest
    ensures Splits({}, rest, all)
  {
  }

  lemma Skips(done: set<Id>, rest: set<Id>, all: set<Id>, id: Id)
    requires Splits(done, rest, all) && id in rest && id !in all
    ensures Splits(done, rest - {id}, all)
  {
  }

  lemma Takes(done: set<Id>, rest: set<Id>, all: set<Id>, id: Id)
    requires Splits(done, rest, all) && id in rest && id in all
    ensures Splits(done + {id}, rest - {id}, all) && |done + {id}| == |done| + 1 && id !in done
  {
  }

  lemma Ends(done: set<Id>, all: set<Id>)
    requires Splits(done, {}, all)
    ensures done == all
  {
  }

  function Fewer(a: int, b: int): int {
    if a < b then a else b
  }

  lemma Fills(done: set<Id>, all: set<Id>, cap: int)
    requires done <= all && |done| <= cap && (done == all || |done| == cap)
    ensures |done| == Fewer(cap, |all|)
  {
    assert all == done + (all - done);
  }

  /** What a finished list promises. */
  lemma Listed(out: seq<IncidentObject>, ids: seq<Id>, done: set<Id>, rest: set<Id>, all: set<Id>,
               c: map<Id, Incident>, mine: set<object>, cap: int)
    requires |out| == |done| <= cap && Distinct(ids, done)
    requires Splits(done, rest, all) && (rest == {} || |done| == cap)
    requires Held(out, ids, c, mine)
    ensures forall k :: 0 <= k < |out| ==>
              Cells(out[k]) <= mine && out[k].id in all && out[k].id in c && ValueOf(out[k]) == c[out[k].id]
    ensures forall j, k :: 0 <= j < k < |out| ==> out[j].id != out[k].id
    ensures |out| == Fewer(cap, |all|)
  {
    hide ValueOf, Cells, Fewer;
    if rest == {} {
      Ends(done, all);
    }
    Fills(done, all, cap);
  }

  class MemoryRepo {
    var incidents: map<Id, IncidentObject>
    var audit: seq<AuditRecord>
    /** The objects of the stored copies. No caller reaches any of them. */
    ghost var Repr: set<object>

    ghost predicate Valid()
      reads this, Repr
    {
      this !in Repr && forall id :: id in incidents ==> Stored(id, incidents[id])
    }

    ghost predicate Stored(id: Id, inc: IncidentObject)
      reads this, Repr
    {
      && inc in Repr && (inc.plan != null ==> inc.plan in Repr && inc.plan.steps in Repr)
      && Cells(inc) <= Repr && inc.id == id
    }

    ghost function Contents(): map<Id, Incident>
      requires Valid()
      reads this, Repr
    {
      map id | id in incidents :: ValueOf(incidents[id])
    }

    constructor ()
      ensures Valid() && Repr == {} && Contents() == map[] && audit == []
    {
      incidents, audit, Repr := map[], [], {};
    }

    lemma NoCell(inc: IncidentObject)
      ensures this !in Cells(inc)
    {
    }

    /** Takes ownership of a copy. */
    method Keep(cp: IncidentObject)
      requires Valid()
      modifies this`incidents, this`Repr
      ensures Valid() && Repr == old(Repr) + Cells(cp)
      ensures incidents.Keys == old(incidents).Keys + {cp.id}
      ensures Contents() == old(Contents())[cp.id := old(ValueOf(cp))]
    {
      hide ValueOf, ArgCells;
      NoCell(cp);
      incidents := incidents[cp.id := cp];
      Repr := Repr + Cells(cp);
      SameCells(cp);
      assert Stored(cp.id, cp);
      forall id | id in old(incidents) && id != cp.id
        ensures Stored(id, incidents[id]) && ValueOf(incidents[id]) == old(Contents())[id]
      {
        assert old(Stored(id, incidents[id]));
        SameCells(incidents[id]);
      }
    }

    /** A caller's own copy of a stored incident. */
    method Copy(id: Id) returns (cp: IncidentObject)
      requires Valid() && id in incidents
      ensures Valid() && Contents() == old(Contents())
      ensures fresh(Cells(cp)) && cp.id == id && id in Contents() && ValueOf(cp) == Contents()[id]
    {
      hide ValueOf, Cells;
      cp := CloneIncident(incidents[id]);
      forall k | k in incidents ensures ValueOf(incidents[k]) == old(ValueOf(incidents[k])) {
        SameCells(incidents[k]);
      }
    }

    /** A further copy for a caller who already holds `out`. */
    method CopyBeside(id: Id, ghost out: seq<IncidentObject>, ghost ids: seq<Id>, ghost mine: set<object>)
        returns (cp: IncidentObject)
      requires Valid() && id in incidents && Held(out, ids, Contents(), mine)
      ensures Valid() && Contents() == old(Contents())
      ensures fresh(Cells(cp)) && Held(out + [cp], ids + [id], Contents(), mine + Cells(cp))
    {
      hide ValueOf, MemoryRepo.Valid, MemoryRepo.Stored;
      cp := Copy(id);
      forall k | 0 <= k < |out| ensures Copies(out[k], ids[k], Contents()) && Cells(out[k]) <= mine {
        assert old(Copies(out[k], ids[k], Contents()));
        SameCells(out[k]);
      }
    }

    /** The repository's own copy of a caller's incident. */
    method Put(inc: IncidentObject)
      requires Valid()
      modifies this`incidents, this`Repr
      ensures Valid() && fresh(Repr - old(Repr)) && old(Repr) <= Repr
      ensures Contents() == old(Contents())[inc.id := old(ValueOf(inc))]
    {
      hide ValueOf;
      var cp := CloneIncident(inc);
      assert Contents() == old(Contents());
      Keep(cp);
    }

    method Create(inc: IncidentObject) returns (ok: bool)
      requires Valid()
      modifies this`incidents, this`Repr
      ensures Valid() && fresh(Repr - old(Repr)) && old(Repr) <= Repr
      ensures ok <==> inc.id !in old(Contents())
      ensures Contents() == if ok then old(Contents())[inc.id := old(ValueOf(inc))] else old(Contents())
    {
      hide ValueOf, MemoryRepo.Stored;
      if inc.id in incidents {
        return false;
      }
      Put(inc);
      return true;
    }

    method Update(inc: IncidentObject) returns (ok: bool)
      requires Valid()
      modifies this`incidents, this`Repr
      ensures Valid() && fresh(Repr - old(Repr)) && old(Repr) <= Repr
      ensures ok <==> inc.id in old(Contents())
      ensures Contents() == if ok then old(Contents())[inc.id := old(ValueOf(inc))] else old(Contents())
    {
      hide ValueOf, MemoryRepo.Stored;
      if inc.id !in incidents {
        return false;
      }
      Put(inc);
      return true;
    }

    method Get(id: Id) returns (inc: IncidentObject?)
      requires Valid()
      ensures Valid() && Contents() == old(Contents())
      ensures inc == null <==> id !in Contents()
      ensures inc != null ==> fresh(Cells(inc)) && ValueOf(inc) == Contents()[id]
    {
      hide ValueOf, MemoryRepo.Stored;
      if id !in incidents {
        return null;
      }
      inc := Copy(id);
    }

    /** The loop of List. */
    method Gather(status: Option<Status>, cap: nat)
        returns (out: seq<IncidentObject>, ghost ids: seq<Id>, ghost done: set<Id>, ghost rest: set<Id>,
                 ghost mine: set<object>)
      requires Valid()
      ensures Valid() && Contents() == old(Contents()) && fresh(mine)
      ensures Splits(done, rest, Selected(Contents(), status)) && (rest == {} || |done| == cap)
      ensures |out| == |done| <= cap && Distinct(ids, done) && Held(out, ids, Contents(), mine)
    {
      hide ValueOf, Cells, Held, Splits, MemoryRepo.Valid, MemoryRepo.Contents, MemoryRepo.Stored, Selected, Distinct;
      ghost var c, all := Contents(), Selected(Contents(), status);
      var todo := incidents.Keys;
      out, ids, done, mine := [], [], {}, {};
      SelectedIs(status);
      SplitsAtFirst(todo, all);
      DistinctNone();
      HeldNone(c);
      while todo != {} && |out| < cap
        invariant Valid() && Contents() == c && fresh(mine)
        invariant todo <= incidents.Keys && Splits(done, todo, all)
        invariant |out| == |done| <= cap && Distinct(ids, done) && Held(out, ids, c, mine)
        decreases |todo|
      {
        var id :| id in todo;
        IsSelected(status, id);
        if status.Some? && incidents[id].status != status.value {
          Skips(done, todo, all, id);
          todo := todo - {id};
          continue;
        }
        Takes(done, todo, all, id);
        todo := todo - {id};
        var cp := CopyBeside(id, out, ids, mine);
        DistinctMore(ids, done, id);
        done, ids, out, mine := done + {id}, ids + [id], out + [cp], mine + Cells(cp);
      }
      rest := todo;
    }

    /** Copies of the incidents the filter selects, in no particular order, up to the limit. */
    method List(status: Option<Status>, limit: int) returns (out: seq<IncidentObject>)
      requires Valid()
      ensures Valid() && Contents() == old(Contents())
      ensures forall k :: 0 <= k < |out| ==>
                && fresh(Cells(out[k])) && out[k].id in Selected(Contents(), status)
                && ValueOf(out[k]) == Contents()[out[k].id]
                && (status.Some? ==> Contents()[out[k].id].status == status.value)
      ensures forall j, k :: 0 <= j < k < |out| ==> out[j].id != out[k].id
      ensures var cap, all := if limit <= 0 then 50 else limit, set id | id in Contents()
                                && (status.None? || Contents()[id].status == status.value);
              |out| == if cap < |all| then cap else |all|
    {
      hide ValueOf, Cells, Held, Splits, MemoryRepo.Valid, MemoryRepo.Contents, MemoryRepo.Stored, Distinct;
      var cap := if limit <= 0 then 50 else limit;
      ghost var ids, done, rest, mine;
      out, ids, done, rest, mine := Gather(status, cap);
      Listed(out, ids, done, rest, Selected(Contents(), status), Contents(), mine, cap);
    }

    lemma SelectedIs(status: Option<Status>)
      requires Valid()
      ensures Selected(Contents(), status) <= incidents.Keys
    {
      hide ValueOf, MemoryRepo.Stored;
    }

    lemma IsSelected(status: Option<Status>, id: Id)
      requires Valid() && id in incidents
      ensures id in Selected(Contents(), status) <==> (status.Some? ==> incidents[id].status == status.value)
    {
      hide MemoryRepo.Stored, PlanValue;
    }

    method AppendAudit(rec: AuditRecord)
      requires Valid()
      modifies this`audit
      ensures Valid() && Contents() == old(Contents())
      ensures audit == old(audit) + [rec]
    {
      hide ValueOf;
      audit := audit + [rec];
    }

    method ListAudit(id: Id) returns (out: seq<AuditRecord>)
      ensures out == RecordsOf(audit, id)
    {
      out := [];
      for i := 0 to |audit|
        invariant out == RecordsOf(audit[..i], id)
      {
        assert audit[..i + 1][..i] == audit[..i];
        if audit[i].id == id {
          out := out + [audit[i]];
        }
      }
      assert audit[..|audit|] == audit;
    }
  }
}
