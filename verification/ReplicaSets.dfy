/** Rollout history: which ReplicaSets a Deployment owns, how they are listed, and which
    one a rollback returns to. */
module ReplicaSets {
  import opened Text
  import opened Domain
  import opened Sorting

  datatype OwnerRef = OwnerRef(kind: string, name: string, uid: string, controller: Option<bool>)

  /** A pod template: its spec and the restartedAt annotation. */
  datatype Template = Template(spec: string, restartedAt: string)

  /** `revision` is the revision annotation, "" when absent. */
  datatype ReplicaSet = ReplicaSet(name: string, owners: seq<OwnerRef>, revision: string, createdAt: string,
                                   template: Template)

  datatype View = View(name: string, deployment: string, revision: string, createdAt: string)

  /** The remediator's test. */
  predicate OwnedByDeployment(rs: ReplicaSet, name: string, uid: string) {
    exists i :: 0 <= i < |rs.owners| &&
                rs.owners[i].kind == "Deployment" && rs.owners[i].name == name && rs.owners[i].uid == uid
  }

  /** The investigator's test. */
  predicate ShownForDeployment(rs: ReplicaSet, deployment: string) {
    && deployment != ""
    && exists i :: 0 <= i < |rs.owners| && rs.owners[i].kind == "Deployment" && rs.owners[i].name == deployment
                   && (rs.owners[i].controller.None? || rs.owners[i].controller.value)
  }

  function Rev(rs: ReplicaSet): int {
    if rs.revision == "" then 0 else Atoi(rs.revision).value
  }

  predicate NewerRevision(a: ReplicaSet, b: ReplicaSet) {
    Rev(a) > Rev(b)
  }

  function Owned(list: seq<ReplicaSet>, name: string, uid: string): (r: seq<ReplicaSet>)
    ensures forall rs :: rs in r <==> rs in list && OwnedByDeployment(rs, name, uid)
  {
    if list == [] then []
    else
      var n := |list| - 1;
      Owned(list[..n], name, uid) + if OwnedByDeployment(list[n], name, uid) then [list[n]] else []
  }

  /** The ReplicaSet a rollback goes back to; `order` is the library's way of breaking ties. */
  function Previous(list: seq<ReplicaSet>, name: string, uid: string, order: seq<ReplicaSet>): Option<ReplicaSet> {
    var owned := Owned(list, name, uid);
    if |owned| < 2 then None else Some(AnySort(owned, NewerRevision, order)[1])
  }

  /** The comparator of sortReplicaSets. */
  predicate Before(a: View, b: View) {
    var ra, rb := Atoi(a.revision), Atoi(b.revision);
    if ra.ok && rb.ok then ra.value > rb.value
    else if a.createdAt != b.createdAt then Less(b.createdAt, a.createdAt)
    else Less(b.name, a.name)
  }

  function ViewOf(rs: ReplicaSet, deployment: string): View {
    View(rs.name, deployment, rs.revision, rs.createdAt)
  }

  const PAGE := 50
  const SHOWN := 10

  function Shown(list: seq<ReplicaSet>, deployment: string): (r: seq<View>) {
    if list == [] then []
    else
      var n := |list| - 1;
      Shown(list[..n], deployment) +
      if ShownForDeployment(list[n], deployment) then [ViewOf(list[n], deployment)] else []
  }

  /** The API returns at most one page of the namespace's ReplicaSets. */
  function Page(list: seq<ReplicaSet>): seq<ReplicaSet> {
    if |list| > PAGE then list[..PAGE] else list
  }

  function Ranked(list: seq<ReplicaSet>, deployment: string): seq<View> {
    StableSort(Shown(Page(list), deployment), Before)
  }

  function Listing(list: seq<ReplicaSet>, deployment: string): seq<View> {
    var all := Ranked(list, deployment);
    if |all| > SHOWN then all[..SHOWN] else all
  }

  /** The listing is what the stable sort gives whenever the comparator orders the views, or
      there are no more of them than one block. Past that the library decides. */
  method ListReplicaSets(list: seq<ReplicaSet>, deployment: string) returns (out: seq<View>)
    ensures var all := Shown(if |list| > 50 then list[..50] else list, deployment);
            && (|all| <= 20 || Consistent(all, Before) ==> out == Listing(list, deployment))
            && |out| == (if |all| < 10 then |all| else 10)
            && multiset(out) <= multiset(all)
  {
    hide Before, ShownForDeployment;
    var items := Page(list);
    var views: seq<View> := [];
    for i := 0 to |items|
      invariant views == Shown(items[..i], deployment)
    {
      assert items[..i + 1][..i] == items[..i];
      if !ShownForDeployment(items[i], deployment) {
        continue;
      }
      views := views + [ViewOf(items[i], deployment)];
    }
    assert items[..|items|] == items;
    var a := new View[|views|](i requires 0 <= i < |views| => views[i]);
    assert a[..] == views;
    SliceStable(a, Before);
    out := a[..];
    SameLength(out, views);
    if |out| > SHOWN {
      assert out == out[..SHOWN] + out[SHOWN..];
      out := out[..SHOWN];
    }
  }

  // ----- What is listed -----

  /** Shown are the ReplicaSets with an owner reference to a Deployment of this name that is not
      marked as anything but the controller, whatever its uid. */
  lemma ShownExactly(rs: ReplicaSet, deployment: string)
    ensures ShownForDeployment(rs, deployment) <==>
            && deployment != ""
            && exists ref :: ref in rs.owners && ref.kind == "Deployment" && ref.name == deployment
                             && ref.controller != Some(false)
  {
  }

  /** Each of them is a view with its name, revision and creation time, in the order of the API. */
  lemma ShownOneMore(list: seq<ReplicaSet>, rs: ReplicaSet, deployment: string)
    ensures Shown([], deployment) == []
    ensures Shown(list + [rs], deployment) ==
            Shown(list, deployment) + if ShownForDeployment(rs, deployment)
                                      then [View(rs.name, deployment, rs.revision, rs.createdAt)] else []
  {
    hide ShownForDeployment;
    assert (list + [rs])[..|list|] == list;
  }

  /** Two numbers are compared as numbers, the greater first; otherwise the later creation time goes
      first and, at the same time, the greater name. */
  lemma BeforeExactly(a: View, b: View)
    ensures Atoi(a.revision).ok && Atoi(b.revision).ok ==>
              (Before(a, b) <==> Atoi(b.revision).value < Atoi(a.revision).value)
    ensures !(Atoi(a.revision).ok && Atoi(b.revision).ok) ==>
              (Before(a, b) <==>
                 || Less(b.createdAt, a.createdAt)
                 || (a.createdAt == b.createdAt && Less(b.name, a.name)))
  {
    hide Atoi;
    LessIsStrictTotal(a.createdAt, b.createdAt, a.createdAt);
    hide Less;
  }

  // ----- Order of the listing -----

  ghost predicate AllNumeric(s: seq<View>) {
    forall v :: v in s ==> Atoi(v.revision).ok
  }

  /** At most one of the revisions is a number. */
  ghost predicate OneNumeric(s: seq<View>) {
    forall v, w :: v in s && w in s && Atoi(v.revision).ok && Atoi(w.revision).ok ==> v == w
  }

  /** The order the comparator falls back on. */
  predicate Newer(a: View, b: View) {
    if a.createdAt != b.createdAt then Less(b.createdAt, a.createdAt) else Less(b.name, a.name)
  }

  lemma NewerConsistent(s: seq<View>)
    ensures Consistent(s, Newer)
  {
    hide Less;
    forall x, y | x in s && y in s && Newer(x, y) ensures !Newer(y, x) {
      LessIsStrictTotal(y.createdAt, x.createdAt, x.createdAt);
      LessIsStrictTotal(y.name, x.name, x.name);
    }
    forall x, y, z | x in s && y in s && z in s && !Newer(x, y) && !Newer(y, z) ensures !Newer(x, z) {
      LessIsStrictTotal(x.createdAt, y.createdAt, z.createdAt);
      LessIsStrictTotal(y.createdAt, z.createdAt, x.createdAt);
      LessIsStrictTotal(z.createdAt, x.createdAt, y.createdAt);
      LessIsStrictTotal(x.name, y.name, z.name);
      LessIsStrictTotal(y.name, z.name, x.name);
      LessIsStrictTotal(z.name, x.name, y.name);
    }
  }

  lemma BeforeConsistent(s: seq<View>)
    requires AllNumeric(s) || OneNumeric(s)
    ensures Consistent(s, Before)
  {
    hide Atoi, Less;
    if !AllNumeric(s) {
      NewerConsistent(s);
      forall x, y | x in s && y in s ensures Before(x, y) == Newer(x, y) {
        LessIsStrictTotal(x.name, x.name, x.name);
      }
      hide Before, Newer;
    }
  }

  /** `s` carries these revisions, with any names and creation times. */
  ghost predicate Carries(s: seq<View>, revs: seq<string>) {
    |s| == |revs| && forall i :: 0 <= i < |s| ==> s[i].revision == revs[i]
  }

  /** All revisions are numbers, or at most one is. */
  predicate Sortable(revs: seq<string>) {
    || (forall i :: 0 <= i < |revs| ==> Atoi(revs[i]).ok)
    || (forall i, j :: 0 <= i < j < |revs| ==> !(Atoi(revs[i]).ok && Atoi(revs[j]).ok))
  }

  lemma SortableIsConsistent(s: seq<View>, revs: seq<string>)
    requires Carries(s, revs) && Sortable(revs)
    ensures Consistent(s, Before)
  {
    hide Atoi, Before, Consistent;
    if !AllNumeric(s) {
      forall v, w | v in s && w in s && Atoi(v.revision).ok && Atoi(w.revision).ok ensures v == w {
        var i :| 0 <= i < |s| && s[i] == v;
        var j :| 0 <= j < |s| && s[j] == w;
        assert Atoi(revs[i]).ok && Atoi(revs[j]).ok;
      }
    }
    BeforeConsistent(s);
  }

  /** Two numbers `hi` >= `lo` around one other revision: created in the wrong order, they break the comparator. */
  lemma NotSortable(revs: seq<string>, hi: nat, lo: nat, other: nat) returns (s: seq<View>)
    requires hi < |revs| && lo < |revs| && other < |revs| && hi != lo
    requires Atoi(revs[hi]).ok && Atoi(revs[lo]).ok && !Atoi(revs[other]).ok
    requires Atoi(revs[hi]).value >= Atoi(revs[lo]).value
    ensures Carries(s, revs) && !Consistent(s, Before)
  {
    s := seq(|revs|, i requires 0 <= i < |revs| =>
               View("", "", revs[i], if i == hi then "1" else if i == other then "2" else "3"));
    assert Less("1", "2") && Less("2", "3") && !Less("2", "1") && !Less("3", "2");
    assert s[hi] in s && s[lo] in s && s[other] in s;
    assert !Before(s[lo], s[hi]) && !Before(s[hi], s[other]) && Before(s[lo], s[other]);
  }

  /** The comparator orders the views whatever their names and creation times if and only if
      the revisions are all numbers, or at most one of them is. */
  lemma OrdersExactly(revs: seq<string>)
    ensures (forall s :: Carries(s, revs) ==> Consistent(s, Before)) <==> Sortable(revs)
  {
    hide Atoi, Before, Consistent, Carries;
    if Sortable(revs) {
      forall s | Carries(s, revs) ensures Consistent(s, Before) {
        SortableIsConsistent(s, revs);
      }
    } else {
      var k :| 0 <= k < |revs| && !Atoi(revs[k]).ok;
      var i, j :| 0 <= i < j < |revs| && Atoi(revs[i]).ok && Atoi(revs[j]).ok;
      var s;
      if Atoi(revs[i]).value >= Atoi(revs[j]).value {
        s := NotSortable(revs, i, j, k);
      } else {
        s := NotSortable(revs, j, i, k);
      }
    }
  }

  /** With revisions that are all numbers, or at most one of them, the listing is a stable sorted
      rearrangement cut after ten entries, and nothing cut off comes before anything kept. */
  lemma ListingIsTopTen(list: seq<ReplicaSet>, deployment: string)
    requires var all := Shown(Page(list), deployment); AllNumeric(all) || OneNumeric(all)
    ensures var all, ranked := Shown(Page(list), deployment), Ranked(list, deployment);
            var shown := Listing(list, deployment);
            && multiset(ranked) == multiset(all) && SortedBy(ranked, Before)
            && (forall v :: v in all ==> Ties(ranked, v, Before) == Ties(all, v, Before))
            && shown <= ranked && |shown| == (if |all| < 10 then |all| else 10)
            && (forall v, w :: v in shown && w in ranked[|shown|..] ==> !Before(w, v))
  {
    var all, shown := Shown(Page(list), deployment), Listing(list, deployment);
    var ranked := Ranked(list, deployment);
    BeforeConsistent(all);
    SortPermutes(all, Before);
    SortSorts(all, Before);
    forall v | v in all ensures Ties(ranked, v, Before) == Ties(all, v, Before) {
      BeforeConsistent(all + [v]);
      SortStable(all, v, Before);
    }
    forall v, w | v in shown && w in ranked[|shown|..] ensures !Before(w, v) {
      var i :| 0 <= i < |shown| && shown[i] == v;
      var j :| 0 <= j < |ranked[|shown|..]| && ranked[|shown|..][j] == w;
      assert ranked[i] == v && ranked[|shown| + j] == w;
    }
  }

  /** Numeric and other revisions together: the comparator goes round in a circle, so no
      order of these three views is sorted. */
  lemma MixedRevisionsCycle(s: seq<View>)
    requires multiset(s) == multiset{View("a", "d", "2", "1"), View("b", "d", "x", "2"), View("c", "d", "1", "3")}
    ensures !SortedBy(s, Before)
  {
    var a, b, c := View("a", "d", "2", "1"), View("b", "d", "x", "2"), View("c", "d", "1", "3");
    assert Before(a, c) && Before(c, b) && Before(b, a) by {
      assert "2"[..0] == "" && "1"[..0] == "";
      assert Atoi("2") == Number(2, true) && Atoi("1") == Number(1, true);
      assert 'x' in "x" && !IsDigit('x');
      assert !Atoi("x").ok;
    }
    hide Before;
    assert a in multiset(s) && b in multiset(s) && c in multiset(s);
    var i :| 0 <= i < |s| && s[i] == a;
    var j :| 0 <= j < |s| && s[j] == b;
    var k :| 0 <= k < |s| && s[k] == c;
  }

  // ----- The rollback target -----

  /** Every owned ReplicaSet carries its own positive revision number. */
  ghost predicate ProperRevisions(owned: seq<ReplicaSet>) {
    && (forall rs :: rs in owned ==> Atoi(rs.revision).ok && Rev(rs) > 0)
    && (forall i, j :: 0 <= i < j < |owned| ==> Rev(owned[i]) != Rev(owned[j]))
  }

  lemma ProperHasNoTies(owned: seq<ReplicaSet>)
    requires ProperRevisions(owned)
    ensures NoTies(owned, NewerRevision) && Consistent(owned, NewerRevision)
  {
    hide Rev;
  }

  /** With proper revisions every library order gives the same result. */
  lemma OrderIsForced(owned: seq<ReplicaSet>, order: seq<ReplicaSet>)
    requires ProperRevisions(owned)
    ensures AnySort(owned, NewerRevision, order) == StableSort(owned, NewerRevision)
  {
    ProperHasNoTies(owned);
    SortSorts(owned, NewerRevision);
    SortPermutes(owned, NewerRevision);
    var r := AnySort(owned, NewerRevision, order);
    SameNoTies(owned, r, NewerRevision);
    SortedUnique(r, StableSort(owned, NewerRevision), NewerRevision);
  }

  lemma {:induction false} ShownIsOwned(list: seq<ReplicaSet>, name: string, uid: string)
    requires forall rs :: rs in list ==> (OwnedByDeployment(rs, name, uid) <==> ShownForDeployment(rs, name))
    ensures Shown(list, name) == Map(rs => ViewOf(rs, name), Owned(list, name, uid))
  {
    hide OwnedByDeployment, ShownForDeployment;
    if list != [] {
      ShownIsOwned(list[..|list| - 1], name, uid);
    }
  }

  /** How many of `owned` carry a greater revision than `rs`. */
  ghost function Greater(owned: seq<ReplicaSet>, rs: ReplicaSet): set<ReplicaSet> {
    set o | o in owned && Rev(o) > Rev(rs)
  }

  /** The position in the sorted list is the number of greater ones. */
  lemma GreaterAt(owned: seq<ReplicaSet>, r: seq<ReplicaSet>, i: nat)
    requires i < |r| && (forall rs :: rs in owned <==> rs in r)
    requires SortedBy(r, NewerRevision)
    requires forall a, b :: 0 <= a < b < |r| ==> Rev(r[a]) != Rev(r[b])
    ensures i == 0 ==> Greater(owned, r[i]) == {}
    ensures i == 1 ==> Greater(owned, r[i]) == {r[0]}
    ensures i >= 2 ==> |Greater(owned, r[i])| >= 2
  {
    RanksAbove(owned, r, i);
    hide Greater, NewerRevision, Rev, SortedBy;
    if i >= 2 {
      assert Rev(r[0]) != Rev(r[1]);
      CardinalityTwo(r[0], r[1], set k | 0 <= k < i :: r[k]);
    }
  }

  lemma SameMembers(owned: seq<ReplicaSet>, r: seq<ReplicaSet>)
    requires multiset(owned) == multiset(r)
    ensures forall rs :: rs in owned <==> rs in r
  {
    forall rs ensures rs in owned <==> rs in r {
      assert rs in owned <==> rs in multiset(owned);
      assert rs in r <==> rs in multiset(r);
    }
  }

  lemma OnlyOneGreater(owned: seq<ReplicaSet>)
    requires ProperRevisions(owned) && |owned| >= 2
    ensures var r := StableSort(owned, NewerRevision);
            r[1] in owned && Greater(owned, r[1]) == {r[0]}
    ensures forall rs :: rs in owned && |Greater(owned, rs)| == 1 ==> rs == StableSort(owned, NewerRevision)[1]
  {
    var r := StableSort(owned, NewerRevision);
    ProperHasNoTies(owned);
    SortSorts(owned, NewerRevision);
    SortPermutes(owned, NewerRevision);
    SortKeepsDistinct(owned, r);
    SameMembers(owned, r);
    hide Rev, Greater, ProperRevisions, NewerRevision, StableSort, NoTies, Consistent, SortedBy;
    GreaterAt(owned, r, 1);
    forall rs | rs in owned && |Greater(owned, rs)| == 1 ensures rs == r[1] {
      var i :| 0 <= i < |r| && r[i] == rs;
      GreaterAt(owned, r, i);
    }
  }

  lemma CardinalityTwo<T>(a: T, b: T, s: set<T>)
    requires a != b && a in s && b in s
    ensures |s| >= 2
  {
    assert |{a, b}| == 2;
    assert s == {a, b} + (s - {a, b});
  }

  lemma SortKeepsDistinct(owned: seq<ReplicaSet>, r: seq<ReplicaSet>)
    requires ProperRevisions(owned) && multiset(r) == multiset(owned)
    ensures forall i, j :: 0 <= i < j < |r| ==> Rev(r[i]) != Rev(r[j])
  {
    hide Rev;
    forall i, j | 0 <= i < j < |r| ensures Rev(r[i]) != Rev(r[j]) {
      assert r[i] in multiset(owned) && r[j] in multiset(owned);
      if r[i] == r[j] {
        assert r == r[..i] + [r[i]] + r[i + 1..j] + [r[j]] + r[j + 1..];
        assert multiset(r)[r[i]] >= 2;
        var p, q := Twice(owned, r[i]);
        assert false;
      }
    }
  }

  lemma RanksAbove(owned: seq<ReplicaSet>, r: seq<ReplicaSet>, i: nat)
    requires i < |r| && (forall rs :: rs in owned <==> rs in r)
    requires SortedBy(r, NewerRevision)
    requires forall a, b :: 0 <= a < b < |r| ==> Rev(r[a]) != Rev(r[b])
    ensures Greater(owned, r[i]) == set k | 0 <= k < i :: r[k]
  {
    hide Rev;
    forall k | 0 <= k < |r| ensures k < i <==> Rev(r[k]) > Rev(r[i]) {
      if k < i {
        assert !NewerRevision(r[i], r[k]);
      } else if k > i {
        assert !NewerRevision(r[k], r[i]);
      }
    }
  }

  /** A rollback goes back to the ReplicaSet the rollout history shows second, the only
      owned one with exactly one newer revision, however the API orders the namespace. */
  lemma RollbackAgreesWithHistory(list: seq<ReplicaSet>, name: string, uid: string, order: seq<ReplicaSet>)
    requires |list| <= PAGE
    requires forall rs :: rs in list ==> (OwnedByDeployment(rs, name, uid) <==> ShownForDeployment(rs, name))
    requires ProperRevisions(Owned(list, name, uid))
    ensures var p, shown, owned := Previous(list, name, uid, order), Listing(list, name), Owned(list, name, uid);
            && (p.Some? <==> |shown| >= 2)
            && (p.Some? ==>
                  && ViewOf(p.value, name) == shown[1]
                  && p.value in owned && |Greater(owned, p.value)| == 1
                  && forall rs :: rs in owned && |Greater(owned, rs)| == 1 ==> rs == p.value)
  {
    hide OwnedByDeployment, ShownForDeployment, Atoi;
    var owned := Owned(list, name, uid);
    OrderIsForced(owned, order);
    ShownIsOwned(list, name, uid);
    var f := rs => ViewOf(rs, name);
    forall x, y | x in owned && y in owned ensures NewerRevision(x, y) == Before(f(x), f(y)) {
      NumericRev(x);
      NumericRev(y);
    }
    SortCommutes(owned, f, NewerRevision, Before);
    assert Ranked(list, name) == Map(f, StableSort(owned, NewerRevision));
    if |owned| >= 2 {
      OnlyOneGreater(owned);
    }
  }

  lemma NumericRev(rs: ReplicaSet)
    requires Atoi(rs.revision).ok
    ensures Rev(rs) == Atoi(rs.revision).value
  {
  }

  /** The API's order is irrelevant: rearranging the namespace does not change the target. */
  lemma RollbackIgnoresApiOrder(a: seq<ReplicaSet>, b: seq<ReplicaSet>, name: string, uid: string,
                                orderA: seq<ReplicaSet>, orderB: seq<ReplicaSet>)
    requires multiset(a) == multiset(b) && ProperRevisions(Owned(a, name, uid))
    ensures Previous(a, name, uid, orderA) == Previous(b, name, uid, orderB)
  {
    var p, q := Owned(a, name, uid), Owned(b, name, uid);
    OwnedPermutes(a, name, uid);
    OwnedPermutes(b, name, uid);
    assert multiset(p) == multiset(q) by {
      hide Owned, OwnedByDeployment, ProperRevisions;
      forall rs ensures multiset(p)[rs] == multiset(q)[rs] {
      }
    }
    hide Owned, OwnedByDeployment, ProperRevisions;
    assert |p| == |multiset(p)| == |multiset(q)| == |q|;
    SortForced(p, q);
    OrderIsForced(p, orderA);
    OrderIsForced(q, orderB);
  }

  lemma SortForced(p: seq<ReplicaSet>, q: seq<ReplicaSet>)
    requires multiset(p) == multiset(q) && ProperRevisions(p)
    ensures ProperRevisions(q) && StableSort(p, NewerRevision) == StableSort(q, NewerRevision)
  {
    SortKeepsDistinct(p, q);
    forall rs | rs in q ensures rs in p {
      assert rs in multiset(q);
    }
    ProperHasNoTies(p);
    ProperHasNoTies(q);
    SortSorts(p, NewerRevision);
    SortSorts(q, NewerRevision);
    SortPermutes(p, NewerRevision);
    SortPermutes(q, NewerRevision);
    SameNoTies(p, StableSort(p, NewerRevision), NewerRevision);
    hide ProperRevisions, SortedBy, NoTies, Consistent, StableSort;
    SortedUnique(StableSort(p, NewerRevision), StableSort(q, NewerRevision), NewerRevision);
  }

  lemma {:induction false} OwnedPermutes(list: seq<ReplicaSet>, name: string, uid: string)
    ensures forall rs ::
              multiset(Owned(list, name, uid))[rs] == if OwnedByDeployment(rs, name, uid) then multiset(list)[rs] else 0
  {
    hide OwnedByDeployment;
    if list != [] {
      var n := |list| - 1;
      OwnedPermutes(list[..n], name, uid);
      assert list == list[..n] + [list[n]];
    }
  }
}
