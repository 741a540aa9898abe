/** The traversal behind related tabs: every transitive controller-owned descendant, by type and in order. */
module Related {
  import opened Wrappers
  import opened Text
  import opened Identity
  import opened Watch
  import opened Sets

  datatype Group = Group(gvk: Gvk, records: seq<Record>)

  // --- ordering -----------------------------------------------------------------------------

  /** Lexicographic order of field lists of one length. */
  predicate KeyLess(a: seq<string>, b: seq<string>)
    requires |a| == |b|
  {
    |a| > 0 && (TextLess(a[0], b[0]) || (a[0] == b[0] && KeyLess(a[1..], b[1..])))
  }

  lemma {:induction false} KeyTotal(a: seq<string>, b: seq<string>)
    requires |a| == |b|
    ensures KeyLess(a, b) || a == b || KeyLess(b, a)
    ensures !(KeyLess(a, b) && KeyLess(b, a)) && !KeyLess(a, a)
  {
    if |a| == 0 {
    } else {
      TextTotal(a[0], b[0]);
      TextAsymmetric(a[0], b[0]);
      KeyTotal(a[1..], b[1..]);
      KeyTotal(a[1..], a[1..]);
      if a[0] == b[0] && a[1..] == b[1..] {
        assert a == [a[0]] + a[1..] && b == [b[0]] + b[1..];
      }
    }
  }

  lemma {:induction false} KeyTransitive(a: seq<string>, b: seq<string>, c: seq<string>)
    requires |a| == |b| == |c| && KeyLess(a, b) && KeyLess(b, c)
    ensures KeyLess(a, c)
  {
    if TextLess(a[0], b[0]) && TextLess(b[0], c[0]) {
      TextTransitive(a[0], b[0], c[0]);
    } else if a[0] == b[0] && b[0] == c[0] {
      KeyTransitive(a[1..], b[1..], c[1..]);
    }
  }

  function GvkKey(gvk: Gvk): (k: seq<string>)
    ensures |k| == 3
  {
    [gvk.group, gvk.version, gvk.kind]
  }

  lemma GvkKeyInjective(a: Gvk, b: Gvk)
    ensures GvkKey(a) == GvkKey(b) <==> a == b
  {
    assert GvkKey(a)[0] == a.group && GvkKey(a)[1] == a.version && GvkKey(a)[2] == a.kind;
    assert GvkKey(b)[0] == b.group && GvkKey(b)[1] == b.version && GvkKey(b)[2] == b.kind;
  }

  /** Field order of the identity; an absent namespace comes before every present one. */
  function RefKey(r: ResourceRef): (k: seq<string>)
    ensures |k| == 8
  {
    [r.context] + GvkKey(r.gvk) + (if r.namespace.Some? then ["+", r.namespace.value] else ["", ""]) + [r.name, r.uid]
  }

  lemma RefKeyInjective(r: ResourceRef, s: ResourceRef)
    requires RefKey(r) == RefKey(s)
    ensures r == s
  {
    assert RefKey(r)[0] == r.context && RefKey(s)[0] == s.context;
    assert RefKey(r)[1] == r.gvk.group && RefKey(s)[1] == s.gvk.group;
    assert RefKey(r)[2] == r.gvk.version && RefKey(s)[2] == s.gvk.version;
    assert RefKey(r)[3] == r.gvk.kind && RefKey(s)[3] == s.gvk.kind;
    assert RefKey(r)[4] == if r.namespace.Some? then "+" else "";
    assert RefKey(s)[4] == if s.namespace.Some? then "+" else "";
    assert RefKey(r)[5] == OrEmpty(r.namespace) && RefKey(s)[5] == OrEmpty(s.namespace);
    assert RefKey(r)[6] == r.name && RefKey(s)[6] == s.name;
    assert RefKey(r)[7] == r.uid && RefKey(s)[7] == s.uid;
  }

  /** Something sortable by a key of `n` fields. */
  ghost predicate Keyed<T(!new)>(key: T -> seq<string>, n: nat) {
    forall x :: |key(x)| == n
  }

  ghost predicate Ascending<T(!new)>(xs: seq<T>, key: T -> seq<string>, n: nat)
    requires Keyed(key, n)
  {
    forall i, j :: 0 <= i < j < |xs| ==> KeyLess(key(xs[i]), key(xs[j]))
  }

  function Insert<T(!new)>(x: T, xs: seq<T>, key: T -> seq<string>, ghost n: nat): seq<T>
    requires Keyed(key, n)
  {
    if |xs| == 0 then [x]
    else if KeyLess(key(xs[0]), key(x)) then [xs[0]] + Insert(x, xs[1..], key, n)
    else [x] + xs
  }

  function Sort<T(!new)>(xs: seq<T>, key: T -> seq<string>, ghost n: nat): seq<T>
    requires Keyed(key, n)
  {
    if |xs| == 0 then [] else Insert(xs[0], Sort(xs[1..], key, n), key, n)
  }

  lemma {:induction false} InsertKeeps<T(!new)>(x: T, xs: seq<T>, key: T -> seq<string>, n: nat)
    requires Keyed(key, n)
    ensures multiset(Insert(x, xs, key, n)) == multiset(xs) + multiset{x}
    ensures forall y :: y in Insert(x, xs, key, n) ==> y == x || y in xs
  {
    hide KeyLess;
    if |xs| == 0 || !KeyLess(key(xs[0]), key(x)) {
    } else {
      InsertKeeps(x, xs[1..], key, n);
      assert xs == [xs[0]] + xs[1..];
    }
  }

  /** A least element in front of an ascending rest. */
  lemma FrontAscends<T(!new)>(x: T, rest: seq<T>, key: T -> seq<string>, n: nat)
    requires Keyed(key, n) && Ascending(rest, key, n) && forall y :: y in rest ==> KeyLess(key(x), key(y))
    ensures Ascending([x] + rest, key, n)
  {
    hide KeyLess;
  }

  lemma {:induction false} InsertAscending<T(!new)>(x: T, xs: seq<T>, key: T -> seq<string>, n: nat)
    requires Keyed(key, n) && Ascending(xs, key, n) && forall y :: y in xs ==> key(y) != key(x)
    ensures Ascending(Insert(x, xs, key, n), key, n)
  {
    hide KeyLess;
    if |xs| == 0 {
    } else {
      KeyTotal(key(xs[0]), key(x));
      if KeyLess(key(xs[0]), key(x)) {
        InsertAscending(x, xs[1..], key, n);
        InsertKeeps(x, xs[1..], key, n);
        FrontAscends(xs[0], Insert(x, xs[1..], key, n), key, n);
      } else {
        forall j | 0 <= j < |xs| ensures KeyLess(key(x), key(xs[j])) {
          if j > 0 { KeyTransitive(key(x), key(xs[0]), key(xs[j])); }
        }
        FrontAscends(x, xs, key, n);
      }
    }
  }

  ghost predicate DistinctKeys<T(!new)>(xs: seq<T>, key: T -> seq<string>) {
    forall i, j :: 0 <= i < j < |xs| ==> key(xs[i]) != key(xs[j])
  }

  lemma SameElements<T>(a: seq<T>, b: seq<T>)
    requires multiset(a) == multiset(b)
    ensures forall y :: y in a <==> y in b
  {
    forall y ensures y in a <==> y in b {
      assert y in a <==> y in multiset(a);
      assert y in b <==> y in multiset(b);
    }
  }

  lemma {:induction false} SortKeeps<T(!new)>(xs: seq<T>, key: T -> seq<string>, n: nat)
    requires Keyed(key, n)
    ensures multiset(Sort(xs, key, n)) == multiset(xs)
  {
    hide Insert;
    if |xs| == 0 {
    } else {
      SortKeeps(xs[1..], key, n);
      InsertKeeps(xs[0], Sort(xs[1..], key, n), key, n);
      assert xs == [xs[0]] + xs[1..];
    }
  }

  /** Sorting by distinct keys gives the strictly ascending rearrangement. */
  lemma {:induction false} SortAscending<T(!new)>(xs: seq<T>, key: T -> seq<string>, n: nat)
    requires Keyed(key, n) && DistinctKeys(xs, key)
    ensures Ascending(Sort(xs, key, n), key, n) && multiset(Sort(xs, key, n)) == multiset(xs)
    ensures forall y :: y in Sort(xs, key, n) <==> y in xs
  {
    hide Insert, KeyLess;
    if |xs| == 0 {
    } else {
      var rest := Sort(xs[1..], key, n);
      SortAscending(xs[1..], key, n);
      InsertAscending(xs[0], rest, key, n);
    }
    SortKeeps(xs, key, n);
    SameElements(Sort(xs, key, n), xs);
  }

  // --- grouping -----------------------------------------------------------------------------

  function AddTo(groups: seq<Group>, r: Record): seq<Group> {
    if |groups| == 0 then [Group(r.reference.gvk, [r])]
    else if groups[0].gvk == r.reference.gvk then [groups[0].(records := groups[0].records + [r])] + groups[1..]
    else [groups[0]] + AddTo(groups[1..], r)
  }

  ghost predicate Returned(groups: seq<Group>, r: Record) {
    exists g :: g in groups && r in g.records
  }

  ghost predicate DistinctUids(records: seq<Record>) {
    forall i, j :: 0 <= i < j < |records| ==> records[i].reference.uid != records[j].reference.uid
  }

  /** The groups are a partition of the records by type. */
  ghost predicate Partitions(groups: seq<Group>, found: seq<Record>) {
    && (forall a, b :: 0 <= a < b < |groups| ==> groups[a].gvk != groups[b].gvk)
    && (forall g :: g in groups ==> |g.records| > 0 && DistinctUids(g.records))
    && (forall g, r :: g in groups && r in g.records ==> r.reference.gvk == g.gvk)
    && (forall r :: r in found <==> Returned(groups, r))
  }

  lemma {:induction false} AddToGroups(groups: seq<Group>, r: Record)
    ensures var after := AddTo(groups, r);
            && |groups| <= |after| <= |groups| + 1
            && (forall a :: 0 <= a < |groups| ==>
                  after[a].gvk == groups[a].gvk
                  && after[a].records == groups[a].records + (if IsHome(groups, a, r) then [r] else []))
            && (|after| == |groups| <==> exists a :: 0 <= a < |groups| && groups[a].gvk == r.reference.gvk)
            && (|after| > |groups| ==> after[|groups|] == Group(r.reference.gvk, [r]))
  {
    if |groups| == 0 || groups[0].gvk == r.reference.gvk {
    } else {
      AddToGroups(groups[1..], r);
      var after := AddTo(groups, r);
      forall a | 0 <= a < |groups|
        ensures after[a].gvk == groups[a].gvk
        ensures after[a].records == groups[a].records + (if IsHome(groups, a, r) then [r] else [])
      {
        if a > 0 { IsHomeTail(groups, a, r); }
      }
      if |after| == |groups| {
        var a :| 0 <= a < |groups[1..]| && groups[1..][a].gvk == r.reference.gvk;
        assert groups[a + 1].gvk == r.reference.gvk;
      }
    }
  }

  /** The first group of the record's type. */
  predicate IsHome(groups: seq<Group>, a: nat, r: Record)
    requires a < |groups|
  {
    groups[a].gvk == r.reference.gvk && forall b :: 0 <= b < a ==> groups[b].gvk != r.reference.gvk
  }

  lemma IsHomeTail(groups: seq<Group>, a: nat, r: Record)
    requires 0 < a < |groups| && groups[0].gvk != r.reference.gvk
    ensures IsHome(groups, a, r) <==> IsHome(groups[1..], a - 1, r)
  {
    if IsHome(groups[1..], a - 1, r) {
      forall b | 0 <= b < a ensures groups[b].gvk != r.reference.gvk {
        assert b > 0 ==> groups[b] == groups[1..][b - 1];
      }
    }
  }

  ghost predicate GroupOk(g: Group, found: seq<Record>) {
    |g.records| > 0 && DistinctUids(g.records) && forall x :: x in g.records ==> x.reference.gvk == g.gvk && x in found
  }

  lemma AddToGroupOk(groups: seq<Group>, found: seq<Record>, r: Record, a: nat)
    requires forall b :: 0 <= b < |groups| ==> GroupOk(groups[b], found)
    requires a < |AddTo(groups, r)| && forall x :: x in found ==> x.reference.uid != r.reference.uid
    ensures GroupOk(AddTo(groups, r)[a], found + [r])
  {
    AddToGroups(groups, r);
    if a < |groups| {
      assert GroupOk(groups[a], found);
      assert forall i :: 0 <= i < |groups[a].records| ==> groups[a].records[i] in groups[a].records;
    }
  }

  lemma StillGrouped(groups: seq<Group>, r: Record, x: Record)
    requires Returned(groups, x)
    ensures Returned(AddTo(groups, r), x)
  {
    var g :| g in groups && x in g.records;
    var a :| 0 <= a < |groups| && groups[a] == g;
    AddToGroups(groups, r);
    assert AddTo(groups, r)[a] in AddTo(groups, r);
  }

  lemma AddToDistinct(groups: seq<Group>, r: Record)
    requires forall a, b :: 0 <= a < b < |groups| ==> groups[a].gvk != groups[b].gvk
    ensures var after := AddTo(groups, r);
            forall a, b :: 0 <= a < b < |after| ==> after[a].gvk != after[b].gvk
  {
    AddToGroups(groups, r);
  }

  lemma AddToPartitions(groups: seq<Group>, found: seq<Record>, r: Record)
    requires Partitions(groups, found) && forall x :: x in found ==> x.reference.uid != r.reference.uid
    ensures Partitions(AddTo(groups, r), found + [r])
  {
    var after := AddTo(groups, r);
    AddToDistinct(groups, r);
    forall b | 0 <= b < |groups| ensures GroupOk(groups[b], found) {
      assert groups[b] in groups;
    }
    forall a | 0 <= a < |after| ensures GroupOk(after[a], found + [r]) {
      AddToGroupOk(groups, found, r, a);
    }
    forall x | x in found + [r] ensures Returned(after, x) {
      if x in found {
        StillGrouped(groups, r, x);
      } else {
        HomeExists(groups, r);
      }
    }
  }

  lemma HomeExists(groups: seq<Group>, r: Record)
    ensures Returned(AddTo(groups, r), r)
  {
    var after := AddTo(groups, r);
    AddToGroups(groups, r);
    if |after| > |groups| {
      assert after[|groups|] in after;
    } else {
      var a :| 0 <= a < |groups| && groups[a].gvk == r.reference.gvk;
      FirstHome(groups, a, r);
      var h :| 0 <= h < |groups| && IsHome(groups, h, r);
      assert after[h] in after && r in after[h].records;
    }
  }

  lemma {:induction false} FirstHome(groups: seq<Group>, a: nat, r: Record)
    requires a < |groups| && groups[a].gvk == r.reference.gvk
    ensures exists h: nat :: h < |groups| && IsHome(groups, h, r)
  {
    if IsHome(groups, a, r) {
    } else {
      var b :| 0 <= b < a && groups[b].gvk == r.reference.gvk;
      FirstHome(groups, b, r);
    }
  }

  // --- the traversal ------------------------------------------------------------------------

  predicate SameScope(root: ResourceRef, r: Record) {
    r.reference.context == root.context && r.reference.namespace == root.namespace
  }

  predicate ControlledBy(r: Record, uids: seq<string>) {
    exists i :: 0 <= i < |r.owners| && r.owners[i].controller && r.owners[i].uid in uids
  }

  ghost predicate ControlledFrom(r: Record, uids: set<string>) {
    exists i :: 0 <= i < |r.owners| && r.owners[i].controller && r.owners[i].uid in uids
  }

  /** A set of uids that holds the root and everything in scope it controls. */
  ghost predicate Closed(records: seq<Record>, root: ResourceRef, uids: set<string>) {
    && root.uid in uids
    && forall r :: r in records && SameScope(root, r) && ControlledFrom(r, uids) ==> r.reference.uid in uids
  }

  /** The least fixed point of the controller edges from the root. */
  ghost predicate Descends(records: seq<Record>, root: ResourceRef, uid: string) {
    forall uids: set<string> :: Closed(records, root, uids) ==> uid in uids
  }

  /** What has been visited: the root, then the found records in order, all descending from the root. */
  ghost predicate Visits(records: seq<Record>, root: ResourceRef, visited: seq<string>, found: seq<Record>) {
    && |visited| == |found| + 1 && visited[0] == root.uid
    && (forall i :: 0 <= i < |found| ==> visited[i + 1] == found[i].reference.uid)
    && (forall i, j :: 0 <= i < j < |visited| ==> visited[i] != visited[j])
    && (forall r :: r in found ==> r in records && SameScope(root, r))
    && (forall uid :: uid in visited ==> Descends(records, root, uid))
  }

  lemma VisitsOneMore(records: seq<Record>, root: ResourceRef, visited: seq<string>, found: seq<Record>,
                      frontier: seq<string>, r: Record)
    requires Visits(records, root, visited, found) && frontier <= visited
    requires r in records && SameScope(root, r) && r.reference.uid !in visited && ControlledBy(r, frontier)
    ensures Visits(records, root, visited + [r.reference.uid], found + [r])
  {
    forall uids: set<string> | Closed(records, root, uids) ensures r.reference.uid in uids {
      var i :| 0 <= i < |r.owners| && r.owners[i].controller && r.owners[i].uid in frontier;
      assert r.owners[i].uid in visited;
      assert ControlledFrom(r, uids);
    }
    assert Descends(records, root, r.reference.uid);
  }

  function Uids(records: seq<Record>): set<string> {
    set r | r in records :: r.reference.uid
  }

  /** Once a pass finds nothing, what has been visited is closed, so it is the least fixed point. */
  lemma VisitedIsLeast(records: seq<Record>, root: ResourceRef, visited: seq<string>, found: seq<Record>, uid: string)
    requires Visits(records, root, visited, found)
    requires forall r :: r in records && SameScope(root, r) && ControlledBy(r, visited) ==> r.reference.uid in visited
    ensures uid in visited <==> Descends(records, root, uid)
  {
    var all := set v | v in visited;
    forall r | r in records && SameScope(root, r) && ControlledFrom(r, all) ensures r.reference.uid in all {
      var i :| 0 <= i < |r.owners| && r.owners[i].controller && r.owners[i].uid in all;
      assert ControlledBy(r, visited);
    }
    assert Closed(records, root, all);
  }

  lemma {:induction false} FoundBounded(records: seq<Record>, found: seq<Record>)
    requires DistinctUids(found) && Uids(found) <= Uids(records)
    ensures |found| == |Uids(found)| <= |Uids(records)|
  {
    var n := |found|;
    if n > 0 {
      assert found == found[..n - 1] + [found[n - 1]];
      assert forall i :: 0 <= i < n - 1 ==> found[i].reference.uid != found[n - 1].reference.uid;
      assert Uids(found) == Uids(found[..n - 1]) + {found[n - 1].reference.uid};
      FoundBounded(records, found[..n - 1]);
    } else {
      assert Uids(found) == {};
    }
    SubsetSize(Uids(found), Uids(records));
  }

  lemma VisitsBounded(records: seq<Record>, root: ResourceRef, visited: seq<string>, found: seq<Record>)
    requires Visits(records, root, visited, found)
    ensures |found| <= |Uids(records)|
  {
    forall i, j | 0 <= i < j < |found| ensures found[i].reference.uid != found[j].reference.uid {
      assert visited[i + 1] != visited[j + 1];
    }
    FoundBounded(records, found);
  }

  // --- the result ---------------------------------------------------------------------------

  function RecordKey(r: Record): (k: seq<string>)
    ensures |k| == 8
  {
    RefKey(r.reference)
  }

  function TypeKey(g: Group): (k: seq<string>)
    ensures |k| == 3
  {
    GvkKey(g.gvk)
  }

  /** Types ascend, and the records of each type ascend by identity. */
  ghost predicate InOrder(groups: seq<Group>) {
    Ascending(groups, TypeKey, 3) && forall g :: g in groups ==> Ascending(g.records, RecordKey, 8)
  }

  lemma DistinctRecordKeys(records: seq<Record>)
    requires DistinctUids(records)
    ensures DistinctKeys(records, RecordKey)
  {
    forall i, j | 0 <= i < j < |records| ensures RecordKey(records[i]) != RecordKey(records[j]) {
      if RecordKey(records[i]) == RecordKey(records[j]) {
        RefKeyInjective(records[i].reference, records[j].reference);
      }
    }
  }

  /** Sorting one group's records leaves the partition as it was. */
  lemma SortOneGroup(groups: seq<Group>, found: seq<Record>, a: nat)
    requires Partitions(groups, found) && a < |groups|
    ensures var sorted := groups[a].(records := Sort(groups[a].records, RecordKey, 8));
            Partitions(groups[a := sorted], found) && Ascending(sorted.records, RecordKey, 8)
  {
    var records := groups[a].records;
    var sorted := Sort(records, RecordKey, 8);
    var after := groups[a := groups[a].(records := sorted)];
    assert groups[a] in groups;
    DistinctRecordKeys(records);
    SortAscending(records, RecordKey, 8);
    assert |sorted| > 0 by { assert records[0] in sorted; }
    forall i, j | 0 <= i < j < |sorted| ensures sorted[i].reference.uid != sorted[j].reference.uid {
      KeyTotal(RecordKey(sorted[i]), RecordKey(sorted[j]));
      assert sorted[i] in records && sorted[j] in records;
    }
    forall r ensures Returned(groups, r) <==> Returned(after, r) {
      SameMembers(groups, a, sorted, r);
    }
  }

  lemma SameMembers(groups: seq<Group>, a: nat, sorted: seq<Record>, r: Record)
    requires a < |groups| && (forall x :: x in sorted <==> x in groups[a].records)
    ensures var after := groups[a := groups[a].(records := sorted)];
            Returned(groups, r) <==> Returned(after, r)
  {
    var after := groups[a := groups[a].(records := sorted)];
    if Returned(groups, r) {
      var g :| g in groups && r in g.records;
      var b :| 0 <= b < |groups| && groups[b] == g;
      assert after[b] in after;
    }
    if Returned(after, r) {
      var g :| g in after && r in g.records;
      var b :| 0 <= b < |after| && after[b] == g;
      assert groups[b] in groups;
    }
  }

  /** Sorting the groups by type leaves the partition as it was. */
  lemma SortGroups(groups: seq<Group>, found: seq<Record>)
    requires Partitions(groups, found) && forall g :: g in groups ==> Ascending(g.records, RecordKey, 8)
    ensures InOrder(Sort(groups, TypeKey, 3)) && Partitions(Sort(groups, TypeKey, 3), found)
  {
    hide Sort, KeyLess;
    var sorted := Sort(groups, TypeKey, 3);
    forall a, b | 0 <= a < b < |groups| ensures TypeKey(groups[a]) != TypeKey(groups[b]) {
      GvkKeyInjective(groups[a].gvk, groups[b].gvk);
    }
    SortAscending(groups, TypeKey, 3);
    forall a, b | 0 <= a < b < |sorted| ensures sorted[a].gvk != sorted[b].gvk {
      KeyTotal(TypeKey(sorted[a]), TypeKey(sorted[b]));
    }
  }

  ghost predicate ReturnedUid(groups: seq<Group>, uid: string) {
    exists r :: Returned(groups, r) && r.reference.uid == uid
  }

  /** The uids returned are the least fixed point of the controller edges, without the root. */
  ghost predicate Complete(records: seq<Record>, root: ResourceRef, groups: seq<Group>) {
    forall uid :: ReturnedUid(groups, uid) <==> uid != root.uid && Descends(records, root, uid)
  }

  predicate SamePlace(groups: seq<Group>, a: nat, i: nat, b: nat, j: nat)
    requires a < |groups| && b < |groups| && i < |groups[a].records| && j < |groups[b].records|
  {
    groups[a].records[i].reference.uid == groups[b].records[j].reference.uid ==> a == b && i == j
  }

  /** No uid is returned in two places. */
  ghost predicate OnceEach(groups: seq<Group>) {
    forall a, b, i, j | 0 <= a < |groups| && 0 <= b < |groups| && 0 <= i < |groups[a].records| && 0 <= j < |groups[b].records| ::
      SamePlace(groups, a, i, b, j)
  }

  lemma UidInFound(groups: seq<Group>, found: seq<Record>, visited: seq<string>, records: seq<Record>,
                   root: ResourceRef, uid: string)
    requires Visits(records, root, visited, found) && Partitions(groups, found)
    ensures ReturnedUid(groups, uid) <==> uid != root.uid && uid in visited
  {
    if uid != root.uid && uid in visited {
      var i :| 0 <= i < |visited| && visited[i] == uid;
      assert found[i - 1] in found && Returned(groups, found[i - 1]);
    }
    if ReturnedUid(groups, uid) {
      var r :| Returned(groups, r) && r.reference.uid == uid;
      assert r in found;
      var i :| 0 <= i < |found| && found[i] == r;
      assert visited[i + 1] == uid && visited[0] != visited[i + 1];
    }
  }

  lemma FoundOnce(records: seq<Record>, root: ResourceRef, visited: seq<string>, found: seq<Record>, groups: seq<Group>)
    requires Visits(records, root, visited, found) && Partitions(groups, found)
    ensures OnceEach(groups)
  {
    forall a, b, i, j | 0 <= a < |groups| && 0 <= b < |groups| && 0 <= i < |groups[a].records| && 0 <= j < |groups[b].records|
      ensures SamePlace(groups, a, i, b, j)
    {
      if groups[a].records[i].reference.uid == groups[b].records[j].reference.uid {
        var x, y := groups[a].records[i], groups[b].records[j];
        assert groups[a] in groups && groups[b] in groups && x in found && y in found;
        var k :| 0 <= k < |found| && found[k] == x;
        var m :| 0 <= m < |found| && found[m] == y;
        assert visited[k + 1] == visited[m + 1] && k == m;
      }
    }
  }

  /** What the traversal promises of its result. */
  ghost predicate RelatedOf(records: seq<Record>, root: ResourceRef, groups: seq<Group>) {
    && Complete(records, root, groups)
    && OnceEach(groups)
    && InOrder(groups)
    && (forall r :: Returned(groups, r) ==> r in records && SameScope(root, r))
    && (forall g :: g in groups ==> |g.records| > 0)
    && (forall g, r :: g in groups && r in g.records ==> r.reference.gvk == g.gvk)
  }

  /** The sorted groups of a finished traversal. */
  lemma Finish(records: seq<Record>, root: ResourceRef, visited: seq<string>, found: seq<Record>, groups: seq<Group>)
    requires Visits(records, root, visited, found) && Partitions(groups, found) && InOrder(groups)
    requires forall uid :: uid in visited <==> Descends(records, root, uid)
    ensures RelatedOf(records, root, groups)
  {
    FoundOnce(records, root, visited, found, groups);
    forall uid ensures ReturnedUid(groups, uid) <==> uid != root.uid && Descends(records, root, uid) {
      UidInFound(groups, found, visited, records, root, uid);
    }
  }

  /** One pass over the records. */
  ghost predicate Passed(records: seq<Record>, root: ResourceRef, frontier: seq<string>, visited: seq<string>, i: nat)
    requires i <= |records|
  {
    forall k :: 0 <= k < i && SameScope(root, records[k]) && ControlledBy(records[k], frontier) ==>
      records[k].reference.uid in visited
  }

  method FindRelated(records: seq<Record>, root: ResourceRef) returns (groups: seq<Group>)
    ensures RelatedOf(records, root, groups)
  {
    assert Partitions([], []);
    hide Partitions, Ascending, RelatedOf;
    groups := [];
    var visited := [root.uid];
    ghost var found: seq<Record> := [];
    while true
      invariant Visits(records, root, visited, found) && Partitions(groups, found)
      decreases |Uids(records)| - |found|
    {
      var frontier := visited;
      var discovered := false;
      for i := 0 to |records|
        invariant Visits(records, root, visited, found) && Partitions(groups, found) && frontier <= visited
        invariant discovered <==> |visited| > |frontier|
        invariant Passed(records, root, frontier, visited, i)
      {
        var candidate := records[i].reference;
        if candidate.context != root.context || candidate.namespace != root.namespace || candidate.uid in visited {
          continue;
        }
        if !ControlledBy(records[i], frontier) { continue; }
        VisitsOneMore(records, root, visited, found, frontier, records[i]);
        AddToPartitions(groups, found, records[i]);
        visited := visited + [candidate.uid];
        found := found + [records[i]];
        discovered := true;
        groups := AddTo(groups, records[i]);
      }
      VisitsBounded(records, root, visited, found);
      if !discovered {
        assert frontier == visited;
        break;
      }
    }
    forall uid { VisitedIsLeast(records, root, visited, found, uid); }
    var n := |groups|;
    for i := 0 to n
      invariant |groups| == n && Partitions(groups, found)
      invariant forall k :: 0 <= k < i ==> Ascending(groups[k].records, RecordKey, 8)
    {
      SortOneGroup(groups, found, i);
      groups := groups[i := groups[i].(records := Sort(groups[i].records, RecordKey, 8))];
    }
    SortGroups(groups, found);
    groups := Sort(groups, TypeKey, 3);
    Finish(records, root, visited, found, groups);
  }
}
