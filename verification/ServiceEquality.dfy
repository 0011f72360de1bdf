// Comparing Services whatever the order of their ports (EqualServices,
// pkg/resources/k8s_services.go:46-62). Copies of the ports are sorted by name before the
// two specs are encoded and compared; an encoding tells different specs apart and writes nil
// and empty lists alike. The library sort is deterministic but promises nothing about ports
// of one name.
module ServiceEquality {
  import opened Objects

  // Go's order on strings.
  predicate Less(a: string, b: string) {
    if b == "" then false
    else if a == "" then true
    else if a[0] != b[0] then a[0] < b[0]
    else Less(a[1..], b[1..])
  }

  lemma {:induction false} LessIsTotal(a: string, b: string)
    requires !Less(a, b) && !Less(b, a)
    ensures a == b
  {
    if a != "" && b != "" {
      LessIsTotal(a[1..], b[1..]);
      assert a == [a[0]] + a[1..] && b == [b[0]] + b[1..];
    }
  }

  predicate InOrder(ports: seq<ServicePort>) {
    forall i, j | 0 <= i < j < |ports| :: !Less(ports[j].name, ports[i].name)
  }

  predicate IsSorting(ports: seq<ServicePort>, sorted: seq<ServicePort>) {
    multiset(sorted) == multiset(ports) && InOrder(sorted)
  }

  type Sort = seq<ServicePort> -> seq<ServicePort>

  // All the library promises.
  ghost predicate Sorts(sort: Sort) {
    forall ports :: IsSorting(ports, sort(ports))
  }

  predicate DistinctNames(ports: seq<ServicePort>) {
    forall i, j | 0 <= i < j < |ports| :: ports[i].name != ports[j].name
  }

  predicate EqualServices(sort: Sort, s1: ServiceSpec, s2: ServiceSpec) {
    ServiceSpec(sort(s1.ports), s1.selector) == ServiceSpec(sort(s2.ports), s2.selector)
  }

  // ---- Sorting by distinct names has one outcome ---------------------------

  lemma NamesIn(ports: seq<ServicePort>, p: ServicePort, q: ServicePort)
    requires DistinctNames(ports) && p in ports && q in ports && p.name == q.name
    ensures p == q
  {
  }

  lemma {:induction false} DistinctUpToOrder(a: seq<ServicePort>, b: seq<ServicePort>)
    requires multiset(a) == multiset(b) && DistinctNames(a)
    ensures DistinctNames(b)
  {
    forall i, j | 0 <= i < j < |b|
      ensures b[i].name != b[j].name
    {
      if b[i].name == b[j].name {
        assert b[i] in multiset(b) && b[j] in multiset(b);
        assert b[i] in multiset(a) && b[j] in multiset(a);
        NamesIn(a, b[i], b[j]);
        TwiceIn(b, i, j);
        OnceIn(a, b[i]);
        assert false;
      }
    }
  }

  lemma TwiceIn(ports: seq<ServicePort>, i: nat, j: nat)
    requires i < j < |ports| && ports[i] == ports[j]
    ensures multiset(ports)[ports[i]] >= 2
  {
    assert ports == ports[..j] + [ports[j]] + ports[j + 1..];
    assert ports[..j][i] == ports[i];
    assert ports[i] in multiset(ports[..j]);
  }

  lemma {:induction false} OnceIn(ports: seq<ServicePort>, p: ServicePort)
    requires DistinctNames(ports)
    ensures multiset(ports)[p] <= 1
  {
    if ports != [] {
      OnceIn(ports[1..], p);
      assert ports == [ports[0]] + ports[1..];
      if p == ports[0] {
        assert p !in ports[1..];
      }
    }
  }

  lemma HeadsAgree(a: seq<ServicePort>, b: seq<ServicePort>)
    requires multiset(a) == multiset(b) && InOrder(a) && InOrder(b) && DistinctNames(a)
    requires a != [] && b != []
    ensures a[0] == b[0]
  {
    assert a[0] in multiset(b) && b[0] in multiset(a);
    var k :| 0 <= k < |b| && b[k] == a[0];
    var m :| 0 <= m < |a| && a[m] == b[0];
    if k != 0 && m != 0 {
      LessIsTotal(a[0].name, b[0].name);
      assert false;
    }
  }

  lemma TailsAgree(a: seq<ServicePort>, b: seq<ServicePort>)
    requires a != [] && b != [] && a[0] == b[0] && multiset(a) == multiset(b)
    ensures multiset(a[1..]) == multiset(b[1..])
  {
    assert a == [a[0]] + a[1..] && b == [b[0]] + b[1..];
    assert multiset(a[1..]) == multiset(a) - multiset{a[0]};
    assert multiset(b[1..]) == multiset(b) - multiset{b[0]};
  }

  lemma TailInOrder(a: seq<ServicePort>)
    requires a != [] && InOrder(a) && DistinctNames(a)
    ensures InOrder(a[1..]) && DistinctNames(a[1..])
  {
  }

  lemma {:induction false} SortingIsUnique(a: seq<ServicePort>, b: seq<ServicePort>)
    requires multiset(a) == multiset(b) && InOrder(a) && InOrder(b) && DistinctNames(a)
    ensures a == b
  {
    if a == [] {
      assert |multiset(b)| == 0;
    } else {
      assert |multiset(a)| == |multiset(b)|;
      HeadsAgree(a, b);
      TailsAgree(a, b);
      TailInOrder(a);
      DistinctUpToOrder(a, b);
      TailInOrder(b);
      SortingIsUnique(a[1..], b[1..]);
      assert a == [a[0]] + a[1..] && b == [b[0]] + b[1..];
    }
  }

  // With distinct port names, two Services compare equal exactly when their selectors agree
  // and their ports are the same up to order, whatever the sort does.
  lemma {:induction false} ComparesUpToOrder(sort: Sort, s1: ServiceSpec, s2: ServiceSpec)
    requires Sorts(sort) && DistinctNames(s1.ports) && DistinctNames(s2.ports)
    ensures EqualServices(sort, s1, s2) <==> s1.selector == s2.selector && multiset(s1.ports) == multiset(s2.ports)
  {
    var sorted1, sorted2 := sort(s1.ports), sort(s2.ports);
    assert IsSorting(s1.ports, sorted1) && IsSorting(s2.ports, sorted2);
    if multiset(s1.ports) == multiset(s2.ports) {
      DistinctUpToOrder(s1.ports, sorted1);
      SortingIsUnique(sorted1, sorted2);
    }
  }

  // The comparison is an equivalence on all Services, and never equates different contents.
  lemma ComparesAsEquivalence(sort: Sort, a: ServiceSpec, b: ServiceSpec, c: ServiceSpec)
    requires Sorts(sort)
    ensures EqualServices(sort, a, a)
    ensures EqualServices(sort, a, b) ==> EqualServices(sort, b, a)
    ensures EqualServices(sort, a, b) && EqualServices(sort, b, c) ==> EqualServices(sort, a, c)
    ensures EqualServices(sort, a, b) ==> a.selector == b.selector && multiset(a.ports) == multiset(b.ports)
  {
    assert IsSorting(a.ports, sort(a.ports)) && IsSorting(b.ports, sort(b.ports));
  }

  // ---- Shared names --------------------------------------------------------

  // What the library does with few ports: each is moved left past those of greater name.
  function Settle(sorted: seq<ServicePort>, p: ServicePort): seq<ServicePort> {
    if sorted == [] then [p]
    else
      var n := |sorted| - 1;
      if Less(p.name, sorted[n].name) then Settle(sorted[..n], p) + [sorted[n]] else sorted + [p]
  }

  function InsertionSort(ports: seq<ServicePort>): seq<ServicePort> {
    if ports == [] then []
    else Settle(InsertionSort(ports[..|ports| - 1]), ports[|ports| - 1])
  }

  lemma {:induction false} NotLessTransitive(a: string, b: string, c: string)
    requires !Less(b, a) && !Less(c, b)
    ensures !Less(c, a)
  {
    if a != "" && b != "" && c != "" && a[0] == b[0] && b[0] == c[0] {
      NotLessTransitive(a[1..], b[1..], c[1..]);
    }
  }

  lemma {:induction false} LessMeansNotLess(a: string, b: string)
    requires Less(a, b)
    ensures !Less(b, a)
  {
    if a != "" && a[0] == b[0] {
      LessMeansNotLess(a[1..], b[1..]);
    }
  }

  lemma {:induction false} SettleSorts(sorted: seq<ServicePort>, p: ServicePort)
    requires InOrder(sorted)
    ensures multiset(Settle(sorted, p)) == multiset(sorted) + multiset{p}
    ensures InOrder(Settle(sorted, p))
    decreases |sorted|
  {
    if sorted != [] {
      var n := |sorted| - 1;
      assert sorted == sorted[..n] + [sorted[n]];
      if Less(p.name, sorted[n].name) {
        SettleSorts(sorted[..n], p);
        LessMeansNotLess(p.name, sorted[n].name);
        GreatestLast(Settle(sorted[..n], p), sorted[..n], p, sorted[n]);
      } else {
        forall i | 0 <= i < |sorted|
          ensures !Less(p.name, sorted[i].name)
        {
          LessIrreflexive(sorted[n].name);
          NotLessTransitive(sorted[i].name, sorted[n].name, p.name);
        }
      }
    }
  }

  lemma GreatestLast(settled: seq<ServicePort>, sorted: seq<ServicePort>, p: ServicePort, last: ServicePort)
    requires InOrder(settled) && multiset(settled) == multiset(sorted) + multiset{p}
    requires !Less(last.name, p.name) && forall q | q in sorted :: !Less(last.name, q.name)
    ensures InOrder(settled + [last])
  {
    forall i | 0 <= i < |settled|
      ensures !Less(last.name, settled[i].name)
    {
      assert settled[i] in multiset(settled);
      assert settled[i] in multiset(sorted) || settled[i] == p;
    }
  }

  lemma OneMoreSorted(ports: seq<ServicePort>, sorted: seq<ServicePort>)
    requires ports != [] && IsSorting(ports[..|ports| - 1], sorted)
    ensures IsSorting(ports, Settle(sorted, ports[|ports| - 1]))
  {
    var n := |ports| - 1;
    SettleSorts(sorted, ports[n]);
    assert ports == ports[..n] + [ports[n]];
  }

  lemma {:induction false} InsertionSorts(ports: seq<ServicePort>)
    ensures IsSorting(ports, InsertionSort(ports))
    decreases |ports|
  {
    if ports != [] {
      var n := |ports| - 1;
      InsertionSorts(ports[..n]);
      OneMoreSorted(ports, InsertionSort(ports[..n]));
    }
  }

  // Where a name is shared, the order of the ports may show: sorted by insertion, as the
  // library does with few ports, two Services with the same two ports of one name in
  // different order compare unequal.
  lemma {:induction false} SharedNamesDiffer(selector: map<string, string>, p: ServicePort, q: ServicePort)
    requires p.name == q.name && p != q
    ensures Sorts(InsertionSort)
    ensures multiset([p, q]) == multiset([q, p])
    ensures !EqualServices(InsertionSort, ServiceSpec([p, q], selector), ServiceSpec([q, p], selector))
  {
    forall ports
      ensures IsSorting(ports, InsertionSort(ports))
    {
      InsertionSorts(ports);
    }
    InsertionOfTwo(p, q);
    InsertionOfTwo(q, p);
    assert [p, q][0] != [q, p][0];
  }

  lemma InsertionOfTwo(p: ServicePort, q: ServicePort)
    requires p.name == q.name
    ensures InsertionSort([p, q]) == [p, q]
  {
    LessIrreflexive(p.name);
    assert [p, q][..1] == [p] && [p][..0] == [];
    assert InsertionSort([p]) == [p];
  }

  lemma {:induction false} LessIrreflexive(a: string)
    ensures !Less(a, a)
  {
    if a != "" {
      LessIrreflexive(a[1..]);
    }
  }
}
