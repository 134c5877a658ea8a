/**
 Two conversions of one list of manifests are different objects in memory. Here it is shown that the analysis of a
 workload sees no difference between them but the order of what it finds.
 */
module Conversions {
  import opened Collections
  import opened Resources
  import opened Annotations
  import opened Analysis
  import opened Closure
  import opened HubState

  // ----- Lists that differ in the objects only

  /** The same manifests in the same order. */
  predicate Twin(a: seq<Resource>, b: seq<Resource>)
  {
    |a| == |b| && forall i :: 0 <= i < |a| ==> a[i].manifest == b[i].manifest
  }

  /** `r` and `s` stand at one position of the two lists. */
  ghost predicate Mates(a: seq<Resource>, b: seq<Resource>, r: Resource, s: Resource)
  {
    exists i :: 0 <= i < |a| && i < |b| && a[i] == r && b[i] == s
  }

  lemma MatesMatch(a: seq<Resource>, b: seq<Resource>, r: Resource, s: Resource)
    requires Twin(a, b) && Mates(a, b, r, s)
    ensures r in a && s in b && r.manifest == s.manifest && Mates(b, a, s, r)
  {
  }

  lemma MateIsUnique(a: seq<Resource>, b: seq<Resource>, r: Resource, s: Resource, t: Resource)
    requires DistinctKeys(a) && Mates(a, b, r, s) && Mates(a, b, r, t)
    ensures s == t
  {
  }

  lemma MateOf(a: seq<Resource>, b: seq<Resource>, r: Resource) returns (s: Resource)
    requires Twin(a, b) && r in a
    ensures Mates(a, b, r, s) && s in b && r.manifest == s.manifest
  {
    var i :| 0 <= i < |a| && a[i] == r;
    s := b[i];
  }

  lemma {:induction false} TwinKeys(a: seq<Resource>, b: seq<Resource>)
    requires Twin(a, b)
    ensures DistinctKeys(a) <==> DistinctKeys(b)
    ensures forall k :: HasKey(a, k) <==> HasKey(b, k)
  {
    forall k | HasKey(a, k) ensures HasKey(b, k) {
      var i :| 0 <= i < |a| && a[i].Key() == k;
      assert b[i].Key() == k;
    }
    forall k | HasKey(b, k) ensures HasKey(a, k) {
      var i :| 0 <= i < |b| && b[i].Key() == k;
      assert a[i].Key() == k;
    }
    assert forall i :: 0 <= i < |a| ==> a[i].Key() == b[i].Key();
  }

  lemma {:induction false} UnionTwins(a: seq<Resource>, b: seq<Resource>)
    requires Twin(a, b)
    ensures Twin(Union([], a), Union([], b))
  {
    if a != [] {
      UnionTwins(a[..|a| - 1], b[..|b| - 1]);
      TwinKeys(Union([], a[..|a| - 1]), Union([], b[..|b| - 1]));
    }
  }

  lemma {:induction false} FilterTwins(p: Resource -> bool, q: Resource -> bool, a: seq<Resource>, b: seq<Resource>)
    requires Twin(a, b) && forall i :: 0 <= i < |a| ==> p(a[i]) == q(b[i])
    ensures Twin(Filter(p, a), Filter(q, b))
  {
    if a != [] {
      var n := |a| - 1;
      assert forall i :: 0 <= i < n ==> a[..n][i] == a[i] && b[..n][i] == b[i];
      FilterTwins(p, q, a[..n], b[..n]);
    }
  }

  lemma {:induction false} FirstTwins(p: Resource -> bool, q: Resource -> bool, a: seq<Resource>, b: seq<Resource>)
    requires Twin(a, b) && forall i :: 0 <= i < |a| ==> p(a[i]) == q(b[i])
    ensures First(p, a).None? <==> First(q, b).None?
    ensures First(p, a).Some? ==> Mates(a, b, First(p, a).value, First(q, b).value)
  {
    if a != [] && !p(a[0]) {
      assert forall i :: 0 <= i < |a| - 1 ==> a[1..][i] == a[i + 1] && b[1..][i] == b[i + 1];
      FirstTwins(p, q, a[1..], b[1..]);
    }
  }

  lemma {:induction false} FlatMapTwins<A, B, C>(f: A -> seq<C>, g: B -> seq<C>, a: seq<A>, b: seq<B>)
    requires |a| == |b| && forall i :: 0 <= i < |a| ==> f(a[i]) == g(b[i])
    ensures FlatMap(f, a) == FlatMap(g, b)
  {
    if a != [] {
      var n := |a| - 1;
      assert forall i :: 0 <= i < n ==> a[..n][i] == a[i] && b[..n][i] == b[i];
      FlatMapTwins(f, g, a[..n], b[..n]);
    }
  }

  lemma {:induction false} FilterSame<T>(p: T -> bool, q: T -> bool, s: seq<T>)
    requires forall i :: 0 <= i < |s| ==> p(s[i]) == q(s[i])
    ensures Filter(p, s) == Filter(q, s)
  {
    if s != [] {
      var n := |s| - 1;
      assert forall i :: 0 <= i < n ==> s[..n][i] == s[i];
      FilterSame(p, q, s[..n]);
    }
  }

  lemma ResolveTwins(a: seq<Resource>, b: seq<Resource>, ref: Ref)
    requires Twin(a, b)
    ensures Resolve(a, ref).None? <==> Resolve(b, ref).None?
    ensures Resolve(a, ref).Some? ==> Mates(a, b, Resolve(a, ref).value, Resolve(b, ref).value)
  {
    FirstTwins(Matching(ref), Matching(ref), a, b);
  }

  lemma ResolveMate(a: seq<Resource>, b: seq<Resource>, ref: Ref, r: Resource, s: Resource)
    requires Twin(a, b) && DistinctKeys(a) && Mates(a, b, r, s) && Resolve(a, ref) == Some(r)
    ensures Resolve(b, ref) == Some(s)
  {
    ResolveTwins(a, b, ref);
    MateIsUnique(a, b, r, s, Resolve(b, ref).value);
  }

  // ----- What is needed

  lemma MateIsGranted(a: seq<Resource>, b: seq<Resource>, account: Resource, r: Resource, account': Resource,
                      s: Resource)
    requires Twin(a, b) && DistinctKeys(a) && Mates(a, b, r, s) && account.manifest == account'.manifest
    requires SomeBindingGrants(a, account, r)
    ensures SomeBindingGrants(b, account', s)
  {
    var x :| x in a && Grants(a, account, x, r);
    var y := MateOf(a, b, x);
    MateGrants(a, b, account, x, r, account', y, s);
  }

  lemma AccountIsNamed(x: Resource, account: Resource, y: Resource, account': Resource)
    requires x.manifest == y.manifest && account.manifest == account'.manifest && NamesAccount(x, account)
    ensures NamesAccount(y, account')
  {
    var m :| m in x.manifest.body.subjects && SubjectNames(m, account.manifest.metadata);
    assert m in y.manifest.body.subjects && SubjectNames(m, account'.manifest.metadata);
  }

  lemma MateGrants(a: seq<Resource>, b: seq<Resource>, account: Resource, x: Resource, r: Resource, account': Resource,
                   y: Resource, s: Resource)
    requires Twin(a, b) && DistinctKeys(a) && Mates(a, b, r, s) && Mates(a, b, x, y) && x.manifest == y.manifest
    requires account.manifest == account'.manifest && Grants(a, account, x, r)
    ensures Grants(b, account', y, s)
  {
    AccountIsNamed(x, account, y, account');
    if r == x {
      MateIsUnique(a, b, r, s, y);
    }
    ResolveTwins(a, b, x.Body().roleRef);
    if Resolve(a, x.Body().roleRef) == Some(r) {
      ResolveMate(a, b, x.Body().roleRef, r, s);
    }
  }

  lemma MateIsNeededByPod(t: PodTemplate, a: seq<Resource>, b: seq<Resource>, r: Resource, s: Resource)
    requires Twin(a, b) && DistinctKeys(a) && Mates(a, b, r, s) && NeededByPod(t, a, r)
    ensures NeededByPod(t, b, s)
  {
    if GrantedTo(t, a, r) {
      var ref := Ref(t.serviceAccountName, ServiceAccount);
      ResolveTwins(a, b, ref);
      MatesMatch(a, b, Resolve(a, ref).value, Resolve(b, ref).value);
      MateIsGranted(a, b, Resolve(a, ref).value, r, Resolve(b, ref).value, s);
    } else {
      var ref :| Closure.Names(t, ref) && Resolve(a, ref) == Some(r);
      ResolveMate(a, b, ref, r, s);
    }
  }

  lemma MateIsServed(labels: map<string, string>, a: seq<Resource>, b: seq<Resource>, r: Resource, s: Resource)
    requires Twin(a, b) && DistinctKeys(a) && Mates(a, b, r, s) && Served(labels, a, r)
    ensures Served(labels, b, s)
  {
    var x :| x in a && ServedThrough(labels, a, x, r);
    var k :| BringsIn(x, labels, k, a, r);
    var y := MateOf(a, b, x);
    MatesMatch(a, b, r, s);
    if r == x {
      MateIsUnique(a, b, r, s, y);
    }
    assert BringsIn(y, labels, k, b, s);
    assert ServedThrough(labels, b, y, s);
  }

  /** What a workload needs stands at the same positions of both lists. */
  lemma MateIsNeeded(w: Resource, a: seq<Resource>, r: Resource, v: Resource, b: seq<Resource>, s: Resource)
    requires Twin(a, b) && DistinctKeys(a) && Mates(a, b, r, s) && w.manifest == v.manifest && Needed(w, a, r)
    ensures Needed(v, b, s)
  {
    MatesMatch(a, b, r, s);
    if NeededAsNamespace(w, a, r) {
      ResolveMate(a, b, Ref(w.Namespace(), Namespace), r, s);
    } else if NeededByPod(w.Body().template, a, r) {
      MateIsNeededByPod(w.Body().template, a, b, r, s);
    } else if NeededByNetwork(w, a, r) {
      if Served(w.Body().template.labels, a, r) {
        MateIsServed(w.Body().template.labels, a, b, r, s);
      } else {
        ResolveMate(a, b, Ref(w.Body().serviceName, Service), r, s);
      }
    } else {
      assert NeededAsScaler(v, b, s);
    }
  }

  // ----- What is referred to

  lemma MentionsTwin(x: Resource, account: Resource, y: Resource, account': Resource)
    requires x.manifest == y.manifest && account.manifest == account'.manifest
    ensures RoleRefs(account)(x) == RoleRefs(account')(y)
  {
    FilterSame(SubjectIs(account), SubjectIs(account'), x.Body().subjects);
  }

  lemma BindingsTwins(a: seq<Resource>, b: seq<Resource>)
    requires Twin(a, b)
    ensures Twin(Bindings(a), Bindings(b))
  {
    FilterTwins(OfKind(ClusterRoleBinding), OfKind(ClusterRoleBinding), a, b);
    FilterTwins(OfKind(RoleBinding), OfKind(RoleBinding), a, b);
  }

  lemma AccountRefsTwins(t: PodTemplate, a: seq<Resource>, b: seq<Resource>)
    requires Twin(a, b)
    ensures AccountRefs(t, a) == AccountRefs(t, b)
  {
    ResolveTwins(a, b, AccountRef(t));
    if Resolve(a, AccountRef(t)).Some? {
      var x, y := Resolve(a, AccountRef(t)).value, Resolve(b, AccountRef(t)).value;
      MatesMatch(a, b, x, y);
      BindingsTwins(a, b);
      forall i | 0 <= i < |Bindings(a)| ensures RoleRefs(x)(Bindings(a)[i]) == RoleRefs(y)(Bindings(b)[i]) {
        MentionsTwin(Bindings(a)[i], x, Bindings(b)[i], y);
      }
      FlatMapTwins(RoleRefs(x), RoleRefs(y), Bindings(a), Bindings(b));
    }
  }

  lemma UnmetTwins(w: Resource, a: seq<Resource>, v: Resource, b: seq<Resource>)
    requires Twin(a, b) && w.manifest == v.manifest
    ensures Filter(Unmet(a), References(w, a)) == Filter(Unmet(b), References(v, b))
  {
    AccountRefsTwins(w.Body().template, a, b);
    forall ref: Ref | true ensures Unmet(a)(ref) == Unmet(b)(ref) {
      ResolveTwins(a, b, ref);
    }
    FilterSame(Unmet(a), Unmet(b), References(w, a));
  }

  // ----- What is found

  /** The same manifests up to their order. */
  ghost predicate Reordered(a: seq<Resource>, b: seq<Resource>) { multiset(ManifestsOf(a)) == multiset(ManifestsOf(b)) }

  ghost predicate NoRepeats<T>(s: seq<T>) { forall i, j :: 0 <= i < j < |s| ==> s[i] != s[j] }

  lemma CountedOnce<T>(s: seq<T>, x: T)
    requires NoRepeats(s)
    ensures multiset(s)[x] == if x in s then 1 else 0
  {
    if x in s {
      var i :| 0 <= i < |s| && s[i] == x;
      assert s == s[..i] + [x] + s[i + 1..];
      assert x !in s[..i] && x !in s[i + 1..];
    }
  }

  lemma SameMembers<T>(s: seq<T>, t: seq<T>)
    requires NoRepeats(s) && NoRepeats(t) && forall x :: x in s <==> x in t
    ensures multiset(s) == multiset(t)
  {
    forall x: T | true ensures multiset(s)[x] == multiset(t)[x] {
      CountedOnce(s, x);
      CountedOnce(t, x);
    }
  }

  lemma FoundByBoth(w: Resource, a: seq<Resource>, f: Findings, v: Resource, b: seq<Resource>, g: Findings, m: Manifest)
    requires Twin(a, b) && DistinctKeys(a) && w.manifest == v.manifest && Accounts(w, a, f) && Accounts(v, b, g)
    requires m in ManifestsOf(f.resources)
    ensures m in ManifestsOf(g.resources)
  {
    var i :| 0 <= i < |f.resources| && ManifestsOf(f.resources)[i] == m;
    var r := f.resources[i];
    AnalysisIsExact(w, a, f, r);
    var s := MateOf(a, b, r);
    MateIsNeeded(w, a, r, v, b, s);
    AnalysisIsExact(v, b, g, s);
    var j :| 0 <= j < |g.resources| && g.resources[j] == s;
    assert ManifestsOf(g.resources)[j] == m;
  }

  lemma ManifestsDiffer(s: seq<Resource>)
    requires DistinctKeys(s)
    ensures NoRepeats(ManifestsOf(s))
  {
    forall i, j | 0 <= i < j < |s| ensures ManifestsOf(s)[i] != ManifestsOf(s)[j] {
      assert s[i].Key() != s[j].Key();
    }
  }

  /** Two analyses of a workload, each among the resources of one conversion, find the same manifests up to their
      order, and the same absent references and connections in the same order. */
  lemma TwinFindings(w: Resource, a: seq<Resource>, f: Findings, v: Resource, b: seq<Resource>, g: Findings)
    requires Twin(a, b) && DistinctKeys(a) && w.manifest == v.manifest && Accounts(w, a, f) && Accounts(v, b, g)
    ensures Reordered(f.resources, g.resources) && f.absent == g.absent && f.connections == g.connections
  {
    TwinKeys(a, b);
    forall m | m in ManifestsOf(f.resources) ensures m in ManifestsOf(g.resources) {
      FoundByBoth(w, a, f, v, b, g, m);
    }
    forall m | m in ManifestsOf(g.resources) ensures m in ManifestsOf(f.resources) {
      FoundByBoth(v, b, g, w, a, f, m);
    }
    AnalysisIsExact(w, a, f, w);
    AnalysisIsExact(v, b, g, v);
    ManifestsDiffer(f.resources);
    ManifestsDiffer(g.resources);
    SameMembers(ManifestsOf(f.resources), ManifestsOf(g.resources));
    UnmetTwins(w, a, v, b);
    assert Opened(f) && Opened(g);
  }

  // ----- What is assigned

  /** Twin workloads are assigned the same annotations. */
  lemma {:induction false} AssignedTwins(a: seq<Resource>, b: seq<Resource>, entries: seq<WorkloadAnnotation>,
                                         r: Resource, s: Resource)
    requires Twin(a, b) && DistinctKeys(a) && Mates(a, b, r, s)
    ensures Assigned(a, entries, r) == Assigned(b, entries, s)
  {
    if entries != [] {
      var named := WorkloadNamed(entries[|entries| - 1].name);
      AssignedTwins(a, b, entries[..|entries| - 1], r, s);
      FirstTwins(named, named, a, b);
      TwinKeys(a, b);
      if First(named, a) == Some(r) {
        MateIsUnique(a, b, r, s, First(named, b).value);
      }
      if First(named, b) == Some(s) {
        MatesMatch(a, b, First(named, a).value, s);
        MatesMatch(a, b, r, s);
        MateIsUnique(b, a, s, r, First(named, a).value);
      }
    }
  }
}
