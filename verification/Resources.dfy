/**
 Manifests, the resources made from them, and sets of resources (internal/controller/resourceset.go).
 */
module Resources {
  import opened Collections

  /** The kinds and API groups that the operator names; any other is kept by its name. */
  datatype Kind = Namespace | Secret | ConfigMap | PersistentVolumeClaim | PersistentVolume | ServiceAccount
                | ClusterRole | ClusterRoleBinding | RoleBinding | Service | Ingress | Route | ServiceMonitor
                | HorizontalPodAutoscaler | Pod | Deployment | StatefulSet | DaemonSet | Job | CronJob
                | OtherKind(kindName: string)

  datatype ApiGroup = Core | Apps | Batch | Rbac | AuthorizationOpenShift | RouteOpenShift | Networking | Autoscaling
                    | Monitoring | OtherGroup(groupName: string)

  datatype GroupVersionKind = GroupVersionKind(group: ApiGroup, version: string, kind: Kind)

  datatype Metadata = Metadata(name: string, namespace: string, gvk: GroupVersionKind)

  /** What identifies a resource for the scheduler: the group and version play no part. */
  datatype Key = Identity(name: string, namespace: string, kind: Kind)

  /** A reference by name to a resource of some kind; no namespace is given. */
  datatype Ref = Ref(name: string, kind: Kind)

  datatype EnvSource = EnvSource(configMap: Option<string>, secret: Option<string>)
  datatype EnvVar = EnvVar(value: string, configMap: Option<string>, secret: Option<string>)
  datatype Container = Container(envFrom: seq<EnvSource>, env: seq<EnvVar>)
  datatype Volume = Volume(claim: Option<string>, configMap: Option<string>, secret: Option<string>)
  datatype PodTemplate = PodTemplate(labels: map<string, string>, imagePullSecrets: seq<string>, volumes: seq<Volume>,
                                     serviceAccountName: string, containers: seq<Container>,
                                     initContainers: seq<Container>)
  datatype Subject = Subject(kind: Kind, name: string, namespace: string)
  /** `http` is None when the rule carries no HTTP section; each path names the service behind it, if it is a
      service. */
  datatype IngressRule = IngressRule(http: Option<seq<Option<string>>>)
  datatype MatchExpression = MatchExpression(key: string, isIn: bool, values: seq<string>)
  datatype ScaleTarget = ScaleTarget(kind: Kind, name: string, group: ApiGroup, version: string)

  /** A decoded document: one field per part that some analyser decodes, empty where the document has no such part. */
  datatype Body = Body(template: PodTemplate, serviceName: string, selector: map<string, string>,
                       ingressRules: seq<IngressRule>, routeTo: Ref, subjects: seq<Subject>, roleRef: Ref,
                       matchLabels: map<string, string>, matchExpressions: seq<MatchExpression>,
                       scaleTarget: ScaleTarget)

  datatype Manifest = Manifest(metadata: Metadata, body: Body)
  {
    function Key(): Key { Identity(metadata.name, metadata.namespace, metadata.gvk.kind) }

    predicate IsWorkload()
    {
      var gvk := metadata.gvk;
      gvk.group == Apps || (gvk.group == Core && gvk.kind == Pod) || gvk.group == Batch
    }

    predicate IsSupported()
    {
      var gvk := metadata.gvk;
      match gvk.group
      case Core => gvk.version == "v1" && gvk.kind != PersistentVolume
      case Monitoring => gvk.version == "v1" && gvk.kind == ServiceMonitor
      case Autoscaling => gvk.version == "v2"
      case OtherGroup(_) => false
      case _ => gvk.version == "v1"
    }

    predicate HasNamespace()
    {
      metadata.namespace != "" || metadata.gvk.kind in {Namespace, ClusterRole, ClusterRoleBinding}
    }

    predicate IsValid() { IsSupported() && HasNamespace() }
  }

  class Resource {
    const manifest: Manifest
    var annotations: seq<string>

    constructor (m: Manifest)
      ensures manifest == m && annotations == []
    {
      manifest := m;
      annotations := [];
    }

    function Name(): string { manifest.metadata.name }
    function Namespace(): string { manifest.metadata.namespace }
    function Kind(): Kind { manifest.metadata.gvk.kind }
    function Body(): Body { manifest.body }
    function Key(): Key { manifest.Key() }
    predicate IsWorkload() { manifest.IsWorkload() }
  }

  // ----- Predicates over resources, shared by the loops and their specifications

  function OfKind(kind: Kind): Resource -> bool { (r: Resource) => r.Kind() == kind }
  function Named(name: string): Resource -> bool { (r: Resource) => r.Name() == name }
  function Matching(ref: Ref): Resource -> bool { (r: Resource) => r.Kind() == ref.kind && r.Name() == ref.name }
  function Workloads(): Resource -> bool { (r: Resource) => r.IsWorkload() }
  function Ancillaries(): Resource -> bool { (r: Resource) => !r.IsWorkload() }
  function WorkloadNamed(name: string): Resource -> bool { (r: Resource) => r.Name() == name && r.IsWorkload() }

  /** The resource a reference resolves to: the first of that kind and name, whatever its namespace. */
  function Resolve(s: seq<Resource>, ref: Ref): Option<Resource> { First(Matching(ref), s) }

  predicate HasKey(s: seq<Resource>, k: Key) { exists i :: 0 <= i < |s| && s[i].Key() == k }

  predicate DistinctKeys(s: seq<Resource>) { forall i, j :: 0 <= i < j < |s| ==> s[i].Key() != s[j].Key() }

  ghost function Elems<T>(s: seq<T>): set<T> { set x | x in s }

  ghost function KeySet(s: seq<Resource>): set<Key> { set i | 0 <= i < |s| :: s[i].Key() }

  /** `s` with `r` appended unless a resource with its key is there already. */
  function Added(s: seq<Resource>, r: Resource): seq<Resource> { if HasKey(s, r.Key()) then s else s + [r] }

  /** `a` with the elements of `b` added one after the other. */
  function Union(a: seq<Resource>, b: seq<Resource>): seq<Resource>
  {
    if b == [] then a else Added(Union(a, b[..|b| - 1]), b[|b| - 1])
  }

  /** A list of resources that its methods grow in place and keep free of two resources with one key. */
  class ResourceSet {
    var items: seq<Resource>

    constructor ()
      ensures items == []
    {
      items := [];
    }

    method Add(r: Resource)
      modifies this
      ensures items == Added(old(items), r)
    {
      for i := 0 to |items|
        invariant items == old(items)
        invariant forall j :: 0 <= j < i ==> items[j].Key() != r.Key()
      {
        if items[i].Key() == r.Key() {
          return;
        }
      }
      items := items + [r];
    }

    /** Adds a new resource made from the manifest. */
    method AddManifest(manifest: Manifest) returns (r: Resource)
      modifies this
      ensures fresh(r) && r.manifest == manifest && r.annotations == []
      ensures items == Added(old(items), r)
    {
      r := new Resource(manifest);
      Add(r);
    }

    method Merge(rs: seq<Resource>)
      modifies this
      ensures items == Union(old(items), rs)
    {
      for i := 0 to |rs|
        invariant items == Union(old(items), rs[..i])
      {
        Add(rs[i]);
        assert rs[..i + 1][..i] == rs[..i];
      }
      assert rs[..|rs|] == rs;
    }
  }

  lemma UnionStep(a: seq<Resource>, b: seq<Resource>, r: Resource)
    ensures Union(a, b + [r]) == Added(Union(a, b), r)
  {
    assert (b + [r])[..|b|] == b;
  }

  // ----- The laws of Add and Merge

  lemma AddedKeys(s: seq<Resource>, r: Resource)
    ensures KeySet(Added(s, r)) == KeySet(s) + {r.Key()}
    ensures DistinctKeys(s) ==> DistinctKeys(Added(s, r))
  {
    var t := Added(s, r);
    assert forall i :: 0 <= i < |s| ==> t[i] == s[i];
    if t != s {
      assert t[|s|].Key() == r.Key();
    }
  }

  /** Merging is union on keys, keeps the set free of duplicates, and leaves what was there where it was. */
  lemma {:induction false} UnionKeys(a: seq<Resource>, b: seq<Resource>)
    ensures KeySet(Union(a, b)) == KeySet(a) + KeySet(b)
    ensures DistinctKeys(a) ==> DistinctKeys(Union(a, b))
    ensures a <= Union(a, b)
    ensures |a| <= |Union(a, b)| <= |a| + |b|
  {
    if b != [] {
      var front, last := b[..|b| - 1], b[|b| - 1];
      UnionKeys(a, front);
      AddedKeys(Union(a, front), last);
      KeySetSnoc(front, last);
      assert b == front + [last];
    }
  }

  lemma KeySetSnoc(s: seq<Resource>, r: Resource)
    ensures KeySet(s + [r]) == KeySet(s) + {r.Key()}
  {
    var t := s + [r];
    assert t[|s|] == r;
    assert forall i :: 0 <= i < |s| ==> t[i] == s[i];
  }

  /** `b[i]` is the first in `b` with its key, and `a` has none with that key. */
  predicate FirstOccurrence(a: seq<Resource>, b: seq<Resource>, i: nat)
    requires i < |b|
  {
    !HasKey(a, b[i].Key()) && forall j :: 0 <= j < i ==> b[j].Key() != b[i].Key()
  }

  /** The indices of first occurrences, ascending. */
  function FirstOccurrences(a: seq<Resource>, b: seq<Resource>, n: nat): (ix: seq<nat>)
    requires n <= |b|
    ensures forall k :: 0 <= k < |ix| ==> ix[k] < n
    ensures forall k, l :: 0 <= k < l < |ix| ==> ix[k] < ix[l]
  {
    if n == 0 then []
    else FirstOccurrences(a, b, n - 1) + if FirstOccurrence(a, b, n - 1) then [n - 1] else []
  }

  function Select(b: seq<Resource>, ix: seq<nat>): (s: seq<Resource>)
    requires forall k :: 0 <= k < |ix| ==> ix[k] < |b|
    ensures |s| == |ix| && forall k :: 0 <= k < |ix| ==> s[k] == b[ix[k]]
  {
    seq(|ix|, k requires 0 <= k < |ix| => b[ix[k]])
  }

  /** Merging appends exactly the first occurrences, in order: the first of several resources with one key wins. */
  lemma {:induction false} UnionKeepsFirstOccurrences(a: seq<Resource>, b: seq<Resource>, n: nat)
    requires n <= |b|
    ensures Union(a, b[..n]) == a + Select(b, FirstOccurrences(a, b, n))
  {
    if n > 0 {
      UnionKeepsFirstOccurrences(a, b, n - 1);
      FirstOccurrenceIsAdded(a, b, n - 1);
      assert b[..n][..n - 1] == b[..n - 1];
    }
  }

  lemma FirstOccurrenceIsAdded(a: seq<Resource>, b: seq<Resource>, n: nat)
    requires n < |b|
    ensures Added(Union(a, b[..n]), b[n]) == Union(a, b[..n]) + if FirstOccurrence(a, b, n) then [b[n]] else []
  {
    var k := b[n].Key();
    UnionKeys(a, b[..n]);
    HasKeyIsMembership(Union(a, b[..n]), k);
    HasKeyIsMembership(a, k);
    HasKeyIsMembership(b[..n], k);
  }

  lemma HasKeyIsMembership(s: seq<Resource>, k: Key)
    ensures HasKey(s, k) <==> k in KeySet(s)
  {
  }

  /** Merging what is already there changes nothing; so merging the same list twice is merging it once. */
  lemma {:induction false} UnionIdempotent(a: seq<Resource>, b: seq<Resource>)
    requires KeySet(b) <= KeySet(a)
    ensures Union(a, b) == a
  {
    if b != [] {
      var front, last := b[..|b| - 1], b[|b| - 1];
      KeySetSnoc(front, last);
      assert b == front + [last];
      UnionIdempotent(a, front);
      HasKeyIsMembership(a, last.Key());
    }
  }

  lemma {:induction false} UnionMembers(a: seq<Resource>, b: seq<Resource>)
    ensures forall i :: 0 <= i < |Union(a, b)| ==> Union(a, b)[i] in a || Union(a, b)[i] in b
  {
    if b != [] {
      UnionMembers(a, b[..|b| - 1]);
      assert b == b[..|b| - 1] + [b[|b| - 1]];
    }
  }

  lemma {:induction false} UnionConcat(a: seq<Resource>, b: seq<Resource>, c: seq<Resource>)
    ensures Union(a, b + c) == Union(Union(a, b), c)
  {
    if c == [] {
      assert b + c == b;
    } else {
      UnionConcat(a, b, c[..|c| - 1]);
      assert (b + c)[..|b + c| - 1] == b + c[..|c| - 1];
    }
  }

  /** Merging a set that was itself built by adding one resource after the other is adding those resources. */
  lemma {:induction false} UnionOfUnion(a: seq<Resource>, b: seq<Resource>)
    ensures Union(a, Union([], b)) == Union(a, b)
  {
    if b != [] {
      var front, last := b[..|b| - 1], b[|b| - 1];
      UnionOfUnion(a, front);
      if HasKey(Union([], front), last.Key()) {
        UnionKeys([], front);
        UnionKeys(a, front);
        HasKeyIsMembership(Union([], front), last.Key());
        HasKeyIsMembership(Union(a, front), last.Key());
      } else {
        UnionStep(a, Union([], front), last);
      }
    }
  }

  lemma MergeTwice(a: seq<Resource>, b: seq<Resource>)
    ensures Union(Union(a, b), b) == Union(a, b)
  {
    UnionKeys(a, b);
    UnionIdempotent(Union(a, b), b);
  }

  /** A list without duplicate keys is its own conversion, and only such a list keeps its length. */
  lemma {:induction false} UnionOfDistinct(b: seq<Resource>)
    ensures DistinctKeys(b) <==> |Union([], b)| == |b|
    ensures DistinctKeys(b) ==> Union([], b) == b
  {
    if b != [] {
      var front, last := b[..|b| - 1], b[|b| - 1];
      UnionOfDistinct(front);
      UnionKeys([], front);
      assert b == front + [last];
      HasKeyIsMembership(front, last.Key());
      HasKeyIsMembership(Union([], front), last.Key());
    }
  }

  // ----- Looking resources up

  method FilterByKind(s: seq<Resource>, kind: Kind) returns (list: seq<Resource>)
    ensures list == Filter(OfKind(kind), s)
  {
    list := [];
    for i := 0 to |s|
      invariant list == Filter(OfKind(kind), s[..i])
    {
      FilterStep(OfKind(kind), s, i);
      if s[i].Kind() == kind {
        list := list + [s[i]];
      }
    }
    assert s[..|s|] == s;
  }

  method Find(s: seq<Resource>, name: string, kind: Kind) returns (r: Option<Resource>)
    ensures r == Resolve(s, Ref(name, kind))
  {
    var list := FilterByKind(s, kind);
    FirstOfFilter(OfKind(kind), Named(name), Matching(Ref(name, kind)), s);
    for i := 0 to |list|
      invariant forall j :: 0 <= j < i ==> !Named(name)(list[j])
    {
      FirstSkips(Named(name), list, i);
      if list[i].Name() == name {
        return Some(list[i]);
      }
    }
    FirstSkips(Named(name), list, |list|);
    return None;
  }

  method FindWorkload(s: seq<Resource>, name: string) returns (r: Option<Resource>)
    ensures r == First(WorkloadNamed(name), s)
  {
    for i := 0 to |s|
      invariant forall j :: 0 <= j < i ==> !WorkloadNamed(name)(s[j])
    {
      FirstSkips(WorkloadNamed(name), s, i);
      if s[i].Name() == name && s[i].IsWorkload() {
        return Some(s[i]);
      }
    }
    FirstSkips(WorkloadNamed(name), s, |s|);
    return None;
  }

  lemma ResolveMeans(s: seq<Resource>, ref: Ref)
    ensures Resolve(s, ref).Some? ==> Resolve(s, ref).value in s && Matching(ref)(Resolve(s, ref).value)
    ensures Resolve(s, ref).None? <==> forall r :: r in s ==> !Matching(ref)(r)
  {
    FirstIsFirst(Matching(ref), s);
  }

  // ----- Splitting and conversion

  method Categorise(s: seq<Resource>) returns (workloads: seq<Resource>, ancillaries: seq<Resource>)
    ensures workloads == Filter(Workloads(), s)
    ensures ancillaries == Filter(Ancillaries(), s)
  {
    workloads, ancillaries := [], [];
    for i := 0 to |s|
      invariant workloads == Filter(Workloads(), s[..i])
      invariant ancillaries == Filter(Ancillaries(), s[..i])
    {
      FilterStep(Workloads(), s, i);
      FilterStep(Ancillaries(), s, i);
      if s[i].IsWorkload() {
        workloads := workloads + [s[i]];
      } else {
        ancillaries := ancillaries + [s[i]];
      }
    }
    assert s[..|s|] == s;
  }

  /** Categorising loses nothing and invents nothing: the two parts together are the whole, with multiplicities. */
  lemma {:induction false} CategoriseConserves(s: seq<Resource>)
    ensures multiset(Filter(Workloads(), s)) + multiset(Filter(Ancillaries(), s)) == multiset(s)
    ensures |Filter(Workloads(), s)| + |Filter(Ancillaries(), s)| == |s|
  {
    if s != [] {
      CategoriseConserves(s[..|s| - 1]);
      Unsnoc(s);
    }
  }

  lemma {:induction false} FilterDistinct(p: Resource -> bool, s: seq<Resource>)
    requires DistinctKeys(s)
    ensures DistinctKeys(Filter(p, s))
  {
    if s != [] {
      var front := s[..|s| - 1];
      FilterDistinct(p, front);
      FilterMembers(p, front);
      var f := Filter(p, front);
      forall k | 0 <= k < |f| ensures f[k].Key() != s[|s| - 1].Key() {
        var i :| 0 <= i < |front| && front[i] == f[k];
        assert s[i] == f[k];
      }
    }
  }

  /** `created` are the resources made from the first of the manifests, one by one. */
  ghost predicate Converts(created: seq<Resource>, manifests: seq<Manifest>)
    reads created
  {
    |created| <= |manifests|
    && forall i :: 0 <= i < |created| ==> created[i].manifest == manifests[i] && created[i].annotations == []
  }

  method BulkConvert(manifests: seq<Manifest>) returns (r: Result<seq<Resource>>, ghost created: seq<Resource>)
    ensures r.Ok? || r.Misconfigured?
    ensures r.Ok? <==> forall i :: 0 <= i < |manifests| ==> manifests[i].IsValid()
    ensures (forall j :: 0 <= j < |created| ==> fresh(created[j])) && Converts(created, manifests)
    ensures r.Ok? ==> |created| == |manifests| && r.value == Union([], created)
  {
    var resources := new ResourceSet();
    created := [];
    for i := 0 to |manifests|
      invariant fresh(resources) && |created| == i
      invariant forall j :: 0 <= j < i ==> fresh(created[j]) && manifests[j].IsValid()
      invariant Converts(created, manifests)
      invariant resources.items == Union([], created)
    {
      if !manifests[i].IsValid() {
        return Misconfigured, created;
      }
      label Before:
      var resource := resources.AddManifest(manifests[i]);
      assert forall j :: 0 <= j < |created| ==> unchanged@Before(created[j]);
      UnionStep([], created, resource);
      created := created + [resource];
    }
    r := Ok(resources.items);
  }

  // ----- The same of the metadata of the manifests

  /** Two manifests describe one resource if and only if name, namespace and kind agree. */
  lemma KeysAgreeIff(m: Manifest, n: Manifest)
    ensures m.Key() == n.Key() <==>
            m.metadata.name == n.metadata.name && m.metadata.namespace == n.metadata.namespace
            && m.metadata.gvk.kind == n.metadata.gvk.kind
  {
  }

  /** A resource is added unless one of its name, namespace and kind is there. */
  lemma AddedIff(s: seq<Resource>, r: Resource)
    ensures Added(s, r) != s <==>
            forall i :: 0 <= i < |s| ==> s[i].manifest.metadata.name != r.manifest.metadata.name
                                         || s[i].manifest.metadata.namespace != r.manifest.metadata.namespace
                                         || s[i].manifest.metadata.gvk.kind != r.manifest.metadata.gvk.kind
    ensures Added(s, r) in {s, s + [r]}
  {
    forall i | 0 <= i < |s|
      ensures s[i].Key() == r.Key() <==>
              s[i].manifest.metadata.name == r.manifest.metadata.name
              && s[i].manifest.metadata.namespace == r.manifest.metadata.namespace
              && s[i].manifest.metadata.gvk.kind == r.manifest.metadata.gvk.kind
    {
      KeysAgreeIff(s[i].manifest, r.manifest);
    }
    assert |s + [r]| == |s| + 1;
  }

  /** The workloads are all of the apps and batch groups, and the pods. */
  lemma WorkloadIff(s: seq<Resource>, r: Resource)
    ensures r in Filter(Workloads(), s) <==>
            r in s && (r.manifest.metadata.gvk.group in {Apps, Batch}
                       || (r.manifest.metadata.gvk.group == Core && r.manifest.metadata.gvk.kind == Pod))
  {
    var f := Filter(Workloads(), s);
    FilterMembers(Workloads(), s);
    if r in f {
      var i :| 0 <= i < |f| && f[i] == r;
    }
    if r in s {
      var i :| 0 <= i < |s| && s[i] == r;
    }
  }

  /** The API versions that the scheduler takes care of. */
  const SUPPORTED := {(Core, "v1"), (Apps, "v1"), (Batch, "v1"), (Rbac, "v1"), (AuthorizationOpenShift, "v1"),
                      (RouteOpenShift, "v1"), (Networking, "v1"), (Autoscaling, "v2"), (Monitoring, "v1")}

  /** A manifest is accepted if and only if its API version is supported, its kind is not left to the administrator, and
      it has a namespace or needs none. */
  lemma ValidIff(m: Manifest)
    ensures m.IsValid() <==>
            var gvk := m.metadata.gvk;
            (gvk.group, gvk.version) in SUPPORTED
            && (gvk.group == Core ==> gvk.kind != PersistentVolume)
            && (gvk.group == Monitoring ==> gvk.kind == ServiceMonitor)
            && (m.metadata.namespace == "" ==> gvk.kind in {Namespace, ClusterRole, ClusterRoleBinding})
  {
  }
}
