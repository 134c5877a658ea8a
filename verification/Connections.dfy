/**
 The network connections that a list of bundles needs (internal/controller/network-connectivity.go, lines 33-49 and
 145-206).
 */
module Connections {
  import opened Collections
  import opened Text
  import opened Resources
  import opened Bundles
  import opened Links

  // ----- The connections as a list

  /** Where the workload of a bundle runs. */
  function TargetOf(b: BundleV): Location
    requires Filter(Workloads(), b.resources) != []
  {
    Location(b.cluster, Filter(Workloads(), b.resources)[0].Namespace())
  }

  /** The connection for one service reference of `b` and one bundle that may carry the service. */
  function Reaching(b: BundleV, target: Location, service: ServicePort): BundleV -> seq<Connection>
  {
    (other: BundleV) =>
      if other.name == b.name then []
      else match Resolve(other.resources, Ref(service.name, Service))
           case Some(r) => [Connection(service, Location(other.cluster, r.Namespace()), target)]
           case None => []
  }

  function ForService(b: BundleV, target: Location, bundles: seq<BundleV>): ServicePort -> seq<Connection>
  {
    (service: ServicePort) => FlatMap(Reaching(b, target, service), bundles)
  }

  function ForBundle(bundles: seq<BundleV>): BundleV -> seq<Connection>
  {
    (b: BundleV) =>
      if b.external == [] || Filter(Workloads(), b.resources) == [] then []
      else FlatMap(ForService(b, TargetOf(b), bundles), b.external)
  }

  function LinkRequired(): Connection -> bool { (c: Connection) => c.source != c.target }

  function ConnectionsAmong(bundles: seq<BundleV>): seq<Connection>
  {
    Filter(LinkRequired(), FlatMap(ForBundle(bundles), bundles))
  }

  /** The bundle asks for no connections or holds exactly one workload, so that `workloads[0]` is its workload. */
  predicate WellTargeted(b: BundleV) { b.external != [] ==> |Filter(Workloads(), b.resources)| == 1 }

  function IllTargeted(): BundleV -> bool { (b: BundleV) => !WellTargeted(b) }

  predicate AllTargeted(bundles: seq<BundleV>) { Filter(IllTargeted(), bundles) == [] }

  lemma AllTargetedMeans(bundles: seq<BundleV>)
    ensures AllTargeted(bundles) <==> forall i :: 0 <= i < |bundles| ==> WellTargeted(bundles[i])
  {
    var f := Filter(IllTargeted(), bundles);
    FilterMembers(IllTargeted(), bundles);
    if f != [] {
      assert f[0] in bundles && IllTargeted()(f[0]);
    } else {
      forall i | 0 <= i < |bundles| ensures WellTargeted(bundles[i]) {
        assert bundles[i] !in f;
      }
    }
  }

  // ----- The loops

  method GetExternalService(b: Bundle, name: string) returns (r: Option<Resource>)
    ensures r == Resolve(b.resources, Ref(name, Service))
  {
    var services := FilterByKind(b.resources, Service);
    FirstOfFilter(OfKind(Service), Named(name), Matching(Ref(name, Service)), b.resources);
    for i := 0 to |services|
      invariant forall j :: 0 <= j < i ==> !Named(name)(services[j])
    {
      FirstSkips(Named(name), services, i);
      if services[i].Name() == name {
        return Some(services[i]);
      }
    }
    FirstSkips(Named(name), services, |services|);
    return None;
  }

  method ReachBundles(b: Bundle, target: Location, service: ServicePort, bs: seq<Bundle>, ghost views: seq<BundleV>)
    returns (cs: seq<Connection>)
    requires Shows(bs, views)
    ensures cs == FlatMap(Reaching(b.View(), target, service), views)
  {
    cs := [];
    ghost var f := Reaching(b.View(), target, service);
    for i := 0 to |bs|
      invariant cs == FlatMap(f, views[..i])
    {
      assert bs[i].View() == views[i];
      FlatMapStep(f, views, i);
      if b.name == bs[i].name {
        assert cs + [] == cs;
        continue;
      }
      var found := GetExternalService(bs[i], service.name);
      match found {
        case Some(r) => cs := cs + [Connection(service, Location(bs[i].cluster, r.Namespace()), target)];
        case None => assert cs + [] == cs;
      }
    }
    assert views[..|bs|] == views;
  }

  method BuildNetworkConnection(b: Bundle, bs: seq<Bundle>, ghost views: seq<BundleV>)
    returns (r: Result<seq<Connection>>)
    requires Shows(bs, views) && b.external != []
    ensures r.Ok? || r.Failed? || r.Panicked?
    ensures r.Failed? <==> |Filter(Workloads(), b.resources)| > 1
    ensures r.Panicked? <==> |Filter(Workloads(), b.resources)| == 0
    ensures r.Ok? ==> r.value == ForBundle(views)(b.View())
  {
    var workloads, _ := Categorise(b.resources);
    if |workloads| > 1 { return Failed; }
    if |workloads| == 0 { return Panicked; }
    var target := Location(b.cluster, workloads[0].Namespace());
    var cs: seq<Connection> := [];
    ghost var f := ForService(b.View(), target, views);
    for i := 0 to |b.external|
      invariant cs == FlatMap(f, b.external[..i])
    {
      var more := ReachBundles(b, target, b.external[i], bs, views);
      FlatMapStep(f, b.external, i);
      cs := cs + more;
    }
    assert b.external[..|b.external|] == b.external;
    return Ok(cs);
  }

  method FilterNetworkConnections(cs: seq<Connection>) returns (required: seq<Connection>)
    ensures required == Filter(LinkRequired(), cs)
  {
    required := [];
    for i := 0 to |cs|
      invariant required == Filter(LinkRequired(), cs[..i])
    {
      FilterStep(LinkRequired(), cs, i);
      if !(cs[i].source.cluster == cs[i].target.cluster && cs[i].source.namespace == cs[i].target.namespace) {
        required := required + [cs[i]];
      }
    }
    assert cs[..|cs|] == cs;
  }

  method GetNetworkConnections(bs: seq<Bundle>, ghost views: seq<BundleV>) returns (r: Result<seq<Connection>>)
    requires Shows(bs, views)
    ensures r.Ok? || r.Failed? || r.Panicked?
    ensures r.Ok? <==> AllTargeted(views)
    ensures r.Ok? ==> r.value == ConnectionsAmong(views)
  {
    var cs: seq<Connection> := [];
    ghost var f := ForBundle(views);
    for i := 0 to |bs|
      invariant cs == FlatMap(f, views[..i])
      invariant Filter(IllTargeted(), views[..i]) == []
    {
      assert bs[i].View() == views[i];
      FlatMapStep(f, views, i);
      FilterStep(IllTargeted(), views, i);
      if |bs[i].external| < 1 {
        assert cs + [] == cs;
        continue;
      }
      var more := BuildNetworkConnection(bs[i], bs, views);
      if !more.Ok? {
        FilterGrows(IllTargeted(), views, i + 1);
        return more;
      }
      cs := cs + more.value;
    }
    assert views[..|bs|] == views;
    var required := FilterNetworkConnections(cs);
    return Ok(required);
  }

  // ----- What the list contains

  /** `b` refers to the service, another bundle `other` carries one of that name, and they run at different places. */
  predicate Connects(c: Connection, b: BundleV, other: BundleV)
  {
    c.service in b.external && other.name != b.name && ComesFrom(c, other) && GoesTo(c, b)
    && (c.source.cluster != c.target.cluster || c.source.namespace != c.target.namespace)
  }

  /** The source is where the bundle runs and its service is. */
  predicate ComesFrom(c: Connection, other: BundleV)
  {
    var r := Resolve(other.resources, Ref(c.service.name, Service));
    r.Some? && c.source.cluster == other.cluster && c.source.namespace == r.value.manifest.metadata.namespace
  }

  /** The target is where the bundle runs and its workload is. */
  predicate GoesTo(c: Connection, b: BundleV)
  {
    var workloads := Filter(Workloads(), b.resources);
    workloads != [] && c.target.cluster == b.cluster && c.target.namespace == workloads[0].manifest.metadata.namespace
  }

  lemma ReachingMeans(c: Connection, b: BundleV, service: ServicePort, other: BundleV)
    requires Filter(Workloads(), b.resources) != [] && service in b.external
    ensures c in Reaching(b, TargetOf(b), service)(other) && c.source != c.target
       <==> c.service == service && Connects(c, b, other)
  {
  }

  lemma ForBundleMeans(c: Connection, b: BundleV, bundles: seq<BundleV>)
    requires c.source != c.target
    ensures c in ForBundle(bundles)(b) <==> exists other :: other in bundles && Connects(c, b, other)
  {
    if b.external != [] && Filter(Workloads(), b.resources) != [] {
      var f := ForService(b, TargetOf(b), bundles);
      FlatMapMembers(f, b.external, c);
      if c in FlatMap(f, b.external) {
        var service :| service in b.external && c in f(service);
        FlatMapMembers(Reaching(b, TargetOf(b), service), bundles, c);
        var other :| other in bundles && c in Reaching(b, TargetOf(b), service)(other);
        ReachingMeans(c, b, service, other);
      }
      if exists other :: other in bundles && Connects(c, b, other) {
        var other :| other in bundles && Connects(c, b, other);
        ReachingMeans(c, b, c.service, other);
        FlatMapMembers(Reaching(b, TargetOf(b), c.service), bundles, c);
        assert c in f(c.service);
      }
    }
  }

  /** Nothing is dropped and nothing invented: the connections are exactly those between a bundle that refers to a
      service and another bundle that carries it elsewhere. */
  lemma ConnectionsAreExact(c: Connection, bundles: seq<BundleV>)
    ensures c in ConnectionsAmong(bundles) <==>
            exists b, other :: b in bundles && other in bundles && Connects(c, b, other)
  {
    var f, all := ForBundle(bundles), FlatMap(ForBundle(bundles), bundles);
    RequiredMembers(c, all);
    FlatMapMembers(f, bundles, c);
    if c in all && c.source != c.target {
      var b :| b in bundles && c in f(b);
      ForBundleMeans(c, b, bundles);
    }
    if exists b, other :: b in bundles && other in bundles && Connects(c, b, other) {
      var b, other :| b in bundles && other in bundles && Connects(c, b, other);
      ForBundleMeans(c, b, bundles);
    }
  }

  lemma RequiredMembers(c: Connection, cs: seq<Connection>)
    ensures c in Filter(LinkRequired(), cs) <==> c in cs && c.source != c.target
  {
    var f := Filter(LinkRequired(), cs);
    FilterMembers(LinkRequired(), cs);
    if c in f { var i :| 0 <= i < |f| && f[i] == c; }
    if c in cs { var i :| 0 <= i < |cs| && cs[i] == c; }
  }

  lemma NoConnectionsOfNoBundles()
    ensures ConnectionsAmong([]) == []
  {
  }
}
