/**
 The accumulator loops of internal/controller/analyse.go, each proved against its specification in module Analysis.
 */
module Analysers {
  import opened Collections
  import opened Text
  import opened Resources
  import opened Analysis

  /** The two accumulators after looking up the references `refs`. */
  ghost predicate Tracks(items: seq<Resource>, absent: seq<Ref>, anc: seq<Resource>, refs: seq<Ref>)
  {
    items == Union([], FlatMap(Fetch(anc), refs)) && absent == Filter(Unmet(anc), refs)
  }

  /** Looks one reference up, and adds what it finds or registers it as absent. */
  method Require(name: string, kind: Kind, anc: seq<Resource>, resources: ResourceSet, absent: AbsentResourceSet,
                 ghost refs: seq<Ref>)
    requires Tracks(resources.items, absent.items, anc, refs)
    modifies resources, absent
    ensures Tracks(resources.items, absent.items, anc, refs + [Ref(name, kind)])
  {
    ghost var ref := Ref(name, kind);
    ghost var fetched := FlatMap(Fetch(anc), refs);
    assert (refs + [ref])[..|refs|] == refs;
    assert fetched + [] == fetched;
    var found := Find(anc, name, kind);
    match found {
      case None =>
        absent.Register(name, kind);
      case Some(r) =>
        resources.Add(r);
        UnionStep([], fetched, r);
    }
  }

  method RequireOptional(name: Option<string>, kind: Kind, anc: seq<Resource>, resources: ResourceSet,
                         absent: AbsentResourceSet, ghost refs: seq<Ref>)
    requires Tracks(resources.items, absent.items, anc, refs)
    modifies resources, absent
    ensures Tracks(resources.items, absent.items, anc, refs + OptionalRef(name, kind))
  {
    if name.Some? {
      Require(name.value, kind, anc, resources, absent, refs);
    } else {
      assert refs + [] == refs;
    }
  }

  // ----- Containers

  method AnalyseEnvFrom(c: Container, anc: seq<Resource>, resources: ResourceSet, absent: AbsentResourceSet,
                        ghost refs: seq<Ref>)
    requires Tracks(resources.items, absent.items, anc, refs)
    modifies resources, absent
    ensures Tracks(resources.items, absent.items, anc, refs + FlatMap(EnvSourceRefs(), c.envFrom))
  {
    ghost var f := EnvSourceRefs();
    assert refs + FlatMap(f, c.envFrom[..0]) == refs;
    for i := 0 to |c.envFrom|
      invariant Tracks(resources.items, absent.items, anc, refs + FlatMap(f, c.envFrom[..i]))
    {
      var e := c.envFrom[i];
      RequireBoth(e.configMap, e.secret, anc, resources, absent, refs + FlatMap(f, c.envFrom[..i]));
      FlatMapStep(f, c.envFrom, i);
      Associate(refs, FlatMap(f, c.envFrom[..i]), f(e));
    }
    assert c.envFrom[..|c.envFrom|] == c.envFrom;
  }

  /** The two look-ups an environment source or variable can ask for. */
  method RequireBoth(configMap: Option<string>, secret: Option<string>, anc: seq<Resource>, resources: ResourceSet,
                     absent: AbsentResourceSet, ghost refs: seq<Ref>)
    requires Tracks(resources.items, absent.items, anc, refs)
    modifies resources, absent
    ensures Tracks(resources.items, absent.items, anc,
                   refs + (OptionalRef(configMap, ConfigMap) + OptionalRef(secret, Secret)))
  {
    RequireOptional(configMap, ConfigMap, anc, resources, absent, refs);
    RequireOptional(secret, Secret, anc, resources, absent, refs + OptionalRef(configMap, ConfigMap));
    Associate(refs, OptionalRef(configMap, ConfigMap), OptionalRef(secret, Secret));
  }

  /** The connection an environment variable asks for, if it is a service reference; None on a port out of range. */
  method ExtractConnection(e: EnvVar) returns (r: Option<seq<ServicePort>>)
    ensures r == EnvVarConnection()(e)
  {
    if e.value != "" && IsServiceNamePortReference(e.value) {
      ReferenceSplitsInTwo(e.value);
      var serviceName := Split(e.value, ':')[0];
      var port := Atoi(Split(e.value, ':')[1]);
      if port.None? {
        return None;
      }
      return Some([ServicePort(serviceName, port.value)]);
    }
    return Some([]);
  }

  method AnalyseEnv(c: Container, anc: seq<Resource>, resources: ResourceSet, absent: AbsentResourceSet,
                    ghost refs: seq<Ref>) returns (r: Option<seq<ServicePort>>)
    requires Tracks(resources.items, absent.items, anc, refs)
    modifies resources, absent
    ensures r == ContainerConnection()(c)
    ensures r.Some? ==> Tracks(resources.items, absent.items, anc, refs + FlatMap(EnvVarRefs(), c.env))
  {
    var connections: seq<ServicePort> := [];
    ghost var f := EnvVarRefs();
    assert refs + FlatMap(f, c.env[..0]) == refs;
    for i := 0 to |c.env|
      invariant Tracks(resources.items, absent.items, anc, refs + FlatMap(f, c.env[..i]))
      invariant TryFlatMap(EnvVarConnection(), c.env[..i]) == Some(connections)
    {
      var e := c.env[i];
      RequireBoth(e.configMap, e.secret, anc, resources, absent, refs + FlatMap(f, c.env[..i]));
      FlatMapStep(f, c.env, i);
      Associate(refs, FlatMap(f, c.env[..i]), f(e));
      var connection := ExtractConnection(e);
      TryFlatMapStep(EnvVarConnection(), c.env, i);
      if connection.None? {
        TryFlatMapStops(EnvVarConnection(), c.env, i + 1);
        return None;
      }
      connections := connections + connection.value;
    }
    assert c.env[..|c.env|] == c.env;
    return Some(connections);
  }

  method AnalyseContainer(c: Container, anc: seq<Resource>, resources: ResourceSet, absent: AbsentResourceSet,
                          ghost refs: seq<Ref>) returns (r: Option<seq<ServicePort>>)
    requires Tracks(resources.items, absent.items, anc, refs)
    modifies resources, absent
    ensures r == ContainerConnection()(c)
    ensures r.Some? ==> Tracks(resources.items, absent.items, anc, refs + ContainerRefs()(c))
  {
    ghost var sources, vars := FlatMap(EnvSourceRefs(), c.envFrom), FlatMap(EnvVarRefs(), c.env);
    AnalyseEnvFrom(c, anc, resources, absent, refs);
    r := AnalyseEnv(c, anc, resources, absent, refs + sources);
    Associate(refs, sources, vars);
  }

  method AnalyseContainers(containers: seq<Container>, anc: seq<Resource>) returns (r: Result<Findings>)
    ensures r.Ok? || r.Failed?
    ensures r.Failed? <==> ConnectionsOf(containers).None?
    ensures r.Ok? ==> Tracks(r.value.resources, r.value.absent, anc, FlatMap(ContainerRefs(), containers))
                      && Some(r.value.connections) == ConnectionsOf(containers)
  {
    var resources := new ResourceSet();
    var absent := new AbsentResourceSet();
    var connections: seq<ServicePort> := [];
    for i := 0 to |containers|
      invariant fresh(resources) && fresh(absent)
      invariant Tracks(resources.items, absent.items, anc, FlatMap(ContainerRefs(), containers[..i]))
      invariant TryFlatMap(ContainerConnection(), containers[..i]) == Some(connections)
    {
      var more := AnalyseContainer(containers[i], anc, resources, absent, FlatMap(ContainerRefs(), containers[..i]));
      TryFlatMapStep(ContainerConnection(), containers, i);
      if more.None? {
        TryFlatMapStops(ContainerConnection(), containers, i + 1);
        return Failed;
      }
      FlatMapStep(ContainerRefs(), containers, i);
      connections := connections + more.value;
    }
    assert containers[..|containers|] == containers;
    return Ok(Findings(resources.items, absent.items, connections));
  }

  // ----- Service accounts

  /** One binding: its role is looked up, and added or registered, once per subject that is the account. */
  method AnalyseBinding(binding: Resource, account: Resource, anc: seq<Resource>, resources: ResourceSet,
                        absent: AbsentResourceSet)
    modifies resources, absent
    ensures resources.items == Union(old(resources.items), BindingFetch(account, anc)(binding))
    ensures absent.items == old(absent.items) + Filter(Unmet(anc), RoleRefs(account)(binding))
  {
    var subjects := binding.Body().subjects;
    ghost var ours := SubjectIs(account);
    ghost var gain, asked := BindingGain(binding, anc), RoleAsked(binding);
    ghost var had, missed, n := resources.items, absent.items, 0;
    for i := 0 to |subjects|
      invariant n == |Filter(ours, subjects[..i])|
      invariant resources.items == Union(had, Repeat(gain, n))
      invariant absent.items == missed + Filter(Unmet(anc), Repeat(asked, n))
    {
      FilterStep(ours, subjects, i);
      if subjects[i].kind == ServiceAccount && subjects[i].name == account.Name()
         && subjects[i].namespace == account.Namespace() {
        AnalyseMention(binding, anc, resources, absent);
        RepeatOnce(had, missed, anc, gain, asked, n);
        n := n + 1;
      }
    }
    assert subjects[..|subjects|] == subjects;
  }

  lemma RepeatOnce(had: seq<Resource>, missed: seq<Ref>, anc: seq<Resource>, gain: seq<Resource>, asked: seq<Ref>,
                   n: nat)
    ensures Union(Union(had, Repeat(gain, n)), gain) == Union(had, Repeat(gain, n + 1))
    ensures missed + Filter(Unmet(anc), Repeat(asked, n)) + Filter(Unmet(anc), asked)
         == missed + Filter(Unmet(anc), Repeat(asked, n + 1))
  {
    UnionConcat(had, Repeat(gain, n), gain);
    FilterConcat(Unmet(anc), Repeat(asked, n), asked);
    Associate(missed, Filter(Unmet(anc), Repeat(asked, n)), Filter(Unmet(anc), asked));
  }

  method AnalyseMention(binding: Resource, anc: seq<Resource>, resources: ResourceSet, absent: AbsentResourceSet)
    modifies resources, absent
    ensures resources.items == Union(old(resources.items), BindingGain(binding, anc))
    ensures absent.items == old(absent.items)
                            + Filter(Unmet(anc), RoleAsked(binding))
  {
    var role := binding.Body().roleRef;
    var found := Find(anc, role.name, role.kind);
    if "system:" <= role.name {
      resources.Add(binding);
      UnionStep(old(resources.items), [], binding);
      assert [] + [binding] == [binding];
    } else if found.None? {
      absent.Register(role.name, role.kind);
      assert [role][..0] == [];
    } else {
      resources.Add(found.value);
      resources.Add(binding);
      assert [role][..0] == [];
      UnionStep(old(resources.items), [], found.value);
      UnionStep(old(resources.items), [found.value], binding);
      assert [] + [found.value] == [found.value] && [found.value] + [binding] == [found.value, binding];
    }
  }

  method AnalyseServiceAccount(account: Resource, anc: seq<Resource>)
    returns (resources: seq<Resource>, absent: seq<Ref>)
    ensures resources == Union([], FlatMap(BindingFetch(account, anc), Bindings(anc)))
    ensures absent == Filter(Unmet(anc), FlatMap(RoleRefs(account), Bindings(anc)))
  {
    var rs := new ResourceSet();
    var notFound := new AbsentResourceSet();
    var clusterRoleBindings := FilterByKind(anc, ClusterRoleBinding);
    var roleBindings := FilterByKind(anc, RoleBinding);
    AnalyseBindings(clusterRoleBindings, account, anc, rs, notFound, []);
    assert [] + clusterRoleBindings == clusterRoleBindings;
    AnalyseBindings(roleBindings, account, anc, rs, notFound, clusterRoleBindings);
    return rs.items, notFound.items;
  }

  lemma BindingStep(done: seq<Resource>, b: Resource, account: Resource, anc: seq<Resource>)
    ensures Union([], FlatMap(BindingFetch(account, anc), done + [b]))
         == Union(Union([], FlatMap(BindingFetch(account, anc), done)), BindingFetch(account, anc)(b))
    ensures Filter(Unmet(anc), FlatMap(RoleRefs(account), done + [b]))
         == Filter(Unmet(anc), FlatMap(RoleRefs(account), done)) + Filter(Unmet(anc), RoleRefs(account)(b))
  {
    assert (done + [b])[..|done|] == done;
    UnionConcat([], FlatMap(BindingFetch(account, anc), done), BindingFetch(account, anc)(b));
    FilterConcat(Unmet(anc), FlatMap(RoleRefs(account), done), RoleRefs(account)(b));
  }

  method AnalyseBindings(bindings: seq<Resource>, account: Resource, anc: seq<Resource>, resources: ResourceSet,
                         absent: AbsentResourceSet, ghost done: seq<Resource>)
    requires resources.items == Union([], FlatMap(BindingFetch(account, anc), done))
    requires absent.items == Filter(Unmet(anc), FlatMap(RoleRefs(account), done))
    modifies resources, absent
    ensures resources.items == Union([], FlatMap(BindingFetch(account, anc), done + bindings))
    ensures absent.items == Filter(Unmet(anc), FlatMap(RoleRefs(account), done + bindings))
  {
    assert done + bindings[..0] == done;
    for i := 0 to |bindings|
      invariant resources.items == Union([], FlatMap(BindingFetch(account, anc), done + bindings[..i]))
      invariant absent.items == Filter(Unmet(anc), FlatMap(RoleRefs(account), done + bindings[..i]))
    {
      ghost var sofar := done + bindings[..i];
      AnalyseBinding(bindings[i], account, anc, resources, absent);
      BindingStep(sofar, bindings[i], account, anc);
      Snoc(done, bindings, i);
    }
    assert bindings[..|bindings|] == bindings;
  }

  // ----- The pod specification

  method AnalyseDirectRefs(t: PodTemplate, anc: seq<Resource>, resources: ResourceSet, absent: AbsentResourceSet)
    requires resources.items == [] && absent.items == []
    modifies resources, absent
    ensures Tracks(resources.items, absent.items, anc, DirectRefs(t))
  {
    ghost var f, g := PullSecretRefs(), VolumeRefs();
    for i := 0 to |t.imagePullSecrets|
      invariant Tracks(resources.items, absent.items, anc, FlatMap(f, t.imagePullSecrets[..i]))
    {
      Require(t.imagePullSecrets[i], Secret, anc, resources, absent, FlatMap(f, t.imagePullSecrets[..i]));
      FlatMapStep(f, t.imagePullSecrets, i);
    }
    assert t.imagePullSecrets[..|t.imagePullSecrets|] == t.imagePullSecrets;
    ghost var pulls := FlatMap(f, t.imagePullSecrets);
    assert pulls + FlatMap(g, t.volumes[..0]) == pulls;
    for i := 0 to |t.volumes|
      invariant Tracks(resources.items, absent.items, anc, pulls + FlatMap(g, t.volumes[..i]))
    {
      RequireVolume(t.volumes[i], anc, resources, absent, pulls + FlatMap(g, t.volumes[..i]));
      FlatMapStep(g, t.volumes, i);
      Associate(pulls, FlatMap(g, t.volumes[..i]), g(t.volumes[i]));
    }
    assert t.volumes[..|t.volumes|] == t.volumes;
  }

  method RequireVolume(v: Volume, anc: seq<Resource>, resources: ResourceSet, absent: AbsentResourceSet,
                       ghost refs: seq<Ref>)
    requires Tracks(resources.items, absent.items, anc, refs)
    modifies resources, absent
    ensures Tracks(resources.items, absent.items, anc, refs + VolumeRefs()(v))
  {
    ghost var a, b, c := OptionalRef(v.claim, PersistentVolumeClaim), OptionalRef(v.configMap, ConfigMap),
                         OptionalRef(v.secret, Secret);
    RequireOptional(v.claim, PersistentVolumeClaim, anc, resources, absent, refs);
    RequireOptional(v.configMap, ConfigMap, anc, resources, absent, refs + a);
    RequireOptional(v.secret, Secret, anc, resources, absent, refs + a + b);
    Regroup(refs, a, b, c);
  }

  /** The service account, and the bindings and roles that come with it. */
  method AnalyseAccount(t: PodTemplate, anc: seq<Resource>, resources: ResourceSet, absent: AbsentResourceSet)
    requires Tracks(resources.items, absent.items, anc, DirectRefs(t))
    modifies resources, absent
    ensures resources.items == Union([], FlatMap(Fetch(anc), DirectRefs(t)) + AccountFetches(t, anc))
    ensures absent.items == Filter(Unmet(anc), DirectRefs(t) + AccountRefs(t, anc))
  {
    ghost var direct := FlatMap(Fetch(anc), DirectRefs(t));
    if t.serviceAccountName == "" {
      assert direct + [] == direct && DirectRefs(t) + [] == DirectRefs(t);
      return;
    }
    FilterConcat(Unmet(anc), DirectRefs(t), AccountRefs(t, anc));
    var found := Find(anc, t.serviceAccountName, ServiceAccount);
    match found {
      case None =>
        absent.Register(t.serviceAccountName, ServiceAccount);
        assert direct + [] == direct;
        assert [AccountRef(t)] + [] == [AccountRef(t)] && [AccountRef(t)][..0] == [];
      case Some(account) =>
        resources.Add(account);
        var roleResources, missing := AnalyseServiceAccount(account, anc);
        resources.Merge(roleResources);
        absent.Merge(missing);
        AccountStep(direct, account, FlatMap(BindingFetch(account, anc), Bindings(anc)));
        FilterConcat(Unmet(anc), [AccountRef(t)], FlatMap(RoleRefs(account), Bindings(anc)));
        assert [AccountRef(t)][..0] == [];
        assert [] + missing == missing;
    }
  }

  lemma AccountStep(had: seq<Resource>, account: Resource, more: seq<Resource>)
    ensures Union(Added(Union([], had), account), Union([], more)) == Union([], had + ([account] + more))
  {
    UnionStep([], had, account);
    UnionOfUnion(Union([], had + [account]), more);
    UnionConcat([], had + [account], more);
    Associate(had, [account], more);
  }

  method AnalysePodSpec(w: Resource, anc: seq<Resource>) returns (r: Result<Findings>)
    ensures r.Ok? || r.Failed?
    ensures r.Ok? <==> PodAnalysable(w)
    ensures r.Ok? ==> r.value.resources == Union([], PodFetches(w.Body().template, anc))
                      && r.value.absent == Filter(Unmet(anc), PodRefs(w.Body().template, anc))
                      && Some(r.value.connections) == ConnectionsOf(AllContainers(w.Body().template))
  {
    if !HasPodTemplate(w.Kind()) {
      return Failed;
    }
    var t := w.Body().template;
    var resources := new ResourceSet();
    var absent := new AbsentResourceSet();
    AnalyseDirectRefs(t, anc, resources, absent);
    AnalyseAccount(t, anc, resources, absent);
    var containers := AnalyseContainers(t.containers + t.initContainers, anc);
    if containers.Failed? {
      return Failed;
    }
    resources.Merge(containers.value.resources);
    absent.Merge(containers.value.absent);
    MergeStep(FlatMap(Fetch(anc), DirectRefs(t)) + AccountFetches(t, anc),
              FlatMap(Fetch(anc), FlatMap(ContainerRefs(), AllContainers(t))));
    FilterConcat(Unmet(anc), DirectRefs(t) + AccountRefs(t, anc), FlatMap(ContainerRefs(), AllContainers(t)));
    return Ok(Findings(resources.items, absent.items, containers.value.connections));
  }

  lemma MergeStep(a: seq<Resource>, b: seq<Resource>)
    ensures Union(Union([], a), Union([], b)) == Union([], a + b)
  {
    UnionOfUnion(Union([], a), b);
    UnionConcat([], a, b);
  }

  // ----- Network access

  /** One ingress: it is added for every path that leads to the service. */
  method AddIngress(ingress: Resource, service: string, networkResources: ResourceSet) returns (panicked: bool)
    modifies networkResources
    ensures panicked <==> LacksHttp(ingress)
    ensures !panicked ==>
              networkResources.items == if IngressTo(service)(ingress) then Added(old(networkResources.items), ingress)
                                        else old(networkResources.items)
  {
    var rules := ingress.Body().ingressRules;
    ghost var had := networkResources.items;
    ghost var hit := false;
    for i := 0 to |rules|
      invariant forall j :: 0 <= j < i ==> rules[j].http.Some?
      invariant hit <==> exists j :: 0 <= j < i && RuleLeadsTo(rules[j], service)
      invariant networkResources.items == if hit then Added(had, ingress) else had
    {
      if rules[i].http.None? {
        return true;
      }
      var paths := rules[i].http.value;
      ghost var before := hit;
      for j := 0 to |paths|
        invariant hit <==> before || Some(service) in paths[..j]
        invariant networkResources.items == if hit then Added(had, ingress) else had
      {
        assert paths[..j + 1] == paths[..j] + [paths[j]];
        if paths[j] == Some(service) {
          networkResources.Add(ingress);
          AddedTwice(had, ingress);
          hit := true;
        }
      }
      assert paths[..|paths|] == paths;
    }
    return false;
  }

  lemma AddedTwice(s: seq<Resource>, r: Resource)
    ensures Added(Added(s, r), r) == Added(s, r)
  {
    AddedKeys(s, r);
    HasKeyIsMembership(Added(s, r), r.Key());
  }

  method FindExternalNetworkAccess(service: Resource, anc: seq<Resource>) returns (r: Result<seq<Resource>>)
    ensures r.Ok? || r.Panicked?
    ensures r.Panicked? <==> SomeIngressLacksHttp(anc)
    ensures r.Ok? ==> r.value == Union([], AccessFetches(service, anc))
  {
    var networkResources := new ResourceSet();
    var ingresses := FilterByKind(anc, Ingress);
    var routes := FilterByKind(anc, Route);
    var panicked := AddIngresses(ingresses, service.Name(), networkResources);
    if panicked {
      return Panicked;
    }
    AddRoutes(routes, service.Name(), networkResources);
    UnionConcat([], Filter(IngressTo(service.Name()), ingresses), Filter(RouteTo(service.Name()), routes));
    return Ok(networkResources.items);
  }

  method AddIngresses(ingresses: seq<Resource>, service: string, networkResources: ResourceSet) returns (panicked: bool)
    modifies networkResources
    ensures panicked <==> exists j :: 0 <= j < |ingresses| && LacksHttp(ingresses[j])
    ensures !panicked ==>
              networkResources.items == Union(old(networkResources.items), Filter(IngressTo(service), ingresses))
  {
    ghost var had, p := networkResources.items, IngressTo(service);
    for i := 0 to |ingresses|
      invariant forall j :: 0 <= j < i ==> !LacksHttp(ingresses[j])
      invariant networkResources.items == Union(had, Filter(p, ingresses[..i]))
    {
      FilteredUnionStep(had, p, ingresses, i);
      panicked := AddIngress(ingresses[i], service, networkResources);
      if panicked {
        assert LacksHttp(ingresses[i]);
        return;
      }
    }
    assert ingresses[..|ingresses|] == ingresses;
    panicked := false;
  }

  method AddRoutes(routes: seq<Resource>, service: string, networkResources: ResourceSet)
    modifies networkResources
    ensures networkResources.items == Union(old(networkResources.items), Filter(RouteTo(service), routes))
  {
    ghost var had, q := networkResources.items, RouteTo(service);
    for i := 0 to |routes|
      invariant networkResources.items == Union(had, Filter(q, routes[..i]))
    {
      FilteredUnionStep(had, q, routes, i);
      if routes[i].Body().routeTo.kind == Service && routes[i].Body().routeTo.name == service {
        networkResources.Add(routes[i]);
      }
    }
    assert routes[..|routes|] == routes;
  }

  lemma FilteredUnionStep(had: seq<Resource>, p: Resource -> bool, s: seq<Resource>, i: nat)
    requires i < |s|
    ensures Union(had, Filter(p, s[..i + 1]))
         == if p(s[i]) then Added(Union(had, Filter(p, s[..i])), s[i]) else Union(had, Filter(p, s[..i]))
  {
    FilterStep(p, s, i);
    UnionStep(had, Filter(p, s[..i]), s[i]);
    assert Filter(p, s[..i]) + [] == Filter(p, s[..i]);
  }

  /** One monitor: it is added for its matching label and for every matching expression. */
  method AddMonitor(monitor: Resource, key: string, value: string, monitors: ResourceSet)
    modifies monitors
    ensures monitors.items ==
      if MonitorOf(key, value)(monitor) then Added(old(monitors.items), monitor) else old(monitors.items)
  {
    var labels, expressions := monitor.Body().matchLabels, monitor.Body().matchExpressions;
    ghost var had := monitors.items;
    AddedTwice(had, monitor);
    ghost var hit := false;
    if key in labels && labels[key] == value {
      monitors.Add(monitor);
      hit := true;
    }
    ghost var before := hit;
    for i := 0 to |expressions|
      invariant hit <==> before || exists j :: 0 <= j < i && ExpressionCovers(expressions[j], key, value)
      invariant monitors.items == if hit then Added(had, monitor) else had
    {
      if expressions[i].isIn && expressions[i].key == key && value in expressions[i].values {
        monitors.Add(monitor);
        hit := true;
      }
    }
  }

  method FindServiceMonitors(key: string, value: string, anc: seq<Resource>) returns (resources: seq<Resource>)
    ensures resources == Union([], MonitorFetches(key, value, anc))
  {
    var monitors := new ResourceSet();
    var serviceMonitors := FilterByKind(anc, ServiceMonitor);
    for i := 0 to |serviceMonitors|
      invariant fresh(monitors)
      invariant monitors.items == Union([], Filter(MonitorOf(key, value), serviceMonitors[..i]))
    {
      AddMonitor(serviceMonitors[i], key, value, monitors);
      FilteredUnionStep([], MonitorOf(key, value), serviceMonitors, i);
    }
    assert serviceMonitors[..|serviceMonitors|] == serviceMonitors;
    return monitors.items;
  }

  /** One selector label of a service. */
  method AnalyseLabel(service: Resource, labels: map<string, string>, k: string, anc: seq<Resource>,
                      resources: ResourceSet) returns (panicked: bool)
    requires k in service.Body().selector
    modifies resources
    ensures panicked <==> MatchesLabel(labels, service.Body().selector, k) && SomeIngressLacksHttp(anc)
    ensures !panicked ==> resources.items == Union(old(resources.items), LabelFetches(service, labels, anc)(k))
  {
    var v := service.Body().selector[k];
    if k in labels && labels[k] == v {
      ghost var had := resources.items;
      ghost var access, monitors := AccessFetches(service, anc), MonitorFetches(k, v, anc);
      resources.Add(service);
      var r := FindExternalNetworkAccess(service, anc);
      if r.Panicked? {
        return true;
      }
      resources.Merge(r.value);
      var m := FindServiceMonitors(k, v, anc);
      resources.Merge(m);
      LabelStep(had, service, access, monitors);
    }
    return false;
  }

  lemma LabelStep(had: seq<Resource>, service: Resource, access: seq<Resource>, monitors: seq<Resource>)
    ensures Union(Union(Added(had, service), Union([], access)), Union([], monitors))
         == Union(had, [service] + access + monitors)
  {
    UnionStep(had, [], service);
    assert [] + [service] == [service];
    UnionOfUnion(Union(had, [service]), access);
    UnionConcat(had, [service], access);
    UnionOfUnion(Union(had, [service] + access), monitors);
    UnionConcat(had, [service] + access, monitors);
  }

  /** One service: its selector labels are visited in an arbitrary order. */
  method AnalyseService(service: Resource, labels: map<string, string>, anc: seq<Resource>, resources: ResourceSet)
    returns (panicked: bool, ghost fetched: seq<Resource>)
    modifies resources
    ensures panicked <==> Selects(service, labels) && SomeIngressLacksHttp(anc)
    ensures !panicked ==> resources.items == Union(old(resources.items), fetched)
                          && Elems(fetched) == ServiceNeeds(labels, anc)(service)
  {
    var selector := service.Body().selector;
    var rest := selector.Keys;
    ghost var had, visited, f := resources.items, [], LabelFetches(service, labels, anc);
    fetched := [];
    while rest != {}
      invariant rest <= selector.Keys && Elems(visited) == selector.Keys - rest
      invariant fetched == FlatMap(f, visited) && resources.items == Union(had, fetched)
      invariant SomeIngressLacksHttp(anc) ==>
                  forall k :: k in selector.Keys - rest ==> !MatchesLabel(labels, selector, k)
      decreases rest
    {
      var k :| k in rest;
      panicked := AnalyseLabel(service, labels, k, anc, resources);
      if panicked {
        return;
      }
      rest := rest - {k};
      assert (visited + [k])[..|visited|] == visited;
      assert Elems(visited + [k]) == Elems(visited) + {k};
      UnionConcat(had, fetched, f(k));
      fetched := fetched + f(k);
      visited := visited + [k];
    }
    panicked := false;
    VisitedNeeds(service, labels, anc, visited);
  }

  lemma VisitedNeeds(service: Resource, labels: map<string, string>, anc: seq<Resource>, visited: seq<string>)
    requires Elems(visited) == service.Body().selector.Keys
    ensures Elems(FlatMap(LabelFetches(service, labels, anc), visited)) == ServiceNeeds(labels, anc)(service)
  {
    var f := LabelFetches(service, labels, anc);
    var fetched, needs := FlatMap(f, visited), ServiceNeeds(labels, anc)(service);
    forall i | 0 <= i < |fetched| ensures fetched[i] in needs {
      FlatMapMembers(f, visited, fetched[i]);
      var k :| k in visited && fetched[i] in f(k);
      assert k in Elems(visited);
    }
    forall r | r in needs ensures r in fetched {
      var k :| k in service.Body().selector && r in f(k);
      assert k in Elems(visited);
      FlatMapMembers(f, visited, r);
    }
  }

  lemma ServiceStep(had: seq<Resource>, fetched: seq<Resource>, more: seq<Resource>, f: Resource -> set<Resource>,
                    services: seq<Resource>, i: nat)
    requires i < |services| && Elems(fetched) == Gather(f, services[..i]) && Elems(more) == f(services[i])
    ensures Union(Union(had, fetched), more) == Union(had, fetched + more)
    ensures Elems(fetched + more) == Gather(f, services[..i + 1])
  {
    UnionConcat(had, fetched, more);
    GatherStep(f, services, i);
    ElemsConcat(fetched, more);
  }

  method AnalyseServices(services: seq<Resource>, labels: map<string, string>, anc: seq<Resource>,
                         resources: ResourceSet) returns (panicked: bool, ghost fetched: seq<Resource>)
    modifies resources
    ensures panicked <==> (exists i :: 0 <= i < |services| && Selects(services[i], labels)) && SomeIngressLacksHttp(anc)
    ensures !panicked ==> resources.items == Union(old(resources.items), fetched)
                          && Elems(fetched) == Gather(ServiceNeeds(labels, anc), services)
  {
    ghost var had, f := resources.items, ServiceNeeds(labels, anc);
    fetched := [];
    for i := 0 to |services|
      invariant SomeIngressLacksHttp(anc) ==> forall j :: 0 <= j < i ==> !Selects(services[j], labels)
      invariant resources.items == Union(had, fetched) && Elems(fetched) == Gather(f, services[..i])
    {
      ghost var more;
      panicked, more := AnalyseService(services[i], labels, anc, resources);
      if panicked {
        return;
      }
      ServiceStep(had, fetched, more, f, services, i);
      fetched := fetched + more;
    }
    assert services[..|services|] == services;
    panicked := false;
  }

  lemma ElemsConcat<T>(a: seq<T>, b: seq<T>)
    ensures Elems(a + b) == Elems(a) + Elems(b)
  {
  }

  method ExtractNetworkResources(w: Resource, anc: seq<Resource>)
    returns (r: Result<Findings>, ghost fetched: seq<Resource>)
    ensures r.Ok? || r.Failed? || r.Panicked?
    ensures r.Failed? <==> !HasPodTemplate(w.Kind())
    ensures r.Panicked? <==> HasPodTemplate(w.Kind()) && SomeServiceSelects(w.Body().template.labels, anc)
                             && SomeIngressLacksHttp(anc)
    ensures r.Ok? ==> r.value.resources == Union([], fetched) && Elems(fetched) == NetworkNeeds(w, anc)
                      && r.value.absent == Filter(Unmet(anc), StatefulSetRefs(w))
  {
    var resources := new ResourceSet();
    var absent := new AbsentResourceSet();
    if w.Kind() == StatefulSet {
      Require(w.Body().serviceName, Service, anc, resources, absent, []);
      assert [] + StatefulSetRefs(w) == StatefulSetRefs(w);
    }
    if !HasPodTemplate(w.Kind()) {
      return Failed, [];
    }
    ghost var direct := FlatMap(Fetch(anc), StatefulSetRefs(w));
    var services := FilterByKind(anc, Service);
    var panicked, more := AnalyseServices(services, w.Body().template.labels, anc, resources);
    if panicked {
      return Panicked, [];
    }
    UnionConcat([], direct, more);
    ElemsConcat(direct, more);
    return Ok(Findings(resources.items, absent.items, [])), direct + more;
  }

  // ----- Autoscaling, and the whole

  method FindScalers(w: Resource, anc: seq<Resource>) returns (resources: seq<Resource>)
    ensures resources == Union([], ScalerFetches(w, anc))
  {
    var scalers := new ResourceSet();
    var candidates := FilterByKind(anc, HorizontalPodAutoscaler);
    for i := 0 to |candidates|
      invariant fresh(scalers) && scalers.items == Union([], Filter(Scales(w), candidates[..i]))
    {
      FilteredUnionStep([], Scales(w), candidates, i);
      var target, gvk := candidates[i].Body().scaleTarget, w.manifest.metadata.gvk;
      if target.kind == gvk.kind && target.name == w.Name()
         && target.group == gvk.group && target.version == gvk.version {
        scalers.Add(candidates[i]);
      }
    }
    assert candidates[..|candidates|] == candidates;
    return scalers.items;
  }

  method FindNamespace(w: Resource, anc: seq<Resource>) returns (r: Option<seq<Resource>>)
    ensures r.Some? <==> NamespaceFound(w, anc)
    ensures r.Some? ==> r.value == FlatMap(Fetch(anc), NamespaceRefs(w)) && |r.value| <= 1
  {
    if w.Namespace() == "default" {
      return Some([]);
    }
    var found := Find(anc, w.Namespace(), Namespace);
    if found.None? {
      return None;
    }
    assert NamespaceRefs(w)[..0] == [];
    return Some([found.value]);
  }

  method AnalyseWorkload(w: Resource, anc: seq<Resource>) returns (r: Result<Findings>)
    requires DistinctKeys(anc)
    ensures r.Ok? || r.Failed? || r.Panicked?
    ensures r.Failed? <==> !Analysable(w, anc)
    ensures r.Panicked? <==> AnalysisPanics(w, anc)
    ensures r.Ok? ==> Accounts(w, anc, r.value)
  {
    var namespaces := FindNamespace(w, anc);
    if namespaces.None? {
      return Failed;
    }
    var pod := AnalysePodSpec(w, anc);
    if !pod.Ok? {
      return Failed;
    }
    var network, fetched := ExtractNetworkResources(w, anc);
    if !network.Ok? {
      return Panicked;
    }
    var scalers := FindScalers(w, anc);
    var whole := Gathered(namespaces.value, pod.value, network.value, scalers);
    WholeAccounts(w, anc, fetched, pod.value, network.value, whole);
    return Ok(whole);
  }

  /** The findings of the parts put together. */
  method Gathered(namespaces: seq<Resource>, pod: Findings, network: Findings, scalers: seq<Resource>)
    returns (whole: Findings)
    ensures whole.resources == Union(Union(Union(Union([], namespaces), pod.resources), network.resources), scalers)
    ensures whole.absent == pod.absent + network.absent && whole.connections == pod.connections
  {
    var resources := new ResourceSet();
    var absent := new AbsentResourceSet();
    resources.Merge(namespaces);
    resources.Merge(pod.resources);
    absent.Merge(pod.absent);
    resources.Merge(network.resources);
    absent.Merge(network.absent);
    resources.Merge(scalers);
    assert [] + pod.absent == pod.absent;
    return Findings(resources.items, absent.items, pod.connections);
  }

  lemma WholeAccounts(w: Resource, anc: seq<Resource>, fetched: seq<Resource>, pod: Findings, network: Findings,
                      whole: Findings)
    requires DistinctKeys(anc) && Elems(fetched) == NetworkNeeds(w, anc)
    requires pod.resources == Union([], PodFetches(w.Body().template, anc)) && network.resources == Union([], fetched)
    requires pod.absent == Filter(Unmet(anc), PodRefs(w.Body().template, anc))
    requires network.absent == Filter(Unmet(anc), StatefulSetRefs(w))
    requires Some(pod.connections) == ConnectionsOf(AllContainers(w.Body().template))
    requires whole.resources == Union(Union(Union(Union([], FlatMap(Fetch(anc), NamespaceRefs(w))), pod.resources),
                                            network.resources),
                                      Union([], ScalerFetches(w, anc)))
    requires whole.absent == pod.absent + network.absent && whole.connections == pod.connections
    ensures Accounts(w, anc, whole)
  {
    WholeHolds(w, anc, fetched);
    FilterConcat(Unmet(anc), PodRefs(w.Body().template, anc), StatefulSetRefs(w));
  }

  /** What was gathered step by step is what the workload needs. */
  lemma WholeHolds(w: Resource, anc: seq<Resource>, fetched: seq<Resource>)
    requires DistinctKeys(anc) && Elems(fetched) == NetworkNeeds(w, anc)
    ensures Holds(Union(Union(Union(Union([], FlatMap(Fetch(anc), NamespaceRefs(w))),
                                    Union([], PodFetches(w.Body().template, anc))),
                              Union([], fetched)),
                        Union([], ScalerFetches(w, anc))),
                  anc, Needs(w, anc))
  {
    var a, b, d := FlatMap(Fetch(anc), NamespaceRefs(w)), PodFetches(w.Body().template, anc), ScalerFetches(w, anc);
    FetchesWithin(anc, NamespaceRefs(w));
    WithinElems(a, anc);
    PodFetchesWithin(w.Body().template, anc);
    WithinElems(b, anc);
    NetworkNeedsWithin(w, anc);
    FilteredWithin(Scales(w), HorizontalPodAutoscaler, anc);
    WithinElems(d, anc);
    HoldsMerged(a, b, fetched, d, anc);
  }

  lemma HoldsMerged(a: seq<Resource>, b: seq<Resource>, c: seq<Resource>, d: seq<Resource>, anc: seq<Resource>)
    requires DistinctKeys(anc) && Elems(a) <= Elems(anc) && Elems(b) <= Elems(anc)
    requires Elems(c) <= Elems(anc) && Elems(d) <= Elems(anc)
    ensures Holds(Union(Union(Union(Union([], a), Union([], b)), Union([], c)), Union([], d)), anc,
                  Elems(a) + Elems(b) + Elems(c) + Elems(d))
  {
    HoldsUnion([], anc, {}, a, Elems(a));
    assert {} + Elems(a) == Elems(a);
    var x := Union([], a);
    UnionOfUnion(x, b);
    HoldsUnion(x, anc, Elems(a), b, Elems(b));
    var y := Union(x, b);
    UnionOfUnion(y, c);
    HoldsUnion(y, anc, Elems(a) + Elems(b), c, Elems(c));
    var z := Union(y, c);
    UnionOfUnion(z, d);
    HoldsUnion(z, anc, Elems(a) + Elems(b) + Elems(c), d, Elems(d));
  }
}
