/**
 What "needed by a workload" means, said of the fields of the manifests, without loops or lists and without the
 predicates of the loops; and the proof that the analysers of internal/controller/analyse.go bundle exactly that and
 account for every reference.
 */
module Closure {
  import opened Collections
  import opened Text
  import opened Resources
  import opened Analysis

  // ----- The declarative relation

  predicate VolumeNames(v: Volume, ref: Ref)
  {
    (v.claim == Some(ref.name) && ref.kind == PersistentVolumeClaim)
    || (v.configMap == Some(ref.name) && ref.kind == ConfigMap)
    || (v.secret == Some(ref.name) && ref.kind == Secret)
  }

  predicate EnvNames(configMap: Option<string>, secret: Option<string>, ref: Ref)
  {
    (configMap == Some(ref.name) && ref.kind == ConfigMap) || (secret == Some(ref.name) && ref.kind == Secret)
  }

  predicate ContainerNames(c: Container, ref: Ref)
  {
    (exists e :: e in c.envFrom && EnvNames(e.configMap, e.secret, ref))
    || (exists e :: e in c.env && EnvNames(e.configMap, e.secret, ref))
  }

  /** The pod template refers to `ref` itself, as opposed to through a role binding. */
  predicate Names(t: PodTemplate, ref: Ref)
  {
    (ref.kind == Secret && ref.name in t.imagePullSecrets)
    || (exists v :: v in t.volumes && VolumeNames(v, ref))
    || (t.serviceAccountName != "" && ref == Ref(t.serviceAccountName, ServiceAccount))
    || (exists c :: c in t.containers + t.initContainers && ContainerNames(c, ref))
  }

  /** The subject is that service account, by name and namespace. */
  predicate SubjectNames(s: Subject, account: Metadata)
  {
    s.kind == ServiceAccount && s.name == account.name && s.namespace == account.namespace
  }

  predicate NamesAccount(binding: Resource, account: Resource)
  {
    exists s :: s in binding.manifest.body.subjects && SubjectNames(s, account.manifest.metadata)
  }

  /** Roles whose names begin like that are built into the cluster. */
  predicate BuiltIn(role: Ref) { |role.name| >= 7 && role.name[..7] == "system:" }

  /** The role binding `b` of the account brings in `r`: itself and its role, or itself alone when the role is the
      cluster's. */
  predicate Grants(anc: seq<Resource>, account: Resource, b: Resource, r: Resource)
  {
    b.manifest.metadata.gvk.kind in {ClusterRoleBinding, RoleBinding} && NamesAccount(b, account)
    && if BuiltIn(b.manifest.body.roleRef) then r == b
       else var role := Resolve(anc, b.manifest.body.roleRef); role.Some? && (r == b || role == Some(r))
  }

  ghost predicate SomeBindingGrants(anc: seq<Resource>, account: Resource, r: Resource)
  {
    exists b :: b in anc && Grants(anc, account, b, r)
  }

  ghost predicate GrantedTo(t: PodTemplate, anc: seq<Resource>, r: Resource)
  {
    t.serviceAccountName != ""
    && var account := Resolve(anc, Ref(t.serviceAccountName, ServiceAccount));
       account.Some? && SomeBindingGrants(anc, account.value, r)
  }

  /** Both have the label `k` with one value. */
  predicate Shares(labels: map<string, string>, selector: map<string, string>, k: string)
  {
    k in labels && k in selector && labels[k] == selector[k]
  }

  /** Some path of some rule of the ingress leads to the service of that name. */
  predicate IngressExposes(ingress: Manifest, service: string)
  {
    ingress.metadata.gvk.kind == Ingress
    && exists rule :: rule in ingress.body.ingressRules && rule.http.Some? && Some(service) in rule.http.value
  }

  predicate RouteExposes(route: Manifest, service: string)
  {
    route.metadata.gvk.kind == Route && route.body.routeTo.kind == Service && route.body.routeTo.name == service
  }

  /** The monitor selects the label, by value or by an expression that lists the value. */
  predicate Scrapes(monitor: Manifest, k: string, v: string)
  {
    monitor.metadata.gvk.kind == ServiceMonitor
    && ((k in monitor.body.matchLabels && monitor.body.matchLabels[k] == v)
        || exists e :: e in monitor.body.matchExpressions && e.isIn && e.key == k && v in e.values)
  }

  /** Through the label `k`, which its selector shares with the pod, the service brings in itself, whatever exposes it,
      and the monitors that scrape by that label. */
  predicate BringsIn(service: Resource, labels: map<string, string>, k: string, anc: seq<Resource>, r: Resource)
  {
    Shares(labels, service.manifest.body.selector, k)
    && (r == service
        || (r in anc && (IngressExposes(r.manifest, service.manifest.metadata.name)
                         || RouteExposes(r.manifest, service.manifest.metadata.name)
                         || Scrapes(r.manifest, k, labels[k]))))
  }

  ghost predicate ServedThrough(labels: map<string, string>, anc: seq<Resource>, service: Resource, r: Resource)
  {
    service.manifest.metadata.gvk.kind == Service && exists k :: BringsIn(service, labels, k, anc, r)
  }

  ghost predicate NeededByPod(t: PodTemplate, anc: seq<Resource>, r: Resource)
  {
    (exists ref :: Names(t, ref) && Resolve(anc, ref) == Some(r)) || GrantedTo(t, anc, r)
  }

  ghost predicate Served(labels: map<string, string>, anc: seq<Resource>, r: Resource)
  {
    exists service :: service in anc && ServedThrough(labels, anc, service, r)
  }

  ghost predicate NeededByNetwork(w: Resource, anc: seq<Resource>, r: Resource)
  {
    (w.Kind() == StatefulSet && Resolve(anc, Ref(w.Body().serviceName, Service)) == Some(r))
    || Served(w.Body().template.labels, anc, r)
  }

  predicate NeededAsNamespace(w: Resource, anc: seq<Resource>, r: Resource)
  {
    w.Namespace() != "default" && Resolve(anc, Ref(w.Namespace(), Namespace)) == Some(r)
  }

  /** The autoscaler targets an object of that kind, name, group and version. */
  predicate Targets(scaler: Manifest, w: Metadata)
  {
    scaler.metadata.gvk.kind == HorizontalPodAutoscaler
    && scaler.body.scaleTarget.kind == w.gvk.kind && scaler.body.scaleTarget.name == w.name
    && scaler.body.scaleTarget.group == w.gvk.group && scaler.body.scaleTarget.version == w.gvk.version
  }

  predicate NeededAsScaler(w: Resource, anc: seq<Resource>, r: Resource)
  {
    r in anc && Targets(r.manifest, w.manifest.metadata)
  }

  ghost predicate Needed(w: Resource, anc: seq<Resource>, r: Resource)
  {
    NeededAsNamespace(w, anc, r) || NeededByPod(w.Body().template, anc, r) || NeededByNetwork(w, anc, r)
    || NeededAsScaler(w, anc, r)
  }

  // ----- The lists of references mean what they should

  lemma ContainerRefsMean(c: Container, ref: Ref)
    ensures ref in ContainerRefs()(c) <==> ContainerNames(c, ref)
  {
    FlatMapMembers(EnvSourceRefs(), c.envFrom, ref);
    FlatMapMembers(EnvVarRefs(), c.env, ref);
    assert forall e: EnvSource :: ref in EnvSourceRefs()(e) <==> EnvNames(e.configMap, e.secret, ref);
    assert forall e: EnvVar :: ref in EnvVarRefs()(e) <==> EnvNames(e.configMap, e.secret, ref);
  }

  lemma AllContainerRefsMean(cs: seq<Container>, ref: Ref)
    ensures ref in FlatMap(ContainerRefs(), cs) <==> exists c :: c in cs && ContainerNames(c, ref)
  {
    FlatMapMembers(ContainerRefs(), cs, ref);
    forall c: Container | true ensures ref in ContainerRefs()(c) <==> ContainerNames(c, ref) {
      ContainerRefsMean(c, ref);
    }
  }

  lemma DirectRefsMean(t: PodTemplate, ref: Ref)
    ensures ref in DirectRefs(t) <==> (ref.kind == Secret && ref.name in t.imagePullSecrets)
                                      || exists v :: v in t.volumes && VolumeNames(v, ref)
  {
    FlatMapMembers(PullSecretRefs(), t.imagePullSecrets, ref);
    FlatMapMembers(VolumeRefs(), t.volumes, ref);
    assert forall n: string :: ref in PullSecretRefs()(n) <==> ref.kind == Secret && ref.name == n;
    assert forall v: Volume :: ref in VolumeRefs()(v) <==> VolumeNames(v, ref);
  }

  /** The references in the order they are looked up, without those that come from role bindings. */
  function NamedRefs(t: PodTemplate): seq<Ref>
  {
    DirectRefs(t) + (if t.serviceAccountName == "" then [] else [AccountRef(t)])
    + FlatMap(ContainerRefs(), AllContainers(t))
  }

  lemma NamedRefsMean(t: PodTemplate, ref: Ref)
    ensures ref in NamedRefs(t) <==> Names(t, ref)
  {
    DirectRefsMean(t, ref);
    AllContainerRefsMean(AllContainers(t), ref);
  }

  lemma FetchesMean(anc: seq<Resource>, refs: seq<Ref>, r: Resource)
    ensures r in FlatMap(Fetch(anc), refs) <==> exists ref :: ref in refs && Resolve(anc, ref) == Some(r)
  {
    FlatMapMembers(Fetch(anc), refs, r);
    assert forall ref: Ref :: r in Fetch(anc)(ref) <==> Resolve(anc, ref) == Some(r);
  }

  // ----- Role bindings

  lemma SubjectIsMeans(account: Resource, s: Subject)
    ensures SubjectIs(account)(s) <==> SubjectNames(s, account.manifest.metadata)
  {
  }

  lemma SystemRoleMeans(b: Resource)
    ensures IsSystemRole(b) <==> BuiltIn(b.manifest.body.roleRef)
  {
  }

  lemma MentionsMean(b: Resource, account: Resource)
    ensures Mentions(b, account) > 0 <==> NamesAccount(b, account)
  {
    var subjects, f := b.Body().subjects, Filter(SubjectIs(account), b.Body().subjects);
    FilterMembers(SubjectIs(account), subjects);
    if NamesAccount(b, account) {
      var s :| s in subjects && SubjectNames(s, account.manifest.metadata);
      SubjectIsMeans(account, s);
      var i :| 0 <= i < |subjects| && subjects[i] == s;
      assert s in f;
    }
    if |f| > 0 {
      assert f[0] in subjects && SubjectIs(account)(f[0]);
      SubjectIsMeans(account, f[0]);
    }
  }

  lemma {:induction false} RepeatMembers<T>(s: seq<T>, n: nat, x: T)
    ensures x in Repeat(s, n) <==> n > 0 && x in s
  {
    if n > 0 {
      RepeatMembers(s, n - 1, x);
    }
  }

  lemma BindingsMean(anc: seq<Resource>, b: Resource)
    ensures b in Bindings(anc) <==> b in anc && (b.Kind() == ClusterRoleBinding || b.Kind() == RoleBinding)
  {
    FilterMembers(OfKind(ClusterRoleBinding), anc);
    FilterMembers(OfKind(RoleBinding), anc);
  }

  lemma GrantsMean(anc: seq<Resource>, account: Resource, b: Resource, r: Resource)
    requires b.Kind() == ClusterRoleBinding || b.Kind() == RoleBinding
    ensures r in BindingFetch(account, anc)(b) <==> Grants(anc, account, b, r)
  {
    RepeatMembers(BindingGain(b, anc), Mentions(b, account), r);
    MentionsMean(b, account);
    SystemRoleMeans(b);
  }

  lemma BindingsGrant(anc: seq<Resource>, account: Resource, r: Resource)
    ensures r in FlatMap(BindingFetch(account, anc), Bindings(anc)) <==> SomeBindingGrants(anc, account, r)
  {
    var f, bindings := BindingFetch(account, anc), Bindings(anc);
    FlatMapMembers(f, bindings, r);
    if r in FlatMap(f, bindings) {
      var b :| b in bindings && r in f(b);
      BindingsMean(anc, b);
      GrantsMean(anc, account, b, r);
    }
    if SomeBindingGrants(anc, account, r) {
      var b :| b in anc && Grants(anc, account, b, r);
      BindingsMean(anc, b);
      GrantsMean(anc, account, b, r);
    }
  }

  lemma InConsed(r: Resource, head: Resource, tail: seq<Resource>)
    ensures r in [head] + tail <==> r == head || r in tail
  {
  }

  lemma GrantedMeans(t: PodTemplate, anc: seq<Resource>, r: Resource)
    ensures r in AccountFetches(t, anc) <==>
            (t.serviceAccountName != "" && Resolve(anc, AccountRef(t)) == Some(r)) || GrantedTo(t, anc, r)
  {
    if t.serviceAccountName != "" {
      match Resolve(anc, AccountRef(t)) {
        case None =>
        case Some(account) =>
          BindingsGrant(anc, account, r);
          InConsed(r, account, FlatMap(BindingFetch(account, anc), Bindings(anc)));
      }
    }
  }

  lemma PodFetchesMean(t: PodTemplate, anc: seq<Resource>, r: Resource)
    ensures r in PodFetches(t, anc) <==> NeededByPod(t, anc, r)
  {
    var containers := FlatMap(ContainerRefs(), AllContainers(t));
    FetchesMean(anc, DirectRefs(t), r);
    FetchesMean(anc, containers, r);
    GrantedMeans(t, anc, r);
    forall ref: Ref | true ensures ref in NamedRefs(t) <==> Names(t, ref) {
      NamedRefsMean(t, ref);
    }
    assert forall ref :: ref in NamedRefs(t) <==>
           ref in DirectRefs(t) || (t.serviceAccountName != "" && ref == AccountRef(t)) || ref in containers;
  }

  // ----- Services

  lemma FilteredMembers(p: Resource -> bool, kind: Kind, anc: seq<Resource>, r: Resource)
    ensures r in Filter(p, Filter(OfKind(kind), anc)) <==> r in anc && r.Kind() == kind && p(r)
  {
    FilterMembers(OfKind(kind), anc);
    FilterMembers(p, Filter(OfKind(kind), anc));
  }

  lemma IngressToMeans(r: Resource, service: string)
    ensures r.Kind() == Ingress && IngressTo(service)(r) <==> IngressExposes(r.manifest, service)
  {
    var rules := r.manifest.body.ingressRules;
    if r.Kind() == Ingress && IngressTo(service)(r) {
      var i :| 0 <= i < |rules| && RuleLeadsTo(rules[i], service);
      assert rules[i] in rules;
    }
    if IngressExposes(r.manifest, service) {
      var rule :| rule in rules && rule.http.Some? && Some(service) in rule.http.value;
      var i :| 0 <= i < |rules| && rules[i] == rule;
      assert RuleLeadsTo(rules[i], service);
    }
  }

  lemma RouteToMeans(r: Resource, service: string)
    ensures r.Kind() == Route && RouteTo(service)(r) <==> RouteExposes(r.manifest, service)
  {
  }

  lemma MonitorOfMeans(r: Resource, k: string, v: string)
    ensures r.Kind() == ServiceMonitor && MonitorOf(k, v)(r) <==> Scrapes(r.manifest, k, v)
  {
    var es := r.manifest.body.matchExpressions;
    if exists i :: 0 <= i < |es| && ExpressionCovers(es[i], k, v) {
      var i :| 0 <= i < |es| && ExpressionCovers(es[i], k, v);
      assert es[i] in es;
    }
    if exists e :: e in es && e.isIn && e.key == k && v in e.values {
      var e :| e in es && e.isIn && e.key == k && v in e.values;
      var i :| 0 <= i < |es| && es[i] == e;
      assert ExpressionCovers(es[i], k, v);
    }
  }

  lemma ScalesMeans(w: Resource, r: Resource)
    ensures r.Kind() == HorizontalPodAutoscaler && Scales(w)(r) <==> Targets(r.manifest, w.manifest.metadata)
  {
  }

  lemma MatchesLabelMeans(labels: map<string, string>, selector: map<string, string>, k: string)
    ensures MatchesLabel(labels, selector, k) <==> Shares(labels, selector, k)
  {
  }

  lemma LabelFetchesMean(service: Resource, labels: map<string, string>, anc: seq<Resource>, k: string, r: Resource)
    ensures r in LabelFetches(service, labels, anc)(k) <==> BringsIn(service, labels, k, anc, r)
  {
    MatchesLabelMeans(labels, service.Body().selector, k);
    if MatchesLabel(labels, service.Body().selector, k) {
      FilteredMembers(IngressTo(service.Name()), Ingress, anc, r);
      FilteredMembers(RouteTo(service.Name()), Route, anc, r);
      FilteredMembers(MonitorOf(k, labels[k]), ServiceMonitor, anc, r);
      IngressToMeans(r, service.Name());
      RouteToMeans(r, service.Name());
      MonitorOfMeans(r, k, labels[k]);
    }
  }

  lemma ServiceNeedsMean(labels: map<string, string>, anc: seq<Resource>, service: Resource, r: Resource)
    requires service.Kind() == Service
    ensures r in ServiceNeeds(labels, anc)(service) <==> ServedThrough(labels, anc, service, r)
  {
    if r in ServiceNeeds(labels, anc)(service) {
      var k :| k in service.Body().selector && r in LabelFetches(service, labels, anc)(k);
      LabelFetchesMean(service, labels, anc, k, r);
    }
    if ServedThrough(labels, anc, service, r) {
      var k :| BringsIn(service, labels, k, anc, r);
      LabelFetchesMean(service, labels, anc, k, r);
    }
  }

  lemma ServedMeans(labels: map<string, string>, anc: seq<Resource>, r: Resource)
    ensures r in Gather(ServiceNeeds(labels, anc), Filter(OfKind(Service), anc)) <==> Served(labels, anc, r)
  {
    var f, services := ServiceNeeds(labels, anc), Filter(OfKind(Service), anc);
    GatherMembers(f, services, r);
    FilterMembers(OfKind(Service), anc);
    if r in Gather(f, services) {
      var i :| 0 <= i < |services| && r in f(services[i]);
      ServiceNeedsMean(labels, anc, services[i], r);
    }
    if Served(labels, anc, r) {
      var service :| service in anc && ServedThrough(labels, anc, service, r);
      ServiceNeedsMean(labels, anc, service, r);
      var j :| 0 <= j < |anc| && anc[j] == service;
      var i :| 0 <= i < |services| && services[i] == service;
    }
  }

  lemma NetworkNeedsMean(w: Resource, anc: seq<Resource>, r: Resource)
    ensures r in NetworkNeeds(w, anc) <==> NeededByNetwork(w, anc, r)
  {
    FetchesMean(anc, StatefulSetRefs(w), r);
    ServedMeans(w.Body().template.labels, anc, r);
  }

  lemma NamespaceMeans(w: Resource, anc: seq<Resource>, r: Resource)
    ensures r in Elems(FlatMap(Fetch(anc), NamespaceRefs(w))) <==> NeededAsNamespace(w, anc, r)
  {
    FetchesMean(anc, NamespaceRefs(w), r);
  }

  lemma ScalersMean(w: Resource, anc: seq<Resource>, r: Resource)
    ensures r in Elems(ScalerFetches(w, anc)) <==> NeededAsScaler(w, anc, r)
  {
    FilteredMembers(Scales(w), HorizontalPodAutoscaler, anc, r);
    ScalesMeans(w, r);
  }

  // ----- The theorems

  lemma NeedsMean(w: Resource, anc: seq<Resource>, r: Resource)
    ensures r in Needs(w, anc) <==> Needed(w, anc, r)
  {
    NamespaceMeans(w, anc, r);
    PodFetchesMean(w.Body().template, anc, r);
    NetworkNeedsMean(w, anc, r);
    ScalersMean(w, anc, r);
  }

  /** The order in which selector labels are visited shows in nothing but the order of the result. */
  lemma {:induction false} SameUpToOrder(a: seq<Resource>, b: seq<Resource>)
    requires DistinctKeys(a) && DistinctKeys(b) && Elems(a) == Elems(b)
    ensures multiset(a) == multiset(b)
  {
    forall r | r in multiset(a) + multiset(b) ensures multiset(a)[r] == multiset(b)[r] {
      assert r in Elems(a) && r in Elems(b);
      OnceEach(a, r);
      OnceEach(b, r);
    }
  }

  lemma OnceEach(s: seq<Resource>, r: Resource)
    requires DistinctKeys(s) && r in s
    ensures multiset(s)[r] == 1
  {
    var i :| 0 <= i < |s| && s[i] == r;
    assert s == s[..i] + [r] + s[i + 1..];
    assert forall j :: 0 <= j < |s| && j != i ==> s[j] != r;
    assert r !in s[..i] && r !in s[i + 1..];
  }

  lemma AnalysisIgnoresOrder(w: Resource, anc: seq<Resource>, a: Findings, b: Findings)
    requires Accounts(w, anc, a) && Accounts(w, anc, b)
    ensures multiset(a.resources) == multiset(b.resources) && a.absent == b.absent && a.connections == b.connections
  {
    assert Opened(a) && Opened(b);
    SameUpToOrder(a.resources, b.resources);
  }

  /** Sound and complete: the analysis bundles a resource exactly when the workload needs it, and bundles nothing
      twice. */
  lemma AnalysisIsExact(w: Resource, anc: seq<Resource>, f: Findings, r: Resource)
    requires Accounts(w, anc, f)
    ensures r in f.resources <==> Needed(w, anc, r)
    ensures r in f.resources ==> r in anc
    ensures DistinctKeys(f.resources)
  {
    assert Opened(f);
    NeedsMean(w, anc, r);
    assert r in f.resources <==> r in Elems(f.resources);
    assert r in anc <==> r in Elems(anc);
  }

  /** A role that some binding of the pod's account asks for. */
  ghost predicate AsksForRole(t: PodTemplate, anc: seq<Resource>, ref: Ref)
  {
    t.serviceAccountName != ""
    && var account := Resolve(anc, Ref(t.serviceAccountName, ServiceAccount));
       account.Some? && SomeBindingAsks(Bindings(anc), account.value, ref)
  }

  predicate Asks(b: Resource, account: Resource, ref: Ref)
  {
    NamesAccount(b, account) && !BuiltIn(ref) && b.manifest.body.roleRef == ref
  }

  ghost predicate SomeBindingAsks(bindings: seq<Resource>, account: Resource, ref: Ref)
  {
    exists b :: b in bindings && Asks(b, account, ref)
  }

  /** Everything the workload refers to by name: in its pod template, through its role bindings, as StatefulSet
      service. */
  ghost predicate RefersTo(w: Resource, anc: seq<Resource>, ref: Ref)
  {
    var t := w.Body().template;
    Names(t, ref) || AsksForRole(t, anc, ref) || (w.Kind() == StatefulSet && ref == Ref(w.Body().serviceName, Service))
  }

  lemma AskedMeans(b: Resource, account: Resource, ref: Ref)
    ensures ref in RoleRefs(account)(b) <==> Asks(b, account, ref)
  {
    RepeatMembers(RoleAsked(b), Mentions(b, account), ref);
    MentionsMean(b, account);
    SystemRoleMeans(b);
  }

  lemma BindingsAsk(bindings: seq<Resource>, account: Resource, ref: Ref)
    ensures ref in FlatMap(RoleRefs(account), bindings) <==> SomeBindingAsks(bindings, account, ref)
  {
    FlatMapMembers(RoleRefs(account), bindings, ref);
    if ref in FlatMap(RoleRefs(account), bindings) {
      var b :| b in bindings && ref in RoleRefs(account)(b);
      AskedMeans(b, account, ref);
    }
    if SomeBindingAsks(bindings, account, ref) {
      var b :| b in bindings && Asks(b, account, ref);
      AskedMeans(b, account, ref);
    }
  }

  lemma ReferencesMean(w: Resource, anc: seq<Resource>, ref: Ref)
    ensures ref in References(w, anc) <==> RefersTo(w, anc, ref)
  {
    var t := w.Body().template;
    NamedRefsMean(t, ref);
    if t.serviceAccountName != "" && Resolve(anc, AccountRef(t)).Some? {
      BindingsAsk(Bindings(anc), Resolve(anc, AccountRef(t)).value, ref);
    }
  }

  /** The manifest is what the reference names. */
  predicate Meets(m: Manifest, ref: Ref) { m.metadata.gvk.kind == ref.kind && m.metadata.name == ref.name }

  lemma MatchingMeans(r: Resource, ref: Ref)
    ensures Matching(ref)(r) <==> Meets(r.manifest, ref)
  {
  }

  /** What a reference resolves to: the first resource that it names. */
  lemma ResolvesToFirst(s: seq<Resource>, ref: Ref)
    ensures Resolve(s, ref).None? <==> forall i :: 0 <= i < |s| ==> !Meets(s[i].manifest, ref)
    ensures Resolve(s, ref).Some? ==>
              exists i :: 0 <= i < |s| && s[i] == Resolve(s, ref).value && Meets(s[i].manifest, ref)
                          && forall j :: 0 <= j < i ==> !Meets(s[j].manifest, ref)
  {
    FirstIsFirst(Matching(ref), s);
    forall r: Resource | true ensures Matching(ref)(r) <==> Meets(r.manifest, ref) {
      MatchingMeans(r, ref);
    }
    if Resolve(s, ref).Some? {
      var i :| 0 <= i < |s| && s[i] == Resolve(s, ref).value && Matching(ref)(s[i])
               && forall j :: 0 <= j < i ==> !Matching(ref)(s[j]);
      assert Meets(s[i].manifest, ref);
    } else {
      assert forall i :: 0 <= i < |s| ==> s[i] in s;
    }
  }

  ghost predicate HasNamed(s: seq<Resource>, ref: Ref) { exists i :: 0 <= i < |s| && Meets(s[i].manifest, ref) }

  /** Every reference the workload makes is either met by a bundled resource of that kind and name or listed as absent,
      never both, and nothing else is listed as absent. */
  lemma ReferencesAreAccountedFor(w: Resource, anc: seq<Resource>, f: Findings, ref: Ref)
    requires Accounts(w, anc, f)
    ensures RefersTo(w, anc, ref) ==> HasNamed(f.resources, ref) != (ref in f.absent)
    ensures ref in f.absent ==> RefersTo(w, anc, ref) && !HasNamed(f.resources, ref)
  {
    assert Opened(f);
    var refs := References(w, anc);
    ReferencesMean(w, anc, ref);
    AbsentMeans(anc, refs, ref);
    if Resolve(anc, ref).None? {
      UnmetIsNotHeld(anc, f.resources, Needs(w, anc), ref);
    } else if RefersTo(w, anc, ref) {
      ResolvedIsNeeded(w, anc, ref);
      MetIsHeld(anc, f.resources, Needs(w, anc), ref);
    }
  }

  lemma AbsentMeans(anc: seq<Resource>, refs: seq<Ref>, ref: Ref)
    ensures ref in Filter(Unmet(anc), refs) <==> ref in refs && Resolve(anc, ref).None?
  {
    var f := Filter(Unmet(anc), refs);
    FilterMembers(Unmet(anc), refs);
    if ref in f {
      var i :| 0 <= i < |f| && f[i] == ref;
    }
    if ref in refs {
      var i :| 0 <= i < |refs| && refs[i] == ref;
    }
  }

  lemma UnmetIsNotHeld(anc: seq<Resource>, bundled: seq<Resource>, needed: set<Resource>, ref: Ref)
    requires Holds(bundled, anc, needed) && Resolve(anc, ref).None?
    ensures !HasNamed(bundled, ref)
  {
    ResolveMeans(anc, ref);
    forall i | 0 <= i < |bundled| ensures !Meets(bundled[i].manifest, ref) {
      assert bundled[i] in Elems(anc);
      MatchingMeans(bundled[i], ref);
    }
  }

  lemma MetIsHeld(anc: seq<Resource>, bundled: seq<Resource>, needed: set<Resource>, ref: Ref)
    requires Holds(bundled, anc, needed) && Resolve(anc, ref).Some? && Resolve(anc, ref).value in needed
    ensures HasNamed(bundled, ref)
  {
    ResolveMeans(anc, ref);
    var r := Resolve(anc, ref).value;
    assert r in Elems(bundled);
    var i :| 0 <= i < |bundled| && bundled[i] == r;
    assert Matching(ref)(bundled[i]);
    MatchingMeans(bundled[i], ref);
  }

  lemma ResolvedIsNeeded(w: Resource, anc: seq<Resource>, ref: Ref)
    requires RefersTo(w, anc, ref) && Resolve(anc, ref).Some?
    ensures Resolve(anc, ref).value in Needs(w, anc)
  {
    var t, r := w.Body().template, Resolve(anc, ref).value;
    if AsksForRole(t, anc, ref) {
      var account := Resolve(anc, Ref(t.serviceAccountName, ServiceAccount)).value;
      var b :| b in Bindings(anc) && Asks(b, account, ref);
      BindingsMean(anc, b);
      assert Grants(anc, account, b, r);
      assert GrantedTo(t, anc, r);
    }
    NeedsMean(w, anc, r);
  }

  // ----- References to services

  predicate OfNameChars(name: string)
  {
    name != [] && forall i :: 0 <= i < |name| ==>
                    'a' <= name[i] <= 'z' || '0' <= name[i] <= '9' || name[i] == '/' || name[i] == '-'
  }

  predicate OfDigits(digits: string) { digits != [] && forall i :: 0 <= i < |digits| ==> '0' <= digits[i] <= '9' }

  /** The value of the variable is that name and those digits, with a colon between them. */
  predicate Spells(e: EnvVar, name: string, digits: string)
  {
    OfNameChars(name) && OfDigits(digits) && e.value == name + ":" + digits
  }

  lemma SpellingMeans(name: string, digits: string)
    ensures OfNameChars(name) <==> name != [] && AllNameChars(name)
    ensures OfDigits(digits) <==> digits != [] && AllDigits(digits)
  {
  }

  /** The number that the characters stand for in base ten, where they are digits. */
  function InBaseTen(digits: string): int
  {
    if digits == [] then 0
    else 10 * InBaseTen(digits[..|digits| - 1]) + (digits[|digits| - 1] as int - '0' as int)
  }

  lemma {:induction false} NatValueMeans(digits: string)
    requires AllDigits(digits)
    ensures NatValue(digits) == InBaseTen(digits)
  {
    if digits != [] {
      NatValueMeans(digits[..|digits| - 1]);
    }
  }

  /** The number is at most the largest 64-bit integer. */
  predicate Fits(digits: string) { InBaseTen(digits) <= 9_223_372_036_854_775_807 }

  /** The variable `e` holds a reference to the service and port `p`. */
  ghost predicate Reads(e: EnvVar, p: ServicePort)
  {
    exists digits :: Spells(e, p.name, digits) && InBaseTen(digits) == p.port && Fits(digits)
  }

  ghost predicate SomeVariableReads(cs: seq<Container>, p: ServicePort)
  {
    exists c :: c in cs && exists e :: e in c.env && Reads(e, p)
  }

  /** The variable `e` holds a reference whose port is too large. */
  ghost predicate Overflows(e: EnvVar)
  {
    exists name, digits :: Spells(e, name, digits) && !Fits(digits)
  }

  lemma SpelledIsParsed(e: EnvVar, name: string, digits: string)
    requires Spells(e, name, digits)
    ensures AllDigits(digits) && IsReference(e)
    ensures ParseReference(e.value) == if Fits(digits) then Some(ServicePort(name, NatValue(digits))) else None
  {
    SpellingMeans(name, digits);
    NatValueMeans(digits);
    ReferenceFailsOnlyOnOverflow(e.value, name, digits);
  }

  lemma ReferenceIsSpelled(e: EnvVar) returns (name: string, digits: string)
    requires IsReference(e)
    ensures Spells(e, name, digits)
  {
    ReferenceSplitsInTwo(e.value);
    name, digits := Split(e.value, ':')[0], Split(e.value, ':')[1];
    SpellingMeans(name, digits);
  }

  lemma ReadsMeans(e: EnvVar, p: ServicePort)
    ensures Reads(e, p) <==> IsReference(e) && ParseReference(e.value) == Some(p)
    ensures Overflows(e) <==> IsReference(e) && ParseReference(e.value).None?
  {
    if IsReference(e) {
      var name, digits := ReferenceIsSpelled(e);
      SpelledIsParsed(e, name, digits);
      NatValueMeans(digits);
    }
    if Reads(e, p) {
      var digits :| Spells(e, p.name, digits) && InBaseTen(digits) == p.port && Fits(digits);
      SpelledIsParsed(e, p.name, digits);
      NatValueMeans(digits);
    }
    if Overflows(e) {
      var name, digits :| Spells(e, name, digits) && !Fits(digits);
      SpelledIsParsed(e, name, digits);
    }
  }

  ghost predicate SomeVariableOverflows(cs: seq<Container>)
  {
    exists i :: 0 <= i < |cs| && exists j :: 0 <= j < |cs[i].env| && Overflows(cs[i].env[j])
  }

  lemma ContainerConnectionMeans(c: Container, p: ServicePort)
    ensures ContainerConnection()(c).None? <==> exists j :: 0 <= j < |c.env| && Overflows(c.env[j])
    ensures ContainerConnection()(c).Some? ==>
              (p in ContainerConnection()(c).value <==> exists e :: e in c.env && Reads(e, p))
  {
    var f := EnvVarConnection();
    TryFlatMapFails(f, c.env);
    forall e: EnvVar | true
      ensures (f(e).None? <==> Overflows(e)) && (f(e).Some? ==> (p in f(e).value <==> Reads(e, p)))
    {
      ReadsMeans(e, p);
    }
    if ContainerConnection()(c).Some? {
      TryFlatMapMembers(f, c.env, p);
    }
  }

  /** The external connections of a workload are the services that variables of its containers refer to, and extracting
      them fails exactly when the port of one of these references does not fit Go's `int`. */
  lemma ConnectionsMean(cs: seq<Container>, p: ServicePort)
    ensures ConnectionsOf(cs).None? <==> SomeVariableOverflows(cs)
    ensures ConnectionsOf(cs).Some? ==> (p in ConnectionsOf(cs).value <==> SomeVariableReads(cs, p))
  {
    var f := ContainerConnection();
    TryFlatMapFails(f, cs);
    forall c: Container | true
      ensures f(c).None? <==> exists j :: 0 <= j < |c.env| && Overflows(c.env[j])
      ensures f(c).Some? ==> (p in f(c).value <==> exists e :: e in c.env && Reads(e, p))
    {
      ContainerConnectionMeans(c, p);
    }
    if ConnectionsOf(cs).Some? {
      TryFlatMapMembers(f, cs, p);
      assert forall i :: 0 <= i < |cs| ==> f(cs[i]).Some?;
    }
  }

  // ----- When the analysis fails

  /** The kinds whose manifests carry a pod template. */
  predicate CarriesPods(kind: Kind)
  {
    kind == Pod || kind == Deployment || kind == StatefulSet || kind == DaemonSet || kind == Job || kind == CronJob
  }

  predicate SomeNamed(anc: seq<Resource>, ref: Ref) { exists r :: r in anc && Meets(r.manifest, ref) }

  /** The analysis of a workload goes through, or panics, if and only if its namespace is the default one or in the
      request, its kind carries pods, and no port that it refers to is too large. */
  lemma AnalysableIff(w: Resource, anc: seq<Resource>)
    ensures Analysable(w, anc) <==>
            (w.manifest.metadata.namespace == "default"
             || SomeNamed(anc, Ref(w.manifest.metadata.namespace, Namespace)))
            && CarriesPods(w.manifest.metadata.gvk.kind)
            && !SomeVariableOverflows(w.manifest.body.template.containers + w.manifest.body.template.initContainers)
  {
    var t, ref := w.manifest.body.template, Ref(w.manifest.metadata.namespace, Namespace);
    ConnectionsMean(t.containers + t.initContainers, ServicePort("", 0));
    ResolveMeans(anc, ref);
    forall r: Resource | true ensures Matching(ref)(r) <==> Meets(r.manifest, ref) {
      MatchingMeans(r, ref);
    }
  }

  ghost predicate SomeSelectingService(anc: seq<Resource>, labels: map<string, string>)
  {
    exists s, k :: s in anc && s.manifest.metadata.gvk.kind == Service && Shares(labels, s.manifest.body.selector, k)
  }

  predicate SomeBareIngress(anc: seq<Resource>)
  {
    exists r :: r in anc && r.manifest.metadata.gvk.kind == Ingress && IsBare(r.manifest)
  }

  /** Some rule of the ingress has no HTTP section. */
  predicate IsBare(ingress: Manifest) { exists rule :: rule in ingress.body.ingressRules && rule.http.None? }

  /** It panics if and only if it would go through, some service selects the pod, and some ingress has a rule without
      HTTP section, whichever service that ingress is for. */
  lemma PanicsIff(w: Resource, anc: seq<Resource>)
    ensures AnalysisPanics(w, anc) <==>
            Analysable(w, anc) && SomeSelectingService(anc, w.manifest.body.template.labels) && SomeBareIngress(anc)
  {
    SelectingMeans(anc, w.manifest.body.template.labels);
    BareMeans(anc);
  }

  lemma SelectingMeans(anc: seq<Resource>, labels: map<string, string>)
    ensures SomeServiceSelects(labels, anc) <==> SomeSelectingService(anc, labels)
  {
    var services := Filter(OfKind(Service), anc);
    FilterMembers(OfKind(Service), anc);
    if SomeServiceSelects(labels, anc) {
      var i :| 0 <= i < |services| && Selects(services[i], labels);
      var k :| k in services[i].Body().selector && MatchesLabel(labels, services[i].Body().selector, k);
      assert services[i] in anc && Shares(labels, services[i].manifest.body.selector, k);
    }
    if SomeSelectingService(anc, labels) {
      var s, k :| s in anc && s.manifest.metadata.gvk.kind == Service && Shares(labels, s.manifest.body.selector, k);
      var j :| 0 <= j < |anc| && anc[j] == s;
      var i :| 0 <= i < |services| && services[i] == s;
      assert MatchesLabel(labels, s.Body().selector, k);
    }
  }

  lemma LacksHttpMeans(r: Resource)
    ensures LacksHttp(r) <==> IsBare(r.manifest)
  {
    var rules := r.Body().ingressRules;
    if LacksHttp(r) {
      var i :| 0 <= i < |rules| && rules[i].http.None?;
      assert rules[i] in rules;
    }
    if IsBare(r.manifest) {
      var rule :| rule in rules && rule.http.None?;
      var i :| 0 <= i < |rules| && rules[i] == rule;
    }
  }

  lemma BareMeans(anc: seq<Resource>)
    ensures SomeIngressLacksHttp(anc) <==> SomeBareIngress(anc)
  {
    var ingresses := Filter(OfKind(Ingress), anc);
    FilterMembers(OfKind(Ingress), anc);
    if SomeIngressLacksHttp(anc) {
      var i :| 0 <= i < |ingresses| && LacksHttp(ingresses[i]);
      LacksHttpMeans(ingresses[i]);
      assert ingresses[i] in anc;
    }
    if SomeBareIngress(anc) {
      var r :| r in anc && r.manifest.metadata.gvk.kind == Ingress && IsBare(r.manifest);
      LacksHttpMeans(r);
      var j :| 0 <= j < |anc| && anc[j] == r;
      var i :| 0 <= i < |ingresses| && ingresses[i] == r;
    }
  }
}
