/**
 Which resources a workload needs (internal/controller/analyse.go).

 This module says what is needed, as sets and lists over the ancillary resources; module Analysers holds the
 operator's accumulator loops, proved to compute exactly that.
 */
module Analysis {
  import opened Collections
  import opened Text
  import opened Resources

  // ----- Named references

  function OptionalRef(name: Option<string>, kind: Kind): seq<Ref>
  {
    if name.Some? then [Ref(name.value, kind)] else []
  }

  function PullSecretRefs(): string -> seq<Ref> { name => [Ref(name, Secret)] }

  function VolumeRefs(): Volume -> seq<Ref>
  {
    (v: Volume) => OptionalRef(v.claim, PersistentVolumeClaim) + OptionalRef(v.configMap, ConfigMap)
                   + OptionalRef(v.secret, Secret)
  }

  function EnvSourceRefs(): EnvSource -> seq<Ref>
  {
    (e: EnvSource) => OptionalRef(e.configMap, ConfigMap) + OptionalRef(e.secret, Secret)
  }

  function EnvVarRefs(): EnvVar -> seq<Ref>
  {
    (e: EnvVar) => OptionalRef(e.configMap, ConfigMap) + OptionalRef(e.secret, Secret)
  }

  function ContainerRefs(): Container -> seq<Ref>
  {
    (c: Container) => FlatMap(EnvSourceRefs(), c.envFrom) + FlatMap(EnvVarRefs(), c.env)
  }

  function AllContainers(t: PodTemplate): seq<Container> { t.containers + t.initContainers }

  /** A reference that no ancillary resource meets. */
  function Unmet(anc: seq<Resource>): Ref -> bool { (ref: Ref) => Resolve(anc, ref).None? }

  /** What looking a reference up adds to the resources. */
  function Fetch(anc: seq<Resource>): Ref -> seq<Resource>
  {
    (ref: Ref) => match Resolve(anc, ref) case Some(r) => [r] case None => []
  }

  // ----- Service accounts: bindings and the roles they refer to

  function SubjectIs(account: Resource): Subject -> bool
  {
    (s: Subject) => s.kind == ServiceAccount && s.name == account.Name() && s.namespace == account.Namespace()
  }

  predicate IsSystemRole(binding: Resource) { "system:" <= binding.Body().roleRef.name }

  /** How often the binding names the account as a subject. */
  function Mentions(binding: Resource, account: Resource): nat
  {
    |Filter(SubjectIs(account), binding.Body().subjects)|
  }

  function RoleAsked(binding: Resource): seq<Ref>
  {
    if IsSystemRole(binding) then [] else [binding.Body().roleRef]
  }

  /** The role is looked up once per mention of the account, unless it is built into the cluster. */
  function RoleRefs(account: Resource): Resource -> seq<Ref>
  {
    (b: Resource) => Repeat(RoleAsked(b), Mentions(b, account))
  }

  /** A binding comes along with its role; with a system role it comes alone, and with an absent role not at all. */
  function BindingGain(b: Resource, anc: seq<Resource>): seq<Resource>
  {
    if IsSystemRole(b) then [b]
    else match Resolve(anc, b.Body().roleRef) case Some(role) => [role, b] case None => []
  }

  function BindingFetch(account: Resource, anc: seq<Resource>): Resource -> seq<Resource>
  {
    (b: Resource) => Repeat(BindingGain(b, anc), Mentions(b, account))
  }

  function Repeat<T>(s: seq<T>, n: nat): seq<T> { if n == 0 then [] else Repeat(s, n - 1) + s }

  function Bindings(anc: seq<Resource>): seq<Resource>
  {
    Filter(OfKind(ClusterRoleBinding), anc) + Filter(OfKind(RoleBinding), anc)
  }

  function AccountRef(t: PodTemplate): Ref { Ref(t.serviceAccountName, ServiceAccount) }

  function AccountRefs(t: PodTemplate, anc: seq<Resource>): seq<Ref>
  {
    if t.serviceAccountName == "" then []
    else [AccountRef(t)] + match Resolve(anc, AccountRef(t))
                           case Some(account) => FlatMap(RoleRefs(account), Bindings(anc))
                           case None => []
  }

  function AccountFetches(t: PodTemplate, anc: seq<Resource>): seq<Resource>
  {
    if t.serviceAccountName == "" then []
    else match Resolve(anc, AccountRef(t))
         case Some(account) => [account] + FlatMap(BindingFetch(account, anc), Bindings(anc))
         case None => []
  }

  // ----- The pod specification

  function DirectRefs(t: PodTemplate): seq<Ref>
  {
    FlatMap(PullSecretRefs(), t.imagePullSecrets) + FlatMap(VolumeRefs(), t.volumes)
  }

  function PodRefs(t: PodTemplate, anc: seq<Resource>): seq<Ref>
  {
    DirectRefs(t) + AccountRefs(t, anc) + FlatMap(ContainerRefs(), AllContainers(t))
  }

  /** The resources the pod specification brings in, in the order in which they are come upon, repetitions included. */
  function PodFetches(t: PodTemplate, anc: seq<Resource>): seq<Resource>
  {
    FlatMap(Fetch(anc), DirectRefs(t)) + AccountFetches(t, anc)
    + FlatMap(Fetch(anc), FlatMap(ContainerRefs(), AllContainers(t)))
  }

  // ----- Network access

  predicate MatchesLabel(labels: map<string, string>, selector: map<string, string>, k: string)
  {
    k in selector && k in labels && labels[k] == selector[k]
  }

  /** One label in common suffices. */
  ghost predicate Selects(service: Resource, labels: map<string, string>)
  {
    exists k :: k in service.Body().selector && MatchesLabel(labels, service.Body().selector, k)
  }

  predicate RuleLeadsTo(rule: IngressRule, service: string) { rule.http.Some? && Some(service) in rule.http.value }

  function IngressTo(service: string): Resource -> bool
  {
    (r: Resource) =>
      var rules := r.Body().ingressRules;
      exists i :: 0 <= i < |rules| && RuleLeadsTo(rules[i], service)
  }

  function RouteTo(service: string): Resource -> bool
  {
    (r: Resource) => r.Body().routeTo == Ref(service, Service)
  }

  predicate ExpressionCovers(e: MatchExpression, k: string, v: string) { e.isIn && e.key == k && v in e.values }

  function MonitorOf(k: string, v: string): Resource -> bool
  {
    (r: Resource) =>
      var b := r.Body();
      (k in b.matchLabels && b.matchLabels[k] == v)
      || exists i :: 0 <= i < |b.matchExpressions| && ExpressionCovers(b.matchExpressions[i], k, v)
  }

  function AccessFetches(service: Resource, anc: seq<Resource>): seq<Resource>
  {
    Filter(IngressTo(service.Name()), Filter(OfKind(Ingress), anc))
    + Filter(RouteTo(service.Name()), Filter(OfKind(Route), anc))
  }

  function MonitorFetches(k: string, v: string, anc: seq<Resource>): seq<Resource>
  {
    Filter(MonitorOf(k, v), Filter(OfKind(ServiceMonitor), anc))
  }

  /** What one selector label of a service brings in. */
  function LabelFetches(service: Resource, labels: map<string, string>, anc: seq<Resource>): string -> seq<Resource>
  {
    (k: string) =>
      var selector := service.Body().selector;
      if MatchesLabel(labels, selector, k)
      then [service] + AccessFetches(service, anc) + MonitorFetches(k, selector[k], anc)
      else []
  }

  /** The labels of a selector are visited in no particular order, so what a service brings in is only known as a
      set. */
  ghost function ServiceNeeds(labels: map<string, string>, anc: seq<Resource>): Resource -> set<Resource>
  {
    (service: Resource) => set k, r | k in service.Body().selector && r in LabelFetches(service, labels, anc)(k) :: r
  }

  function StatefulSetRefs(w: Resource): seq<Ref>
  {
    if w.Kind() == StatefulSet then [Ref(w.Body().serviceName, Service)] else []
  }

  ghost function NetworkNeeds(w: Resource, anc: seq<Resource>): set<Resource>
  {
    Elems(FlatMap(Fetch(anc), StatefulSetRefs(w)))
    + Gather(ServiceNeeds(w.Body().template.labels, anc), Filter(OfKind(Service), anc))
  }

  /** Reading the paths of an ingress rule that has no HTTP section is a nil dereference. */
  predicate LacksHttp(ingress: Resource)
  {
    exists i :: 0 <= i < |ingress.Body().ingressRules| && ingress.Body().ingressRules[i].http.None?
  }

  ghost predicate SomeIngressLacksHttp(anc: seq<Resource>)
  {
    var ingresses := Filter(OfKind(Ingress), anc);
    exists i :: 0 <= i < |ingresses| && LacksHttp(ingresses[i])
  }

  ghost predicate SomeServiceSelects(labels: map<string, string>, anc: seq<Resource>)
  {
    var services := Filter(OfKind(Service), anc);
    exists i :: 0 <= i < |services| && Selects(services[i], labels)
  }

  // ----- Autoscaling, the namespace, and the whole

  function Scales(w: Resource): Resource -> bool
  {
    (hpa: Resource) =>
      var gvk := w.manifest.metadata.gvk;
      hpa.Body().scaleTarget == ScaleTarget(gvk.kind, w.Name(), gvk.group, gvk.version)
  }

  function ScalerFetches(w: Resource, anc: seq<Resource>): seq<Resource>
  {
    Filter(Scales(w), Filter(OfKind(HorizontalPodAutoscaler), anc))
  }

  function NamespaceRefs(w: Resource): seq<Ref>
  {
    if w.Namespace() == "default" then [] else [Ref(w.Namespace(), Namespace)]
  }

  ghost function Needs(w: Resource, anc: seq<Resource>): set<Resource>
  {
    Elems(FlatMap(Fetch(anc), NamespaceRefs(w))) + Elems(PodFetches(w.Body().template, anc)) + NetworkNeeds(w, anc)
    + Elems(ScalerFetches(w, anc))
  }

  /** Every reference by name that the workload makes and that may be listed as absent. */
  function References(w: Resource, anc: seq<Resource>): seq<Ref>
  {
    PodRefs(w.Body().template, anc) + StatefulSetRefs(w)
  }

  // ----- External connections

  predicate IsReference(e: EnvVar) { e.value != "" && IsServiceNamePortReference(e.value) }

  /** What an environment variable contributes; None when the port of its reference does not fit Go's `int`. */
  function EnvVarConnection(): EnvVar -> Option<seq<ServicePort>>
  {
    (e: EnvVar) =>
      if !IsReference(e) then Some([])
      else match ParseReference(e.value) case Some(p) => Some([p]) case None => None
  }

  function ContainerConnection(): Container -> Option<seq<ServicePort>>
  {
    (c: Container) => TryFlatMap(EnvVarConnection(), c.env)
  }

  /** The service references of the environment variables, in order; None when one of them has a port out of range. */
  function ConnectionsOf(cs: seq<Container>): Option<seq<ServicePort>> { TryFlatMap(ContainerConnection(), cs) }

  predicate HasPodTemplate(kind: Kind) { kind in {Pod, Deployment, StatefulSet, DaemonSet, Job, CronJob} }

  // ----- Accumulating

  datatype Findings = Findings(resources: seq<Resource>, absent: seq<Ref>, connections: seq<ServicePort>)

  class AbsentResourceSet {
    var items: seq<Ref>

    constructor ()
      ensures items == []
    {
      items := [];
    }

    method Register(name: string, kind: Kind)
      modifies this
      ensures items == old(items) + [Ref(name, kind)]
    {
      items := items + [Ref(name, kind)];
    }

    method Merge(other: seq<Ref>)
      modifies this
      ensures items == old(items) + other
    {
      items := items + other;
    }
  }

  /** `items` holds exactly the resources of `needed`, each once, all taken from `anc`. */
  ghost predicate Holds(items: seq<Resource>, anc: seq<Resource>, needed: set<Resource>)
  {
    DistinctKeys(items) && Elems(items) == needed && needed <= Elems(anc)
  }

  lemma DistinctIndex(s: seq<Resource>, x: Resource, y: Resource)
    requires DistinctKeys(s) && x in s && y in s && x.Key() == y.Key()
    ensures x == y
  {
  }

  lemma HoldsAdded(items: seq<Resource>, anc: seq<Resource>, needed: set<Resource>, r: Resource)
    requires DistinctKeys(anc) && Holds(items, anc, needed) && r in anc
    ensures Holds(Added(items, r), anc, needed + {r})
  {
    AddedKeys(items, r);
    if HasKey(items, r.Key()) {
      var i :| 0 <= i < |items| && items[i].Key() == r.Key();
      assert items[i] in Elems(anc);
      DistinctIndex(anc, items[i], r);
      assert r in needed;
    } else {
      assert Elems(items + [r]) == Elems(items) + {r};
    }
  }

  lemma {:induction false} HoldsUnion(a: seq<Resource>, anc: seq<Resource>, needed: set<Resource>,
                                      b: seq<Resource>, more: set<Resource>)
    requires DistinctKeys(anc) && Holds(a, anc, needed) && Elems(b) == more && more <= Elems(anc)
    ensures Holds(Union(a, b), anc, needed + more)
  {
    if b == [] {
      assert more == {};
      assert needed + more == needed;
    } else {
      var front, last := b[..|b| - 1], b[|b| - 1];
      assert b == front + [last];
      assert Elems(b) == Elems(front) + {last};
      HoldsUnion(a, anc, needed, front, Elems(front));
      HoldsAdded(Union(a, front), anc, needed + Elems(front), last);
      assert needed + Elems(front) + {last} == needed + more;
    }
  }

  /** Whether the analysis of a workload succeeds. */
  predicate Analysable(w: Resource, anc: seq<Resource>)
  {
    NamespaceFound(w, anc) && PodAnalysable(w)
  }

  predicate NamespaceFound(w: Resource, anc: seq<Resource>)
  {
    w.Namespace() == "default" || Resolve(anc, Ref(w.Namespace(), Namespace)).Some?
  }

  /** The workload is of a kind with a pod template, and the ports it refers to fit Go's `int`. */
  predicate PodAnalysable(w: Resource)
  {
    HasPodTemplate(w.Kind()) && ConnectionsOf(AllContainers(w.Body().template)).Some?
  }

  /** Whether it runs into a nil dereference instead. */
  ghost predicate AnalysisPanics(w: Resource, anc: seq<Resource>)
  {
    Analysable(w, anc) && SomeServiceSelects(w.Body().template.labels, anc) && SomeIngressLacksHttp(anc)
  }

  /** Whether the analysis of a workload ends in an error or a panic. */
  ghost function Unanalysable(anc: seq<Resource>): Resource -> bool
  {
    (w: Resource) => !Analysable(w, anc) || AnalysisPanics(w, anc)
  }

  /** The findings for a workload: what it needs, each once; the references that nothing meets; its connections. */
  ghost predicate AccountsFor(w: Resource, anc: seq<Resource>, f: Findings)
  {
    Holds(f.resources, anc, Needs(w, anc))
    && f.absent == Filter(Unmet(anc), References(w, anc))
    && Some(f.connections) == ConnectionsOf(AllContainers(w.Body().template))
  }

  /** `AccountsFor`, folded up: a proof looks inside only where it mentions `Opened(f)`. */
  ghost predicate Accounts(w: Resource, anc: seq<Resource>, f: Findings)
  {
    forall g: Findings {:trigger Opened(g)} :: g == f && Opened(g) ==> AccountsFor(w, anc, g)
  }

  predicate Opened(f: Findings) { true }

  // ----- Whatever is needed is among the ancillary resources

  ghost predicate Within(s: seq<Resource>, anc: seq<Resource>) { forall i :: 0 <= i < |s| ==> s[i] in anc }

  lemma {:induction false} FlatMapWithin<A>(f: A -> seq<Resource>, s: seq<A>, anc: seq<Resource>)
    requires forall i :: 0 <= i < |s| ==> Within(f(s[i]), anc)
    ensures Within(FlatMap(f, s), anc)
  {
    if s != [] {
      var front := s[..|s| - 1];
      forall i | 0 <= i < |front| ensures Within(f(front[i]), anc) {
        assert front[i] == s[i];
      }
      FlatMapWithin(f, front, anc);
      assert Within(f(s[|s| - 1]), anc);
    }
  }

  lemma FetchesWithin(anc: seq<Resource>, refs: seq<Ref>)
    ensures Within(FlatMap(Fetch(anc), refs), anc)
  {
    forall i | 0 <= i < |refs| ensures Within(Fetch(anc)(refs[i]), anc) {
      ResolveMeans(anc, refs[i]);
    }
    FlatMapWithin(Fetch(anc), refs, anc);
  }

  lemma FilteredWithin(p: Resource -> bool, kind: Kind, anc: seq<Resource>)
    ensures Within(Filter(p, Filter(OfKind(kind), anc)), anc)
    ensures Within(Filter(OfKind(kind), anc), anc)
  {
    FilterMembers(OfKind(kind), anc);
    FilterMembers(p, Filter(OfKind(kind), anc));
  }

  lemma {:induction false} RepeatWithin(s: seq<Resource>, n: nat, anc: seq<Resource>)
    requires Within(s, anc)
    ensures Within(Repeat(s, n), anc)
  {
    if n > 0 {
      RepeatWithin(s, n - 1, anc);
    }
  }

  lemma BindingFetchWithin(account: Resource, anc: seq<Resource>, b: Resource)
    requires b in anc
    ensures Within(BindingFetch(account, anc)(b), anc)
  {
    ResolveMeans(anc, b.Body().roleRef);
    RepeatWithin(BindingGain(b, anc), Mentions(b, account), anc);
  }

  lemma BindingsWithin(anc: seq<Resource>)
    ensures Within(Bindings(anc), anc)
  {
    FilterMembers(OfKind(ClusterRoleBinding), anc);
    FilterMembers(OfKind(RoleBinding), anc);
  }

  lemma FetchedAccountWithin(account: Resource, anc: seq<Resource>)
    requires account in anc
    ensures Within([account] + FlatMap(BindingFetch(account, anc), Bindings(anc)), anc)
  {
    BindingsWithin(anc);
    AllBindingsWithin(account, anc, Bindings(anc));
  }

  lemma AccountFetchesWithin(t: PodTemplate, anc: seq<Resource>)
    ensures Within(AccountFetches(t, anc), anc)
  {
    if t.serviceAccountName != "" {
      ResolveMeans(anc, AccountRef(t));
      match Resolve(anc, AccountRef(t)) {
        case None =>
        case Some(account) =>
          FetchedAccountWithin(account, anc);
      }
    }
  }

  lemma AllBindingsWithin(account: Resource, anc: seq<Resource>, bindings: seq<Resource>)
    requires Within(bindings, anc)
    ensures Within(FlatMap(BindingFetch(account, anc), bindings), anc)
  {
    forall i | 0 <= i < |bindings| ensures Within(BindingFetch(account, anc)(bindings[i]), anc) {
      BindingFetchWithin(account, anc, bindings[i]);
    }
    FlatMapWithin(BindingFetch(account, anc), bindings, anc);
  }

  lemma WithinConcat(a: seq<Resource>, b: seq<Resource>, anc: seq<Resource>)
    requires Within(a, anc) && Within(b, anc)
    ensures Within(a + b, anc)
  {
  }

  lemma WithinElems(s: seq<Resource>, anc: seq<Resource>)
    requires Within(s, anc)
    ensures Elems(s) <= Elems(anc)
  {
  }

  lemma LabelFetchesWithin(service: Resource, labels: map<string, string>, anc: seq<Resource>, k: string)
    requires service in anc
    ensures Within(LabelFetches(service, labels, anc)(k), anc)
  {
    var name, selector := service.Name(), service.Body().selector;
    if MatchesLabel(labels, selector, k) {
      FilteredWithin(IngressTo(name), Ingress, anc);
      FilteredWithin(RouteTo(name), Route, anc);
      WithinConcat(Filter(IngressTo(name), Filter(OfKind(Ingress), anc)),
                   Filter(RouteTo(name), Filter(OfKind(Route), anc)), anc);
      FilteredWithin(MonitorOf(k, selector[k]), ServiceMonitor, anc);
      WithinConcat([service], AccessFetches(service, anc), anc);
      WithinConcat([service] + AccessFetches(service, anc), MonitorFetches(k, selector[k], anc), anc);
    }
  }

  lemma ServiceNeedsWithin(labels: map<string, string>, anc: seq<Resource>, service: Resource)
    requires service in anc
    ensures ServiceNeeds(labels, anc)(service) <= Elems(anc)
  {
    forall r | r in ServiceNeeds(labels, anc)(service) ensures r in anc {
      var k :| k in service.Body().selector && r in LabelFetches(service, labels, anc)(k);
      LabelFetchesWithin(service, labels, anc, k);
    }
  }

  lemma NetworkNeedsWithin(w: Resource, anc: seq<Resource>)
    ensures NetworkNeeds(w, anc) <= Elems(anc)
  {
    var labels, services := w.Body().template.labels, Filter(OfKind(Service), anc);
    FetchesWithin(anc, StatefulSetRefs(w));
    FilteredWithin(Workloads(), Service, anc);
    forall r | r in Gather(ServiceNeeds(labels, anc), services) ensures r in anc {
      GatherMembers(ServiceNeeds(labels, anc), services, r);
      var i :| 0 <= i < |services| && r in ServiceNeeds(labels, anc)(services[i]);
      ServiceNeedsWithin(labels, anc, services[i]);
    }
  }

  lemma PodFetchesWithin(t: PodTemplate, anc: seq<Resource>)
    ensures Within(PodFetches(t, anc), anc)
  {
    FetchesWithin(anc, DirectRefs(t));
    AccountFetchesWithin(t, anc);
    FetchesWithin(anc, FlatMap(ContainerRefs(), AllContainers(t)));
    WithinConcat(FlatMap(Fetch(anc), DirectRefs(t)), AccountFetches(t, anc), anc);
    WithinConcat(FlatMap(Fetch(anc), DirectRefs(t)) + AccountFetches(t, anc),
                 FlatMap(Fetch(anc), FlatMap(ContainerRefs(), AllContainers(t))), anc);
  }
}
