/**
 A request with a connection: deployment `a` refers to a service that selects deployment `b`. Placed on two clusters,
 the two bundles need one link. On this request the registry falls out of step with the record, at each of the places
 where the code lets it.
 */
module LinkedPair {
  import opened Collections
  import opened Text
  import opened Resources
  import opened Annotations
  import opened Analysis
  import opened Closure
  import opened Bundles
  import opened Bundling
  import opened Links
  import opened LinkTheory
  import opened Connections
  import opened HubState
  import opened Planning
  import opened Reconciler
  import opened RunTheory
  import opened Registry
  import opened Traces
  import opened Samples

  // ----- The request

  function Called(): ServicePort { ServicePort("s", 80) }

  /** Refers to the service, and mounts the given volumes. */
  function Caller(volumes: seq<Volume>): Manifest
  {
    DeploymentOf("a", PodTemplate(map[], [], volumes, "",
                                  [Container([], [EnvVar("s" + ":" + Decimal(80), None, None)])], []))
  }

  function Callee(): Manifest { DeploymentOf("b", PodTemplate(map["app" := "b"], [], [], "", [], [])) }

  function Front(): Manifest { InDefault("s", Core, Service, BodyWith(EmptyTemplate(), map["app" := "b"])) }

  function Calling(volumes: seq<Volume>): seq<Manifest> { [Caller(volumes), Callee(), Front()] }

  /** A volume for a config map that the request does not bring along. */
  function Missing(): seq<Volume> { [Volume(None, Some("x"), None)] }

  predicate Stands(created: seq<Resource>, volumes: seq<Volume>)
  {
    ConvertedFrom(created, Calling(volumes)) && volumes in {[], Missing()}
  }

  lemma Parts(created: seq<Resource>, volumes: seq<Volume>)
    requires Stands(created, volumes)
    ensures |created| == 3 && DistinctKeys(created) && Union([], created) == created
    ensures Filter(Workloads(), created) == [created[0], created[1]] && Filter(Ancillaries(), created) == [created[2]]
  {
    assert created == [created[0], created[1]] + [created[2]];
    DistinctNamesOf(created, volumes);
    UnionOfDistinct(created);
    Partition([created[0], created[1]], [created[2]]);
  }

  lemma DistinctNamesOf(created: seq<Resource>, volumes: seq<Volume>)
    requires Stands(created, volumes)
    ensures DistinctKeys(created)
  {
    assert "a" != "b" && "a" != "s" && "b" != "s";
    assert created[0].Name() == "a" && created[1].Name() == "b" && created[2].Name() == "s";
  }

  // ----- Its bundles

  lemma CallerNeedsNothing(created: seq<Resource>, volumes: seq<Volume>, r: Resource, ref: Ref)
    requires Stands(created, volumes)
    ensures !Needed(created[0], [created[2]], r)
    ensures RefersTo(created[0], [created[2]], ref) <==> volumes != [] && ref == Ref("x", ConfigMap)
  {
    var w, anc, t := created[0], [created[2]], created[0].Body().template;
    forall n: Ref | true ensures Closure.Names(t, n) <==> volumes != [] && n == Ref("x", ConfigMap) {
      assert t.volumes == volumes;
      assert volumes != [] ==> Volume(None, Some("x"), None) in volumes;
      assert t.containers + t.initContainers == [Container([], [EnvVar("s" + ":" + Decimal(80), None, None)])];
    }
    ResolveMeans(anc, Ref("x", ConfigMap));
    assert !Served(t.labels, anc, r);
  }

  lemma CallerConnections()
    ensures ConnectionsOf(AllContainers(Caller([]).body.template)) == Some([Called()])
    ensures ConnectionsOf(AllContainers(Caller(Missing()).body.template)) == Some([Called()])
  {
    var e := EnvVar("s" + ":" + Decimal(80), None, None);
    var c := Container([], [e]);
    ReferenceRoundTrip(Called());
    assert EnvVarConnection()(e) == Some([Called()]);
    One(EnvVarConnection(), e, [Called()]);
    One(ContainerConnection(), c, [Called()]);
    assert [c] + [] == [c];
  }

  lemma One<A, B>(f: A -> Option<seq<B>>, x: A, y: seq<B>)
    requires f(x) == Some(y)
    ensures TryFlatMap(f, [x]) == Some(y)
  {
    assert [x][..0] == [];
    assert [] + y == y;
  }

  lemma FindingsOfCaller(created: seq<Resource>, volumes: seq<Volume>, f: Findings)
    requires Stands(created, volumes) && Accounts(created[0], [created[2]], f)
    ensures f.resources == [] && f.connections == [Called()] && (f.absent == [] <==> volumes == [])
  {
    var w, anc := created[0], [created[2]];
    forall r: Resource | true ensures r !in f.resources {
      AnalysisIsExact(w, anc, f, r);
      CallerNeedsNothing(created, volumes, r, Ref("x", ConfigMap));
    }
    AnalysisIsExact(w, anc, f, w);
    NoMember(f.resources);
    CallerAbsence(created, volumes, f);
    CallerConnections();
    assert Opened(f);
  }

  lemma CallerAbsence(created: seq<Resource>, volumes: seq<Volume>, f: Findings)
    requires Stands(created, volumes) && Accounts(created[0], [created[2]], f) && f.resources == []
    ensures f.absent == [] <==> volumes == []
  {
    var x := Ref("x", ConfigMap);
    ReferencesAreAccountedFor(created[0], [created[2]], f, x);
    CallerNeedsNothing(created, volumes, created[0], x);
    if f.absent != [] {
      ReferencesAreAccountedFor(created[0], [created[2]], f, f.absent[0]);
      CallerNeedsNothing(created, volumes, created[0], f.absent[0]);
    }
  }

  lemma CalleeNeedsTheFront(created: seq<Resource>, volumes: seq<Volume>, r: Resource, ref: Ref)
    requires Stands(created, volumes)
    ensures Needed(created[1], [created[2]], r) <==> r == created[2]
    ensures !RefersTo(created[1], [created[2]], ref)
  {
    var w, s, t := created[1], created[2], created[1].Body().template;
    assert t.labels == map["app" := "b"] && s.Body().selector == map["app" := "b"];
    assert BringsIn(s, t.labels, "app", [s], s);
    assert ServedThrough(t.labels, [s], s, s);
    assert s in [s];
    assert t.containers + t.initContainers == [];
  }

  lemma FindingsOfCallee(created: seq<Resource>, volumes: seq<Volume>, f: Findings)
    requires Stands(created, volumes) && Accounts(created[1], [created[2]], f)
    ensures f.resources == [created[2]] && f.connections == [] && f.absent == []
  {
    var w, anc, s := created[1], [created[2]], created[2];
    forall r: Resource | true ensures r in f.resources <==> r == s {
      AnalysisIsExact(w, anc, f, r);
      CalleeNeedsTheFront(created, volumes, r, Ref("s", Service));
    }
    AnalysisIsExact(w, anc, f, s);
    OnlyMember(f.resources, s);
    if f.absent != [] {
      ReferencesAreAccountedFor(w, anc, f, f.absent[0]);
      CalleeNeedsTheFront(created, volumes, s, f.absent[0]);
    }
    assert Opened(f);
    assert AllContainers(w.Body().template) == [];
  }

  /** The two bundles, up to where they run. */
  ghost predicate Pair(views: seq<BundleV>, created: seq<Resource>, volumes: seq<Volume>)
    requires |created| == 3
  {
    |views| == 2
    && views[0].name == "a" && views[0].resources == [created[0]] && views[0].external == [Called()]
    && (views[0].absent == [] <==> volumes == [])
    && views[1].name == "b" && views[1].resources == [created[1], created[2]] && views[1].external == []
    && views[1].absent == []
  }

  lemma BundleOfCaller(created: seq<Resource>, volumes: seq<Volume>, v: BundleV, request: Request, common: seq<Rule>)
    requires Stands(created, volumes) && BundleOf(v, created[0], request, common, created)
    ensures v.name == created[0].Name() && v.resources == [created[0]] + []
    ensures v.external == [Called()] && (v.absent == [] <==> volumes == [])
  {
    Parts(created, volumes);
    BundleOpens(v, created[0], request, common, created);
    FindingsOfCaller(created, volumes, Findings(v.resources[1..], v.absent, v.external));
  }

  lemma BundleOfCallee(created: seq<Resource>, volumes: seq<Volume>, v: BundleV, request: Request, common: seq<Rule>)
    requires Stands(created, volumes) && BundleOf(v, created[1], request, common, created)
    ensures v.name == created[1].Name() && v.resources == [created[1]] + [created[2]]
    ensures v.external == [] && v.absent == []
  {
    Parts(created, volumes);
    BundleOpens(v, created[1], request, common, created);
    FindingsOfCallee(created, volumes, Findings(v.resources[1..], v.absent, v.external));
  }

  lemma BundlesOfPair(request: Request, created: seq<Resource>, volumes: seq<Volume>, made: seq<BundleV>,
                      views: seq<BundleV>)
    requires Stands(created, volumes) && request.workloadAnnotations != [] && Bundled(request, created, made, views)
    ensures Pair(views, created, volumes)
  {
    var common := PlacementRules(request.globalAnnotations).value;
    Parts(created, volumes);
    PairNames(created, volumes);
    DistinctNamesKeepWorkloads(request, created, made, views);
    BundleOfCaller(created, volumes, made[0], request, common);
    BundleOfCallee(created, volumes, made[1], request, common);
    assert [created[0]] + [] == [created[0]] && [created[1]] + [created[2]] == [created[1], created[2]];
  }

  lemma PairNames(created: seq<Resource>, volumes: seq<Volume>)
    requires Stands(created, volumes)
    ensures created[0].Name() == "a" && created[1].Name() == "b"
    ensures DistinctWorkloadNames([created[0], created[1]])
  {
    assert "a" != "b";
  }

  // ----- Its plan

  function Place(cluster: string): Location { Location(cluster, "default") }

  /** The connection between the two clusters. */
  function TheLink(a: string, b: string): Connection { Connection(Called(), Place(b), Place(a)) }

  /** Without bundles of others, the caller needs the link to the other bundle. */
  lemma LinksOfCaller(a: BundleV, b: BundleV, w: Resource, service: Resource)
    requires a.name == "a" && a.resources == [w] && a.external == [Called()] && w.IsWorkload()
    requires b.name == "b" && Resolve(b.resources, Ref("s", Service)) == Some(service)
    requires w.Namespace() == service.Namespace() == "default"
    ensures ForBundle([a, b])(a) == [TheLink(a.cluster, b.cluster)]
  {
    FilterAll(Workloads(), [w]);
    Two(Reaching(a, TargetOf(a), Called()), a, b);
    FlatMapOne(ForService(a, TargetOf(a), [a, b]), Called());
    assert [] + [TheLink(a.cluster, b.cluster)] == [TheLink(a.cluster, b.cluster)];
  }

  lemma FrontIsFound(created: seq<Resource>, volumes: seq<Volume>)
    requires Stands(created, volumes)
    ensures Resolve([created[1], created[2]], Ref("s", Service)) == Some(created[2])
  {
    assert First(Matching(Ref("s", Service)), [created[1], created[2]][1..]) == Some(created[2]);
  }

  lemma ConnectionsOfPair(plan: seq<BundleV>, created: seq<Resource>, volumes: seq<Volume>)
    requires Stands(created, volumes) && Pair(plan, created, volumes)
    ensures ConnectionsAmong(plan)
         == if plan[0].cluster == plan[1].cluster then [] else [TheLink(plan[0].cluster, plan[1].cluster)]
  {
    var a, b, c := plan[0], plan[1], TheLink(plan[0].cluster, plan[1].cluster);
    assert plan == [a, b];
    FrontIsFound(created, volumes);
    LinksOfCaller(a, b, created[0], created[2]);
    Two(ForBundle(plan), a, b);
    assert [c] + [] == [c];
    RequiredOne(c);
  }

  lemma RequiredOne(c: Connection)
    ensures Filter(LinkRequired(), [c]) == if c.source != c.target then [c] else []
  {
    FilterOne(LinkRequired(), [c]);
  }

  lemma FlatMapOne<A, B>(f: A -> seq<B>, x: A)
    ensures FlatMap(f, [x]) == f(x)
  {
    assert [x][..0] == [];
    assert [] + f(x) == f(x);
  }

  lemma Two<A, B>(f: A -> seq<B>, x: A, y: A)
    ensures FlatMap(f, [x, y]) == f(x) + f(y)
  {
    FlatMapOne(f, x);
    assert [x, y][..1] == [x];
  }

  /** The environment places `a` and `b` on these clusters. */
  predicate PlacesPair(env: Env, name: string, a: string, b: string)
  {
    env.placement(ResourceName("a", name)) == Satisfied(a) && env.placement(ResourceName("b", name)) == Satisfied(b)
  }

  lemma PlanIsPair(request: Request, target: Target, env: Env, blueprint: Blueprint, plan: seq<BundleV>,
                   volumes: seq<Volume>)
    requires PlanFrom(request, target, env, blueprint, plan) && target.cluster == ""
    requires request.manifests == Calling(volumes) && volumes in {[], Missing()} && request.workloadAnnotations != []
    ensures Stands(blueprint.created, volumes) && |blueprint.created| == 3 && Pair(plan, blueprint.created, volumes)
  {
    PlanOpens(request, target, env, blueprint, plan);
    Parts(blueprint.created, volumes);
    BundlesOfPair(request, blueprint.created, volumes, blueprint.made, blueprint.views);
    PairRelocated(blueprint.views, plan, blueprint.created, volumes);
  }

  lemma PairRelocated(views: seq<BundleV>, plan: seq<BundleV>, created: seq<Resource>, volumes: seq<Volume>)
    requires |created| == 3 && Pair(views, created, volumes) && Relocated(views, plan)
    ensures Pair(plan, created, volumes)
  {
  }

  /** The plan for the request: two bundles on their clusters, and one connection if these differ. */
  lemma PlanOfPair(request: Request, target: Target, env: Env, blueprint: Blueprint, plan: seq<BundleV>,
                   volumes: seq<Volume>, a: string, b: string)
    requires PlanFrom(request, target, env, blueprint, plan) && target.cluster == ""
    requires request.manifests == Calling(volumes) && volumes in {[], Missing()} && request.workloadAnnotations != []
    requires PlacesPair(env, request.name, a, b)
    ensures |blueprint.created| == 3 && Pair(plan, blueprint.created, volumes)
    ensures ConnectionsAmong(plan) == if a == b then [] else [TheLink(a, b)]
  {
    PlanIsPair(request, target, env, blueprint, plan, volumes);
    PlacedWhere(request, target, env, blueprint, plan, 0);
    PlacedWhere(request, target, env, blueprint, plan, 1);
    ConnectionsOfPair(plan, blueprint.created, volumes);
  }

  lemma PlacedPair(plan: seq<BundleV>, created: seq<Resource>, volumes: seq<Volume>)
    requires |created| == 3 && Pair(plan, created, volumes)
    ensures Placed(plan) == 3 && (NothingAbsent(plan) <==> volumes == [])
  {
    assert plan == [plan[0], plan[1]];
    CountTwo(plan[0], plan[1]);
    Two(WarningsOf(), plan[0], plan[1]);
  }

  // ----- Runs for it

  /** The manifest asks for the pair, in a cluster set, with a filter for the caller. */
  predicate AsksForPair(s: Snap, name: string, volumes: seq<Volume>, clusterSet: string, rule: Rule)
  {
    LiveIn(s, name) && Proper(clusterSet, rule) && volumes in {[], Missing()}
    && s.objects[name].request == Sample(name, clusterSet, "a", rule, Calling(volumes))
  }

  lemma PairIsValid(volumes: seq<Volume>)
    requires volumes in {[], Missing()}
    ensures AllValid(Calling(volumes))
  {
  }

  lemma PairIsBundleable(request: Request, clusterSet: string, rule: Rule, created: seq<Resource>, volumes: seq<Volume>)
    requires request == Sample(request.name, clusterSet, "a", rule, Calling(volumes)) && Proper(clusterSet, rule)
    requires Stands(created, volumes)
    ensures Bundleable(request, Union([], created))
  {
    Parts(created, volumes);
    assert First(WorkloadNamed("a"), [created[0], created[1]]) == Some(created[0]);
    PairIsAnalysable(created, volumes);
    SampleIsBundleable(request, clusterSet, "a", rule, created);
  }

  lemma PairIsAnalysable(created: seq<Resource>, volumes: seq<Volume>)
    requires Stands(created, volumes)
    ensures WorkloadsAnalysable(created)
  {
    Parts(created, volumes);
    CallerIsAnalysable(created, volumes);
    CalleeIsAnalysable(created, volumes);
    TwoAnalysable(created, created[0], created[1], [created[2]]);
  }

  lemma CallerIsAnalysable(created: seq<Resource>, volumes: seq<Volume>)
    requires Stands(created, volumes)
    ensures !Unanalysable([created[2]])(created[0])
  {
    CallerConnections();
    WorkloadIsAnalysable(created[0], [created[2]]);
  }

  lemma CalleeIsAnalysable(created: seq<Resource>, volumes: seq<Volume>)
    requires Stands(created, volumes)
    ensures !Unanalysable([created[2]])(created[1])
  {
    assert AllContainers(created[1].Body().template) == [];
    WorkloadIsAnalysable(created[1], [created[2]]);
  }

  /** The operator pushes it, where no call fails. */
  lemma PairIsPushed(pre: Snap, name: string, env: Env, res: RunResult, run: Run, post: Snap, volumes: seq<Volume>,
                     clusterSet: string, rule: Rule)
    requires RunOk(pre, name, env, res, run, post) && AsksForPair(pre, name, volumes, clusterSet, rule) && Willing(env)
    ensures run.Pushed?
  {
    var request := pre.objects[name].request;
    PairIsValid(volumes);
    SampleIsAdmitted(request, clusterSet, "a", rule, env);
    if run.Stopped? {
      StoppedHasConverted(pre, name, env, res, run, post);
      PairIsBundleable(request, clusterSet, rule, run.blueprint.created, volumes);
    }
    SampleIsPushed(pre, name, env, res, run, post, clusterSet, "a", rule);
  }

  /** What a settled run for it comes to. */
  lemma SettledPair(pre: Snap, name: string, env: Env, res: RunResult, run: Run, post: Snap, volumes: seq<Volume>,
                    clusterSet: string, rule: Rule, a: string, b: string)
    requires RunOk(pre, name, env, res, run, post) && SettledRun(name, res, post)
    requires AsksForPair(pre, name, volumes, clusterSet, rule) && PlacesPair(env, name, a, b)
    ensures run.Pushed? && ConnectionsAmong(run.plan) == if a == b then [] else [TheLink(a, b)]
    ensures run.progress.recorded <==> volumes == [] && (a == b || env.installed)
  {
    var request := pre.objects[name].request;
    SettledStateIs(pre, name, env, res, run, post);
    TargetOfSample(clusterSet);
    PlanOfPair(request, run.target, env, run.blueprint, run.plan, volumes, a, b);
    PlacedPair(run.plan, run.blueprint.created, volumes);
  }

  // ----- The registry out of step

  /** With a config map missing, the run settles as successful and registers the link, but does not record it. */
  lemma MissingMapLosesRecord(pre: Snap, name: string, env: Env, res: RunResult, run: Run, post: Snap,
                              clusterSet: string, rule: Rule, a: string, b: string, home: NetKey -> Option<string>)
    requires RunOk(pre, name, env, res, run, post) && SettledRun(name, res, post) && env.installed
    requires AsksForPair(pre, name, Missing(), clusterSet, rule) && PlacesPair(env, name, a, b) && a != b
    requires Grounded(pre, home) && PlanAtHome(name, run, home) && OwnerInStep(pre, home, name) && name !in pre.record
    ensures run.Pushed? && !run.progress.recorded && !OwnerInStep(post, home, name)
    ensures HasTheLink(LinksOf(post.network), a, b)
  {
    LinkIsRegistered(pre, name, env, res, run, post, Missing(), clusterSet, rule, a, b);
    SettledPair(pre, name, env, res, run, post, Missing(), clusterSet, rule, a, b);
    WarnedRunKeepsStepIff(pre, name, env, res, run, post, home);
    NoConnectionsOfNoBundles();
    InsertedKeys(map[], [TheLink(a, b)]);
    assert KeyOfConnection([TheLink(a, b)][0]) in KeysOf([TheLink(a, b)]);
  }

  /** The registry has a link from the location of the service to that of the caller. */
  ghost predicate HasTheLink(links: seq<LinkV>, a: string, b: string)
  {
    LinkedByName(links, Location(b, "default"), Location(a, "default"), "s")
  }

  lemma TheLinkIsLinked(links: seq<LinkV>, a: string, b: string)
    requires WellFormed(links)
    ensures HasTheLink(links, a, b) <==> KeyOfConnection(TheLink(a, b)) in Meaning(links)
  {
    LinkedByNameMeans(links, Location(b, "default"), Location(a, "default"), "s");
  }

  /** After a settled run with the network API, the link is in the registry. */
  lemma LinkIsRegistered(pre: Snap, name: string, env: Env, res: RunResult, run: Run, post: Snap, volumes: seq<Volume>,
                         clusterSet: string, rule: Rule, a: string, b: string)
    requires RunOk(pre, name, env, res, run, post) && SettledRun(name, res, post) && env.installed
    requires AsksForPair(pre, name, volumes, clusterSet, rule) && PlacesPair(env, name, a, b) && a != b
    requires WellFormed(LinksOf(pre.network))
    ensures WellFormed(LinksOf(post.network)) && HasTheLink(LinksOf(post.network), a, b)
    ensures run.Pushed? && ConnectionsAmong(run.plan) == [TheLink(a, b)]
  {
    SettledPair(pre, name, env, res, run, post, volumes, clusterSet, rule, a, b);
    RegistersPlan(pre, name, env, res, run, post);
    SwapMeans(LinksOf(pre.network), Deletions(run), [TheLink(a, b)]);
    assert Runs([TheLink(a, b)][0], Location(b, "default"), Location(a, "default"), "s");
    SettledLinks(pre, name, env, res, run, post, Location(b, "default"), Location(a, "default"), "s");
  }

  /** When both workloads then come to one cluster and the network API is gone, the run is recorded, and the link
      stays. */
  lemma RecordedWithoutNetworkLeavesLink(s0: Snap, s1: Snap, s2: Snap, name: string, env1: Env, res1: RunResult,
                                         run1: Run, env2: Env, res2: RunResult, run2: Run, clusterSet: string,
                                         rule: Rule, a: string, b: string, home: NetKey -> Option<string>)
    requires RunOk(s0, name, env1, res1, run1, s1) && SettledRun(name, res1, s1) && env1.installed
    requires RunOk(s1, name, env2, res2, run2, s2) && SettledRun(name, res2, s2) && !env2.installed
    requires AsksForPair(s0, name, [], clusterSet, rule) && LiveIn(s1, name)
    requires s1.objects[name].request == s0.objects[name].request
    requires PlacesPair(env1, name, a, b) && a != b && PlacesPair(env2, name, a, a)
    requires WellFormed(LinksOf(s0.network)) && PlanAtHome(name, run1, home)
    ensures run2.Pushed? && run2.progress.recorded && !OwnerInStep(s2, home, name)
    ensures HasTheLink(LinksOf(s2.network), a, b)
  {
    var k := KeyOfConnection(TheLink(a, b));
    LinkIsRegistered(s0, name, env1, res1, run1, s1, [], clusterSet, rule, a, b);
    SettledPair(s1, name, env2, res2, run2, s2, [], clusterSet, rule, a, a);
    RecordingWithoutNetworkIff(s1, name, env2, res2, run2, s2, home);
    assert KeyOfConnection([TheLink(a, b)][0]) in KeysOf([TheLink(a, b)]);
    TheLinkIsLinked(LinksOf(s1.network), a, b);
    assert k in Share(LinksOf(s1.network), home, Some(name));
  }

  /** The link outlives the manifest: after a settled run the operator restarts, the manifest is deleted, and its
      finalisation completes, and the link is still there. */
  lemma LinkOutlivesRestart(states: seq<Snap>, events: seq<Event>, name: string, clusterSet: string, rule: Rule,
                            a: string, b: string)
    requires Trace(states, events) && |events| == 4
    requires RunsOnly(events[0], name) && events[1].Restarted? && events[2].Edited? && RunsOnly(events[3], name)
    requires AsksForPair(states[0], name, [], clusterSet, rule) && WellFormed(LinksOf(states[0].network))
    requires events[0].env.installed && PlacesPair(events[0].env, name, a, b) && a != b
    requires SettledRun(name, events[0].res, states[1])
    requires events[3].run.Finalised? && events[3].res.Done?
    ensures name !in states[4].objects && name !in states[4].record
    ensures HasTheLink(LinksOf(states[4].network), a, b)
  {
    FirstEvent(states[0], events[0], states[1], name, clusterSet, rule, a, b);
    RestartAndEdit(states[1], events[1], states[2], events[2], states[3]);
    LastEvent(states[3], events[3], states[4], name);
  }

  lemma FirstEvent(pre: Snap, e: Event, post: Snap, name: string, clusterSet: string, rule: Rule, a: string, b: string)
    requires Step(pre, e, post) && RunsOnly(e, name) && SettledRun(name, e.res, post) && e.env.installed
    requires AsksForPair(pre, name, [], clusterSet, rule) && PlacesPair(e.env, name, a, b) && a != b
    requires WellFormed(LinksOf(pre.network))
    ensures HasTheLink(LinksOf(post.network), a, b)
  {
    assert Looked(e);
    LinkIsRegistered(pre, name, e.env, e.res, e.run, post, [], clusterSet, rule, a, b);
  }

  lemma RestartAndEdit(s1: Snap, restart: Event, s2: Snap, edit: Event, s3: Snap)
    requires Step(s1, restart, s2) && restart.Restarted? && Step(s2, edit, s3) && edit.Edited?
    ensures s3.network == s1.network && s3.record == map[]
  {
    assert Looked(restart) && Looked(edit);
  }

  lemma LastEvent(pre: Snap, e: Event, post: Snap, name: string)
    requires Step(pre, e, post) && RunsOnly(e, name) && e.run.Finalised? && e.res.Done? && pre.record == map[]
    ensures LinksOf(post.network) == LinksOf(pre.network) && name !in post.objects && name !in post.record
  {
    assert Looked(e);
    FinalisingWithoutRecordLeaksLinks(pre, name, e.env, e.res, e.run, post);
  }
}
