/**
 Two requests on which names get in the way: a deployment and a daemon set of one name, of which one is lost; and a
 manifest with a workload of its own name, which cannot settle once it is given the cluster where that workload is.
 */
module Namesakes {
  import opened Collections
  import opened Text
  import opened Resources
  import opened Annotations
  import opened Analysis
  import opened Closure
  import opened Bundles
  import opened Bundling
  import opened Connections
  import opened HubState
  import opened Works
  import opened Planning
  import opened Reconciler
  import opened RunTheory
  import opened Traces
  import opened Samples

  // ----- Twins

  function Twins(): seq<Manifest>
  {
    [DeploymentOf("a", EmptyTemplate()), InDefault("a", Apps, DaemonSet, BodyWith(EmptyTemplate(), map[]))]
  }

  predicate StandTwins(created: seq<Resource>) { ConvertedFrom(created, Twins()) }

  lemma EachTwin(created: seq<Resource>)
    requires StandTwins(created)
    ensures |created| == 2 && created[0].Name() == created[1].Name() == "a"
    ensures created[0].Kind() == Deployment && created[1].Kind() == DaemonSet
    ensures created[0].IsWorkload() && created[1].IsWorkload()
  {
  }

  lemma PartsOfTwins(created: seq<Resource>)
    requires StandTwins(created)
    ensures |created| == 2 && DistinctKeys(created) && Union([], created) == created
    ensures Filter(Workloads(), created) == created && Filter(Ancillaries(), created) == []
    ensures created[0].Name() == created[1].Name() == "a"
  {
    EachTwin(created);
    assert created[0].Key() != created[1].Key();
    WorkloadsOnly(created);
  }

  lemma TwinsAreBundleable(request: Request, clusterSet: string, rule: Rule, created: seq<Resource>)
    requires request == Sample(request.name, clusterSet, "a", rule, Twins()) && Proper(clusterSet, rule)
    requires StandTwins(created)
    ensures AllValid(request.manifests) && Bundleable(request, Union([], created))
  {
    PartsOfTwins(created);
    forall i | 0 <= i < 2 ensures !Unanalysable([])(created[i]) {
      assert AllContainers(created[i].Body().template) == [];
      WorkloadIsAnalysable(created[i], []);
    }
    NoneOf(Unanalysable([]), created);
    assert First(WorkloadNamed("a"), created) == Some(created[0]);
    SampleIsBundleable(request, clusterSet, "a", rule, created);
  }

  lemma OneTwinIsInNoBundle(request: Request, created: seq<Resource>, made: seq<BundleV>, views: seq<BundleV>)
    returns (lost: Resource)
    requires StandTwins(created) && request.workloadAnnotations != [] && Bundled(request, created, made, views)
    ensures lost in created && lost.IsWorkload() && InNoBundle(lost, views)
  {
    PartsOfTwins(created);
    WorkloadsAreKeptIff(request, created, made, views);
    assert !DistinctWorkloadNames(created);
    var j :| 0 <= j < |created| && !HeadsSome(created[j], views);
    lost := created[j];
    MemberOf(Workloads(), created, lost);
    UnheadedIsInNoBundle(request, created, made, views, lost);
  }

  lemma RelocatedElsewhere(r: Resource, views: seq<BundleV>, plan: seq<BundleV>)
    requires InNoBundle(r, views) && Relocated(views, plan)
    ensures InNoBundle(r, plan)
  {
    forall b | 0 <= b < |plan| ensures r !in plan[b].resources {
      assert plan[b].resources == views[b].resources;
    }
  }

  /** The operator pushes the request of the twins, and one of the two workloads is in no bundle that it pushes. */
  lemma TwinIsLost(pre: Snap, name: string, env: Env, res: RunResult, run: Run, post: Snap, clusterSet: string,
                   rule: Rule) returns (lost: Resource)
    requires RunOk(pre, name, env, res, run, post) && LiveIn(pre, name) && Willing(env) && Proper(clusterSet, rule)
    requires pre.objects[name].request == Sample(name, clusterSet, "a", rule, Twins())
    ensures run.Pushed?
    ensures lost in run.blueprint.resources && lost.IsWorkload() && InNoBundle(lost, run.plan)
  {
    var request := pre.objects[name].request;
    SampleIsAdmitted(request, clusterSet, "a", rule, env);
    TwinsAreValid();
    if run.Stopped? {
      StoppedHasConverted(pre, name, env, res, run, post);
      TwinsAreBundleable(request, clusterSet, rule, run.blueprint.created);
    }
    SampleIsPushed(pre, name, env, res, run, post, clusterSet, "a", rule);
    PlanOpens(request, run.target, env, run.blueprint, run.plan);
    PartsOfTwins(run.blueprint.created);
    lost := OneTwinIsInNoBundle(request, run.blueprint.created, run.blueprint.made, run.blueprint.views);
    RelocatedElsewhere(lost, run.blueprint.views, run.plan);
  }

  lemma TwinsAreValid()
    ensures AllValid(Twins())
  {
  }

  // ----- A workload with the name of the manifest

  function Alone(): seq<Manifest> { [DeploymentOf("a", EmptyTemplate())] }

  predicate StandsAlone(created: seq<Resource>) { ConvertedFrom(created, Alone()) }

  lemma OneAlone(created: seq<Resource>)
    requires StandsAlone(created)
    ensures |created| == 1 && created[0].IsWorkload() && created[0].Name() == "a"
  {
  }

  lemma PartsOfAlone(created: seq<Resource>)
    requires StandsAlone(created)
    ensures |created| == 1 && DistinctKeys(created) && Union([], created) == created
    ensures Filter(Workloads(), created) == created && Filter(Ancillaries(), created) == []
  {
    OneAlone(created);
    assert DistinctKeys(created);
    WorkloadsOnly(created);
  }

  lemma FindingsAlone(created: seq<Resource>, f: Findings)
    requires StandsAlone(created) && Accounts(created[0], [], f)
    ensures f.resources == [] && f.absent == [] && f.connections == []
  {
    var w, t := created[0], created[0].Body().template;
    assert t.containers + t.initContainers == [];
    forall r: Resource | true ensures r !in f.resources {
      AnalysisIsExact(w, [], f, r);
    }
    AnalysisIsExact(w, [], f, w);
    NoMember(f.resources);
    if f.absent != [] {
      ReferencesAreAccountedFor(w, [], f, f.absent[0]);
    }
    assert Opened(f);
    assert AllContainers(t) == [];
  }

  lemma BundleAlone(request: Request, created: seq<Resource>, made: seq<BundleV>, views: seq<BundleV>)
    requires StandsAlone(created) && request.workloadAnnotations != [] && Bundled(request, created, made, views)
    ensures |views| == 1 && views[0].name == "a" && |views[0].resources| == 1
    ensures views[0].absent == [] && views[0].external == []
  {
    PartsOfAlone(created);
    OneAlone(created);
    DistinctNamesKeepWorkloads(request, created, made, views);
    BundleOpens(made[0], created[0], request, PlacementRules(request.globalAnnotations).value, created);
    FindingsAlone(created, Findings(made[0].resources[1..], made[0].absent, made[0].external));
  }

  /** The plan for it: one bundle, with nothing absent and no connection. */
  lemma PlanAlone(request: Request, target: Target, env: Env, blueprint: Blueprint, plan: seq<BundleV>)
    requires PlanFrom(request, target, env, blueprint, plan) && target.cluster == ""
    requires request.manifests == Alone() && request.workloadAnnotations != []
    ensures |plan| == 1 && plan[0].name == "a" && Placed(plan) == 1 && NothingAbsent(plan)
    ensures ConnectionsAmong(plan) == []
  {
    PlanOpens(request, target, env, blueprint, plan);
    PartsOfAlone(blueprint.created);
    BundleAlone(request, blueprint.created, blueprint.made, blueprint.views);
    AloneRelocated(blueprint.views, plan);
  }

  lemma AloneRelocated(views: seq<BundleV>, plan: seq<BundleV>)
    requires |views| == 1 && |views[0].resources| == 1 && views[0].absent == [] && views[0].external == []
    requires Relocated(views, plan)
    ensures |plan| == 1 && plan[0].name == views[0].name && Placed(plan) == 1 && NothingAbsent(plan)
    ensures ConnectionsAmong(plan) == []
  {
    assert plan[0].absent == [] && plan[0].external == [] && |plan[0].resources| == 1;
    CountOne(plan[0]);
    assert plan == [plan[0]];
  }

  lemma CountOne(b: BundleV)
    requires b.absent == [] && b.external == []
    ensures Placed([b]) == |b.resources| && NothingAbsent([b]) && ConnectionsAmong([b]) == []
  {
    assert [b][..0] == [] && Placed([]) == 0;
    assert ForBundle([b])(b) == [];
    assert FlatMap(ForBundle([b]), [b]) == [];
  }

  /** A settled run for it is recorded. */
  lemma SettledAlone(pre: Snap, env: Env, res: RunResult, run: Run, post: Snap, clusterSet: string, rule: Rule)
    requires RunOk(pre, "a", env, res, run, post) && SettledRun("a", res, post) && LiveIn(pre, "a")
    requires pre.objects["a"].request == Sample("a", clusterSet, "a", rule, Alone()) && Proper(clusterSet, rule)
    requires pre.works == map[]
    ensures run.Pushed? && run.progress.recorded && "a" in post.record && post.record["a"] == run.plan
    ensures TargetIn(pre.objects["a"].request.globalAnnotations).cluster == ""
    ensures |run.plan| == 1 && run.plan[0].name == "a" && WorksAreExactly(post.works, run.plan, Truncate("a"))
    ensures forall k :: k in post.works ==> post.works[k].owner == Truncate("a")
  {
    SettledStateIs(pre, "a", env, res, run, post);
    TargetOfSample(clusterSet);
    PlanAlone(pre.objects["a"].request, run.target, env, run.blueprint, run.plan);
    SettledRunIsExact(pre, "a", env, res, run, post);
    forall k | k in post.works ensures post.works[k].owner == Truncate("a") {
      RunTouches(pre, "a", env, res, run, post, k);
    }
  }

  /** The manifest `a` settles on the cluster of its workload `a`. When that cluster is then set as its target, no run
      settles any more: the works of the two bundles have different names, and the old one is passed over. */
  lemma TargetOnItsClusterDoesNotSettle(s0: Snap, e1: Event, s1: Snap, e2: Event, s2: Snap, e3: Event, s3: Snap,
                                        clusterSet: string, rule: Rule, cluster: string)
    requires Step(s0, e1, s1) && Step(s1, e2, s2) && Step(s2, e3, s3)
    requires RunsOnly(e1, "a") && e2.Edited? && RunsOnly(e3, "a")
    requires LiveIn(s0, "a") && s0.objects["a"].request == Sample("a", clusterSet, "a", rule, Alone())
    requires Proper(clusterSet, rule) && s0.works == map[] && SettledRun("a", e1.res, s1)
    requires e1.env.placement(ResourceName("a", "a")) == Satisfied(cluster)
    requires LiveIn(s2, "a") && TargetIn(s2.objects["a"].request.globalAnnotations).cluster == cluster
    requires cluster != "" && cluster != "a" && |cluster| + 2 <= MAX_NAME_LENGTH && WellKept(s0.objects)
    ensures !SettledRun("a", e3.res, s3)
  {
    ObjectsStayKept(s0, e1, s1);
    ObjectsStayKept(s1, e2, s2);
    FirstRun(s0, e1, s1, clusterSet, rule);
    Edit(s1, e2, s2);
    SecondRun(s0.objects["a"].request, e1.env, e1.run.blueprint, e1.run.plan, s2, e3, s3, cluster);
  }

  lemma FirstRun(pre: Snap, e: Event, post: Snap, clusterSet: string, rule: Rule)
    requires Step(pre, e, post) && RunsOnly(e, "a") && SettledRun("a", e.res, post) && LiveIn(pre, "a")
    requires pre.objects["a"].request == Sample("a", clusterSet, "a", rule, Alone()) && Proper(clusterSet, rule)
    requires pre.works == map[]
    ensures e.run.Pushed? && "a" in post.record && post.record["a"] == e.run.plan
    ensures var request := pre.objects["a"].request;
            TargetIn(request.globalAnnotations).cluster == ""
            && PlanFrom(request, TargetIn(request.globalAnnotations), e.env, e.run.blueprint, e.run.plan)
    ensures |e.run.plan| == 1 && e.run.plan[0].name == "a"
    ensures e.env.placement(ResourceName("a", "a")) == Satisfied(e.run.plan[0].cluster)
    ensures WorksAreExactly(post.works, e.run.plan, Truncate("a"))
    ensures forall k :: k in post.works ==> post.works[k].owner == Truncate("a")
  {
    assert Looked(e);
    SettledAlone(pre, e.env, e.res, e.run, post, clusterSet, rule);
    assert e.run.target == TargetIn(pre.objects["a"].request.globalAnnotations);
    PlacedWhere(pre.objects["a"].request, e.run.target, e.env, e.run.blueprint, e.run.plan, 0);
  }

  lemma Edit(pre: Snap, e: Event, post: Snap)
    requires Step(pre, e, post) && e.Edited?
    ensures post.works == pre.works && post.record == pre.record
  {
    assert Looked(e);
  }

  lemma OwnedByOne(works: map<WorkKey, Work>, plan: seq<BundleV>, owner: string)
    requires forall k :: k in works ==> works[k].owner == owner
    ensures Unshared(works, plan, owner)
  {
  }

  lemma SecondRun(request: Request, env0: Env, blueprint: Blueprint, plan: seq<BundleV>, pre: Snap, e: Event,
                  post: Snap, cluster: string)
    requires Step(pre, e, post) && RunsOnly(e, "a") && LiveIn(pre, "a") && WellKept(pre.objects)
    requires request.name == "a" && TargetIn(request.globalAnnotations).cluster == ""
    requires PlanFrom(request, TargetIn(request.globalAnnotations), env0, blueprint, plan)
    requires "a" in pre.record && pre.record["a"] == plan && |plan| == 1
    requires plan[0].name == "a" && plan[0].cluster == cluster && WorksAreExactly(pre.works, plan, Truncate("a"))
    requires forall k :: k in pre.works ==> pre.works[k].owner == Truncate("a")
    requires TargetIn(pre.objects["a"].request.globalAnnotations).cluster == cluster
    requires cluster != "" && cluster != "a" && |cluster| + 2 <= MAX_NAME_LENGTH
    ensures !SettledRun("a", e.res, post)
  {
    SecondEvent(pre, e, post);
    if SettledRun("a", e.res, post) {
      OwnedByOne(pre.works, e.run.plan, Truncate("a"));
      assert DistinctWorkKeys(plan);
      RenamedWorkBlocksSettling(pre, "a", e.env, e.res, e.run, post, request, env0, blueprint, 0);
    }
  }

  lemma SecondEvent(pre: Snap, e: Event, post: Snap)
    requires Step(pre, e, post) && RunsOnly(e, "a")
    ensures RunOk(pre, "a", e.env, e.res, e.run, post)
    ensures SettledRun("a", e.res, post) ==>
              e.run.Pushed? && "a" in pre.objects
              && e.run.target == TargetIn(pre.objects["a"].request.globalAnnotations)
  {
    assert Looked(e);
    if SettledRun("a", e.res, post) {
      SettledStateIs(pre, "a", e.env, e.res, e.run, post);
    }
  }
}
