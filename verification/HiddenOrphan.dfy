/**
 A request on which the orphan warning fails: two deployments mount one config map, and a second config map belongs to
 nobody. Each bundle counts the shared map, so that the orphan goes unnoticed.
 */
module HiddenOrphan {
  import opened Collections
  import opened Text
  import opened Resources
  import opened Annotations
  import opened Analysis
  import opened Closure
  import opened Bundles
  import opened Bundling
  import opened HubState
  import opened Planning
  import opened Reconciler
  import opened RunTheory
  import opened Samples

  /** A deployment in the default namespace that mounts the config map `c`. */
  function Mounting(name: string): Manifest
  {
    DeploymentOf(name, PodTemplate(map[], [], [Volume(None, Some("c"), None)], "", [], []))
  }

  function Manifests(): seq<Manifest> { [Mounting("a"), Mounting("b"), ConfigMapNamed("c"), ConfigMapNamed("d")] }

  /** The resources of such a request: the deployments `a` and `b`, the shared map `c`, and `d`. */
  predicate Stands(created: seq<Resource>) { ConvertedFrom(created, Manifests()) }

  lemma Parts(created: seq<Resource>)
    requires Stands(created)
    ensures DistinctKeys(created) && Union([], created) == created
    ensures Filter(Workloads(), created) == [created[0], created[1]]
    ensures Filter(Ancillaries(), created) == [created[2], created[3]]
  {
    assert created == [created[0], created[1]] + [created[2], created[3]];
    DistinctNamesOf(created);
    UnionOfDistinct(created);
    Partition([created[0], created[1]], [created[2], created[3]]);
  }

  lemma DistinctNamesOf(created: seq<Resource>)
    requires Stands(created)
    ensures DistinctKeys(created)
  {
    assert "a" != "b" && "c" != "d" && "a" != "c" && "a" != "d" && "b" != "c" && "b" != "d";
    assert created[0].Name() == "a" && created[1].Name() == "b" && created[2].Name() == "c" && created[3].Name() == "d";
  }

  /** Both deployments need the map `c` and nothing else. */
  lemma NeedsOnlyTheShared(created: seq<Resource>, w: Resource, r: Resource)
    requires Stands(created) && w in [created[0], created[1]]
    ensures Needed(w, [created[2], created[3]], r) <==> r == created[2]
  {
    var anc, t, c := [created[2], created[3]], w.Body().template, created[2];
    assert Resolve(anc, Ref("c", ConfigMap)) == Some(c);
    assert t.volumes == [Volume(None, Some("c"), None)];
    forall ref: Ref | true ensures Closure.Names(t, ref) <==> ref == Ref("c", ConfigMap) {
      assert Volume(None, Some("c"), None) in t.volumes;
    }
    assert !Served(t.labels, anc, r);
  }

  lemma BundleOfDeployment(created: seq<Resource>, w: Resource, v: BundleV, request: Request, common: seq<Rule>)
    requires Stands(created) && w in [created[0], created[1]] && BundleOf(v, w, request, common, created)
    ensures v.resources == [w, created[2]]
  {
    Parts(created);
    BundleOpens(v, w, request, common, created);
    FindingsOfDeployment(created, w, Findings(v.resources[1..], v.absent, v.external));
  }

  lemma FindingsOfDeployment(created: seq<Resource>, w: Resource, f: Findings)
    requires Stands(created) && w in [created[0], created[1]] && Accounts(w, [created[2], created[3]], f)
    ensures f.resources == [created[2]]
  {
    var anc, c := [created[2], created[3]], created[2];
    forall r: Resource | true ensures r in f.resources <==> r == c {
      AnalysisIsExact(w, anc, f, r);
      NeedsOnlyTheShared(created, w, r);
    }
    AnalysisIsExact(w, anc, f, c);
    OnlyMember(f.resources, c);
  }

  lemma BundlesOfDeployments(request: Request, created: seq<Resource>, made: seq<BundleV>, views: seq<BundleV>)
    requires request.workloadAnnotations != [] && Stands(created) && Bundled(request, created, made, views)
    ensures |views| == 2
    ensures views[0].resources == [created[0], created[2]] && views[1].resources == [created[1], created[2]]
  {
    var common := PlacementRules(request.globalAnnotations).value;
    Parts(created);
    DistinctNamesKeepWorkloads(request, created, made, views);
    BundleOfDeployment(created, created[0], made[0], request, common);
    BundleOfDeployment(created, created[1], made[1], request, common);
  }

  /** The warning is not complete. However the request is bundled, the count of placed manifests reaches that of the
      manifests, and the map `d` is in no bundle. */
  lemma SharedResourceHidesOrphan(request: Request, created: seq<Resource>, made: seq<BundleV>, views: seq<BundleV>)
    requires request.manifests == Manifests() && request.workloadAnnotations != [] && Stands(created)
    requires Bundled(request, Union([], created), made, views)
    ensures |request.manifests| <= Placed(views)
    ensures Orphans(Union([], created), views) == {created[3]}
  {
    Parts(created);
    BundlesOfDeployments(request, created, made, views);
    OnlyTheLastIsOrphaned(created, views[0], views[1]);
    assert views == [views[0], views[1]];
  }

  lemma OnlyTheLastIsOrphaned(created: seq<Resource>, a: BundleV, b: BundleV)
    requires |created| == 4 && DistinctKeys(created)
    requires a.resources == [created[0], created[2]] && b.resources == [created[1], created[2]]
    ensures Orphans(created, [a, b]) == {created[3]} && Placed([a, b]) == 4
  {
    CountTwo(a, b);
    forall i | 0 <= i < 4 ensures InNoBundle(created[i], [a, b]) <==> i == 3 {
      assert forall j :: 0 <= j < 3 ==> created[j].Key() != created[3].Key();
      assert created[0] in [a, b][0].resources && created[2] in [a, b][0].resources;
      assert created[1] in [a, b][1].resources;
    }
  }

  lemma DeploymentsAnalysable(created: seq<Resource>)
    requires Stands(created)
    ensures WorkloadsAnalysable(created)
  {
    Parts(created);
    DeploymentIsAnalysable(created, created[0]);
    DeploymentIsAnalysable(created, created[1]);
    TwoAnalysable(created, created[0], created[1], [created[2], created[3]]);
  }

  lemma DeploymentIsAnalysable(created: seq<Resource>, w: Resource)
    requires Stands(created) && w in [created[0], created[1]]
    ensures !Unanalysable([created[2], created[3]])(w)
  {
    assert AllContainers(w.Body().template) == [];
    WorkloadIsAnalysable(w, [created[2], created[3]]);
  }

  lemma ManifestsAreValid()
    ensures AllValid(Manifests())
  {
  }

  lemma HidingIsBundled(request: Request, clusterSet: string, rule: Rule, created: seq<Resource>)
    requires request == Sample(request.name, clusterSet, "a", rule, Manifests()) && Proper(clusterSet, rule)
    requires Stands(created)
    ensures AllValid(request.manifests) && Bundleable(request, Union([], created))
  {
    Parts(created);
    ManifestsAreValid();
    DeploymentsAnalysable(created);
    assert First(WorkloadNamed("a"), [created[0], created[1]]) == Some(created[0]);
    SampleIsBundleable(request, clusterSet, "a", rule, created);
  }

  /** And the operator does push that request: where no call fails and the placements are satisfied, a run for it gets
      as far as writing works, for bundles on which the warning fails. */
  lemma HidingIsPushed(pre: Snap, name: string, env: Env, res: RunResult, run: Run, post: Snap, clusterSet: string,
                       rule: Rule)
    requires RunOk(pre, name, env, res, run, post) && LiveIn(pre, name) && Willing(env) && Proper(clusterSet, rule)
    requires var request := pre.objects[name].request;
             request == Sample(request.name, clusterSet, "a", rule, Manifests())
    ensures run.Pushed?
    ensures |pre.objects[name].request.manifests| <= Placed(run.plan)
    ensures |Orphans(run.blueprint.resources, run.plan)| == 1
  {
    var request := pre.objects[name].request;
    ManifestsAreValid();
    SampleIsAdmitted(request, clusterSet, "a", rule, env);
    if run.Stopped? {
      StoppedHasConverted(pre, name, env, res, run, post);
      HidingIsBundled(request, clusterSet, rule, run.blueprint.created);
    }
    SampleIsPushed(pre, name, env, res, run, post, clusterSet, "a", rule);
    PlanHidesOrphan(request, TargetIn(request.globalAnnotations), env, run.blueprint, run.plan);
  }

  lemma PlanHidesOrphan(request: Request, target: Target, env: Env, blueprint: Blueprint, plan: seq<BundleV>)
    requires PlanFrom(request, target, env, blueprint, plan) && target.cluster == ""
    requires request.manifests == Manifests() && request.workloadAnnotations != []
    ensures |request.manifests| <= Placed(plan) && |Orphans(blueprint.resources, plan)| == 1
  {
    PlanOpens(request, target, env, blueprint, plan);
    Parts(blueprint.created);
    BundlesOfDeployments(request, blueprint.created, blueprint.made, blueprint.views);
    HiddenOnceRelocated(blueprint.created, blueprint.views, plan);
  }

  lemma HiddenOnceRelocated(created: seq<Resource>, views: seq<BundleV>, plan: seq<BundleV>)
    requires |created| == 4 && DistinctKeys(created) && |views| == 2 && Relocated(views, plan)
    requires views[0].resources == [created[0], created[2]] && views[1].resources == [created[1], created[2]]
    ensures Orphans(created, plan) == {created[3]} && Placed(plan) == 4
  {
    OnlyTheLastIsOrphaned(created, plan[0], plan[1]);
    assert plan == [plan[0], plan[1]];
  }
}
