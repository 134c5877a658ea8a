/**
 The requests of which the examples are made: a cluster set, one filter annotation for one workload, and a few small
 manifests in the default namespace. Nothing about their annotations stops a run.
 */
module Samples {
  import opened Collections
  import opened Text
  import opened Resources
  import opened Annotations
  import opened Analysis
  import opened Bundles
  import opened Bundling
  import opened HubState
  import opened Planning
  import opened Reconciler
  import opened RunTheory

  // ----- Manifests

  function BodyWith(template: PodTemplate, selector: map<string, string>): Body
  {
    Body(template, "", selector, [], Ref("", OtherKind("")), [], Ref("", OtherKind("")), map[], [],
         ScaleTarget(OtherKind(""), "", OtherGroup(""), ""))
  }

  function EmptyTemplate(): PodTemplate { PodTemplate(map[], [], [], "", [], []) }

  function InDefault(name: string, group: ApiGroup, kind: Kind, body: Body): Manifest
  {
    Manifest(Metadata(name, "default", GroupVersionKind(group, "v1", kind)), body)
  }

  function DeploymentOf(name: string, template: PodTemplate): Manifest
  {
    InDefault(name, Apps, Deployment, BodyWith(template, map[]))
  }

  function ConfigMapNamed(name: string): Manifest { InDefault(name, Core, ConfigMap, BodyWith(EmptyTemplate(), map[])) }

  // ----- Requests

  function Sample(name: string, clusterSet: string, workload: string, rule: Rule, manifests: seq<Manifest>): Request
  {
    Request(name, [TARGET_CLUSTER_SET + "=" + clusterSet],
            [WorkloadAnnotation(workload, [rule.key + "=" + rule.value])], manifests)
  }

  predicate Proper(clusterSet: string, rule: Rule)
  {
    clusterSet != "" && '=' !in clusterSet
    && FILTER_PREFIX <= rule.key && '=' !in rule.key && '=' !in rule.value
  }

  lemma TargetIsNoRule(clusterSet: string)
    requires '=' !in clusterSet
    ensures PlacementRules([TARGET_CLUSTER_SET + "=" + clusterSet]) == Some([])
    ensures IsAnnotationSupported(TARGET_CLUSTER_SET + "=" + clusterSet)
  {
    var a := TARGET_CLUSTER_SET + "=" + clusterSet;
    SplitAtFirst(TARGET_CLUSTER_SET, '=', clusterSet);
    assert Split(a, '=')[0] == TARGET_CLUSTER_SET;
    assert FILTER_PREFIX <= TARGET_CLUSTER_SET ==> TARGET_CLUSTER_SET[7] == FILTER_PREFIX[7];
    assert RuleOf()(a) == Some([]);
    assert [a][..0] == [] && PlacementRules([]) == Some([]);
    var none: seq<Rule> := [];
    assert none + [] == [];
  }

  /** The target is the cluster set, and no cluster. */
  lemma TargetOfSample(clusterSet: string)
    requires '=' !in clusterSet
    ensures TargetIn([TARGET_CLUSTER_SET + "=" + clusterSet]) == Target(clusterSet, "")
    ensures !SomeTargetLacksValue([TARGET_CLUSTER_SET + "=" + clusterSet])
  {
    var a := TARGET_CLUSTER_SET + "=" + clusterSet;
    SplitAtFirst(TARGET_CLUSTER_SET, '=', clusterSet);
    SplitWithout(clusterSet, '=');
    KeysDiffer();
    assert Split(a, '=') == [TARGET_CLUSTER_SET] + [clusterSet];
    var annotations: seq<string> := [a];
    assert annotations[..0] == [] && LastValue(TARGET_CLUSTER, []) == "";
    assert a[|TARGET_CLUSTER_SET|] == '=';
  }

  lemma FilterAnnotation(rule: Rule, annotations: seq<string>)
    requires FILTER_PREFIX <= rule.key && '=' !in rule.key && '=' !in rule.value
    requires annotations == [rule.key + "=" + rule.value]
    ensures PlacementRules(annotations) == Some([rule]) && IsAnnotationSupported(annotations[0])
  {
    RuleRoundTrip(rule, "");
    SplitAtFirst(rule.key, '=', rule.value);
    assert annotations[..0] == [] && PlacementRules([]) == Some([]);
    assert [] + [rule] == [rule];
  }

  lemma SingleAnnotations(global: seq<string>, workloads: seq<WorkloadAnnotation>)
    requires |global| == |workloads| == 1 && |workloads[0].annotations| == 1
    requires IsAnnotationSupported(global[0]) && IsAnnotationSupported(workloads[0].annotations[0])
    ensures AnnotationsSupported(global, workloads)
  {
  }

  lemma {:induction false} FilterIsAssigned(workloads: seq<Resource>, rule: Rule, entries: seq<WorkloadAnnotation>)
    requires |entries| == 1 && First(WorkloadNamed(entries[0].name), workloads).Some?
    requires |entries[0].annotations| == 1 && PlacementRules(entries[0].annotations) == Some([rule])
    ensures Outcome(workloads, entries).Ok?
  {
    assert entries[..0] == [];
  }

  /** The request can be bundled if its annotation names a workload and all workloads can be analysed. */
  lemma SampleIsBundleable(request: Request, clusterSet: string, workload: string, rule: Rule, resources: seq<Resource>)
    requires request == Sample(request.name, clusterSet, workload, rule, request.manifests) && Proper(clusterSet, rule)
    requires First(WorkloadNamed(workload), Filter(Workloads(), resources)).Some? && WorkloadsAnalysable(resources)
    ensures Bundleable(request, resources)
  {
    TargetIsNoRule(clusterSet);
    FilterAnnotation(rule, request.workloadAnnotations[0].annotations);
    FilterIsAssigned(Filter(Workloads(), resources), rule, request.workloadAnnotations);
  }

  lemma WorkloadIsAnalysable(w: Resource, anc: seq<Resource>)
    requires w.Namespace() == "default" && HasPodTemplate(w.Kind())
    requires forall i :: 0 <= i < |anc| ==> anc[i].Kind() != Ingress
    requires ConnectionsOf(AllContainers(w.Body().template)).Some?
    ensures !Unanalysable(anc)(w)
  {
    NoneOf(OfKind(Ingress), anc);
    assert Filter(OfKind(Ingress), anc) == [];
  }

  lemma TwoAnalysable(created: seq<Resource>, a: Resource, b: Resource, anc: seq<Resource>)
    requires Filter(Workloads(), created) == [a, b] && Filter(Ancillaries(), created) == anc
    requires !Unanalysable(anc)(a) && !Unanalysable(anc)(b)
    ensures WorkloadsAnalysable(created)
  {
    NeitherOf(Unanalysable(anc), a, b);
  }

  lemma NeitherOf(p: Resource -> bool, a: Resource, b: Resource)
    requires !p(a) && !p(b)
    ensures Filter(p, [a, b]) == []
  {
    NoneOf(p, [a, b]);
  }

  // ----- Runs

  /** No call fails, the cluster set is in order, and every placement is satisfied. */
  ghost predicate Willing(env: Env)
  {
    Faultless(env) && env.setExists && !env.setEmpty && env.setBound
    && forall n: string :: env.placement(n).Satisfied?
  }

  lemma SampleIsAdmitted(request: Request, clusterSet: string, workload: string, rule: Rule, env: Env)
    requires request == Sample(request.name, clusterSet, workload, rule, request.manifests) && Proper(clusterSet, rule)
    requires Willing(env)
    ensures AdmissionStop(request, env).None? && TargetIn(request.globalAnnotations) == Target(clusterSet, "")
  {
    TargetIsNoRule(clusterSet);
    TargetOfSample(clusterSet);
    FilterAnnotation(rule, request.workloadAnnotations[0].annotations);
    SingleAnnotations(request.globalAnnotations, request.workloadAnnotations);
  }

  /** What a run that stopped has bundled are the resources of the manifests. */
  lemma StoppedHasConverted(pre: Snap, name: string, env: Env, res: RunResult, run: Run, post: Snap)
    requires RunOk(pre, name, env, res, run, post) && run.Stopped? && name in pre.objects
    requires AdmissionStop(pre.objects[name].request, env).None? && AllValid(pre.objects[name].request.manifests)
    ensures ConvertedFrom(run.blueprint.created, pre.objects[name].request.manifests)
    ensures run.blueprint.resources == Union([], run.blueprint.created)
  {
  }

  lemma NothingBlocks(request: Request, target: Target, env: Env, blueprint: Blueprint)
    requires AllValid(request.manifests) && target.cluster == "" && Bundleable(request, blueprint.resources)
    requires Willing(env)
    ensures BlockerOf(request, target, env, blueprint).None?
  {
    BundleableIsNotMisconfigured(request, blueprint.resources);
    UnblockedIff(blueprint.views, env);
  }

  /** Nothing stops a run for such a request, if its resources can be bundled. */
  lemma SampleIsPushed(pre: Snap, name: string, env: Env, res: RunResult, run: Run, post: Snap, clusterSet: string,
                       workload: string, rule: Rule)
    requires RunOk(pre, name, env, res, run, post) && LiveIn(pre, name) && Willing(env)
    requires var request := pre.objects[name].request;
             request == Sample(request.name, clusterSet, workload, rule, request.manifests)
             && AllValid(request.manifests) && Proper(clusterSet, rule)
             && (run.Stopped? ==> Bundleable(request, run.blueprint.resources))
    ensures run.Pushed?
  {
    var request := pre.objects[name].request;
    FaultlessRun(pre, name, env, res, run, post);
    SampleIsAdmitted(request, clusterSet, workload, rule, env);
    if run.Stopped? {
      NothingBlocks(request, Target(clusterSet, ""), env, run.blueprint);
    }
  }

  // ----- Small lists

  lemma Halves(p: Resource -> bool, yes: seq<Resource>, no: seq<Resource>)
    requires (forall i :: 0 <= i < |yes| ==> p(yes[i])) && (forall i :: 0 <= i < |no| ==> !p(no[i]))
    ensures Filter(p, yes) == yes && Filter(p, no) == []
  {
    FilterAll(p, yes);
    NoneOf(p, no);
  }

  /** Workloads first, then the rest. */
  lemma Partition(workloads: seq<Resource>, rest: seq<Resource>)
    requires forall i :: 0 <= i < |workloads| ==> workloads[i].IsWorkload()
    requires forall i :: 0 <= i < |rest| ==> !rest[i].IsWorkload()
    ensures Filter(Workloads(), workloads + rest) == workloads && Filter(Ancillaries(), workloads + rest) == rest
  {
    Halves(Workloads(), workloads, rest);
    Halves(Ancillaries(), rest, workloads);
    FilterConcat(Workloads(), workloads, rest);
    FilterConcat(Ancillaries(), workloads, rest);
  }

  lemma WorkloadsOnly(created: seq<Resource>)
    requires DistinctKeys(created) && forall i :: 0 <= i < |created| ==> created[i].IsWorkload()
    ensures Union([], created) == created
    ensures Filter(Workloads(), created) == created && Filter(Ancillaries(), created) == []
  {
    UnionOfDistinct(created);
    Partition(created, []);
    assert created + [] == created;
  }

  lemma CountTwo(a: BundleV, b: BundleV)
    ensures Placed([a, b]) == |a.resources| + |b.resources|
  {
    assert [a, b][..1] == [a] && [a][..0] == [];
    assert Placed([a]) == |a.resources|;
  }

  lemma OnlyMember(s: seq<Resource>, c: Resource)
    requires DistinctKeys(s) && forall r :: r in s <==> r == c
    ensures s == [c]
  {
    assert Elems(s) == {c};
    DistinctElemsCount(s);
    assert s[0] in s;
  }

  lemma NoMember(s: seq<Resource>)
    requires DistinctKeys(s) && forall r :: r !in s
    ensures s == []
  {
    assert Elems(s) == {};
    DistinctElemsCount(s);
  }
}
