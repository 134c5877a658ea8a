/**
 From a request to located bundles (internal/controller/p2codeschedulingmanifest_controller.go, lines 308-426).
 */
module Planning {
  import opened Collections
  import opened Text
  import opened Resources
  import opened Annotations
  import opened Bundles
  import opened Bundling
  import opened Connections
  import opened HubState

  // ----- Placing the bundles

  predicate IsSatisfied(v: BundleV, env: Env) { env.placement(v.resourceName).Satisfied? }

  predicate AllSatisfied(views: seq<BundleV>, env: Env) { forall i :: 0 <= i < |views| ==> IsSatisfied(views[i], env) }

  function LocatedAt(v: BundleV, env: Env): BundleV
  {
    match env.placement(v.resourceName) case Satisfied(cluster) => v.(cluster := cluster) case _ => v
  }

  /** The bundles on the clusters that the placements have chosen. */
  function Located(views: seq<BundleV>, env: Env): (located: seq<BundleV>)
    ensures |located| == |views| && forall i :: 0 <= i < |views| ==> located[i] == LocatedAt(views[i], env)
  {
    seq(|views|, i requires 0 <= i < |views| => LocatedAt(views[i], env))
  }

  /** Why a request has no plan yet: it is misconfigured, an error occurred, a placement is not decided, or not
      satisfied. */
  datatype Blocker = BadManifest | PlanFailed | PlanWaits | CannotPlace

  function NotSatisfied(env: Env): BundleV -> bool { (v: BundleV) => !IsSatisfied(v, env) }

  function BlockerAt(answer: PlacementAnswer): Blocker
  {
    match answer
    case Unavailable => PlanFailed
    case Unsatisfied => CannotPlace
    case _ => PlanWaits
  }

  /** The first bundle whose placement is not satisfied decides. */
  function PlacementBlocker(views: seq<BundleV>, env: Env): Option<Blocker>
  {
    match First(NotSatisfied(env), views)
    case Some(v) => Some(BlockerAt(env.placement(v.resourceName)))
    case None => None
  }

  lemma UnblockedIff(views: seq<BundleV>, env: Env)
    ensures PlacementBlocker(views, env).None? <==> AllSatisfied(views, env)
  {
    FirstIsFirst(NotSatisfied(env), views);
    assert forall i :: 0 <= i < |views| ==> (NotSatisfied(env)(views[i]) <==> !IsSatisfied(views[i], env));
  }

  method PlaceBundles(bs: seq<Bundle>, env: Env, ghost views: seq<BundleV>) returns (blocker: Option<Blocker>)
    requires Shows(bs, views)
    modifies bs
    ensures blocker == PlacementBlocker(views, env)
    ensures blocker.None? ==> Shows(bs, Located(views, env))
  {
    ghost var now := views;
    for i := 0 to |bs|
      invariant |now| == |views| && Shows(bs, now)
      invariant forall j :: 0 <= j < |views| ==> now[j] == if j < i then LocatedAt(views[j], env) else views[j]
      invariant forall j :: 0 <= j < i ==> IsSatisfied(views[j], env)
    {
      assert bs[i].View() == views[i];
      FirstSkips(NotSatisfied(env), views, i);
      match env.placement(bs[i].resourceName) {
        case Unavailable => return Some(PlanFailed);
        case NoConditions => return Some(PlanWaits);
        case NoSatisfiedCondition => return Some(PlanWaits);
        case Unsatisfied => return Some(CannotPlace);
        case Satisfied(cluster) =>
          bs[i].cluster := cluster;
          now := now[i := LocatedAt(views[i], env)];
          assert bs[i].View() == now[i];
      }
    }
    assert now == Located(views, env);
    UnblockedIff(views, env);
    return None;
  }

  // ----- Plans

  /** What the later stages need of a plan: unique names, and one workload wherever there are connections. */
  predicate PlanOk(plan: seq<BundleV>) { DistinctNames(plan) && AllTargeted(plan) }

  /** The single bundle of a request that names a target cluster. */
  function Targeted(request: Request, target: Target, resources: seq<Resource>): BundleV
  {
    BundleV(request.name, resources, [], [], [], target.cluster, ResourceName(target.cluster, request.name))
  }

  /** Where a plan comes from: the target cluster, or the bundler and the placements. */
  ghost predicate PlanMadeFrom(request: Request, target: Target, env: Env, blueprint: Blueprint, plan: seq<BundleV>)
  {
    ConvertedFrom(blueprint.created, request.manifests) && blueprint.resources == Union([], blueprint.created)
    && if target.cluster != "" then plan == [Targeted(request, target, blueprint.resources)]
       else Bundled(request, blueprint.resources, blueprint.made, blueprint.views)
            && AllSatisfied(blueprint.views, env) && plan == Located(blueprint.views, env)
  }

  /** `PlanMadeFrom`, folded up: a proof looks inside only where it mentions `Unfolded(blueprint)`. */
  ghost predicate PlanFrom(request: Request, target: Target, env: Env, blueprint: Blueprint, plan: seq<BundleV>)
  {
    forall b: Blueprint {:trigger Unfolded(b)} ::
      b == blueprint && Unfolded(b) ==> PlanMadeFrom(request, target, env, b, plan)
  }

  predicate Unfolded(blueprint: Blueprint) { true }

  /** In every list of bundles that a run builds, names are unique and a bundle with connections holds exactly one
      workload: the connections can be computed, without the error and without an index out of range. */
  lemma PlansAreOk(request: Request, target: Target, env: Env, blueprint: Blueprint, plan: seq<BundleV>)
    requires PlanFrom(request, target, env, blueprint, plan)
    ensures PlanOk(plan) && |plan| >= 1
  {
    assert Unfolded(blueprint);
    UnionKeys([], blueprint.created);
    if target.cluster == "" {
      BundlesAreWellBundled(request, blueprint.resources, blueprint.made, blueprint.views);
      RelocatedIsOk(blueprint.views, plan, blueprint.resources);
    } else {
      AllTargetedMeans(plan);
    }
  }

  lemma RelocatedIsOk(views: seq<BundleV>, plan: seq<BundleV>, resources: seq<Resource>)
    requires DistinctNames(views) && forall i :: 0 <= i < |views| ==> WellBundled(views[i], resources)
    requires |plan| == |views|
    requires forall i :: 0 <= i < |plan| ==> plan[i] == views[i].(cluster := plan[i].cluster)
    ensures PlanOk(plan)
  {
    forall i | 0 <= i < |plan| ensures WellTargeted(plan[i]) && plan[i].name == views[i].name {
      assert WellBundled(views[i], resources);
    }
    AllTargetedMeans(plan);
  }

  /** What the bundler has made of the request, as far as it got. */
  ghost predicate Prepared(request: Request, target: Target, blueprint: Blueprint)
  {
    (AllValid(request.manifests) ==>
       ConvertedFrom(blueprint.created, request.manifests) && blueprint.resources == Union([], blueprint.created))
    && (AllValid(request.manifests) && target.cluster == "" && Bundleable(request, blueprint.resources) ==>
          Bundled(request, blueprint.resources, blueprint.made, blueprint.views))
  }

  /** What keeps the request from being planned, if anything does. */
  ghost function BlockerOf(request: Request, target: Target, env: Env, blueprint: Blueprint): Option<Blocker>
  {
    if !AllValid(request.manifests) then Some(BadManifest)
    else if target.cluster != "" then None
    else if AnnotationsMisconfigured(request, blueprint.resources) then Some(BadManifest)
    else if !Bundleable(request, blueprint.resources) then Some(PlanFailed)
    else PlacementBlocker(blueprint.views, env)
  }

  /** A plan by placement is the list of bundles, each moved to its cluster. */
  predicate Relocated(views: seq<BundleV>, plan: seq<BundleV>)
  {
    |plan| == |views| && forall i :: 0 <= i < |plan| ==> plan[i] == views[i].(cluster := plan[i].cluster)
  }

  lemma PlanOpens(request: Request, target: Target, env: Env, blueprint: Blueprint, plan: seq<BundleV>)
    requires PlanFrom(request, target, env, blueprint, plan) && target.cluster == ""
    ensures ConvertedFrom(blueprint.created, request.manifests) && blueprint.resources == Union([], blueprint.created)
    ensures Bundled(request, blueprint.resources, blueprint.made, blueprint.views) && Relocated(blueprint.views, plan)
  {
    assert Unfolded(blueprint);
  }

  /** The resource names of a plan are made from the name of the request and that of the target cluster or the
      bundle. */
  lemma PlanResourceNames(request: Request, target: Target, env: Env, blueprint: Blueprint, plan: seq<BundleV>, i: nat)
    requires PlanFrom(request, target, env, blueprint, plan) && i < |plan|
    ensures plan[i].resourceName
         == ResourceName(if target.cluster != "" then target.cluster else plan[i].name, request.name)
  {
    assert Unfolded(blueprint);
    if target.cluster == "" && request.workloadAnnotations != [] {
      var j := BundleHasWorkload(request, blueprint.resources, blueprint.made, blueprint.views, i);
    }
  }

  /** Each bundle of a plan by placement is where the placement of its resource name says. */
  lemma PlacedWhere(request: Request, target: Target, env: Env, blueprint: Blueprint, plan: seq<BundleV>, i: nat)
    requires PlanFrom(request, target, env, blueprint, plan) && target.cluster == "" && i < |plan|
    ensures env.placement(ResourceName(plan[i].name, request.name)) == Satisfied(plan[i].cluster)
  {
    assert Unfolded(blueprint);
    PlanResourceNames(request, target, env, blueprint, plan, i);
    assert IsSatisfied(blueprint.views[i], env);
  }

  datatype PlanResult = Planned(bundles: seq<Bundle>) | Blocked(blocker: Blocker)

  /** The verdict of a planning method is the one that the request and the environment determine. */
  ghost predicate Decided(request: Request, target: Target, env: Env, r: PlanResult, blueprint: Blueprint)
  {
    Prepared(request, target, blueprint)
    && BlockerOf(request, target, env, blueprint) == match r case Planned(_) => None case Blocked(b) => Some(b)
  }

  method PlanOnTarget(request: Request, target: Target, env: Env)
    returns (r: PlanResult, ghost plan: seq<BundleV>, ghost blueprint: Blueprint)
    requires target.cluster != ""
    ensures Decided(request, target, env, r, blueprint)
    ensures r.Planned? ==> Shows(r.bundles, plan) && (forall k :: 0 <= k < |r.bundles| ==> fresh(r.bundles[k]))
                           && plan == [Targeted(request, target, blueprint.resources)]
  {
    var converted;
    ghost var created;
    converted, created := BulkConvert(request.manifests);
    plan, blueprint := [], Blueprint(created, [], [], []);
    if !converted.Ok? {
      return Blocked(BadManifest), plan, blueprint;
    }
    blueprint := blueprint.(resources := converted.value);
    var bundle := new Bundle(Targeted(request, target, converted.value));
    return Planned([bundle]), [bundle.View()], blueprint;
  }

  method PlanByPlacement(request: Request, target: Target, env: Env)
    returns (r: PlanResult, ghost plan: seq<BundleV>, ghost blueprint: Blueprint)
    requires target.cluster == ""
    ensures Decided(request, target, env, r, blueprint)
    ensures r.Planned? ==> Shows(r.bundles, plan) && (forall k :: 0 <= k < |r.bundles| ==> fresh(r.bundles[k]))
                           && plan == Located(blueprint.views, env)
  {
    var built;
    built, blueprint := BuildBundles(request);
    plan := [];
    if built.Misconfigured? { return Blocked(BadManifest), plan, blueprint; }
    if !built.Ok? { return Blocked(PlanFailed), plan, blueprint; }
    BundleableIsNotMisconfigured(request, blueprint.resources);
    var blocker := PlaceBundles(built.value, env, blueprint.views);
    if blocker.Some? { return Blocked(blocker.value), plan, blueprint; }
    return Planned(built.value), Located(blueprint.views, env), blueprint;
  }

  lemma BundleableIsNotMisconfigured(request: Request, resources: seq<Resource>)
    requires Bundleable(request, resources)
    ensures !AnnotationsMisconfigured(request, resources)
  {
  }

  /** An unblocked request has the plan that the target cluster or the placements give it. */
  lemma UnblockedPlan(request: Request, target: Target, env: Env, blueprint: Blueprint, plan: seq<BundleV>)
    requires Prepared(request, target, blueprint) && BlockerOf(request, target, env, blueprint).None?
    requires plan == if target.cluster != "" then [Targeted(request, target, blueprint.resources)]
                     else Located(blueprint.views, env)
    ensures PlanFrom(request, target, env, blueprint, plan)
  {
    UnblockedIff(blueprint.views, env);
  }

  method MakePlan(request: Request, target: Target, env: Env)
    returns (r: PlanResult, ghost plan: seq<BundleV>, ghost blueprint: Blueprint)
    ensures Decided(request, target, env, r, blueprint)
    ensures r.Planned? ==> Shows(r.bundles, plan) && (forall k :: 0 <= k < |r.bundles| ==> fresh(r.bundles[k]))
                           && PlanFrom(request, target, env, blueprint, plan) && PlanOk(plan)
  {
    if target.cluster != "" {
      r, plan, blueprint := PlanOnTarget(request, target, env);
    } else {
      r, plan, blueprint := PlanByPlacement(request, target, env);
    }
    if r.Planned? {
      UnblockedPlan(request, target, env, blueprint, plan);
      PlansAreOk(request, target, env, blueprint, plan);
    }
  }

  // ----- The orphan warning on plans

  lemma PlansAreWellBundled(request: Request, target: Target, env: Env, blueprint: Blueprint, plan: seq<BundleV>)
    requires PlanFrom(request, target, env, blueprint, plan)
    ensures DistinctKeys(blueprint.resources)
    ensures forall b :: 0 <= b < |plan| ==> WellBundled(plan[b], blueprint.resources)
  {
    assert Unfolded(blueprint);
    UnionKeys([], blueprint.created);
    if target.cluster == "" {
      BundlesAreWellBundled(request, blueprint.resources, blueprint.made, blueprint.views);
      forall b | 0 <= b < |plan| ensures WellBundled(plan[b], blueprint.resources) {
        assert WellBundled(blueprint.views[b], blueprint.resources);
      }
    }
  }

  /** Whatever the mode, the warning appears exactly when repeated manifests and orphans outnumber repeated
      placements. */
  lemma OrphanWarningOnPlanIff(request: Request, target: Target, env: Env, blueprint: Blueprint, plan: seq<BundleV>)
    requires PlanFrom(request, target, env, blueprint, plan)
    ensures |request.manifests| > Placed(plan) <==>
            Duplicates(blueprint.created, blueprint.resources) + |Orphans(blueprint.resources, plan)| > Surplus(plan)
  {
    assert Unfolded(blueprint);
    PlansAreWellBundled(request, target, env, blueprint, plan);
    PlacedOrOrphaned(blueprint.resources, plan);
  }

  /** With a target cluster or without workload annotations there is one bundle of all resources, and the orphan warning
      appears exactly when two manifests describe the same resource. */
  lemma OrphanWarningInOneBundle(request: Request, target: Target, env: Env, blueprint: Blueprint, plan: seq<BundleV>)
    requires PlanFrom(request, target, env, blueprint, plan)
    requires target.cluster != "" || request.workloadAnnotations == []
    ensures |request.manifests| > Placed(plan) <==> !DistinctKeys(blueprint.created)
  {
    assert Unfolded(blueprint);
    WholeBundleWarning(request.manifests, blueprint.created, plan[0]);
    assert plan == [plan[0]];
  }

  // ----- Plans told by their fields

  /** With a target cluster there is one bundle, with the name of the manifest: all resources, on that cluster, without
      rules. */
  lemma PlanOfTarget(request: Request, target: Target, env: Env, blueprint: Blueprint, plan: seq<BundleV>)
    requires PlanFrom(request, target, env, blueprint, plan) && target.cluster != ""
    ensures |plan| == 1 && plan[0].name == request.name && plan[0].cluster == target.cluster
    ensures plan[0].resources == blueprint.resources && plan[0].rules == [] && plan[0].absent == []
    ensures plan[0].external == []
  {
    assert Unfolded(blueprint);
  }

  /** Whatever filter stands among the global annotations is a rule of every bundle that a placement decides. */
  lemma GlobalFiltersHold(request: Request, target: Target, env: Env, blueprint: Blueprint, plan: seq<BundleV>, i: nat,
                          a: string, rule: Rule)
    requires PlanFrom(request, target, env, blueprint, plan) && target.cluster == "" && i < |plan|
    requires a in request.globalAnnotations && "p2code.filter" <= a && IsPair(a, rule.key, rule.value)
    ensures rule in plan[i].rules
  {
    PlanOpens(request, target, env, blueprint, plan);
    GlobalRulesComeFirst(request, blueprint.resources, blueprint.made, blueprint.views, i);
    RulesMean(request.globalAnnotations, rule);
    PrefixMembers(PlacementRules(request.globalAnnotations).value, plan[i].rules, rule);
  }

  lemma PrefixMembers<T>(s: seq<T>, t: seq<T>, x: T)
    requires s <= t && x in s
    ensures x in t
  {
    var i :| 0 <= i < |s| && s[i] == x;
    assert t[i] == x;
  }

  /** And where workloads are annotated, with distinct names, so is every filter of the last entry for the workload of
      the bundle. */
  lemma OwnFiltersHold(request: Request, target: Target, env: Env, blueprint: Blueprint, plan: seq<BundleV>, i: nat,
                       e: nat, a: string, rule: Rule)
    requires PlanFrom(request, target, env, blueprint, plan) && target.cluster == "" && i < |plan|
    requires DistinctWorkloadNames(Filter(Workloads(), blueprint.resources))
    requires e < |request.workloadAnnotations| && request.workloadAnnotations[e].name == plan[i].name
    requires forall j :: e < j < |request.workloadAnnotations| ==> request.workloadAnnotations[j].name != plan[i].name
    requires a in request.workloadAnnotations[e].annotations && IsPair(a, rule.key, rule.value)
    requires "p2code.filter" <= a
    ensures rule in plan[i].rules
  {
    PlanOpens(request, target, env, blueprint, plan);
    BundleRules(request, blueprint.resources, blueprint.made, blueprint.views, i);
    assert LastEntryFor(request.workloadAnnotations, plan[i].name) == Some(e);
    RulesMean(request.workloadAnnotations[e].annotations, rule);
  }

  /** Which answer to a placement lets the plan go on, and what another one means for it. */
  lemma PlacementBlockerIs(views: seq<BundleV>, env: Env)
    ensures PlacementBlocker(views, env).None? <==>
            forall i :: 0 <= i < |views| ==> env.placement(views[i].resourceName).Satisfied?
    ensures PlacementBlocker(views, env).Some? ==>
              exists i :: 0 <= i < |views|
                          && PlacementBlocker(views, env).value == BlockerAt(env.placement(views[i].resourceName))
                          && !env.placement(views[i].resourceName).Satisfied?
                          && forall j :: 0 <= j < i ==> env.placement(views[j].resourceName).Satisfied?
  {
    FirstIsFirst(NotSatisfied(env), views);
    assert forall i :: 0 <= i < |views| ==> views[i] in views;
    assert forall v: BundleV :: NotSatisfied(env)(v) <==> !env.placement(v.resourceName).Satisfied?;
  }
}
