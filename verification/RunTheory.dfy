/**
 What a single run of the operator guarantees, drawn from the relation that module Reconciler proves of every run.
 */
module RunTheory {
  import opened Collections
  import opened Text
  import opened Resources
  import opened Annotations
  import opened Bundles
  import opened Bundling
  import opened Links
  import opened LinkTheory
  import opened Connections
  import opened HubState
  import opened Works
  import opened Planning
  import opened Reconciler

  // ----- Settled runs: the hub is exactly the plan

  predicate SettledRun(name: string, res: RunResult, post: Snap)
  {
    res.Done? && name in post.objects && SettledState(post.objects[name].status.state)
  }

  ghost predicate WorksAreExactly(works: map<WorkKey, Work>, plan: seq<BundleV>, owner: string)
  {
    Owned(works, owner) == PlanKeys(plan)
    && forall i :: 0 <= i < |plan| ==> KeyOf(plan[i]) in works && works[KeyOf(plan[i])] == WorkOf(owner, plan[i])
  }

  /** A run that ends as successful, tentative or unreliable leaves the owner with exactly one work for each bundle of
      its plan, holding exactly that bundle's manifests, all passing validation, and stores the bundles' clusters as
      decisions. Bundles must not collide in their keys, and no other owner may hold one of them. */
  lemma SettledRunIsExact(pre: Snap, name: string, env: Env, res: RunResult, run: Run, post: Snap)
    requires RunOk(pre, name, env, res, run, post) && SettledRun(name, res, post)
    requires run.Pushed? ==> DistinctWorkKeys(run.plan) && Unshared(pre.works, run.plan, Truncate(name))
    ensures run.Pushed? && WorksAreExactly(post.works, run.plan, Truncate(name))
    ensures forall k :: k in PlanKeys(run.plan) ==> Passes(env.reported(k))
    ensures post.objects[name].status.decisions == Decisions(run.plan)
  {
    var owner, before := Truncate(name), RecordOf(pre.record, name);
    SettledStateIs(pre, name, env, res, run, post);
    var cleaned := Cleaned(pre.works, before, run.plan, env, |before|);
    CleanedIs(pre.works, before, run.plan, env, |before|);
    assert post.works == Written(cleaned, run.plan, owner, |run.plan|);
    assert |Owned(post.works, owner)| == |run.plan|;
    CountGuardIsExact(cleaned, run.plan, owner);
  }

  // ----- What a run without faults comes to

  predicate LiveIn(s: Snap, name: string)
  {
    name in s.objects && !s.objects[name].deleting && s.objects[name].inSchedulerNamespace
  }

  /** Without faults a run on a live manifest pushes its plan if and only if nothing stops it, and otherwise ends the
      way the reason says; and it settles if and only if afterwards every owned work is applied, one for each bundle. */
  lemma FaultlessRun(pre: Snap, name: string, env: Env, res: RunResult, run: Run, post: Snap)
    requires RunOk(pre, name, env, res, run, post) && Faultless(env) && LiveIn(pre, name)
    ensures run.Stopped? || run.Pushed?
    ensures var stop := StopOf(pre.objects[name].request, env, run.blueprint);
            if run.Pushed? then stop.None?
            else stop.Some? && name in post.objects && Ends(stop.value, env, res, post.objects[name].status)
    ensures SettledRun(name, res, post) <==>
            run.Pushed? && AllApplied(post.works, Truncate(name), |run.plan|, env)
  {
    if run.Stopped? {
      StopsUnsettled(pre.objects[name].request, env, run.blueprint);
    } else if run.Pushed? && AllApplied(post.works, Truncate(name), |run.plan|, env) {
      AppliedIsNeither(post.works, Truncate(name), |run.plan|, env);
    }
  }

  lemma StopsUnsettled(request: Request, env: Env, blueprint: Blueprint)
    ensures match StopOf(request, env, blueprint)
            case Some(Reject(state)) => !SettledState(Some(state))
            case _ => true
  {
  }

  lemma AppliedIsNeither(works: map<WorkKey, Work>, owner: string, count: nat, env: Env)
    requires AllApplied(works, owner, count, env)
    ensures !SomeRefused(works, owner, count, env) && !SomeAwaited(works, owner, count, env)
  {
  }

  /** Every work that the owner has is planned again or known to be stale. */
  ghost predicate NothingLeftOver(s: Snap, name: string, env: Env, plan: seq<BundleV>)
  {
    var before := RecordOf(s.record, name);
    Owned(s.works, Truncate(name)) <= PlanKeys(plan) + StaleKeys(before, plan, env, |before|)
  }

  /** Where bundles do not collide in their keys, one can tell beforehand: the run settles if and only if nothing
      stops it, every work that the owner has is planned again or known to be stale, and the planned works all pass
      validation. */
  lemma FaultlessRunSettlesIff(pre: Snap, name: string, env: Env, res: RunResult, run: Run, post: Snap)
    requires RunOk(pre, name, env, res, run, post) && Faultless(env) && LiveIn(pre, name)
    requires run.Pushed? ==> DistinctWorkKeys(run.plan) && Unshared(pre.works, run.plan, Truncate(name))
    ensures SettledRun(name, res, post) <==>
            run.Pushed? && NothingLeftOver(pre, name, env, run.plan)
            && forall k :: k in PlanKeys(run.plan) ==> Passes(env.reported(k))
  {
    FaultlessRun(pre, name, env, res, run, post);
    if run.Pushed? {
      var before, owner := RecordOf(pre.record, name), Truncate(name);
      if !res.Error? {
        PushedOwned(pre, name, env, res, run, post);
      }
      DistinctKeysCount(run.plan);
      LeftoversCount(PlanKeys(run.plan), Owned(pre.works, owner) - StaleKeys(before, run.plan, env, |before|));
    }
  }

  lemma LeftoversCount(planned: set<WorkKey>, kept: set<WorkKey>)
    ensures |planned + kept| == |planned| <==> kept <= planned
  {
    if kept <= planned {
      assert planned + kept == planned;
    }
    if |planned + kept| == |planned| {
      SubsetCount(planned, planned + kept);
    }
  }

  /** A run that pushes its plan and ends without an error has removed all stale works and written all planned ones. */
  lemma PushedWorks(pre: Snap, name: string, env: Env, res: RunResult, run: Run, post: Snap)
    requires RunOk(pre, name, env, res, run, post) && run.Pushed? && !res.Error?
    ensures var before := RecordOf(pre.record, name);
            post.works == Written(pre.works - StaleKeys(before, run.plan, env, |before|), run.plan, Truncate(name),
                                  |run.plan|)
  {
    var before := RecordOf(pre.record, name);
    CleanedIs(pre.works, before, run.plan, env, |before|);
  }

  lemma PushedOwned(pre: Snap, name: string, env: Env, res: RunResult, run: Run, post: Snap)
    requires RunOk(pre, name, env, res, run, post) && run.Pushed? && !res.Error?
    requires Unshared(pre.works, run.plan, Truncate(name))
    ensures var before := RecordOf(pre.record, name);
            Owned(post.works, Truncate(name))
            == PlanKeys(run.plan) + (Owned(pre.works, Truncate(name)) - StaleKeys(before, run.plan, env, |before|))
  {
    PushedWorks(pre, name, env, res, run, post);
    OwnedAfterEdits(pre.works, RecordOf(pre.record, name), run.plan, Truncate(name), env);
  }

  lemma PlanKeysCount(plan: seq<BundleV>)
    ensures |PlanKeys(plan)| == |plan| <==> DistinctWorkKeys(plan)
  {
    SharedKeysFallShort(plan);
    if DistinctWorkKeys(plan) {
      DistinctKeysCount(plan);
    }
  }

  lemma OwnedIsPlanned(pre: Snap, name: string, env: Env, res: RunResult, run: Run, post: Snap)
    requires RunOk(pre, name, env, res, run, post) && run.Pushed? && !res.Error?
    requires Unshared(pre.works, run.plan, Truncate(name)) && NothingLeftOver(pre, name, env, run.plan)
    ensures Owned(post.works, Truncate(name)) == PlanKeys(run.plan)
  {
    var before := RecordOf(pre.record, name);
    PushedOwned(pre, name, env, res, run, post);
    Absorbed(PlanKeys(run.plan), Owned(pre.works, Truncate(name)), StaleKeys(before, run.plan, env, |before|));
  }

  lemma Absorbed(planned: set<WorkKey>, own: set<WorkKey>, stale: set<WorkKey>)
    requires own <= planned + stale
    ensures planned + (own - stale) == planned
  {
  }

  lemma SettledCount(pre: Snap, name: string, env: Env, res: RunResult, run: Run, post: Snap)
    requires RunOk(pre, name, env, res, run, post) && SettledRun(name, res, post) && run.Pushed?
    ensures |Owned(post.works, Truncate(name))| == |run.plan|
  {
  }

  /** Bundles that collide in their keys keep a run from settling: with nothing left over, it settles only if they do
      not. */
  lemma CollidingKeysDoNotSettle(pre: Snap, name: string, env: Env, res: RunResult, run: Run, post: Snap)
    requires RunOk(pre, name, env, res, run, post) && run.Pushed?
    requires Unshared(pre.works, run.plan, Truncate(name))
    requires NothingLeftOver(pre, name, env, run.plan)
    ensures SettledRun(name, res, post) ==> DistinctWorkKeys(run.plan)
    ensures !res.Error? ==> (|Owned(post.works, Truncate(name))| == |run.plan| <==> DistinctWorkKeys(run.plan))
  {
    if !res.Error? {
      OwnedIsPlanned(pre, name, env, res, run, post);
      PlanKeysCount(run.plan);
    }
    if SettledRun(name, res, post) {
      SettledCount(pre, name, env, res, run, post);
    }
  }

  /** A workload may have the name of the manifest. When a target cluster is then set, the cluster on which its bundle
      is already, the one new bundle has that name and cluster under another resource name, the old work is passed
      over, and the run does not settle. `request`, `env0` and `blueprint` are those of the recorded run. */
  lemma RenamedWorkBlocksSettling(pre: Snap, name: string, env: Env, res: RunResult, run: Run, post: Snap,
                                  request: Request, env0: Env, blueprint: Blueprint, j: nat)
    requires RunOk(pre, name, env, res, run, post) && WellKept(pre.objects) && run.Pushed? && name in pre.record
    requires request.name == name
    requires PlanFrom(request, TargetIn(request.globalAnnotations), env0, blueprint, pre.record[name])
    requires TargetIn(request.globalAnnotations).cluster == "" && j < |pre.record[name]|
    requires DistinctWorkKeys(pre.record[name]) && WorksAreExactly(pre.works, pre.record[name], Truncate(name))
    requires Unshared(pre.works, run.plan, Truncate(name))
    requires pre.record[name][j].name == name && run.target.cluster == pre.record[name][j].cluster
    requires run.target.cluster != "" && run.target.cluster != name
    requires |name| + 1 + |name| <= MAX_NAME_LENGTH && |run.target.cluster| + 1 + |name| <= MAX_NAME_LENGTH
    ensures !SettledRun(name, res, post)
    ensures !res.Error? ==> KeyOf(pre.record[name][j]) in Owned(post.works, Truncate(name))
  {
    var before, owner := pre.record[name], Truncate(name);
    assert Unfolded(run.blueprint);
    assert run.plan == [run.plan[0]];
    PlanResourceNames(request, TargetIn(request.globalAnnotations), env0, blueprint, before, j);
    PlanResourceNames(pre.objects[name].request, run.target, env, run.blueprint, run.plan, 0);
    DifferentPrefixes(run.target.cluster, name, "-" + name);
    AssociateNames(run.target.cluster, name);
    if !res.Error? {
      PushedWorks(pre, name, env, res, run, post);
    }
    RenamedWorkIsPassedOver(pre.works, before, j, run.plan[0], owner, env);
  }

  lemma DifferentPrefixes(a: string, b: string, rest: string)
    requires a != b
    ensures a + rest != b + rest
  {
    assert (a + rest)[..|a|] == a && (b + rest)[..|b|] == b;
  }

  lemma AssociateNames(cluster: string, name: string)
    ensures cluster + "-" + name == cluster + ("-" + name) && name + "-" + name == name + ("-" + name)
  {
  }

  /** How a settled run is classified. */
  lemma SettledStateIs(pre: Snap, name: string, env: Env, res: RunResult, run: Run, post: Snap)
    requires RunOk(pre, name, env, res, run, post) && SettledRun(name, res, post)
    ensures run.Pushed?
    ensures post.objects[name].status.state
         == Some(if ConnectionsAmong(run.plan) != [] && !env.installed then UnreliablyScheduled
                 else if |pre.objects[name].request.manifests| > Placed(run.plan) then TentativelyScheduled
                 else SchedulingSuccessful)
  {
    if run.Stopped? {
      StopsUnsettled(pre.objects[name].request, env, run.blueprint);
    }
  }

  /** A run with the network settles as tentative exactly when repeated manifests and orphans outnumber repeated
      placements. */
  lemma TentativeIff(pre: Snap, name: string, env: Env, res: RunResult, run: Run, post: Snap)
    requires RunOk(pre, name, env, res, run, post) && SettledRun(name, res, post)
    ensures run.Pushed?
    ensures post.objects[name].status.state == Some(TentativelyScheduled) <==>
            (ConnectionsAmong(run.plan) == [] || env.installed)
            && Duplicates(run.blueprint.created, run.blueprint.resources) + |Orphans(run.blueprint.resources, run.plan)|
               > Surplus(run.plan)
  {
    SettledStateIs(pre, name, env, res, run, post);
    OrphanWarningOnPlanIff(pre.objects[name].request, run.target, env, run.blueprint, run.plan);
  }

  // ----- Works of others

  /** The work keys that a run of `name` may touch besides those with its own label. */
  ghost function Reach(pre: Snap, name: string, run: Run): set<WorkKey>
  {
    PlanKeys(RecordOf(pre.record, name)) + if run.Pushed? then PlanKeys(run.plan) else {}
  }

  ghost predicate SameWorkAt(a: map<WorkKey, Work>, b: map<WorkKey, Work>, k: WorkKey)
  {
    (k in a <==> k in b) && (k in a ==> a[k] == b[k])
  }

  lemma PushTouches(works: map<WorkKey, Work>, before: seq<BundleV>, plan: seq<BundleV>, owner: string, env: Env,
                    cleaned: nat, written: nat, k: WorkKey)
    requires cleaned <= |before| && written <= |plan|
    ensures var after := Written(Cleaned(works, before, plan, env, cleaned), plan, owner, written);
            && (k !in PlanKeys(before) + PlanKeys(plan) ==> SameWorkAt(works, after, k))
            && (k in after && k !in works ==> k in PlanKeys(plan) && after[k].owner == owner)
            && (k in after && k in works && k !in PlanKeys(before) ==> after[k].owner == works[k].owner)
            && (k in after ==> after[k].owner == owner || (k in works && after[k].owner == works[k].owner))
  {
    var mid := Cleaned(works, before, plan, env, cleaned);
    CleanedIs(works, before, plan, env, cleaned);
    StaleKeysAreRecorded(before, plan, env, cleaned);
    WrittenFrame(mid, plan, owner, written);
  }

  /** A run leaves a work alone unless it is its own or sits at a key that the run records or plans; every work it makes
      carries its label and sits at a planned key; and no work changes hands, except to the run itself. */
  lemma RunTouches(pre: Snap, name: string, env: Env, res: RunResult, run: Run, post: Snap, k: WorkKey)
    requires RunOk(pre, name, env, res, run, post)
    ensures k !in Reach(pre, name, run) && (k in pre.works ==> pre.works[k].owner != Truncate(name)) ==>
              SameWorkAt(pre.works, post.works, k)
    ensures k in post.works && k !in pre.works ==> k in Reach(pre, name, run) && post.works[k].owner == Truncate(name)
    ensures k in post.works ==> post.works[k].owner == Truncate(name)
                                || (k in pre.works && post.works[k].owner == pre.works[k].owner)
  {
    if run.Pushed? {
      PushTouches(pre.works, RecordOf(pre.record, name), run.plan, Truncate(name), env, run.progress.cleaned,
                  run.progress.written, k);
    }
  }

  // ----- All or nothing

  /** Unless a target cluster is given, a run that touches anything has found a cluster for every one of its bundles. */
  lemma AllOrNothing(pre: Snap, name: string, env: Env, res: RunResult, run: Run, post: Snap)
    requires RunOk(pre, name, env, res, run, post) && !run.Finalised?
    ensures Untouched(pre, post)
            || (run.Pushed?
                && (TargetIn(pre.objects[name].request.globalAnnotations).cluster == "" ==>
                      AllSatisfied(run.blueprint.views, env) && run.plan == Located(run.blueprint.views, env)))
  {
    if run.Pushed? {
      assert Unfolded(run.blueprint);
    }
  }

  /** In particular every workload of the request has a satisfied placement. */
  lemma EveryWorkloadIsPlaced(request: Request, target: Target, env: Env, blueprint: Blueprint, plan: seq<BundleV>,
                              j: nat)
    requires PlanFrom(request, target, env, blueprint, plan)
    requires target.cluster == "" && request.workloadAnnotations != []
    requires j < |Filter(Workloads(), blueprint.resources)|
    ensures env.placement(ResourceName(Filter(Workloads(), blueprint.resources)[j].Name(), request.name)).Satisfied?
  {
    assert Unfolded(blueprint);
    var w := Filter(Workloads(), blueprint.resources)[j];
    assert BundleOf(blueprint.made[j], w, request, PlacementRules(request.globalAnnotations).value,
                    blueprint.resources);
    UpsertAllNames(blueprint.made);
    assert Names(blueprint.made)[j] == w.Name();
    assert w.Name() in Elems(Names(blueprint.views));
    var b :| 0 <= b < |blueprint.views| && Names(blueprint.views)[b] == w.Name();
    var k := BundleHasWorkload(request, blueprint.resources, blueprint.made, blueprint.views, b);
    assert IsSatisfied(blueprint.views[b], env);
  }

  // ----- Finalising

  /** An attempt without faults completes the finalisation. */
  lemma FaultlessFinalising(pre: Snap, name: string, env: Env, res: RunResult, run: Run, post: Snap)
    requires RunOk(pre, name, env, res, run, post) && Faultless(env)
    requires name in pre.objects && pre.objects[name].deleting && pre.objects[name].inSchedulerNamespace
    ensures res.Done? && name !in post.objects && Owned(post.works, Truncate(name)) == {} && name !in post.record
  {
  }

  /** Once works and record are gone, further attempts change nothing. */
  lemma FinalisingAgainChangesNothing(pre: Snap, name: string, env: Env, res: RunResult, run: Run, post: Snap)
    requires RunOk(pre, name, env, res, run, post)
    requires name in pre.objects ==> pre.objects[name].deleting
    requires Owned(pre.works, Truncate(name)) == {} && name !in pre.record
    ensures post.works == pre.works && LinksOf(post.network) == LinksOf(pre.network) && post.record == pre.record
  {
    NoConnectionsOfNoBundles();
    if run.Finalised? {
      assert pre.works - {} == pre.works && pre.record - {name} == pre.record;
    }
  }

  // ----- The same again

  /** Two plans that call for the same works and connections. */
  ghost predicate SamePlan(before: seq<BundleV>, plan: seq<BundleV>, owner: string)
  {
    |before| == |plan| && ConnectionsAmong(before) == ConnectionsAmong(plan)
    && forall i :: 0 <= i < |plan| ==>
         before[i].name == plan[i].name && KeyOf(before[i]) == KeyOf(plan[i])
         && WorkOf(owner, before[i]) == WorkOf(owner, plan[i])
  }

  lemma NothingStale(before: seq<BundleV>, plan: seq<BundleV>, env: Env)
    requires |before| == |plan| && DistinctNames(plan)
    requires forall i :: 0 <= i < |plan| ==> before[i].name == plan[i].name && KeyOf(before[i]) == KeyOf(plan[i])
    ensures StaleKeys(before, plan, env, |before|) == {}
  {
    forall i | 0 <= i < |before| ensures !Obsolete(before[i], plan) {
      FirstIsFirst(NamedBundle(before[i].name), plan);
      assert NamedBundle(before[i].name)(plan[i]) && plan[i] in plan;
    }
    forall k: WorkKey | true ensures k !in StaleKeys(before, plan, env, |before|) {
      StaleKeysMean(before, plan, env, |before|, k);
    }
  }

  lemma {:induction false} WrittenAlready(works: map<WorkKey, Work>, plan: seq<BundleV>, owner: string, n: nat)
    requires n <= |plan|
    requires forall i :: 0 <= i < |plan| ==> KeyOf(plan[i]) in works && works[KeyOf(plan[i])] == WorkOf(owner, plan[i])
    ensures Written(works, plan, owner, n) == works
  {
    if n > 0 {
      WrittenAlready(works, plan, owner, n - 1);
      assert works[KeyOf(plan[n - 1])] == WorkOf(owner, plan[n - 1]);
    }
  }

  /** A run whose plan calls for the works that are there already changes none of them. */
  lemma RunAgainKeepsWorks(pre: Snap, name: string, env: Env, res: RunResult, run: Run, post: Snap)
    requires RunOk(pre, name, env, res, run, post) && run.Pushed? && !res.Error?
    requires SamePlan(RecordOf(pre.record, name), run.plan, Truncate(name))
    requires WorksAreExactly(pre.works, RecordOf(pre.record, name), Truncate(name))
    ensures post.works == pre.works
  {
    PushedWorks(pre, name, env, res, run, post);
    SamePlanKeepsWorks(pre.works, RecordOf(pre.record, name), run.plan, Truncate(name), env);
  }

  lemma SamePlanKeepsWorks(works: map<WorkKey, Work>, before: seq<BundleV>, plan: seq<BundleV>, owner: string, env: Env)
    requires SamePlan(before, plan, owner) && DistinctNames(plan) && WorksAreExactly(works, before, owner)
    ensures Written(works - StaleKeys(before, plan, env, |before|), plan, owner, |plan|) == works
  {
    NothingStale(before, plan, env);
    assert works - {} == works;
    forall i | 0 <= i < |plan| ensures KeyOf(plan[i]) in works && works[KeyOf(plan[i])] == WorkOf(owner, plan[i]) {
      assert KeyOf(before[i]) in works && works[KeyOf(before[i])] == WorkOf(owner, before[i]);
    }
    WrittenAlready(works, plan, owner, |plan|);
  }
}
