/**
 What a run comes to, told by the fields of the request, of the environment and of what is stored: how it is admitted,
 how it ends, what its status says, which works there are, and that no failing call is passed over.
 */
module Outcomes {
  import opened Collections
  import opened Text
  import opened Resources
  import opened Annotations
  import opened Bundles
  import opened Bundling
  import opened Links
  import opened Connections
  import opened HubState
  import opened Works
  import opened Network
  import opened Planning
  import opened Reconciler
  import opened RunTheory

  // ----- Admission

  /** All annotations are filters and targets. */
  predicate OnlySupportedKeys(request: Request)
  {
    (forall a :: a in request.globalAnnotations ==> IsSupportedKey(a))
    && forall e, a :: e in request.workloadAnnotations && a in e.annotations ==> IsSupportedKey(a)
  }

  predicate SomeTargetAlone(annotations: seq<string>)
  {
    exists i :: 0 <= i < |annotations|
                && annotations[i] in {"p2code.target.managedClusterSet", "p2code.target.cluster"}
  }

  /** The calls that look at the cluster set succeed; the one for a target cluster is made only if there is one. */
  predicate ClusterCallsSucceed(cluster: string, env: Env)
  {
    !env.fails(ListClusterSets) && !env.fails(ListClusters) && !env.fails(ListBindings)
    && (cluster != "" ==> !env.fails(ListMembers))
  }

  /** The cluster set exists, has clusters, is bound to the namespace of the operator, and contains the target cluster,
      if one is given. */
  predicate ClusterSetFits(cluster: string, env: Env)
  {
    env.setExists && !env.setEmpty && env.setBound && (cluster != "" ==> env.member)
  }

  lemma SupportedMeans(request: Request)
    ensures AnnotationsSupported(request.globalAnnotations, request.workloadAnnotations) <==> OnlySupportedKeys(request)
  {
    forall a: string | true ensures IsAnnotationSupported(a) <==> IsSupportedKey(a) {
      SupportedIff(a);
    }
    var entries := request.workloadAnnotations;
    forall e, a | e in entries && a in e.annotations
      ensures exists i :: 0 <= i < |entries| && a in entries[i].annotations
    {
      var i :| 0 <= i < |entries| && entries[i] == e;
    }
  }

  /** A request is admitted if and only if its annotations are in order, the calls succeed and the cluster set fits. */
  lemma AdmittedIff(request: Request, env: Env)
    ensures AdmissionStop(request, env).None? <==>
            OnlySupportedKeys(request) && !SomeTargetAlone(request.globalAnnotations)
            && TargetIn(request.globalAnnotations).clusterSet != ""
            && ClusterCallsSucceed(TargetIn(request.globalAnnotations).cluster, env)
            && ClusterSetFits(TargetIn(request.globalAnnotations).cluster, env)
  {
    SupportedMeans(request);
    TargetPanicsIff(request.globalAnnotations);
  }

  /** Nothing is pushed unless the request is admitted. */
  lemma PushedIsAdmitted(pre: Snap, name: string, env: Env, res: RunResult, run: Run, post: Snap)
    requires RunOk(pre, name, env, res, run, post) && run.Pushed?
    ensures name in pre.objects
    ensures var request := pre.objects[name].request;
            OnlySupportedKeys(request) && TargetIn(request.globalAnnotations).clusterSet != ""
            && ClusterCallsSucceed(TargetIn(request.globalAnnotations).cluster, env)
            && ClusterSetFits(TargetIn(request.globalAnnotations).cluster, env)
  {
    AdmittedIff(pre.objects[name].request, env);
  }

  // ----- How a run without faults ends before it touches any work

  /** Without faults, a cluster set that does not fit ends the run as failed, with everything untouched. */
  lemma UnfitClusterSetFails(pre: Snap, name: string, env: Env, res: RunResult, run: Run, post: Snap)
    requires RunOk(pre, name, env, res, run, post) && Faultless(env) && LiveIn(pre, name)
    requires OnlySupportedKeys(pre.objects[name].request)
    requires !SomeTargetAlone(pre.objects[name].request.globalAnnotations)
    requires TargetIn(pre.objects[name].request.globalAnnotations).clusterSet != ""
    requires !ClusterSetFits(TargetIn(pre.objects[name].request.globalAnnotations).cluster, env)
    ensures StoppedAs(SchedulingFailed, name, res, pre, post)
  {
    var request := pre.objects[name].request;
    FaultlessRun(pre, name, env, res, run, post);
    AdmittedIff(request, env);
    SupportedMeans(request);
    TargetPanicsIff(request.globalAnnotations);
    StoppedKeeps(pre, name, env, res, run, post);
  }

  /** The run has ended in that state, without decisions, and works, links and record are as they were. */
  predicate StoppedAs(state: State, name: string, res: RunResult, pre: Snap, post: Snap)
  {
    res.Done? && name in post.objects && post.objects[name].status.state == Some(state)
    && post.objects[name].status.decisions == []
    && post.works == pre.works && post.network == pre.network && post.record == pre.record
  }

  lemma StoppedKeeps(pre: Snap, name: string, env: Env, res: RunResult, run: Run, post: Snap)
    requires RunOk(pre, name, env, res, run, post) && run.Stopped?
    ensures post.works == pre.works && post.network == pre.network && post.record == pre.record
  {
  }

  /** Without faults, a request with unsupported annotations or without cluster set ends as misconfigured. */
  lemma BadAnnotationsMisconfigure(pre: Snap, name: string, env: Env, res: RunResult, run: Run, post: Snap)
    requires RunOk(pre, name, env, res, run, post) && Faultless(env) && LiveIn(pre, name)
    requires var request := pre.objects[name].request;
             !OnlySupportedKeys(request)
             || (!SomeTargetAlone(request.globalAnnotations) && TargetIn(request.globalAnnotations).clusterSet == "")
    ensures StoppedAs(MisconfiguredState, name, res, pre, post)
  {
    var request := pre.objects[name].request;
    FaultlessRun(pre, name, env, res, run, post);
    AdmittedIff(request, env);
    SupportedMeans(request);
    TargetPanicsIff(request.globalAnnotations);
    StoppedKeeps(pre, name, env, res, run, post);
  }

  /** So does an admitted request with a manifest that is not valid. */
  lemma BadManifestMisconfigures(pre: Snap, name: string, env: Env, res: RunResult, run: Run, post: Snap)
    requires RunOk(pre, name, env, res, run, post) && Faultless(env) && LiveIn(pre, name)
    requires AdmissionStop(pre.objects[name].request, env).None?
    requires exists m :: m in pre.objects[name].request.manifests && !m.IsValid()
    ensures StoppedAs(MisconfiguredState, name, res, pre, post)
  {
    var manifests := pre.objects[name].request.manifests;
    var m :| m in manifests && !m.IsValid();
    var i :| 0 <= i < |manifests| && manifests[i] == m;
    FaultlessRun(pre, name, env, res, run, post);
    StoppedKeeps(pre, name, env, res, run, post);
  }

  /** What the answer to a placement means for a run: unless it is satisfied, it fails, waits, or is in error. */
  predicate EndsBy(answer: PlacementAnswer, name: string, res: RunResult, pre: Snap, post: Snap)
  {
    match answer
    case Satisfied(_) => true
    case Unsatisfied => StoppedAs(SchedulingFailed, name, res, pre, post)
    case Unavailable => res.Error?
    case _ => res.RequeueAfter?
  }

  /** Without faults, the first bundle whose placement is not satisfied decides how the run ends. */
  lemma PlacementDecides(pre: Snap, name: string, env: Env, res: RunResult, run: Run, post: Snap, i: nat)
    requires RunOk(pre, name, env, res, run, post) && Faultless(env) && LiveIn(pre, name)
    requires AdmissionStop(pre.objects[name].request, env).None? && AllValid(pre.objects[name].request.manifests)
    requires TargetIn(pre.objects[name].request.globalAnnotations).cluster == ""
    requires run.Stopped? && Bundleable(pre.objects[name].request, run.blueprint.resources)
    requires i < |run.blueprint.views| && !env.placement(run.blueprint.views[i].resourceName).Satisfied?
    requires forall j :: 0 <= j < i ==> env.placement(run.blueprint.views[j].resourceName).Satisfied?
    ensures EndsBy(env.placement(run.blueprint.views[i].resourceName), name, res, pre, post)
  {
    FaultlessRun(pre, name, env, res, run, post);
    StoppedKeeps(pre, name, env, res, run, post);
    StopByPlacement(pre.objects[name].request, env, run.blueprint, i);
  }

  lemma StopByPlacement(request: Request, env: Env, blueprint: Blueprint, i: nat)
    requires AdmissionStop(request, env).None? && AllValid(request.manifests)
    requires TargetIn(request.globalAnnotations).cluster == "" && Bundleable(request, blueprint.resources)
    requires i < |blueprint.views| && !env.placement(blueprint.views[i].resourceName).Satisfied?
    requires forall j :: 0 <= j < i ==> env.placement(blueprint.views[j].resourceName).Satisfied?
    ensures StopOf(request, env, blueprint)
         == Some(match env.placement(blueprint.views[i].resourceName)
                 case Unsatisfied => Reject(SchedulingFailed)
                 case Unavailable => Fail
                 case _ => Wait)
  {
    BundleableIsNotMisconfigured(request, blueprint.resources);
    PlacementBlockerIs(blueprint.views, env);
  }

  // ----- The status

  /** A pushed run that does not end for good shows its decisions: those of its plan where placements have decided, and
      those it began with where a target cluster was given. */
  lemma WaitingRunShowsDecisions(pre: Snap, name: string, env: Env, res: RunResult, run: Run, post: Snap)
    requires RunOk(pre, name, env, res, run, post) && run.Pushed? && !res.Done?
    ensures name in pre.objects && name in post.objects
    ensures post.objects[name].status.state == Some(SchedulingInProgress)
    ensures run.target.cluster == "" ==> ShowsPlan(post.objects[name].status.decisions, run.plan)
    ensures run.target.cluster != "" ==>
              post.objects[name].status.decisions == DecisionsAtFirst(pre.objects[name].status)
  {
    assert Reported(run);
  }

  /** A run for a manifest that is not yet in progress begins without decisions. */
  function DecisionsAtFirst(status: Status): seq<Decision>
  {
    if status.state == Some(SchedulingInProgress) && status.conditions != [] then status.decisions else []
  }

  /** One decision for each bundle: its name and its cluster. */
  predicate ShowsPlan(decisions: seq<Decision>, plan: seq<BundleV>)
  {
    |decisions| == |plan|
    && forall i :: 0 <= i < |plan| ==> decisions[i].workload == plan[i].name && decisions[i].cluster == plan[i].cluster
  }

  /** A pushed run that ends for good shows them in any case. */
  lemma DoneRunShowsDecisions(pre: Snap, name: string, env: Env, res: RunResult, run: Run, post: Snap)
    requires RunOk(pre, name, env, res, run, post) && run.Pushed? && res.Done?
    ensures name in post.objects && ShowsPlan(post.objects[name].status.decisions, run.plan)
  {
  }

  /** No run takes a condition away, whatever happens in it. */
  lemma ConditionsStay(pre: Snap, name: string, env: Env, res: RunResult, run: Run, post: Snap)
    requires RunOk(pre, name, env, res, run, post) && name in pre.objects && name in post.objects
    ensures pre.objects[name].status.conditions <= post.objects[name].status.conditions
  {
    assert Reported(run);
    StatusGrows(pre.objects[name], res, run, post.objects[name]);
  }

  lemma StatusGrows(obj: Obj, res: RunResult, run: Run, after: Obj)
    requires StatusTold(obj, res, run, after) && !(run.Finalised? && res.Done?)
    ensures obj.status.conditions <= after.status.conditions
  {
    var begun := InProgressState(obj);
    SetStatusMeans(obj.status, SchedulingInProgress, []);
    SetStatusMeans(begun, MisconfiguredState, []);
    SetStatusMeans(begun, Finalizing, []);
    if run.Pushed? {
      SetStatusMeans(begun, SchedulingInProgress, Decisions(run.plan));
    }
    if (run.Pushed? || run.Stopped?) && res.Done? {
      SetStatusMeans(Reached(begun, run), after.status.state.value, after.status.decisions);
      PrefixOf(obj.status.conditions, begun.conditions, Reached(begun, run).conditions, after.status.conditions);
    }
  }

  lemma PrefixOf<T>(a: seq<T>, b: seq<T>, c: seq<T>, d: seq<T>)
    requires a <= b <= c <= d
    ensures a <= d
  {
  }

  /** A manifest that is being deleted, and has a status, is not marked as in progress again: until it goes, its state
      is the one it had, or finalizing. */
  lemma FinalisingKeepsState(pre: Snap, name: string, env: Env, res: RunResult, run: Run, post: Snap)
    requires RunOk(pre, name, env, res, run, post) && run.Finalised? && !res.Done?
    ensures name in pre.objects && name in post.objects
    ensures pre.objects[name].status.conditions != [] ==>
              post.objects[name].status == pre.objects[name].status
              || (post.objects[name].status.state == Some(Finalizing) && post.objects[name].status.decisions == [])
  {
    assert Reported(run);
  }

  /** Outside the operator's namespace, without faults, a manifest is called misconfigured and otherwise left alone: it
      gets no finalizer, no work and no link. */
  lemma ForeignNamespace(pre: Snap, name: string, env: Env, res: RunResult, run: Run, post: Snap)
    requires RunOk(pre, name, env, res, run, post) && Faultless(env)
    requires name in pre.objects && !pre.objects[name].inSchedulerNamespace
    ensures StoppedAs(MisconfiguredState, name, res, pre, post)
    ensures post.objects[name].finalizer == pre.objects[name].finalizer
    ensures forall n :: n != name ==> (n in post.objects <==> n in pre.objects)
                                      && (n in pre.objects ==> post.objects[n] == pre.objects[n])
  {
    assert Reported(run);
  }

  // ----- The works

  /** After a settled run there is, on the cluster of every bundle and under its resource name, a work of the manifest
      that holds the manifests of the bundle in order, with the server-side option for its volume claims, and whose
      report shows nothing broken. */
  lemma SettledWorkHolds(pre: Snap, name: string, env: Env, res: RunResult, run: Run, post: Snap, i: nat, k: WorkKey)
    requires RunOk(pre, name, env, res, run, post) && SettledRun(name, res, post)
    requires run.Pushed? && DistinctWorkKeys(run.plan) && Unshared(pre.works, run.plan, Truncate(name))
    requires i < |run.plan| && k.name == run.plan[i].resourceName && k.cluster == run.plan[i].cluster
    ensures k in post.works && post.works[k].owner == Truncate(name)
    ensures HoldsBundle(post.works[k], run.plan[i])
    ensures ShowsNothingBroken(env.reported(k))
  {
    SettledRunIsExact(pre, name, env, res, run, post);
    assert k == KeyOf(run.plan[i]) && k in PlanKeys(run.plan);
    WorkHolds(Truncate(name), run.plan[i]);
    PassesIff(env.reported(k));
  }

  ghost predicate HoldsBundle(work: Work, v: BundleV)
  {
    |work.manifests| == |v.resources|
    && (forall j :: 0 <= j < |v.resources| ==> work.manifests[j] == v.resources[j].manifest)
    && forall m :: m in work.serverSideApply <==>
                   exists r :: r in v.resources && r.manifest.metadata == m && m.gvk.kind == PersistentVolumeClaim
  }

  predicate ShowsNothingBroken(s: WorkStatus)
  {
    s.manifests != [] && forall m, c :: m in s.manifests && c in m ==> !(c.appliedOrAvailable && c.isFalse)
  }

  lemma WorkHolds(owner: string, v: BundleV)
    ensures HoldsBundle(WorkOf(owner, v), v)
  {
    WorkMeans(owner, v, Metadata("", "", GroupVersionKind(Core, "", Pod)));
    forall m: Metadata | true
      ensures m in WorkOf(owner, v).serverSideApply <==>
              exists r :: r in v.resources && r.manifest.metadata == m && m.gvk.kind == PersistentVolumeClaim
    {
      WorkMeans(owner, v, m);
    }
  }

  /** And all works of the manifest are such. */
  lemma SettledWorksArePlanned(pre: Snap, name: string, env: Env, res: RunResult, run: Run, post: Snap, k: WorkKey)
    requires RunOk(pre, name, env, res, run, post) && SettledRun(name, res, post)
    requires run.Pushed? && DistinctWorkKeys(run.plan) && Unshared(pre.works, run.plan, Truncate(name))
    requires k in post.works && post.works[k].owner == Truncate(name)
    ensures IsPlanned(k, run.plan)
  {
    SettledRunIsExact(pre, name, env, res, run, post);
    assert k in Owned(post.works, Truncate(name));
    PlannedMeans(k, run.plan);
  }

  /** A run that has pushed its plan and ends without error leaves the planned works, and of the others those that no
      recorded bundle has to give up or that could not be read. */
  lemma PushedWorksSurvive(pre: Snap, name: string, env: Env, res: RunResult, run: Run, post: Snap, k: WorkKey)
    requires RunOk(pre, name, env, res, run, post) && run.Pushed? && !res.Error?
    ensures var before := RecordOf(pre.record, name);
            k in post.works <==>
            IsPlanned(k, run.plan)
            || (k in pre.works
                && forall i :: 0 <= i < |before| && IsPlace(k, before[i]) && HasToGo(before[i], run.plan) ==>
                                 env.fails(GetStale(i)))
  {
    PushedWorks(pre, name, env, res, run, post);
    NamesAreDistinct(pre, name, env, res, run, post);
    SurvivesByNameIff(pre.works, RecordOf(pre.record, name), run.plan, Truncate(name), env, k);
  }

  lemma NamesAreDistinct(pre: Snap, name: string, env: Env, res: RunResult, run: Run, post: Snap)
    requires RunOk(pre, name, env, res, run, post) && run.Pushed?
    ensures DistinctNames(run.plan)
  {
  }

  // ----- The record

  /** A plan is recorded if and only if the run ends as successful and no bundle misses anything. */
  lemma RecordedIff(pre: Snap, name: string, env: Env, res: RunResult, run: Run, post: Snap)
    requires RunOk(pre, name, env, res, run, post) && run.Pushed?
    ensures name in post.objects
    ensures run.progress.recorded <==>
            res.Done? && post.objects[name].status.state == Some(SchedulingSuccessful)
            && forall i :: 0 <= i < |run.plan| ==> run.plan[i].absent == []
    ensures post.record == if run.progress.recorded then pre.record[name := run.plan] else pre.record
  {
    NothingAbsentIff(run.plan);
  }

  lemma {:induction false} NothingAbsentIff(plan: seq<BundleV>)
    ensures NothingAbsent(plan) <==> forall i :: 0 <= i < |plan| ==> plan[i].absent == []
  {
    if plan != [] {
      var n := |plan| - 1;
      NothingAbsentIff(plan[..n]);
      assert |WarningsOf()(plan[n])| == |plan[n].absent|;
      assert forall i :: 0 <= i < n ==> plan[..n][i] == plan[i];
    }
  }

  // ----- The links

  /** A run edits the registry, or records its plan, only when all planned works are written, are all the works that the
      manifest has, and pass. */
  lemma LinksWaitForWorks(pre: Snap, name: string, env: Env, res: RunResult, run: Run, post: Snap)
    requires RunOk(pre, name, env, res, run, post) && run.Pushed?
    requires LinksOf(post.network) != LinksOf(pre.network) || post.record != pre.record
    ensures |Owned(post.works, Truncate(name))| == |run.plan|
    ensures forall i, k :: 0 <= i < |run.plan| && IsPlace(k, run.plan[i]) ==> k in post.works
    ensures forall k :: k in post.works && post.works[k].owner == Truncate(name) ==> ShowsNothingBroken(env.reported(k))
  {
    assert Reported(run);
    assert run.progress.dels != [] || run.progress.regs != [] || run.progress.recorded;
    forall k | k in post.works && post.works[k].owner == Truncate(name) ensures ShowsNothingBroken(env.reported(k)) {
      assert k in Owned(post.works, Truncate(name));
      PassesIff(env.reported(k));
    }
    var before, owner := RecordOf(pre.record, name), Truncate(name);
    forall i, k | 0 <= i < |run.plan| && IsPlace(k, run.plan[i]) ensures k in post.works {
      assert k == KeyOf(run.plan[i]);
      WrittenKey(Cleaned(pre.works, before, run.plan, env, |before|), run.plan, owner, |run.plan|, i);
    }
  }

  /** A finalising run edits the registry only when it has removed all works of the manifest. */
  lemma LinksGoAfterWorks(pre: Snap, name: string, env: Env, res: RunResult, run: Run, post: Snap)
    requires RunOk(pre, name, env, res, run, post) && run.Finalised?
    requires LinksOf(post.network) != LinksOf(pre.network) || post.record != pre.record
    ensures forall k :: k in post.works ==> post.works[k].owner != Truncate(name)
  {
    assert Reported(run);
    assert run.dels != [] || run.forgotten;
    forall k | k in post.works ensures post.works[k].owner != Truncate(name) {
      assert k !in Owned(pre.works, Truncate(name));
    }
  }

  // ----- No failing call is passed over

  /** A pushed run that ends without an error has read and written every planned work and listed its works, and, if it
      settled, has asked whether the network API is there. Only a stale work that cannot be read is passed over. */
  lemma PushedCallsSucceed(pre: Snap, name: string, env: Env, res: RunResult, run: Run, post: Snap, i: nat)
    requires RunOk(pre, name, env, res, run, post) && run.Pushed? && !res.Error?
    ensures !env.fails(FetchObject) && !env.fails(ListOwned)
    ensures i < |run.plan| ==> !env.fails(GetWork(i)) && !(env.fails(CreateWork(i)) && env.fails(UpdateWork(i)))
    ensures SettledRun(name, res, post) ==> !env.fails(CheckInstalled)
    ensures run.progress.dels != [] ==> !env.fails(FetchNetwork(0)) && !env.fails(UpdateNetwork(0))
    ensures run.progress.regs != [] ==> !env.fails(FetchNetwork(1)) && !env.fails(UpdateNetwork(1))
  {
    assert Reported(run);
    PushedEdits(pre, name, env, res, run, post);
    if i < |run.plan| {
      var before := RecordOf(pre.record, name);
      assert WritingSucceedsAt(Cleaned(pre.works, before, run.plan, env, |before|), run.plan, Truncate(name), i, env);
    }
  }

  lemma PushedEdits(pre: Snap, name: string, env: Env, res: RunResult, run: Run, post: Snap)
    requires RunOk(pre, name, env, res, run, post) && run.Pushed? && !res.Error?
    ensures run.progress.cleaned == |RecordOf(pre.record, name)| && run.progress.written == |run.plan|
  {
  }

  /** A finalisation that completes has made all its calls: it has listed and deleted every work, asked for the network
      API, edited the registry if that is there, and taken the finalizer. */
  lemma FinalisedCallsSucceed(pre: Snap, name: string, env: Env, res: RunResult, run: Run, post: Snap, i: nat)
    requires RunOk(pre, name, env, res, run, post) && run.Finalised? && res.Done?
    ensures !env.fails(FetchObject) && !env.fails(ListOwned) && !env.fails(CheckInstalled) && !env.fails(DropFinalizer)
    ensures i < |Owned(pre.works, Truncate(name))| ==> !env.fails(DeleteOwned(i))
    ensures env.installed ==> !env.fails(FetchNetwork(0)) && !env.fails(UpdateNetwork(0))
  {
    assert Reported(run);
  }
}
