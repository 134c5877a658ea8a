/**
 The reconciler (internal/controller/p2codeschedulingmanifest_controller.go, lines 83-660): one run for one scheduling
 manifest, against any environment.
 */
module Reconciler {
  import opened Collections
  import opened Text
  import opened Resources
  import opened Annotations
  import opened Bundles
  import opened Bundling
  import opened Links
  import opened Connections
  import opened HubState
  import opened Works
  import opened Network
  import opened Planning

  // ----- States and runs as values

  /** Everything a run can read or change: the hub, and the bundles that the operator remembers. */
  datatype Snap = Snap(objects: map<string, Obj>, works: map<WorkKey, Work>, network: Option<seq<LinkV>>,
                       record: map<string, seq<BundleV>>)

  /** How far a run got: how many recorded bundles were cleaned up and how many works written, which connections were
      deleted and registered, and whether the plan was remembered. */
  datatype Progress = Progress(cleaned: nat, written: nat, dels: seq<Connection>, regs: seq<Connection>, recorded: bool)

  /** What a run did: nothing; it stopped before it touched any work; it pushed its plan; or it finalised. */
  datatype Run = Nothing
               | Stopped(blueprint: Blueprint)
               | Pushed(target: Target, blueprint: Blueprint, plan: seq<BundleV>, progress: Progress)
               | Finalised(removed: set<WorkKey>, dels: seq<Connection>, forgotten: bool)

  function RecordOf(record: map<string, seq<BundleV>>, name: string): seq<BundleV>
  {
    if name in record then record[name] else []
  }

  predicate IsBusy(objects: map<string, Obj>, name: string)
  {
    name in objects && StatusOk(objects[name].status) && objects[name].status.state == Some(SchedulingInProgress)
  }

  predicate SettledState(s: Option<State>)
  {
    s in {Some(SchedulingSuccessful), Some(TentativelyScheduled), Some(UnreliablyScheduled)}
  }

  /** Only the status of the object has changed, and it stays well-formed. */
  predicate OnlyStatus(before: map<string, Obj>, name: string, after: map<string, Obj>)
  {
    name in before && name in after && StatusOk(after[name].status)
    && after == before[name := before[name].(status := after[name].status)]
  }

  lemma OnlyStatusTwice(a: map<string, Obj>, b: map<string, Obj>, name: string, c: map<string, Obj>)
    requires OnlyStatus(a, name, b)
    ensures OnlyStatus(b, name, c) ==> OnlyStatus(a, name, c)
    ensures b - {name} == a - {name}
  {
    if OnlyStatus(b, name, c) {
      assert c == a[name := a[name].(status := c[name].status)];
    }
  }

  /** No silent stall: a run that ends for good leaves the state "in progress", and one that asks to be run again is
      in it. */
  predicate NoStall(res: RunResult, status: Status)
  {
    (res.Done? ==> status.state != Some(SchedulingInProgress))
    && (res.RequeueAfter? ==> status.state == Some(SchedulingInProgress))
  }

  /** A stage that ends the run for good has stored a new state, and any other end leaves the status as it was. */
  predicate StatusStep(before: Status, res: RunResult, after: Status)
  {
    if res.Done? then after.state.Some? && after == SetStatus(before, after.state.value, after.decisions)
    else after == before
  }

  /** A stage of a run that ends here has changed the status only, and has not stalled. */
  predicate Stops(before: map<string, Obj>, name: string, res: RunResult, after: map<string, Obj>)
  {
    OnlyStatus(before, name, after) && NoStall(res, after[name].status)
    && StatusStep(before[name].status, res, after[name].status)
  }

  /** The status once the plan is made: the decisions are announced, unless a target cluster was given. */
  function Announced(status: Status, target: Target, plan: seq<BundleV>): Status
  {
    if target.cluster == "" then SetStatus(status, SchedulingInProgress, Decisions(plan)) else status
  }

  /** The status from which the end of a scheduling run goes on. */
  function Reached(status: Status, run: Run): Status
  {
    if run.Pushed? then Announced(status, run.target, run.plan) else status
  }

  /** A scheduling run, from the status it began with. */
  predicate Ended(before: map<string, Obj>, name: string, res: RunResult, run: Run, after: map<string, Obj>)
  {
    OnlyStatus(before, name, after) && NoStall(res, after[name].status)
    && StatusStep(Reached(before[name].status, run), res, after[name].status)
  }

  // ----- Why a run stops before it touches any work

  datatype Stop = Reject(state: State) | Wait | Fail

  /** A check fails where its call does, and rejects the manifest where it is not met; otherwise the next one
      decides. */
  function Checked(call: Call, met: bool, next: Option<Stop>, env: Env): Option<Stop>
  {
    if env.fails(call) then Some(Fail) else if !met then Some(Reject(SchedulingFailed)) else next
  }

  /** The cluster set exists, has clusters, is bound to the operator's namespace, and contains the target cluster. */
  function ClusterStop(target: Target, env: Env): Option<Stop>
  {
    Checked(ListClusterSets, env.setExists,
            Checked(ListClusters, !env.setEmpty,
                    Checked(ListBindings, env.setBound,
                            if target.cluster == "" then None else Checked(ListMembers, env.member, None, env),
                            env),
                    env),
            env)
  }

  /** The checks before planning: annotations, target, cluster set. */
  function AdmissionStop(request: Request, env: Env): Option<Stop>
  {
    if !AnnotationsSupported(request.globalAnnotations, request.workloadAnnotations)
    then Some(Reject(MisconfiguredState))
    else if SomeTargetLacksValue(request.globalAnnotations) then Some(Fail)
    else if TargetIn(request.globalAnnotations).clusterSet == "" then Some(Reject(MisconfiguredState))
    else ClusterStop(TargetIn(request.globalAnnotations), env)
  }

  function StopFor(blocker: Blocker): Stop
  {
    match blocker
    case BadManifest => Reject(MisconfiguredState)
    case PlanFailed => Fail
    case PlanWaits => Wait
    case CannotPlace => Reject(SchedulingFailed)
  }

  /** Everything that can stop a run on a live manifest before it pushes its plan. */
  ghost function StopOf(request: Request, env: Env, blueprint: Blueprint): Option<Stop>
  {
    match AdmissionStop(request, env)
    case Some(stop) => Some(stop)
    case None =>
      match BlockerOf(request, TargetIn(request.globalAnnotations), env, blueprint)
      case Some(blocker) => Some(StopFor(blocker))
      case None => None
  }

  /** How a run ends for that reason: the rejection is stored, unless that fails. */
  ghost predicate Ends(stop: Stop, env: Env, res: RunResult, status: Status)
  {
    match stop
    case Reject(state) =>
      if res.Done? then status.state == Some(state) && status.decisions == [] else res.Error? && !Faultless(env)
    case Wait => res.RequeueAfter?
    case Fail => res.Error?
  }

  /** A run stops where something stops it, or where a status cannot be stored. */
  ghost predicate EndsFor(stop: Option<Stop>, env: Env, res: RunResult, status: Status)
  {
    match stop
    case Some(s) => Ends(s, env, res, status)
    case None => res.Error? && !Faultless(env)
  }

  ghost predicate BlockedEnds(blocker: Option<Blocker>, env: Env, res: RunResult, status: Status)
  {
    EndsFor(match blocker case Some(b) => Some(StopFor(b)) case None => None, env, res, status)
  }

  ghost predicate StoppedOk(request: Request, env: Env, res: RunResult, blueprint: Blueprint, status: Status)
  {
    (AdmissionStop(request, env).None? ==> Prepared(request, TargetIn(request.globalAnnotations), blueprint))
    && EndsFor(StopOf(request, env, blueprint), env, res, status)
  }

  // ----- Why a run that has touched works does not settle

  ghost predicate AllApplied(works: map<WorkKey, Work>, owner: string, count: nat, env: Env)
  {
    |Owned(works, owner)| == count && forall k :: k in Owned(works, owner) ==> Passes(env.reported(k))
  }

  ghost predicate SomeRefused(works: map<WorkKey, Work>, owner: string, count: nat, env: Env)
  {
    |Owned(works, owner)| == count && exists k :: k in Owned(works, owner) && FailedStatus(env.reported(k))
  }

  ghost predicate SomeAwaited(works: map<WorkKey, Work>, owner: string, count: nat, env: Env)
  {
    |Owned(works, owner)| != count || exists k :: k in Owned(works, owner) && env.reported(k).manifests == []
  }

  /** It waits for works that are missing, left over or not reported yet; it fails where one was refused; and it ends
      in an error only where a call failed. */
  ghost predicate Unsettled(works: map<WorkKey, Work>, owner: string, env: Env, res: RunResult, plan: seq<BundleV>,
                            status: Status)
  {
    (res.Error? ==> !Faultless(env))
    && (res.RequeueAfter? ==> SomeAwaited(works, owner, |plan|, env))
    && (res.Done? ==> status.state == Some(SchedulingFailed) && status.decisions == Decisions(plan)
                      && SomeRefused(works, owner, |plan|, env))
  }

  /** The connections that a run deletes and registers are those of the recorded bundles and of the plan, or none. */
  predicate Swaps(before: seq<BundleV>, plan: seq<BundleV>, env: Env, dels: seq<Connection>, regs: seq<Connection>)
  {
    (dels == [] || dels == ConnectionsAmong(before)) && (regs == [] || regs == ConnectionsAmong(plan))
    && (dels != [] || regs != [] ==> env.installed)
    && (regs != [] ==> dels == ConnectionsAmong(before))
  }

  predicate FullSwap(before: seq<BundleV>, plan: seq<BundleV>, env: Env, dels: seq<Connection>, regs: seq<Connection>)
  {
    regs == ConnectionsAmong(plan) && (env.installed ==> dels == ConnectionsAmong(before))
  }

  function WarningsOf(): BundleV -> seq<(string, Ref)>
  {
    (v: BundleV) => seq(|v.absent|, i requires 0 <= i < |v.absent| => (v.name, v.absent[i]))
  }

  /** No bundle lists an absent resource. */
  predicate NothingAbsent(plan: seq<BundleV>) { FlatMap(WarningsOf(), plan) == [] }

  /** The stage does not wait, and ends in an error only where a call failed. */
  ghost predicate ErrorOnly(res: RunResult, env: Env) { !res.RequeueAfter? && (res.Error? ==> !Faultless(env)) }

  /** Editing the registry succeeds, or there is nothing to edit or no registry. */
  predicate EditSucceeds(cs: seq<Connection>, network: Option<seq<LinkV>>, site: nat, env: Env)
  {
    cs == [] || !env.installed || NetworkCallsSucceed(network, site, env)
  }

  predicate EndsUnreliable(objects: map<string, Obj>, name: string, plan: seq<BundleV>, env: Env)
  {
    name in objects && objects[name].status.state == Some(UnreliablyScheduled)
    && objects[name].status.decisions == Decisions(plan) && ConnectionsAmong(plan) != [] && !env.installed
  }

  /** A finalising run: what it removes belongs to the object, what it deletes was recorded; once it has forgotten the
      record everything is cleaned up, and only then, and after two more calls, does the object go. */
  ghost predicate FinaliseEffect(pre: Snap, name: string, owner: string, env: Env, res: RunResult, run: Run, post: Snap)
    requires run.Finalised?
  {
    var connections := ConnectionsAmong(RecordOf(pre.record, name));
    && !res.RequeueAfter? && (res.Done? ==> run.forgotten) && (res.Error? ==> !Faultless(env))
    && run.removed <= Owned(pre.works, owner) && post.works == pre.works - run.removed
    && LinksOf(post.network) == DeleteAll(LinksOf(pre.network), run.dels)
    && (run.dels == [] || (run.dels == connections && env.installed))
    && post.record == (if run.forgotten then pre.record - {name} else pre.record)
    && (run.forgotten ==> run.removed == Owned(pre.works, owner) && (env.installed ==> run.dels == connections))
  }

  ghost predicate FinaliseOk(pre: Snap, name: string, owner: string, env: Env, res: RunResult, run: Run, post: Snap)
    requires run.Finalised?
  {
    FinaliseEffect(pre, name, owner, env, res, run, post)
    && if res.Done? then name in pre.objects && post.objects == pre.objects - {name}
       else OnlyStatus(pre.objects, name, post.objects)
  }

  /** The works after a run that got as far as `p`. */
  ghost predicate WorksOk(pre: Snap, name: string, owner: string, env: Env, plan: seq<BundleV>, p: Progress, post: Snap)
  {
    var before := RecordOf(pre.record, name);
    && p.cleaned <= |before| && p.written <= |plan| && (p.written > 0 ==> p.cleaned == |before|)
    && post.works == Written(Cleaned(pre.works, before, plan, env, p.cleaned), plan, owner, p.written)
  }

  ghost predicate EditsDone(pre: Snap, name: string, plan: seq<BundleV>, p: Progress)
  {
    p.cleaned == |RecordOf(pre.record, name)| && p.written == |plan|
  }

  /** The registry and the record after it. */
  ghost predicate NetworkOk(pre: Snap, name: string, env: Env, plan: seq<BundleV>, p: Progress, post: Snap)
  {
    && LinksOf(post.network) == RegisterAll(DeleteAll(LinksOf(pre.network), p.dels), p.regs)
    && Swaps(RecordOf(pre.record, name), plan, env, p.dels, p.regs)
    && post.record == (if p.recorded then pre.record[name := plan] else pre.record)
  }

  predicate Settles(res: RunResult, status: Status) { res.Done? && SettledState(status.state) }

  /** A settled run has cleaned up and written everything; the works on the hub are as many as the bundles, and all
      pass. */
  ghost predicate WorksSettled(pre: Snap, name: string, owner: string, env: Env, plan: seq<BundleV>,
                               p: Progress, post: Snap)
  {
    EditsDone(pre, name, plan, p) && AllApplied(post.works, owner, |plan|, env)
  }

  /** How it ends: the decisions are those of the plan; where the registry is missing but needed it is unreliable, and
      otherwise the connections have been swapped, and it is tentative exactly when there are more manifests than
      placed. */
  predicate EndSettled(before: seq<BundleV>, env: Env, plan: seq<BundleV>, count: nat, p: Progress, status: Status)
  {
    && status.decisions == Decisions(plan)
    && (status.state == Some(UnreliablyScheduled) ==> ConnectionsAmong(plan) != [] && !env.installed)
    && (status.state != Some(UnreliablyScheduled) ==>
          FullSwap(before, plan, env, p.dels, p.regs)
          && (status.state == Some(TentativelyScheduled) <==> count > Placed(plan)))
  }

  /** A run is recorded exactly when it ends as successful with nothing absent. */
  predicate RecordedOk(res: RunResult, plan: seq<BundleV>, p: Progress, status: Status)
  {
    p.recorded <==> res.Done? && status.state == Some(SchedulingSuccessful) && NothingAbsent(plan)
  }

  ghost predicate FinishOk(pre: Snap, name: string, env: Env, res: RunResult, plan: seq<BundleV>,
                           p: Progress, post: Snap)
  {
    && name in pre.objects && name in post.objects && post.works == pre.works
    && NetworkOk(pre, name, env, plan, p, post)
    && RecordedOk(res, plan, p, post.objects[name].status)
    && !res.RequeueAfter? && (res.Error? ==> !Faultless(env))
    && (res.Done? ==> SettledState(post.objects[name].status.state))
    && (Settles(res, post.objects[name].status) ==>
          EndSettled(RecordOf(pre.record, name), env, plan, |pre.objects[name].request.manifests|, p,
                     post.objects[name].status))
  }

  lemma RollFinished(pre: Snap, pushed: Snap, name: string, owner: string, env: Env, res: RunResult, plan: seq<BundleV>,
                     works: Progress, p: Progress, post: Snap)
    requires pushed == pre.(works := pushed.works) && p.cleaned == works.cleaned && p.written == works.written
    requires WorksOk(pre, name, owner, env, plan, works, pushed)
    requires WorksSettled(pre, name, owner, env, plan, works, pushed)
    requires FinishOk(pushed, name, env, res, plan, p, post)
    ensures RollOk(pre, name, owner, env, res, plan, p, post)
  {
  }

  lemma RollStopped(pre: Snap, name: string, owner: string, env: Env, res: RunResult, plan: seq<BundleV>,
                    p: Progress, post: Snap)
    requires name in pre.objects && Stops(pre.objects, name, res, post.objects)
    requires Unsettled(post.works, owner, env, res, plan, post.objects[name].status)
    requires !res.Error? ==> EditsDone(pre, name, plan, p)
    requires post.network == pre.network && post.record == pre.record
    requires p == Progress(p.cleaned, p.written, [], [], false) && WorksOk(pre, name, owner, env, plan, p, post)
    ensures RollOk(pre, name, owner, env, res, plan, p, post)
  {
  }

  ghost predicate Untouched(pre: Snap, post: Snap)
  {
    post.works == pre.works && post.network == pre.network && post.record == pre.record
  }

  ghost predicate PushedOk(pre: Snap, name: string, owner: string, env: Env, res: RunResult, run: Run, post: Snap)
    requires run.Pushed? && name in pre.objects && name in post.objects
  {
    && run.target == TargetIn(pre.objects[name].request.globalAnnotations)
    && PlanOk(run.plan)
    && StopOf(pre.objects[name].request, env, run.blueprint).None?
    && PlanFrom(pre.objects[name].request, run.target, env, run.blueprint, run.plan)
    && RollOk(pre, name, owner, env, res, run.plan, run.progress, post)
  }

  ghost predicate RollOk(pre: Snap, name: string, owner: string, env: Env, res: RunResult, plan: seq<BundleV>,
                         p: Progress, post: Snap)
    requires name in pre.objects && name in post.objects
  {
    var status := post.objects[name].status;
    && WorksOk(pre, name, owner, env, plan, p, post)
    && NetworkOk(pre, name, env, plan, p, post)
    && RecordedOk(res, plan, p, status)
    && (!res.Error? ==> EditsDone(pre, name, plan, p))
    && (!Settles(res, status) ==> Unsettled(post.works, owner, env, res, plan, status))
    && (Settles(res, status) ==>
          WorksSettled(pre, name, owner, env, plan, p, post)
          && EndSettled(RecordOf(pre.record, name), env, plan, |pre.objects[name].request.manifests|, p, status))
  }

  /** The beginning of a run changes nothing but status and finalizer, and does not take the finalizer away. */
  predicate Begun(before: map<string, Obj>, name: string, after: map<string, Obj>)
  {
    name in before && name in after && StatusOk(after[name].status)
    && (before[name].finalizer ==> after[name].finalizer)
    && after == before[name := before[name].(status := after[name].status, finalizer := after[name].finalizer)]
  }

  /** A run that ends in an error leaves the state of a live manifest as it found it, or in progress. */
  predicate ErrorKeeps(before: map<string, Obj>, name: string, res: RunResult, after: map<string, Obj>)
  {
    res.Error? && name in before && name in after ==>
      after[name].status == before[name].status || after[name].status.state == Some(SchedulingInProgress)
  }

  /** The status a run begins with: a new manifest, and a live one that is not in progress, is marked as in progress. */
  function InProgressState(obj: Obj): Status
  {
    if obj.status.conditions == [] || (!obj.deleting && obj.status.state != Some(SchedulingInProgress))
    then SetStatus(obj.status, SchedulingInProgress, [])
    else obj.status
  }

  /** A run does nothing for a manifest only outside the namespace of the operator, or where a call failed. */
  ghost predicate NothingOk(env: Env, res: RunResult, obj: Obj)
  {
    !res.RequeueAfter? && (res.Error? ==> !Faultless(env))
    && (res.Done? ==> !obj.inSchedulerNamespace && obj.status.state == Some(MisconfiguredState))
  }

  // ----- What a run tells of its status and of its calls

  /** How the status comes about: from the one that the run begins with, by the announcement of the decisions and by the
      state that the run ends in. A run that does nothing does not add the finalizer either. */
  ghost predicate StatusTold(obj: Obj, res: RunResult, run: Run, after: Obj)
  {
    var begun := InProgressState(obj);
    match run
    case Nothing =>
      after.finalizer == obj.finalizer
      && if res.Done? then after.status == SetStatus(begun, MisconfiguredState, [])
         else after.status in {obj.status, begun}
    case Finalised(_, _, _) =>
      after.finalizer && (res.Done? || after.status in {begun, SetStatus(begun, Finalizing, [])})
    case _ => after.finalizer && StatusStep(Reached(begun, run), res, after.status)
  }

  /** The edits stop where a call fails, and nowhere else; and a run that ends without an error has listed its works. */
  ghost predicate EditCalls(works: map<WorkKey, Work>, before: seq<BundleV>, owner: string, env: Env, res: RunResult,
                            plan: seq<BundleV>, p: Progress)
  {
    && p.cleaned <= |before| && CleanedUntil(works, before, plan, env, p.cleaned)
    && (p.cleaned == |before| ==>
          WrittenUntil(Cleaned(works, before, plan, env, |before|), plan, owner, env, p.written))
    && (!res.Error? ==> !env.fails(ListOwned))
  }

  /** Links are touched only when all works are pushed and applied. */
  ghost predicate LinksLast(before: seq<BundleV>, works: map<WorkKey, Work>, owner: string, env: Env,
                            plan: seq<BundleV>, p: Progress)
  {
    p.dels != [] || p.regs != [] || p.recorded ==>
      p.cleaned == |before| && p.written == |plan| && AllApplied(works, owner, |plan|, env)
  }

  /** What is done to the registry is done by calls that succeed, and a settled run has asked whether there is one. */
  predicate SwapCalls(network: Option<seq<LinkV>>, env: Env, settled: bool, dels: seq<Connection>,
                      regs: seq<Connection>)
  {
    && (settled || dels != [] || regs != [] ==> !env.fails(CheckInstalled))
    && (dels != [] ==> NetworkCallsSucceed(network, 0, env))
    && (regs != [] ==> !env.fails(FetchNetwork(1)) && !env.fails(UpdateNetwork(1)))
  }

  /** The record is forgotten after all these calls, with which the links go too, and the object goes after one more. */
  predicate FinaliseCalls(works: map<WorkKey, Work>, network: Option<seq<LinkV>>, owner: string, env: Env,
                          res: RunResult, dels: seq<Connection>, forgotten: bool)
  {
    && (dels != [] ==> forgotten)
    && (forgotten ==> DeletionsSucceed(|Owned(works, owner)|, env) && !env.fails(CheckInstalled)
                      && (env.installed ==> NetworkCallsSucceed(network, 0, env)))
    && (res.Done? ==> !env.fails(DropFinalizer))
  }

  ghost predicate CallsTold(pre: Snap, name: string, env: Env, res: RunResult, run: Run, settled: bool,
                            works: map<WorkKey, Work>)
    requires name in pre.objects
  {
    && (!run.Nothing? ==> !env.fails(FetchObject) && (!pre.objects[name].finalizer ==> !env.fails(WriteFinalizer)))
    && match run
       case Pushed(_, _, plan, p) =>
         EditCalls(pre.works, RecordOf(pre.record, name), Truncate(name), env, res, plan, p)
         && SwapCalls(pre.network, env, settled, p.dels, p.regs)
         && LinksLast(RecordOf(pre.record, name), works, Truncate(name), env, plan, p)
       case Finalised(_, dels, forgotten) =>
         FinaliseCalls(pre.works, pre.network, Truncate(name), env, res, dels, forgotten)
       case _ => true
  }

  /** Both, folded up: a proof looks inside only where it mentions `Reported(run)`. */
  ghost predicate Told(pre: Snap, name: string, env: Env, res: RunResult, run: Run, post: Snap)
  {
    forall r: Run {:trigger Reported(r)} :: r == run && Reported(r) && name in pre.objects ==>
      CallsTold(pre, name, env, res, r, name in post.objects && Settles(res, post.objects[name].status), post.works)
      && (name in post.objects ==> StatusTold(pre.objects[name], res, r, post.objects[name]))
  }

  predicate Reported(run: Run) { true }

  /** What one run does, whatever the environment answers. */
  ghost predicate RunOk(pre: Snap, name: string, env: Env, res: RunResult, run: Run, post: Snap)
  {
    var owner := Truncate(name);
    && (if run.Finalised? && res.Done? then name in pre.objects && post.objects == pre.objects - {name}
        else if name in pre.objects && !env.fails(FetchObject) then Begun(pre.objects, name, post.objects)
        else run.Nothing? && post.objects == pre.objects)
    && (name in post.objects && !post.objects[name].deleting && !env.fails(FetchObject) ==>
          NoStall(res, post.objects[name].status) && ErrorKeeps(pre.objects, name, res, post.objects))
    && (name in pre.objects && !run.Nothing? ==> pre.objects[name].inSchedulerNamespace)
    && Told(pre, name, env, res, run, post)
    && match run
       case Nothing => Untouched(pre, post) && (name in post.objects ==> NothingOk(env, res, post.objects[name]))
       case Stopped(blueprint) =>
         && Untouched(pre, post) && name in post.objects && !pre.objects[name].deleting
         && StoppedOk(pre.objects[name].request, env, res, blueprint, post.objects[name].status)
       case Pushed(_, _, _, _) =>
         && name in post.objects && post.objects[name].finalizer && !pre.objects[name].deleting
         && PushedOk(pre, name, owner, env, res, run, post)
       case Finalised(_, _, _) =>
         && pre.objects[name].deleting && FinaliseEffect(pre, name, owner, env, res, run, post)
         && (!res.Done? ==> name in post.objects && post.objects[name].finalizer)
  }

  lemma PushedAfter(pre: Snap, begun: Snap, name: string, owner: string, env: Env, res: RunResult, run: Run, post: Snap)
    requires OnlyStatus(pre.objects, name, begun.objects) && begun == pre.(objects := begun.objects)
    requires run.Pushed? && PlanOk(run.plan)
    requires begun.objects[name].status == Announced(pre.objects[name].status, run.target, run.plan)
    requires run.target == TargetIn(pre.objects[name].request.globalAnnotations)
    requires PlanFrom(pre.objects[name].request, run.target, env, run.blueprint, run.plan)
    requires StopOf(pre.objects[name].request, env, run.blueprint).None?
    requires Stops(begun.objects, name, res, post.objects)
    requires RollOk(begun, name, owner, env, res, run.plan, run.progress, post)
    ensures Ended(pre.objects, name, res, run, post.objects)
    ensures PushedOk(pre, name, owner, env, res, run, post)
  {
    OnlyStatusTwice(pre.objects, begun.objects, name, post.objects);
  }

  lemma RunKeepsObjects(pre: Snap, name: string, env: Env, res: RunResult, run: Run, post: Snap)
    requires RunOk(pre, name, env, res, run, post) && WellKept(pre.objects)
    ensures WellKept(post.objects)
  {
  }

  lemma IdleRun(pre: Snap, name: string, env: Env, res: RunResult)
    requires if env.fails(FetchObject) then res == Error else res == Done && name !in pre.objects
    ensures RunOk(pre, name, env, res, Nothing, pre)
  {
  }

  lemma NothingAfter(pre: Snap, name: string, env: Env, res: RunResult, post: Snap)
    requires !env.fails(FetchObject) && Begun(pre.objects, name, post.objects) && Untouched(pre, post)
    requires NothingOk(env, res, post.objects[name])
    requires StatusTold(pre.objects[name], res, Nothing, post.objects[name])
    requires !post.objects[name].deleting ==> ErrorKeeps(pre.objects, name, res, post.objects)
    ensures RunOk(pre, name, env, res, Nothing, post)
  {
  }

  /** A live manifest whose run has begun. */
  predicate IsLive(objects: map<string, Obj>, name: string)
  {
    IsBusy(objects, name) && !objects[name].deleting && objects[name].finalizer && objects[name].inSchedulerNamespace
  }

  lemma ScheduleAfter(pre: Snap, begun: Snap, name: string, env: Env, res: RunResult, run: Run, post: Snap)
    requires Begun(pre.objects, name, begun.objects) && begun == pre.(objects := begun.objects)
    requires !env.fails(FetchObject) && IsLive(begun.objects, name)
    requires begun.objects[name].status == InProgressState(pre.objects[name])
    requires Ended(begun.objects, name, res, run, post.objects) && !run.Finalised? && !run.Nothing?
    requires CallsTold(pre, name, env, res, run, Settles(res, post.objects[name].status), post.works)
    requires run.Stopped? ==>
               Untouched(begun, post)
               && StoppedOk(begun.objects[name].request, env, res, run.blueprint, post.objects[name].status)
    requires run.Pushed? ==> PushedOk(begun, name, Truncate(name), env, res, run, post)
    ensures RunOk(pre, name, env, res, run, post)
  {
  }

  lemma FinaliseAfter(pre: Snap, begun: Snap, name: string, env: Env, res: RunResult, run: Run, post: Snap)
    requires Begun(pre.objects, name, begun.objects) && begun == pre.(objects := begun.objects)
    requires !env.fails(FetchObject) && begun.objects[name].deleting && begun.objects[name].finalizer
    requires begun.objects[name].inSchedulerNamespace
    requires begun.objects[name].status == InProgressState(pre.objects[name])
    requires run.Finalised? && FinaliseOk(begun, name, Truncate(name), env, res, run, post)
    requires CallsTold(pre, name, env, res, run, false, post.works)
    requires !res.Done? ==> StatusTold(pre.objects[name], res, run, post.objects[name])
    ensures RunOk(pre, name, env, res, run, post)
  {
    assert begun.objects - {name} == pre.objects - {name};
  }

  // ----- The reconciler

  ghost predicate Remembers(footprint: set<Bundle>, bs: seq<Bundle>, views: seq<BundleV>)
    reads footprint
  {
    (forall b :: b in bs ==> b in footprint) && Shows(bs, views) && PlanOk(views)
  }

  lemma StillRemembered(footprint: set<Bundle>, more: set<Bundle>, bs: seq<Bundle>, views: seq<BundleV>)
    requires Remembers(footprint, bs, views) && footprint <= more
    ensures Remembers(more, bs, views)
  {
  }

  class Reconciler {
    const hub: Hub
    /** The bundles of the last recorded run of each manifest. */
    var bundles: map<string, seq<Bundle>>
    var ownerLabel: string
    /** Their values, and the bundle objects that have ever been remembered. */
    ghost var record: map<string, seq<BundleV>>
    ghost var footprint: set<Bundle>

    ghost predicate Valid()
      reads this, footprint
    {
      bundles.Keys == record.Keys && forall n :: n in bundles ==> Remembers(footprint, bundles[n], record[n])
    }

    ghost function Snapshot(): Snap
      reads this, hub
    {
      Snap(hub.objects, hub.works, hub.network, record)
    }

    constructor (hub: Hub)
      ensures Valid() && record == map[] && this.hub == hub
    {
      this.hub := hub;
      bundles, ownerLabel, record, footprint := map[], "", map[], {};
    }

    method RecordedBundles(name: string) returns (existing: seq<Bundle>)
      requires Valid()
      ensures Shows(existing, RecordOf(record, name)) && PlanOk(RecordOf(record, name))
      ensures forall k :: 0 <= k < |existing| ==> allocated(existing[k])
    {
      if name in bundles {
        existing := bundles[name];
      } else {
        existing := [];
      }
    }

    method UpdateStatus(name: string, state: State, decisions: seq<Decision>, site: nat, env: Env) returns (ok: bool)
      requires name in hub.objects && StatusOk(hub.objects[name].status)
      modifies hub`objects
      ensures OnlyStatus(old(hub.objects), name, hub.objects)
      ensures hub.objects[name].status == if ok then SetStatus(old(hub.objects)[name].status, state, decisions)
                                          else old(hub.objects)[name].status
      ensures ok <==> !env.fails(WriteStatus(site))
    {
      var obj := hub.objects[name];
      assert obj.(status := obj.status) == obj;
      if env.fails(WriteStatus(site)) {
        return false;
      }
      SetStatusOk(obj.status, state, decisions);
      hub.objects := hub.objects[name := obj.(status := SetStatus(obj.status, state, decisions))];
      return true;
    }

    /** Ends the run with the given state, or with an error when that cannot be stored. */
    method Settle(name: string, state: State, decisions: seq<Decision>, site: nat, env: Env) returns (res: RunResult)
      requires name in hub.objects && StatusOk(hub.objects[name].status) && state != SchedulingInProgress
      modifies hub`objects
      ensures Stops(old(hub.objects), name, res, hub.objects)
      ensures res == if env.fails(WriteStatus(site)) then Error else Done
      ensures res.Done? ==> hub.objects[name].status == SetStatus(old(hub.objects)[name].status, state, decisions)
    {
      var ok := UpdateStatus(name, state, decisions, site, env);
      return if ok then Done else Error;
    }

    // ----- Checks before planning

    method Preflight(name: string, env: Env) returns (stop: Option<RunResult>, target: Target)
      requires IsBusy(hub.objects, name)
      modifies hub`objects
      ensures stop.None? ==> hub.objects == old(hub.objects) && AdmissionStop(hub.objects[name].request, env).None?
                             && target == TargetIn(hub.objects[name].request.globalAnnotations)
      ensures stop.Some? ==> Stops(old(hub.objects), name, stop.value, hub.objects)
                             && AdmissionStop(old(hub.objects)[name].request, env).Some?
                             && Ends(AdmissionStop(old(hub.objects)[name].request, env).value, env, stop.value,
                                     hub.objects[name].status)
    {
      var request := hub.objects[name].request;
      target := Target("", "");
      var supported := ValidateAnnotationsSupported(request.globalAnnotations, request.workloadAnnotations);
      if !supported {
        var res := Settle(name, MisconfiguredState, [], 10, env);
        return Some(res), target;
      }
      var extracted := ExtractTarget(request.globalAnnotations);
      if extracted.Panicked? { return Some(Error), target; }
      if !extracted.Ok? {
        var res := Settle(name, MisconfiguredState, [], 11, env);
        return Some(res), target;
      }
      target := extracted.value;
      stop := CheckClusters(name, target, env);
    }

    /** One check: an error where its call fails, a rejection where it is not met. */
    method Check(name: string, call: Call, met: bool, site: nat, env: Env) returns (stop: Option<RunResult>)
      requires IsBusy(hub.objects, name)
      modifies hub`objects
      ensures stop.None? <==> !env.fails(call) && met
      ensures stop.None? ==> hub.objects == old(hub.objects)
      ensures stop.Some? ==> Stops(old(hub.objects), name, stop.value, hub.objects)
                             && Ends(if env.fails(call) then Fail else Reject(SchedulingFailed), env, stop.value,
                                     hub.objects[name].status)
    {
      assert hub.objects[name := hub.objects[name].(status := hub.objects[name].status)] == hub.objects;
      if env.fails(call) {
        return Some(Error);
      }
      if !met {
        var res := Settle(name, SchedulingFailed, [], site, env);
        return Some(res);
      }
      return None;
    }

    /** The checks of the cluster set, one after the other. */
    method CheckClusters(name: string, target: Target, env: Env) returns (stop: Option<RunResult>)
      requires IsBusy(hub.objects, name)
      modifies hub`objects
      ensures stop.None? ==> hub.objects == old(hub.objects) && ClusterStop(target, env).None?
      ensures stop.Some? ==> Stops(old(hub.objects), name, stop.value, hub.objects) && ClusterStop(target, env).Some?
                             && Ends(ClusterStop(target, env).value, env, stop.value, hub.objects[name].status)
    {
      stop := Check(name, ListClusterSets, env.setExists, 12, env);
      if stop.Some? {
        return;
      }
      stop := Check(name, ListClusters, !env.setEmpty, 13, env);
      if stop.Some? {
        return;
      }
      stop := Check(name, ListBindings, env.setBound, 14, env);
      if stop.Some? || target.cluster == "" {
        return;
      }
      stop := Check(name, ListMembers, env.member, 15, env);
    }

    // ----- Planning

    method Plan(name: string, target: Target, env: Env)
      returns (r: Result<seq<Bundle>>, res: RunResult, ghost plan: seq<BundleV>, ghost blueprint: Blueprint)
      requires IsBusy(hub.objects, name)
      modifies hub`objects
      ensures r.Ok? ==> Shows(r.value, plan) && (forall k :: 0 <= k < |r.value| ==> fresh(r.value[k]))
                        && PlanFrom(old(hub.objects)[name].request, target, env, blueprint, plan) && PlanOk(plan)
                        && OnlyStatus(old(hub.objects), name, hub.objects) && IsBusy(hub.objects, name)
                        && hub.objects[name].status == Announced(old(hub.objects)[name].status, target, plan)
                        && BlockerOf(old(hub.objects)[name].request, target, env, blueprint).None?
      ensures !r.Ok? ==> Stops(old(hub.objects), name, res, hub.objects)
                         && Prepared(old(hub.objects)[name].request, target, blueprint)
                         && BlockedEnds(BlockerOf(old(hub.objects)[name].request, target, env, blueprint), env, res,
                                        hub.objects[name].status)
    {
      var planned;
      planned, plan, blueprint := MakePlan(hub.objects[name].request, target, env);
      res := Error;
      assert hub.objects[name := hub.objects[name].(status := hub.objects[name].status)] == hub.objects;
      match planned {
        case Blocked(blocker) =>
          match blocker {
            case BadManifest => res := Settle(name, MisconfiguredState, [], 20, env);
            case PlanFailed => res := Error;
            case PlanWaits => res := RequeueAfter;
            case CannotPlace => res := Settle(name, SchedulingFailed, [], 21, env);
          }
          return Failed, res, plan, blueprint;
        case Planned(bs) =>
          if target.cluster == "" {
            var decisions := GetSchedulingDecisions(bs, plan);
            var ok := UpdateStatus(name, SchedulingInProgress, decisions, 22, env);
            if !ok {
              return Failed, Error, plan, blueprint;
            }
          }
          return Ok(bs), res, plan, blueprint;
      }
    }

    /** From the request to located bundles. */
    method Prepare(name: string, env: Env)
      returns (r: Result<seq<Bundle>>, res: RunResult, ghost target: Target, ghost plan: seq<BundleV>,
               ghost blueprint: Blueprint)
      requires IsBusy(hub.objects, name)
      modifies hub`objects
      ensures r.Ok? ==> Shows(r.value, plan) && (forall k :: 0 <= k < |r.value| ==> fresh(r.value[k])) && PlanOk(plan)
                        && target == TargetIn(old(hub.objects)[name].request.globalAnnotations)
                        && PlanFrom(old(hub.objects)[name].request, target, env, blueprint, plan)
                        && StopOf(old(hub.objects)[name].request, env, blueprint).None?
                        && OnlyStatus(old(hub.objects), name, hub.objects) && IsBusy(hub.objects, name)
                        && hub.objects[name].status == Announced(old(hub.objects)[name].status, target, plan)
      ensures !r.Ok? ==> Stops(old(hub.objects), name, res, hub.objects)
                         && StoppedOk(old(hub.objects)[name].request, env, res, blueprint, hub.objects[name].status)
    {
      var stop, given := Preflight(name, env);
      target, plan, blueprint := given, [], Blueprint([], [], [], []);
      if stop.Some? {
        return Failed, stop.value, target, plan, blueprint;
      }
      r, res, plan, blueprint := Plan(name, given, env);
    }

    // ----- Pushing the works

    /** Cleans up the works of the recorded bundles, then writes those of the plan. */
    method EditWorks(name: string, bs: seq<Bundle>, env: Env, ghost plan: seq<BundleV>)
      returns (ok: bool, placed: nat, ghost cleaned: nat, ghost written: nat)
      requires Valid() && Shows(bs, plan)
      modifies hub`works
      ensures cleaned <= |RecordOf(record, name)| && written <= |plan|
      ensures written > 0 ==> cleaned == |RecordOf(record, name)|
      ensures ok <==> cleaned == |RecordOf(record, name)| && written == |plan|
      ensures CleanedUntil(old(hub.works), RecordOf(record, name), plan, env, cleaned)
      ensures cleaned == |RecordOf(record, name)| ==>
                WrittenUntil(Cleaned(old(hub.works), RecordOf(record, name), plan, env, cleaned), plan, ownerLabel, env,
                             written)
      ensures hub.works == Written(Cleaned(old(hub.works), RecordOf(record, name), plan, env, cleaned), plan,
                                   ownerLabel, written)
      ensures if ok then placed == Placed(plan) else !Faultless(env)
    {
      var existing := RecordedBundles(name);
      placed, written := 0, 0;
      ok, cleaned := CleanUp(hub, existing, bs, env, RecordOf(record, name), plan);
      if ok {
        ok, placed, written := WriteWorks(hub, bs, ownerLabel, env, plan);
      }
    }

    /** Goes on only when the works on the hub are as many as the bundles, and all of them applied. */
    method AwaitWorks(name: string, bs: seq<Bundle>, env: Env, ghost plan: seq<BundleV>)
      returns (stop: Option<RunResult>)
      requires Shows(bs, plan) && IsBusy(hub.objects, name)
      modifies hub`objects
      ensures stop != Some(Error) ==> !env.fails(ListOwned)
      ensures stop.None? ==> hub.objects == old(hub.objects) && AllApplied(hub.works, ownerLabel, |plan|, env)
      ensures stop.Some? ==>
                Stops(old(hub.objects), name, stop.value, hub.objects)
                && Unsettled(hub.works, ownerLabel, env, stop.value, plan, hub.objects[name].status)
    {
      assert hub.objects[name := hub.objects[name].(status := hub.objects[name].status)] == hub.objects;
      var verdict := CheckApplied(hub, |bs|, ownerLabel, env);
      match verdict {
        case Unlisted => return Some(Error);
        case Waiting => return Some(RequeueAfter);
        case Refused =>
          var decisions := GetSchedulingDecisions(bs, plan);
          var res := Settle(name, SchedulingFailed, decisions, 30, env);
          return Some(res);
        case Applied => return None;
      }
    }

    // ----- Swapping the network connections

    /** Deletes the connections of the recorded bundles, if there are any and the registry is installed. */
    method DropOld(name: string, env: Env) returns (ok: bool, ghost dels: seq<Connection>)
      requires Valid()
      modifies hub`network
      ensures LinksOf(hub.network) == DeleteAll(LinksOf(old(hub.network)), dels)
      ensures dels == [] || (dels == ConnectionsAmong(RecordOf(record, name)) && env.installed)
      ensures if !ok then dels == [] else env.installed ==> dels == ConnectionsAmong(RecordOf(record, name))
      ensures ok <==> EditSucceeds(ConnectionsAmong(RecordOf(record, name)), old(hub.network), 0, env)
    {
      dels := [];
      var existing := RecordedBundles(name);
      var connections := GetNetworkConnections(existing, RecordOf(record, name));
      if |connections.value| != 0 && env.installed {
        ok := DeleteNetworkLinks(hub, connections.value, 0, env);
        if ok {
          dels := connections.value;
        }
        return;
      }
      return true, dels;
    }

    /** Registers the connections of the plan; where there are some but no registry, the run ends as unreliable. */
    method RegisterNew(name: string, bs: seq<Bundle>, env: Env, ghost plan: seq<BundleV>)
      returns (stop: Option<RunResult>, ghost regs: seq<Connection>)
      requires Shows(bs, plan) && PlanOk(plan) && IsBusy(hub.objects, name)
      modifies hub`network, hub`objects
      ensures LinksOf(hub.network) == RegisterAll(LinksOf(old(hub.network)), regs)
      ensures regs == [] || (regs == ConnectionsAmong(plan) && env.installed)
      ensures regs != [] ==> NetworkCallsSucceed(old(hub.network), 1, env)
      ensures stop.None? <==> EditSucceeds(ConnectionsAmong(plan), old(hub.network), 1, env)
                              && (ConnectionsAmong(plan) == [] || env.installed)
      ensures stop.None? ==> hub.objects == old(hub.objects) && regs == ConnectionsAmong(plan)
      ensures stop.Some? ==> Stops(old(hub.objects), name, stop.value, hub.objects) && ErrorOnly(stop.value, env)
      ensures stop == Some(Done) ==> EndsUnreliable(hub.objects, name, plan, env)
    {
      regs := [];
      assert hub.objects[name := hub.objects[name].(status := hub.objects[name].status)] == hub.objects;
      var connections := GetNetworkConnections(bs, plan);
      if |connections.value| != 0 {
        if !env.installed {
          var decisions := GetSchedulingDecisions(bs, plan);
          var res := Settle(name, UnreliablyScheduled, decisions, 40, env);
          return Some(res), regs;
        }
        var ok := RegisterNetworkLinks(hub, connections.value, 1, env);
        if !ok {
          return Some(Error), regs;
        }
        regs := connections.value;
      }
      return None, regs;
    }

    method Swap(name: string, bs: seq<Bundle>, env: Env, ghost plan: seq<BundleV>)
      returns (stop: Option<RunResult>, ghost dels: seq<Connection>, ghost regs: seq<Connection>)
      requires Valid() && Shows(bs, plan) && PlanOk(plan) && IsBusy(hub.objects, name)
      modifies hub`network, hub`objects
      ensures LinksOf(hub.network) == RegisterAll(DeleteAll(LinksOf(old(hub.network)), dels), regs)
      ensures Swaps(RecordOf(record, name), plan, env, dels, regs)
      ensures SwapCalls(old(hub.network), env, stop != Some(Error), dels, regs)
      ensures stop.None? ==> hub.objects == old(hub.objects) && FullSwap(RecordOf(record, name), plan, env, dels, regs)
      ensures stop.Some? ==> Stops(old(hub.objects), name, stop.value, hub.objects) && ErrorOnly(stop.value, env)
      ensures stop == Some(Done) ==> EndsUnreliable(hub.objects, name, plan, env)
    {
      dels, regs := [], [];
      assert hub.objects[name := hub.objects[name].(status := hub.objects[name].status)] == hub.objects;
      if env.fails(CheckInstalled) {
        return Some(Error), dels, regs;
      }
      var ok;
      ok, dels := DropOld(name, env);
      if !ok {
        return Some(Error), dels, regs;
      }
      stop, regs := RegisterNew(name, bs, env, plan);
    }

    // ----- Concluding

    method Conclude(name: string, bs: seq<Bundle>, placed: nat, env: Env, ghost plan: seq<BundleV>)
      returns (res: RunResult, ghost recorded: bool)
      requires Valid() && Shows(bs, plan) && PlanOk(plan) && IsBusy(hub.objects, name)
      modifies this`bundles, this`record, this`footprint, hub`objects
      ensures Valid() && record == if recorded then old(record)[name := plan] else old(record)
      ensures Stops(old(hub.objects), name, res, hub.objects) && ErrorOnly(res, env)
      ensures res.Done? ==> hub.objects[name].status.decisions == Decisions(plan)
                            && hub.objects[name].status.state
                               == Some(if |old(hub.objects)[name].request.manifests| > placed then TentativelyScheduled
                                       else SchedulingSuccessful)
      ensures recorded <==> res.Done? && |old(hub.objects)[name].request.manifests| <= placed && NothingAbsent(plan)
    {
      recorded := false;
      var decisions := GetSchedulingDecisions(bs, plan);
      if |hub.objects[name].request.manifests| > placed {
        res := Settle(name, TentativelyScheduled, decisions, 50, env);
        return;
      }
      var warnings := AbsentWarnings(bs, plan);
      res := Settle(name, SchedulingSuccessful, decisions, 51, env);
      if |warnings| == 0 && res.Done? {
        Remember(name, bs, plan);
        recorded := true;
      }
    }

    method Remember(name: string, bs: seq<Bundle>, ghost plan: seq<BundleV>)
      requires Valid() && Shows(bs, plan) && PlanOk(plan)
      modifies this`bundles, this`record, this`footprint
      ensures Valid() && record == old(record)[name := plan]
    {
      ghost var more := footprint + set b | b in bs;
      forall n | n in bundles ensures Remembers(more, bundles[n], record[n]) {
        StillRemembered(footprint, more, bundles[n], record[n]);
      }
      assert Remembers(more, bs, plan);
      footprint := more;
      bundles := bundles[name := bs];
      record := record[name := plan];
    }

    method Forget(name: string)
      requires Valid()
      modifies this`bundles, this`record
      ensures Valid() && record == old(record) - {name}
    {
      bundles := bundles - {name};
      record := record - {name};
    }

    /** The warnings about absent resources, one for each resource that a bundle misses. */
    static method AbsentWarnings(bs: seq<Bundle>, ghost plan: seq<BundleV>) returns (warnings: seq<(string, Ref)>)
      requires Shows(bs, plan)
      ensures warnings == FlatMap(WarningsOf(), plan)
    {
      warnings := [];
      for i := 0 to |bs|
        invariant warnings == FlatMap(WarningsOf(), plan[..i])
      {
        assert bs[i].View() == plan[i];
        FlatMapStep(WarningsOf(), plan, i);
        ghost var before := warnings;
        var absent := bs[i].absent;
        for j := 0 to |absent|
          invariant warnings == before + WarningsOf()(plan[i])[..j]
        {
          warnings := warnings + [(bs[i].name, absent[j])];
        }
        assert WarningsOf()(plan[i])[..|absent|] == WarningsOf()(plan[i]);
      }
      assert plan[..|bs|] == plan;
    }

    // ----- Finalising

    /** The clean-up before a manifest may go: its works, its recorded connections, and the record itself. */
    method CleanUpForDeletion(name: string, env: Env)
      returns (ok: bool, ghost removed: set<WorkKey>, ghost dels: seq<Connection>)
      requires Valid()
      modifies hub`works, hub`network, this`bundles, this`record
      ensures Valid() && record == if ok then old(record) - {name} else old(record)
      ensures removed <= Owned(old(hub.works), ownerLabel) && hub.works == old(hub.works) - removed
      ensures LinksOf(hub.network) == DeleteAll(LinksOf(old(hub.network)), dels)
      ensures dels == [] || (dels == ConnectionsAmong(RecordOf(old(record), name)) && env.installed)
      ensures !ok ==> dels == []
      ensures ok <==> DeletionsSucceed(|Owned(old(hub.works), ownerLabel)|, env) && !env.fails(CheckInstalled)
                      && (env.installed ==> NetworkCallsSucceed(old(hub.network), 0, env))
      ensures ok ==> removed == Owned(old(hub.works), ownerLabel)
                     && (env.installed ==> dels == ConnectionsAmong(RecordOf(old(record), name)))
    {
      dels := [];
      ok, removed := DeleteOwnedWorks(hub, ownerLabel, env);
      if !ok {
        return;
      }
      if env.fails(CheckInstalled) {
        ok := false;
        return;
      }
      if env.installed {
        var existing := RecordedBundles(name);
        var connections := GetNetworkConnections(existing, RecordOf(record, name));
        ok := DeleteNetworkLinks(hub, connections.value, 0, env);
        if !ok {
          return;
        }
        dels := connections.value;
      }
      Forget(name);
    }

    /** Marks the object as finalising, cleans up, and lets go of the object by removing the finalizer. */
    method Finalise(name: string, env: Env) returns (res: RunResult, ghost run: Run)
      requires Valid() && name in hub.objects && StatusOk(hub.objects[name].status)
      modifies this`bundles, this`record, this`footprint, hub
      ensures Valid() && run.Finalised?
      ensures FinaliseOk(old(Snapshot()), name, ownerLabel, env, res, run, Snapshot())
      ensures FinaliseCalls(old(hub.works), old(hub.network), ownerLabel, env, res, run.dels, run.forgotten)
      ensures !res.Done? ==> hub.objects[name].status in {old(hub.objects)[name].status,
                                                          SetStatus(old(hub.objects)[name].status, Finalizing, [])}
      ensures !res.Done? && hub.objects[name].status.state != Some(Finalizing) ==> run == Finalised({}, [], false)
    {
      run := Finalised({}, [], false);
      assert hub.works - {} == hub.works;
      var ok := UpdateStatus(name, Finalizing, [], 60, env);
      if !ok {
        return Error, run;
      }
      ghost var marked := hub.objects;
      ghost var removed, dels;
      ok, removed, dels := CleanUpForDeletion(name, env);
      run := Finalised(removed, dels, ok);
      if !ok {
        return Error, run;
      }
      ok := Release(name, env);
      OnlyStatusTwice(old(hub.objects), marked, name, hub.objects);
      return if ok then Done else Error, run;
    }

    /** Announces the removal of the finalizer and removes it, with which the object goes. */
    method Release(name: string, env: Env) returns (ok: bool)
      requires name in hub.objects && StatusOk(hub.objects[name].status)
      modifies hub`objects
      ensures if ok then hub.objects == old(hub.objects) - {name} else OnlyStatus(old(hub.objects), name, hub.objects)
      ensures ok <==> !env.fails(WriteStatus(61)) && !env.fails(DropFinalizer)
      ensures !ok ==> hub.objects[name].status in {old(hub.objects)[name].status,
                                               SetStatus(old(hub.objects)[name].status, Finalizing, [])}
    {
      ghost var before := hub.objects;
      ok := UpdateStatus(name, Finalizing, [], 61, env);
      if ok && !env.fails(DropFinalizer) {
        assert hub.objects - {name} == before - {name};
        hub.objects := hub.objects - {name};
      } else {
        ok := false;
      }
    }

    // ----- A run

    /** From applied works to the end of the run. */
    method Finish(name: string, bs: seq<Bundle>, placed: nat, env: Env, ghost plan: seq<BundleV>, ghost works: Progress)
      returns (res: RunResult, ghost p: Progress)
      requires Valid() && Shows(bs, plan) && PlanOk(plan) && IsBusy(hub.objects, name) && placed == Placed(plan)
      modifies this`bundles, this`record, this`footprint, hub`network, hub`objects
      ensures Valid() && Stops(old(hub.objects), name, res, hub.objects)
      ensures p.cleaned == works.cleaned && p.written == works.written
      ensures FinishOk(old(Snapshot()), name, env, res, plan, p, Snapshot())
      ensures SwapCalls(old(hub.network), env, Settles(res, hub.objects[name].status), p.dels, p.regs)
    {
      var stop;
      ghost var dels, regs;
      stop, dels, regs := Swap(name, bs, env, plan);
      p := Progress(works.cleaned, works.written, dels, regs, false);
      if stop.Some? {
        return stop.value, p;
      }
      ghost var recorded;
      res, recorded := Conclude(name, bs, placed, env, plan);
      p := p.(recorded := recorded);
    }

    /** From located bundles to the end of the run. */
    method Roll(name: string, bs: seq<Bundle>, env: Env, ghost plan: seq<BundleV>)
      returns (res: RunResult, ghost p: Progress)
      requires Valid() && Shows(bs, plan) && PlanOk(plan) && IsBusy(hub.objects, name)
      modifies this`bundles, this`record, this`footprint, hub
      ensures Valid() && Stops(old(hub.objects), name, res, hub.objects)
      ensures RollOk(old(Snapshot()), name, ownerLabel, env, res, plan, p, Snapshot())
      ensures EditCalls(old(hub.works), RecordOf(old(record), name), ownerLabel, env, res, plan, p)
      ensures LinksLast(RecordOf(old(record), name), hub.works, ownerLabel, env, plan, p)
      ensures SwapCalls(old(hub.network), env, Settles(res, hub.objects[name].status), p.dels, p.regs)
    {
      ghost var begun := Snapshot();
      var stop, placed;
      stop, placed, p := PushWorks(name, bs, env, plan);
      ghost var pushed, works := Snapshot(), p;
      if stop.Some? {
        RollStopped(begun, name, ownerLabel, env, stop.value, plan, p, pushed);
        return stop.value, p;
      }
      res, p := Finish(name, bs, placed, env, plan, works);
      RollFinished(begun, pushed, name, ownerLabel, env, res, plan, works, p, Snapshot());
    }

    method PushWorks(name: string, bs: seq<Bundle>, env: Env, ghost plan: seq<BundleV>)
      returns (stop: Option<RunResult>, placed: nat, ghost p: Progress)
      requires Valid() && Shows(bs, plan) && IsBusy(hub.objects, name)
      modifies hub`works, hub`objects
      ensures Valid() && p == Progress(p.cleaned, p.written, [], [], false)
      ensures EditCalls(old(hub.works), RecordOf(record, name), ownerLabel, env,
                        if stop.Some? then stop.value else Done, plan, p)
      ensures WorksOk(old(Snapshot()), name, ownerLabel, env, plan, p, Snapshot())
      ensures stop.None? ==>
                hub.objects == old(hub.objects) && placed == Placed(plan)
                && WorksSettled(old(Snapshot()), name, ownerLabel, env, plan, p, Snapshot())
      ensures stop.Some? && !stop.value.Error? ==> EditsDone(old(Snapshot()), name, plan, p)
      ensures stop.Some? ==>
                Stops(old(hub.objects), name, stop.value, hub.objects)
                && Unsettled(hub.works, ownerLabel, env, stop.value, plan, hub.objects[name].status)
    {
      assert hub.objects[name := hub.objects[name].(status := hub.objects[name].status)] == hub.objects;
      var ok;
      ghost var cleaned, written;
      ok, placed, cleaned, written := EditWorks(name, bs, env, plan);
      p := Progress(cleaned, written, [], [], false);
      if !ok {
        return Some(Error), placed, p;
      }
      stop := AwaitWorks(name, bs, env, plan);
    }

    method Schedule(name: string, env: Env) returns (res: RunResult, ghost run: Run)
      requires Valid() && IsBusy(hub.objects, name)
      modifies this`bundles, this`record, this`footprint, hub
      ensures Valid() && !run.Finalised? && !run.Nothing?
      ensures Ended(old(hub.objects), name, res, run, hub.objects)
      ensures run.Pushed? ==>
                EditCalls(old(hub.works), RecordOf(old(record), name), ownerLabel, env, res, run.plan, run.progress)
                && SwapCalls(old(hub.network), env, Settles(res, hub.objects[name].status), run.progress.dels,
                             run.progress.regs)
                && LinksLast(RecordOf(old(record), name), hub.works, ownerLabel, env, run.plan, run.progress)
      ensures run.Stopped? ==>
                Untouched(old(Snapshot()), Snapshot())
                && StoppedOk(old(hub.objects)[name].request, env, res, run.blueprint, hub.objects[name].status)
      ensures run.Pushed? ==> PushedOk(old(Snapshot()), name, ownerLabel, env, res, run, Snapshot())
    {
      ghost var target, plan, blueprint;
      var planned;
      planned, res, target, plan, blueprint := Prepare(name, env);
      if !planned.Ok? {
        return res, Stopped(blueprint);
      }
      ghost var progress;
      ghost var begun := Snapshot();
      res, progress := Roll(name, planned.value, env, plan);
      run := Pushed(target, blueprint, plan, progress);
      PushedAfter(old(Snapshot()), begun, name, ownerLabel, env, res, run, Snapshot());
    }

    /** One run of the operator for the manifest of the given name. */
    method Reconcile(name: string, env: Env) returns (res: RunResult, ghost run: Run)
      requires Valid() && WellKept(hub.objects)
      modifies this, hub
      ensures Valid() && WellKept(hub.objects)
      ensures RunOk(old(Snapshot()), name, env, res, run, Snapshot())
    {
      ghost var pre := Snapshot();
      if env.fails(FetchObject) {
        IdleRun(pre, name, env, Error);
        return Error, Nothing;
      }
      if name !in hub.objects {
        IdleRun(pre, name, env, Done);
        return Done, Nothing;
      }
      ownerLabel := Truncate(name);
      res, run := Visit(name, env);
      RunKeepsObjects(pre, name, env, res, run, Snapshot());
    }

    /** A run for a manifest that was found. */
    method Visit(name: string, env: Env) returns (res: RunResult, ghost run: Run)
      requires Valid() && name in hub.objects && StatusOk(hub.objects[name].status)
      requires !env.fails(FetchObject) && ownerLabel == Truncate(name)
      modifies this`bundles, this`record, this`footprint, hub
      ensures Valid() && RunOk(old(Snapshot()), name, env, res, run, Snapshot())
    {
      ghost var pre := Snapshot();
      var start;
      start, res := Begin(name, env);
      if !start {
        NothingAfter(pre, name, env, res, Snapshot());
        return res, Nothing;
      }
      res, run := Proceed(name, env, pre);
    }

    /** The run proper: finalising or scheduling. */
    method Proceed(name: string, env: Env, ghost pre: Snap) returns (res: RunResult, ghost run: Run)
      requires Valid() && name in hub.objects && hub.objects[name].finalizer && ownerLabel == Truncate(name)
      requires Begun(pre.objects, name, hub.objects) && Snapshot() == pre.(objects := hub.objects)
      requires hub.objects[name].inSchedulerNamespace && (!hub.objects[name].deleting ==> IsLive(hub.objects, name))
      requires hub.objects[name].status == InProgressState(pre.objects[name])
      requires !env.fails(FetchObject) && (!pre.objects[name].finalizer ==> !env.fails(WriteFinalizer))
      modifies this`bundles, this`record, this`footprint, hub
      ensures Valid() && RunOk(pre, name, env, res, run, Snapshot())
    {
      ghost var begun := Snapshot();
      if hub.objects[name].deleting {
        res, run := Finalise(name, env);
        FinaliseAfter(pre, begun, name, env, res, run, Snapshot());
      } else {
        res, run := Schedule(name, env);
        ScheduleAfter(pre, begun, name, env, res, run, Snapshot());
      }
    }

    /** Marks the run as in progress where needed, turns away other namespaces, and adds the finalizer. */
    method Begin(name: string, env: Env) returns (start: bool, res: RunResult)
      requires name in hub.objects && StatusOk(hub.objects[name].status)
      modifies hub`objects
      ensures Begun(old(hub.objects), name, hub.objects)
      ensures start ==> hub.objects[name].finalizer && hub.objects[name].inSchedulerNamespace
                        && (!hub.objects[name].deleting ==> IsLive(hub.objects, name))
                        && hub.objects[name].status == InProgressState(old(hub.objects)[name])
                        && (!old(hub.objects)[name].finalizer ==> !env.fails(WriteFinalizer))
      ensures !start ==> NothingOk(env, res, hub.objects[name])
                         && StatusTold(old(hub.objects)[name], res, Nothing, hub.objects[name])
                         && (!hub.objects[name].deleting ==> ErrorKeeps(old(hub.objects), name, res, hub.objects))
    {
      var obj := hub.objects[name];
      if obj.status.conditions == [] || (!obj.deleting && obj.status.state != Some(SchedulingInProgress)) {
        var ok := UpdateStatus(name, SchedulingInProgress, [], 0, env);
        if !ok {
          return false, Error;
        }
      }
      if !obj.inSchedulerNamespace {
        res := Settle(name, MisconfiguredState, [], 1, env);
        return false, res;
      }
      if !obj.finalizer {
        if env.fails(WriteFinalizer) {
          return false, Error;
        }
        hub.objects := hub.objects[name := hub.objects[name].(finalizer := true)];
      }
      return true, Done;
    }
  }
}
