/**
 The hub cluster as the operator sees it: scheduling manifests with their status, ManifestWorks, and the stored
 registry of network links; and the environment of one run, which decides what every API call answers.
 */
module HubState {
  import opened Collections
  import opened Text
  import opened Resources
  import opened Annotations
  import opened Bundles
  import opened Links

  // ----- Status (internal/controller/status.go)

  /** The condition types, which are also the values of the state field. */
  datatype State = SchedulingInProgress | SchedulingSuccessful | UnreliablyScheduled | SchedulingFailed
                 | TentativelyScheduled | Finalizing | MisconfiguredState

  datatype Decision = Decision(workload: string, cluster: string)

  /** `conditions` are the types of the stored conditions; `state` is None while the state field is empty. */
  datatype Status = Status(conditions: seq<State>, decisions: seq<Decision>, state: Option<State>)

  function SetStatus(status: Status, state: State, decisions: seq<Decision>): Status
  {
    Status(if state in status.conditions then status.conditions else status.conditions + [state],
           decisions, Some(state))
  }

  predicate DistinctConditions(conditions: seq<State>)
  {
    forall i, j :: 0 <= i < j < |conditions| ==> conditions[i] != conditions[j]
  }

  /** Condition types are unique, and the state is the type of a stored condition. */
  predicate StatusOk(status: Status)
  {
    DistinctConditions(status.conditions)
    && match status.state case Some(s) => s in status.conditions case None => status.conditions == []
  }

  lemma SetStatusOk(status: Status, state: State, decisions: seq<Decision>)
    requires StatusOk(status)
    ensures StatusOk(SetStatus(status, state, decisions))
  {
    var after := SetStatus(status, state, decisions).conditions;
    if after != status.conditions {
      Front(status.conditions, state);
    }
  }

  // ----- Stored objects

  /** A P2CodeSchedulingManifest. */
  datatype Obj = Obj(request: Request, inSchedulerNamespace: bool, deleting: bool, finalizer: bool, status: Status)

  /** Objects are stored under the name in their request, and their statuses are well-formed. */
  predicate WellKept(objects: map<string, Obj>)
  {
    forall n :: n in objects ==> objects[n].request.name == n && StatusOk(objects[n].status)
  }

  /** The name and namespace of a ManifestWork; the namespace is the cluster. */
  datatype WorkKey = WorkKey(name: string, cluster: string)
  datatype Work = Work(owner: string, manifests: seq<Manifest>, serverSideApply: seq<Metadata>)

  class Hub {
    var objects: map<string, Obj>
    var works: map<WorkKey, Work>
    var network: Option<seq<LinkV>>

    constructor (objects: map<string, Obj>, works: map<WorkKey, Work>, network: Option<seq<LinkV>>)
      ensures this.objects == objects && this.works == works && this.network == network
    {
      this.objects, this.works, this.network := objects, works, network;
    }
  }

  /** The links of a registry that may not have been created yet. */
  function LinksOf(network: Option<seq<LinkV>>): seq<LinkV> { match network case Some(links) => links case None => [] }

  // ----- The environment of a run

  /** The API calls of a run that can fail; a call in a loop carries the index of its iteration. */
  datatype Call = FetchObject | WriteStatus(site: nat) | WriteFinalizer | DropFinalizer
                | ListClusterSets | ListClusters | ListBindings | ListMembers
                | DeletePlacement(i: nat) | GetStale(i: nat) | DeleteStale(i: nat)
                | GetWork(i: nat) | CreateWork(i: nat) | UpdateWork(i: nat)
                | ListOwned | DeleteOwned(i: nat)
                | CheckInstalled | FetchNetwork(site: nat) | CreateNetwork(site: nat) | UpdateNetwork(site: nat)

  datatype PlacementAnswer = Unavailable | NoConditions | NoSatisfiedCondition | Satisfied(cluster: string)
                           | Unsatisfied

  /** A condition that a work agent reports for one manifest of a work. */
  datatype ManifestCondition = ManifestCondition(appliedOrAvailable: bool, isFalse: bool)
  datatype WorkStatus = WorkStatus(manifests: seq<seq<ManifestCondition>>)

  datatype Env = Env(fails: Call -> bool, setExists: bool, setEmpty: bool, setBound: bool, member: bool,
                     placement: string -> PlacementAnswer, installed: bool, reported: WorkKey -> WorkStatus)

  /** No API call fails, and every placement can be read. */
  ghost predicate Faultless(env: Env)
  {
    (forall c: Call :: !env.fails(c)) && forall n: string :: !env.placement(n).Unavailable?
  }

  /** How a run ends: with an error (or a panic, which is reported as one), or without, possibly asking to be run
      again. */
  datatype RunResult = Error | Done | RequeueAfter

  // ----- Works of bundles

  function KeyOf(v: BundleV): WorkKey { WorkKey(v.resourceName, v.cluster) }

  function ManifestsOf(rs: seq<Resource>): (ms: seq<Manifest>)
    ensures |ms| == |rs| && forall i :: 0 <= i < |ms| ==> ms[i] == rs[i].manifest
  {
    seq(|rs|, i requires 0 <= i < |rs| => rs[i].manifest)
  }

  /** Claims are applied on the server side, because their volume name must not be overwritten. */
  function ClaimOption(): Resource -> seq<Metadata>
  {
    (r: Resource) => if r.Kind() == PersistentVolumeClaim then [r.manifest.metadata] else []
  }

  function WorkOf(owner: string, v: BundleV): Work
  {
    Work(owner, ManifestsOf(v.resources), FlatMap(ClaimOption(), v.resources))
  }

  method GenerateManifestWork(owner: string, resources: seq<Resource>) returns (work: Work)
    ensures work == Work(owner, ManifestsOf(resources), FlatMap(ClaimOption(), resources))
  {
    var manifests: seq<Manifest>, options: seq<Metadata> := [], [];
    for i := 0 to |resources|
      invariant manifests == ManifestsOf(resources)[..i]
      invariant options == FlatMap(ClaimOption(), resources[..i])
    {
      FlatMapStep(ClaimOption(), resources, i);
      manifests := manifests + [resources[i].manifest];
      if resources[i].Kind() == PersistentVolumeClaim {
        options := options + [resources[i].manifest.metadata];
      } else {
        assert options + [] == options;
      }
    }
    assert resources[..|resources|] == resources;
    return Work(owner, manifests, options);
  }

  function Owned(works: map<WorkKey, Work>, owner: string): set<WorkKey>
  {
    set k | k in works && works[k].owner == owner
  }

  /** Some manifest of the work could not be applied or is not available. */
  predicate Broken(c: ManifestCondition) { c.appliedOrAvailable && c.isFalse }

  predicate SomeBroken(cs: seq<ManifestCondition>) { exists i :: 0 <= i < |cs| && Broken(cs[i]) }

  predicate FailedStatus(s: WorkStatus) { exists i :: 0 <= i < |s.manifests| && SomeBroken(s.manifests[i]) }

  /** The work passes validation: its status is there and reports nothing broken. */
  predicate Passes(s: WorkStatus) { s.manifests != [] && !FailedStatus(s) }

  datatype Validation = Valid | NotReady | ApplyFailed

  method ValidateManifestWorkApplied(s: WorkStatus) returns (v: Validation)
    ensures v.Valid? <==> Passes(s)
    ensures v.NotReady? <==> s.manifests == []
    ensures v.ApplyFailed? <==> FailedStatus(s)
  {
    if |s.manifests| < 1 {
      return NotReady;
    }
    for i := 0 to |s.manifests|
      invariant forall k :: 0 <= k < i ==> !SomeBroken(s.manifests[k])
    {
      var conditions := s.manifests[i];
      for j := 0 to |conditions|
        invariant forall k :: 0 <= k < j ==> !Broken(conditions[k])
      {
        if conditions[j].appliedOrAvailable && conditions[j].isFalse {
          assert Broken(conditions[j]) && SomeBroken(s.manifests[i]);
          return ApplyFailed;
        }
      }
    }
    return Valid;
  }

  function DecisionOf(v: BundleV): Decision { Decision(v.name, v.cluster) }

  function Decisions(views: seq<BundleV>): (ds: seq<Decision>)
    ensures |ds| == |views| && forall i :: 0 <= i < |ds| ==> ds[i] == DecisionOf(views[i])
  {
    seq(|views|, i requires 0 <= i < |views| => DecisionOf(views[i]))
  }

  method GetSchedulingDecisions(bs: seq<Bundle>, ghost views: seq<BundleV>) returns (ds: seq<Decision>)
    requires Shows(bs, views)
    ensures ds == Decisions(views)
  {
    ds := [];
    for i := 0 to |bs|
      invariant ds == Decisions(views)[..i]
    {
      assert bs[i].View() == views[i];
      ds := ds + [Decision(bs[i].name, bs[i].cluster)];
    }
  }

  // ----- The same of the fields

  /** A work passes if and only if something is reported of it and no reported condition of type Applied or Available is
      false. */
  lemma PassesIff(s: WorkStatus)
    ensures Passes(s) <==>
            s.manifests != [] && forall m, c :: m in s.manifests && c in m ==> !(c.appliedOrAvailable && c.isFalse)
  {
    if FailedStatus(s) {
      var i :| 0 <= i < |s.manifests| && SomeBroken(s.manifests[i]);
      var j :| 0 <= j < |s.manifests[i]| && Broken(s.manifests[i][j]);
      assert s.manifests[i] in s.manifests && s.manifests[i][j] in s.manifests[i];
    }
    if !forall m, c :: m in s.manifests && c in m ==> !(c.appliedOrAvailable && c.isFalse) {
      var m, c :| m in s.manifests && c in m && c.appliedOrAvailable && c.isFalse;
      var i :| 0 <= i < |s.manifests| && s.manifests[i] == m;
      var j :| 0 <= j < |m| && m[j] == c;
      assert Broken(m[j]) && SomeBroken(s.manifests[i]);
    }
  }

  /** A work carries the manifests of its bundle, in order, and the server-side option for exactly its volume claims. */
  lemma WorkMeans(owner: string, v: BundleV, option: Metadata)
    ensures WorkOf(owner, v).owner == owner && |WorkOf(owner, v).manifests| == |v.resources|
    ensures forall i :: 0 <= i < |v.resources| ==> WorkOf(owner, v).manifests[i] == v.resources[i].manifest
    ensures option in WorkOf(owner, v).serverSideApply <==>
            exists r :: r in v.resources && r.manifest.metadata == option && option.gvk.kind == PersistentVolumeClaim
  {
    FlatMapMembers(ClaimOption(), v.resources, option);
    assert forall r: Resource :: option in ClaimOption()(r) <==>
                                 r.manifest.metadata == option && option.gvk.kind == PersistentVolumeClaim;
  }

  /** The state is stored with a condition of that type, and no other condition is lost. */
  lemma SetStatusMeans(status: Status, state: State, decisions: seq<Decision>)
    ensures SetStatus(status, state, decisions).state == Some(state)
    ensures SetStatus(status, state, decisions).decisions == decisions
    ensures status.conditions <= SetStatus(status, state, decisions).conditions
    ensures forall c :: c in SetStatus(status, state, decisions).conditions <==> c in status.conditions || c == state
  {
    assert status.conditions <= status.conditions + [state];
  }
}
