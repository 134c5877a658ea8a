/**
 Whole histories: any interleaving of runs for any manifests against any environments, restarts of the operator, and
 edits by users. Every theorem here is about every state of every such history.
 */
module Traces {
  import opened Collections
  import opened Text
  import opened Bundles
  import opened Links
  import opened LinkTheory
  import opened Connections
  import opened HubState
  import opened Works
  import opened Reconciler
  import opened RunTheory
  import opened Registry

  datatype Event = Ran(name: string, env: Env, res: RunResult, run: Run) | Restarted | Edited

  /** What users do between runs: they create and change manifests and ask for their deletion. The status is not
      theirs to change, and a manifest with the finalizer stays until the operator takes the finalizer away; till then
      its deletion cannot be withdrawn. */
  predicate EditOk(before: map<string, Obj>, after: map<string, Obj>)
  {
    (forall n :: n in before && before[n].finalizer ==>
       n in after && after[n].finalizer && (before[n].deleting ==> after[n].deleting))
    && forall n :: n in after ==>
         after[n].request.name == n
         && after[n].status == if n in before then before[n].status else Status([], [], None)
  }

  ghost predicate StepOk(pre: Snap, e: Event, post: Snap)
  {
    match e
    case Ran(name, env, res, run) => RunOk(pre, name, env, res, run, post)
    case Restarted => post == pre.(record := map[])
    case Edited => post == pre.(objects := post.objects) && EditOk(pre.objects, post.objects)
  }

  /** `StepOk`, folded up: a proof looks inside only where it mentions `Looked(e)`. */
  ghost predicate Step(pre: Snap, e: Event, post: Snap)
  {
    forall x: Event {:trigger Looked(x)} :: x == e && Looked(x) ==> StepOk(pre, x, post)
  }

  predicate Looked(e: Event) { true }

  ghost predicate Trace(states: seq<Snap>, events: seq<Event>)
  {
    |states| == |events| + 1 && forall i :: 0 <= i < |events| ==> Step(states[i], events[i], states[i + 1])
  }

  /** The induction that all theorems about histories share: what every event keeps holds throughout. */
  lemma {:induction false} Throughout(states: seq<Snap>, p: Snap -> bool, i: nat, j: nat)
    requires i <= j < |states| && p(states[i])
    requires forall k :: i <= k < j && p(states[k]) ==> p(states[k + 1])
    ensures p(states[j])
    decreases j
  {
    if i < j {
      Throughout(states, p, i, j - 1);
    }
  }

  // ----- Status

  lemma ObjectsStayKept(pre: Snap, e: Event, post: Snap)
    requires Step(pre, e, post) && WellKept(pre.objects)
    ensures WellKept(post.objects)
  {
    assert Looked(e);
    if e.Ran? {
      RunKeepsObjects(pre, e.name, e.env, e.res, e.run, post);
    }
  }

  /** In every state the state of every manifest is the type of one of its conditions, and condition types are
      unique. */
  lemma StatusesStayOk(states: seq<Snap>, events: seq<Event>, i: nat)
    requires Trace(states, events) && WellKept(states[0].objects) && i < |states|
    ensures WellKept(states[i].objects)
  {
    forall k | 0 <= k < i && WellKept(states[k].objects) ensures WellKept(states[k + 1].objects) {
      ObjectsStayKept(states[k], events[k], states[k + 1]);
    }
    Throughout(states, (s: Snap) => WellKept(s.objects), 0, i);
  }

  predicate RunsOnly(e: Event, name: string) { e.Ran? && e.name == name }

  ghost predicate NotStalled(s: Snap, name: string)
  {
    name in s.objects ==> s.objects[name].status.state != Some(SchedulingInProgress)
  }

  lemma NoStallAfterRun(pre: Snap, e: Event, post: Snap)
    requires Step(pre, e, post) && e.Ran? && e.res.Done? && !e.env.fails(FetchObject)
    requires e.name in post.objects ==> !post.objects[e.name].deleting
    ensures NotStalled(post, e.name)
  {
    assert Looked(e);
  }

  lemma OthersDoNotStall(pre: Snap, e: Event, post: Snap, name: string)
    requires Step(pre, e, post) && !RunsOnly(e, name) && NotStalled(pre, name)
    ensures NotStalled(post, name)
  {
    assert Looked(e);
  }

  /** No silent stall: after a run that ended for good on a live manifest, the manifest is not in progress, and does not
      become so until it is run again, whatever else happens. */
  lemma NoSilentStall(states: seq<Snap>, events: seq<Event>, i: nat, j: nat)
    requires Trace(states, events) && i < j < |states|
    requires events[i].Ran? && events[i].res.Done? && !events[i].env.fails(FetchObject)
    requires events[i].name in states[i + 1].objects ==> !states[i + 1].objects[events[i].name].deleting
    requires forall k :: i < k < j ==> !RunsOnly(events[k], events[i].name)
    ensures events[i].name in states[j].objects ==>
              states[j].objects[events[i].name].status.state != Some(SchedulingInProgress)
  {
    var name := events[i].name;
    NoStallAfterRun(states[i], events[i], states[i + 1]);
    forall k | i + 1 <= k < j && NotStalled(states[k], name) ensures NotStalled(states[k + 1], name) {
      OthersDoNotStall(states[k], events[k], states[k + 1], name);
    }
    Throughout(states, (s: Snap) => NotStalled(s, name), i + 1, j);
  }

  // ----- Nothing outlives the finalizer

  /** While a manifest has no finalizer, or is not there at all, no work carries its label and no bundles of it are
      remembered. */
  ghost predicate Clean(s: Snap, name: string)
  {
    (name in s.objects && s.objects[name].finalizer)
    || CleanedUp(s, name)
  }

  ghost predicate CleanedUp(s: Snap, name: string) { Owned(s.works, Truncate(name)) == {} && name !in s.record }

  /** Runs of other manifests carry other labels. */
  predicate OwnLabel(e: Event, name: string) { e.Ran? && e.name != name ==> Truncate(e.name) != Truncate(name) }

  lemma RunsAddNoWorksOfOthers(pre: Snap, name: string, env: Env, res: RunResult, run: Run, post: Snap, owner: string)
    requires RunOk(pre, name, env, res, run, post) && owner != Truncate(name)
    ensures Owned(post.works, owner) <= Owned(pre.works, owner)
  {
    forall k | k in Owned(post.works, owner) ensures k in Owned(pre.works, owner) {
      RunTouches(pre, name, env, res, run, post, k);
    }
  }

  lemma OwnRunStaysClean(pre: Snap, name: string, env: Env, res: RunResult, run: Run, post: Snap)
    requires RunOk(pre, name, env, res, run, post) && Clean(pre, name)
    ensures Clean(post, name)
  {
  }

  lemma OtherRunStaysClean(pre: Snap, name: string, env: Env, res: RunResult, run: Run, post: Snap, other: string)
    requires RunOk(pre, name, env, res, run, post) && Clean(pre, other) && Truncate(other) != Truncate(name)
    ensures Clean(post, other)
  {
    RunsAddNoWorksOfOthers(pre, name, env, res, run, post, Truncate(other));
    RunMoves(pre, name, env, res, run, post);
  }

  lemma EventStaysClean(pre: Snap, e: Event, post: Snap, name: string)
    requires Step(pre, e, post) && OwnLabel(e, name) && Clean(pre, name)
    ensures Clean(post, name)
  {
    assert Looked(e);
    match e {
      case Ran(n, env, res, run) =>
        if n == name {
          OwnRunStaysClean(pre, name, env, res, run, post);
        } else {
          OtherRunStaysClean(pre, n, env, res, run, post, name);
        }
      case Restarted =>
      case Edited =>
    }
  }

  /** Finalisation is crash-safe. In every state of every history, through failed attempts, restarts and edits: a
      manifest that has lost its finalizer, or has gone, has left no work behind and no record. */
  lemma NothingOutlivesTheFinalizer(states: seq<Snap>, events: seq<Event>, name: string, i: nat)
    requires Trace(states, events) && Clean(states[0], name) && i < |states|
    requires forall k :: 0 <= k < |events| ==> OwnLabel(events[k], name)
    ensures Clean(states[i], name)
  {
    forall k | 0 <= k < i && Clean(states[k], name) ensures Clean(states[k + 1], name) {
      EventStaysClean(states[k], events[k], states[k + 1], name);
    }
    Throughout(states, (s: Snap) => Clean(s, name), 0, i);
  }

  /** The manifest is on its way out: it is being deleted and waits for its finalizer to be taken, or it is gone. */
  predicate Leaving(s: Snap, name: string)
  {
    name in s.objects ==> s.objects[name].deleting && s.objects[name].finalizer
  }

  /** Users create a manifest of that name anew. */
  predicate CreatesAnew(pre: Snap, e: Event, post: Snap, name: string)
  {
    e.Edited? && name !in pre.objects && name in post.objects
  }

  predicate Pushes(e: Event, name: string) { e.Ran? && e.name == name && e.run.Pushed? }

  /** Until it is created anew, a manifest on its way out stays so, and none of its runs pushes anything. */
  lemma LeavingGoesOn(pre: Snap, e: Event, post: Snap, name: string)
    requires Step(pre, e, post) && Leaving(pre, name) && !CreatesAnew(pre, e, post, name)
    ensures Leaving(post, name) && !Pushes(e, name)
  {
    assert Looked(e);
  }

  lemma EventStaysCleanedUp(pre: Snap, e: Event, post: Snap, name: string)
    requires Step(pre, e, post) && OwnLabel(e, name) && Leaving(pre, name) && CleanedUp(pre, name)
    ensures CleanedUp(post, name)
  {
    assert Looked(e);
    match e {
      case Ran(n, env, res, run) =>
        if n == name {
          FinalisingAgainChangesNothing(pre, name, env, res, run, post);
        } else {
          RunsAddNoWorksOfOthers(pre, n, env, res, run, post, Truncate(name));
          RunMoves(pre, n, env, res, run, post);
        }
      case Restarted =>
      case Edited =>
    }
  }

  /** Once an attempt at finalising has cleaned up, nothing comes back until the manifest is created anew, however many
      attempts its last step still takes. */
  lemma CleanedUpStaysSo(states: seq<Snap>, events: seq<Event>, name: string, i: nat, j: nat)
    requires Trace(states, events) && i <= j < |states|
    requires Leaving(states[i], name) && CleanedUp(states[i], name)
    requires forall k :: 0 <= k < |events| ==> OwnLabel(events[k], name)
    requires forall k :: i <= k < j ==> !CreatesAnew(states[k], events[k], states[k + 1], name)
    ensures Leaving(states[j], name) && CleanedUp(states[j], name)
  {
    forall k | i <= k < j && Leaving(states[k], name) && CleanedUp(states[k], name)
      ensures Leaving(states[k + 1], name) && CleanedUp(states[k + 1], name)
    {
      LeavingGoesOn(states[k], events[k], states[k + 1], name);
      EventStaysCleanedUp(states[k], events[k], states[k + 1], name);
    }
    Throughout(states, (s: Snap) => Leaving(s, name) && CleanedUp(s, name), i, j);
  }

  // ----- The registry over arbitrary histories

  /** A history whose runs plan connections at the keys of their owners only. Runs may fail anywhere and the operator
      may restart at any time. */
  ghost predicate HomeTrace(states: seq<Snap>, events: seq<Event>, home: NetKey -> Option<string>)
  {
    Trace(states, events)
    && forall i :: 0 <= i < |events| && events[i].Ran? ==> PlanAtHome(events[i].name, events[i].run, home)
  }

  ghost function OwnShare(s: Snap, home: NetKey -> Option<string>, n: string): map<NetKey, nat>
  {
    Share(LinksOf(s.network), home, Some(n))
  }

  /** One event: only a run of its own can change a share. */
  lemma StepMovesShares(pre: Snap, e: Event, post: Snap, home: NetKey -> Option<string>, owner: Option<string>)
    requires Step(pre, e, post) && Grounded(pre, home) && (e.Ran? ==> PlanAtHome(e.name, e.run, home))
    ensures Grounded(post, home)
    ensures !(e.Ran? && owner == Some(e.name)) ==>
              Share(LinksOf(post.network), home, owner) == Share(LinksOf(pre.network), home, owner)
  {
    assert Looked(e);
    if e.Ran? {
      RunMoves(pre, e.name, e.env, e.res, e.run, post);
      RunSwapsItsShare(pre, e.name, e.run, post, home, owner);
    }
  }

  /** Whatever happens, the registry stays well-formed and what belongs to nobody stays as it was. */
  lemma BaselineIsUntouched(states: seq<Snap>, events: seq<Event>, home: NetKey -> Option<string>, i: nat)
    requires HomeTrace(states, events, home) && Grounded(states[0], home) && i < |states|
    ensures Grounded(states[i], home)
    ensures Share(LinksOf(states[i].network), home, None) == Share(LinksOf(states[0].network), home, None)
  {
    var baseline := Share(LinksOf(states[0].network), home, None);
    var p := (s: Snap) => Grounded(s, home) && Share(LinksOf(s.network), home, None) == baseline;
    forall k | 0 <= k < i && p(states[k]) ensures p(states[k + 1]) {
      StepMovesShares(states[k], events[k], states[k + 1], home, None);
    }
    Throughout(states, p, 0, i);
  }

  /** An event that does not push a plan of `name` adds nothing to its share. */
  lemma OnlyPushesAdd(pre: Snap, e: Event, post: Snap, home: NetKey -> Option<string>, name: string)
    requires Step(pre, e, post) && Grounded(pre, home) && (e.Ran? ==> PlanAtHome(e.name, e.run, home))
    requires !Pushes(e, name)
    ensures OwnShare(post, home, name).Keys <= OwnShare(pre, home, name).Keys
  {
    if RunsOnly(e, name) {
      assert Looked(e);
      RunMoves(pre, name, e.env, e.res, e.run, post);
      RunSwapsItsShare(pre, name, e.run, post, home, Some(name));
      SwappingNothing(OwnShare(pre, home, name) - KeysOf(Deletions(e.run)));
    } else {
      StepMovesShares(pre, e, post, home, Some(name));
    }
  }

  /** The owner has no link at these keys. */
  ghost predicate NoLinksAt(s: Snap, home: NetKey -> Option<string>, name: string, ks: set<NetKey>)
  {
    OwnShare(s, home, name).Keys !! ks
  }

  /** No link for the connections of these bundles is left. */
  ghost predicate LinksGone(s: Snap, home: NetKey -> Option<string>, name: string, recorded: seq<BundleV>)
  {
    NoLinksAt(s, home, name, KeysOf(ConnectionsAmong(recorded)))
  }

  lemma LinksStayGone(pre: Snap, e: Event, post: Snap, home: NetKey -> Option<string>, name: string, ks: set<NetKey>)
    requires Step(pre, e, post) && Grounded(pre, home) && (e.Ran? ==> PlanAtHome(e.name, e.run, home))
    requires !Pushes(e, name) && NoLinksAt(pre, home, name, ks)
    ensures NoLinksAt(post, home, name, ks)
  {
    OnlyPushesAdd(pre, e, post, home, name);
    StaysDisjoint(OwnShare(post, home, name).Keys, OwnShare(pre, home, name).Keys, ks);
  }

  lemma StaysDisjoint<T>(a: set<T>, b: set<T>, c: set<T>)
    requires a <= b && b !! c
    ensures a !! c
  {
  }

  /** The run forgets its record, with the network API there. */
  predicate Forgets(e: Event) { e.Ran? && e.run.Finalised? && e.run.forgotten && e.env.installed }

  /** Once a run with the network API has forgotten the record, no connection that was recorded comes back until a
      plan of the same name is pushed again, whatever runs, failures and restarts follow. */
  lemma ForgottenLinksStayGone(states: seq<Snap>, events: seq<Event>, home: NetKey -> Option<string>, i: nat, j: nat)
    requires HomeTrace(states, events, home) && Grounded(states[0], home) && i < j < |states|
    requires Forgets(events[i])
    requires forall k :: i < k < j ==> !Pushes(events[k], events[i].name)
    ensures LinksGone(states[j], home, events[i].name, RecordOf(states[i].record, events[i].name))
  {
    ForgottenOnce(states, events, home, i);
    GoneLinksStayGone(states, events, home, events[i].name, RecordOf(states[i].record, events[i].name), i, j);
  }

  lemma ForgottenOnce(states: seq<Snap>, events: seq<Event>, home: NetKey -> Option<string>, i: nat)
    requires HomeTrace(states, events, home) && Grounded(states[0], home) && i < |events|
    requires Forgets(events[i])
    ensures LinksGone(states[i + 1], home, events[i].name, RecordOf(states[i].record, events[i].name))
  {
    HomeStep(states, events, home, i);
    ForgettingRemoves(states[i], events[i], states[i + 1], home);
  }

  lemma HomeStep(states: seq<Snap>, events: seq<Event>, home: NetKey -> Option<string>, i: nat)
    requires HomeTrace(states, events, home) && Grounded(states[0], home) && i < |events|
    ensures Step(states[i], events[i], states[i + 1]) && Grounded(states[i], home)
    ensures events[i].Ran? ==> PlanAtHome(events[i].name, events[i].run, home)
  {
    BaselineIsUntouched(states, events, home, i);
  }

  /** What event `i` has left without these links stays so. */
  lemma GoneLinksStayGone(states: seq<Snap>, events: seq<Event>, home: NetKey -> Option<string>, name: string,
                          recorded: seq<BundleV>, i: nat, j: nat)
    requires HomeTrace(states, events, home) && Grounded(states[0], home) && i < j < |states|
    requires LinksGone(states[i + 1], home, name, recorded)
    requires forall k :: i < k < j ==> !Pushes(events[k], name)
    ensures LinksGone(states[j], home, name, recorded)
  {
    var ks := KeysOf(ConnectionsAmong(recorded));
    forall k | i < k < j && NoLinksAt(states[k], home, name, ks) ensures NoLinksAt(states[k + 1], home, name, ks) {
      HomeStep(states, events, home, k);
      LinksStayGone(states[k], events[k], states[k + 1], home, name, ks);
    }
    Throughout(states, (s: Snap) => NoLinksAt(s, home, name, ks), i + 1, j);
  }

  lemma ForgettingRemoves(pre: Snap, e: Event, post: Snap, home: NetKey -> Option<string>)
    requires Forgets(e) && Step(pre, e, post) && Grounded(pre, home) && PlanAtHome(e.name, e.run, home)
    ensures LinksGone(post, home, e.name, RecordOf(pre.record, e.name))
  {
    assert Looked(e);
    RunMoves(pre, e.name, e.env, e.res, e.run, post);
    RunSwapsItsShare(pre, e.name, e.run, post, home, Some(e.name));
    SwappingNothing(OwnShare(pre, home, e.name) - KeysOf(Deletions(e.run)));
  }

  /** For what was recorded of a manifest when its finalisation began: either the record is still there, for a further
      attempt to go by, or it is gone, and with it every link of it. */
  ghost predicate LinksInHand(s: Snap, home: NetKey -> Option<string>, name: string, recorded: seq<BundleV>)
  {
    (name in s.record && s.record[name] == recorded)
    || (name !in s.record && LinksGone(s, home, name, recorded))
  }

  /** During a finalisation the operator does not restart, and where the record is forgotten the network API is there.
      Attempts may fail at any call, and other manifests do as they please. */
  predicate FinalisationEvent(e: Event, name: string)
  {
    !e.Restarted? && (RunsOnly(e, name) && e.run.Finalised? && e.run.forgotten ==> e.env.installed)
  }

  lemma FinalisationStep(pre: Snap, e: Event, post: Snap, home: NetKey -> Option<string>, name: string,
                         recorded: seq<BundleV>)
    requires Step(pre, e, post) && Grounded(pre, home) && (e.Ran? ==> PlanAtHome(e.name, e.run, home))
    requires FinalisationEvent(e, name) && !Pushes(e, name) && LinksInHand(pre, home, name, recorded)
    ensures LinksInHand(post, home, name, recorded)
  {
    RecordChanges(pre, e, post, name);
    if name !in pre.record {
      LinksStayGone(pre, e, post, home, name, KeysOf(ConnectionsAmong(recorded)));
    } else if name !in post.record {
      ForgettingRemoves(pre, e, post, home);
    }
  }

  /** Without a restart or a push, the record of a manifest can only be forgotten, by a run that finalises it. */
  lemma RecordChanges(pre: Snap, e: Event, post: Snap, name: string)
    requires Step(pre, e, post) && !e.Restarted? && !Pushes(e, name)
    ensures name in post.record ==> name in pre.record && post.record[name] == pre.record[name]
    ensures name in pre.record && name !in post.record ==> RunsOnly(e, name) && e.run.Finalised? && e.run.forgotten
  {
    assert Looked(e);
    if e.Ran? {
      RunMoves(pre, e.name, e.env, e.res, e.run, post);
    }
  }

  /** Finalisation is crash-safe for links as well. From the moment its deletion is asked for, through any number of
      failed attempts, and whatever other manifests and their runs do meanwhile: a manifest is still waiting, with its
      record at hand or its links gone, or it has gone, and none of its recorded connections is left. */
  lemma FinalisationLeavesNoLinks(states: seq<Snap>, events: seq<Event>, home: NetKey -> Option<string>, name: string,
                                  i: nat, j: nat)
    requires HomeTrace(states, events, home) && Grounded(states[0], home) && i <= j < |states|
    requires name in states[i].record && Leaving(states[i], name) && Clean(states[0], name)
    requires forall k :: 0 <= k < |events| ==> OwnLabel(events[k], name)
    requires forall k :: i <= k < j ==>
               FinalisationEvent(events[k], name) && !CreatesAnew(states[k], events[k], states[k + 1], name)
    ensures Leaving(states[j], name) && LinksInHand(states[j], home, name, states[i].record[name])
    ensures name !in states[j].objects ==> LinksGone(states[j], home, name, states[i].record[name])
  {
    var recorded := states[i].record[name];
    var p := (s: Snap) => Leaving(s, name) && LinksInHand(s, home, name, recorded);
    forall k | i <= k < j && p(states[k]) ensures p(states[k + 1]) {
      BaselineIsUntouched(states, events, home, k);
      LeavingGoesOn(states[k], events[k], states[k + 1], name);
      FinalisationStep(states[k], events[k], states[k + 1], home, name, recorded);
    }
    Throughout(states, p, i, j);
    NothingOutlivesTheFinalizer(states, events, name, j);
  }

  // ----- The registry in step

  /** Events that do not upset the step of one owner: its own runs are tidy, and the operator restarts only while the
      owner has nothing connected. Others may do as they please. */
  ghost predicate OrderlyFor(pre: Snap, e: Event, n: string)
  {
    match e
    case Ran(name, env, _, run) => name == n ==> Tidy(env, run)
    case Restarted => ConnectionMap(RecordOf(pre.record, n)) == map[]
    case Edited => true
  }

  ghost predicate OrderlyTraceFor(states: seq<Snap>, events: seq<Event>, home: NetKey -> Option<string>, n: string)
  {
    HomeTrace(states, events, home) && forall i :: 0 <= i < |events| ==> OrderlyFor(states[i], events[i], n)
  }

  lemma StepKeepsStep(pre: Snap, e: Event, post: Snap, home: NetKey -> Option<string>, n: string)
    requires Step(pre, e, post) && Grounded(pre, home) && (e.Ran? ==> PlanAtHome(e.name, e.run, home))
    requires OrderlyFor(pre, e, n) && OwnerInStep(pre, home, n)
    ensures OwnerInStep(post, home, n)
  {
    assert Looked(e);
    match e {
      case Ran(name, env, res, run) =>
        if name == n {
          TidyRunKeepsStep(pre, name, env, res, run, post, home);
        } else {
          RunMoves(pre, name, env, res, run, post);
          OthersKeepStep(pre, name, run, post, home, n);
        }
      case Restarted => RestartKeepsStepIff(pre, home, n);
      case Edited =>
    }
  }

  /** An owner whose own runs are tidy stays in step over any history, whatever the runs of others do. */
  lemma OwnerStaysInStep(states: seq<Snap>, events: seq<Event>, home: NetKey -> Option<string>, n: string, i: nat)
    requires OrderlyTraceFor(states, events, home, n) && i < |states|
    requires Grounded(states[0], home) && OwnerInStep(states[0], home, n)
    ensures OwnerInStep(states[i], home, n)
  {
    forall k | 0 <= k < i && OwnerInStep(states[k], home, n) ensures OwnerInStep(states[k + 1], home, n) {
      BaselineIsUntouched(states, events, home, k);
      StepKeepsStep(states[k], events[k], states[k + 1], home, n);
    }
    Throughout(states, (s: Snap) => OwnerInStep(s, home, n), 0, i);
  }

  /** So where all runs are tidy, registry and records stay in step as a whole. */
  lemma RegistryStaysInStep(states: seq<Snap>, events: seq<Event>, home: NetKey -> Option<string>, i: nat)
    requires (forall n: string :: OrderlyTraceFor(states, events, home, n)) && i < |states|
    requires Grounded(states[0], home) && InStep(states[0], home)
    ensures Grounded(states[i], home) && InStep(states[i], home)
  {
    assert OrderlyTraceFor(states, events, home, "");
    BaselineIsUntouched(states, events, home, i);
    forall n: string | true ensures OwnerInStep(states[i], home, n) {
      OwnerStaysInStep(states, events, home, n, i);
    }
  }

  /** Entry by entry: at the keys of nobody the registry holds the untouched baseline, and at those of an owner whose
      own runs are tidy it holds the connections of its recorded bundles, each key with the port first asked for, and
      nothing else. */
  lemma RegistryIsBaselineAndRecords(states: seq<Snap>, events: seq<Event>, home: NetKey -> Option<string>, i: nat,
                                     k: NetKey)
    requires HomeTrace(states, events, home) && Grounded(states[0], home) && i < |states|
    requires home(k).Some? ==>
               OrderlyTraceFor(states, events, home, home(k).value) && OwnerInStep(states[0], home, home(k).value)
    ensures var expected := match home(k)
                            case None => Meaning(LinksOf(states[0].network))
                            case Some(owner) => ConnectionMap(RecordOf(states[i].record, owner));
            var actual := Meaning(LinksOf(states[i].network));
            (k in actual <==> k in expected) && (k in actual ==> actual[k] == expected[k])
  {
    var first, last := LinksOf(states[0].network), LinksOf(states[i].network);
    SharesShow(last, home, k);
    match home(k) {
      case None =>
        BaselineIsUntouched(states, events, home, i);
        SharesShow(first, home, k);
      case Some(owner) => OwnerStaysInStep(states, events, home, owner, i);
    }
  }

  lemma SharesShow(links: seq<LinkV>, home: NetKey -> Option<string>, k: NetKey)
    ensures k in Share(links, home, home(k)) <==> k in Meaning(links)
    ensures k in Meaning(links) ==> Share(links, home, home(k))[k] == Meaning(links)[k]
  {
  }

  /** Where its own runs were tidy, a manifest that has lost its finalizer has no link at all. */
  lemma NoLinkOutlivesTheFinalizer(states: seq<Snap>, events: seq<Event>, home: NetKey -> Option<string>, name: string,
                                   i: nat)
    requires OrderlyTraceFor(states, events, home, name) && i < |states|
    requires Grounded(states[0], home) && OwnerInStep(states[0], home, name) && Clean(states[0], name)
    requires forall k :: 0 <= k < |events| ==> OwnLabel(events[k], name)
    ensures (name in states[i].objects && states[i].objects[name].finalizer) || OwnShare(states[i], home, name) == map[]
  {
    NothingOutlivesTheFinalizer(states, events, name, i);
    OwnerStaysInStep(states, events, home, name, i);
    NoConnectionsOfNoBundles();
  }

  // ----- Retries

  /** The operator does not restart, and the runs of `name` do not reach the record; those that push plan for `cs`. */
  ghost predicate RetryEvent(e: Event, name: string, cs: seq<Connection>)
  {
    !e.Restarted? && (RunsOnly(e, name) ==> Retries(e.run, cs))
  }

  ghost predicate CanRecover(s: Snap, home: NetKey -> Option<string>, name: string, cs: seq<Connection>)
  {
    Recoverable(OwnShare(s, home, name), ConnectionsAmong(RecordOf(s.record, name)), cs)
  }

  lemma RetryStaysRecoverable(pre: Snap, e: Event, post: Snap, home: NetKey -> Option<string>, name: string,
                              cs: seq<Connection>)
    requires Step(pre, e, post) && Grounded(pre, home) && (e.Ran? ==> PlanAtHome(e.name, e.run, home))
    requires RetryEvent(e, name, cs)
    requires CanRecover(pre, home, name, cs)
    ensures CanRecover(post, home, name, cs)
  {
    assert Looked(e);
    if RunsOnly(e, name) {
      RunMoves(pre, name, e.env, e.res, e.run, post);
      FailedRunStaysRecoverable(pre, name, e.run, post, home, cs);
    } else {
      StepMovesShares(pre, e, post, home, Some(name));
      OthersKeepRecord(pre, e, post, name);
    }
  }

  lemma OthersKeepRecord(pre: Snap, e: Event, post: Snap, name: string)
    requires Step(pre, e, post) && !e.Restarted? && !RunsOnly(e, name)
    ensures RecordOf(post.record, name) == RecordOf(pre.record, name)
  {
    assert Looked(e);
    if e.Ran? {
      RunMoves(pre, e.name, e.env, e.res, e.run, post);
    }
  }

  lemma RetriesStayRecoverable(states: seq<Snap>, events: seq<Event>, home: NetKey -> Option<string>, name: string,
                               cs: seq<Connection>, i: nat, j: nat)
    requires HomeTrace(states, events, home) && Grounded(states[0], home) && i <= j < |states|
    requires OwnerInStep(states[i], home, name)
    requires forall k :: i <= k < j ==> RetryEvent(events[k], name, cs)
    ensures CanRecover(states[j], home, name, cs)
  {
    InStepIsRecoverable(states[i], home, name, cs);
    forall k | i <= k < j && CanRecover(states[k], home, name, cs) ensures CanRecover(states[k + 1], home, name, cs) {
      BaselineIsUntouched(states, events, home, k);
      RetryStaysRecoverable(states[k], events[k], states[k + 1], home, name, cs);
    }
    Throughout(states, (s: Snap) => CanRecover(s, home, name, cs), i, j);
  }

  lemma RecordedRunRestores(pre: Snap, e: Event, post: Snap, home: NetKey -> Option<string>)
    requires Step(pre, e, post) && Grounded(pre, home) && e.Ran? && PlanAtHome(e.name, e.run, home)
    requires e.run.Pushed? && e.run.progress.recorded && e.env.installed
    requires CanRecover(pre, home, e.name, ConnectionsAmong(e.run.plan))
    ensures OwnerInStep(post, home, e.name)
  {
    assert Looked(e);
    RecordedRunRestoresStepIff(pre, e.name, e.env, e.res, e.run, post, home);
  }

  /** Failures are made good: after any number of runs that failed between the swap and the record, or anywhere else,
      with the runs of others in between, the first run for the same connections that is recorded brings its owner in
      step. */
  lemma RecordedRunMakesGood(states: seq<Snap>, events: seq<Event>, home: NetKey -> Option<string>, i: nat, j: nat)
    requires HomeTrace(states, events, home) && Grounded(states[0], home) && i <= j < |events|
    requires events[j].Ran? && events[j].run.Pushed? && events[j].run.progress.recorded && events[j].env.installed
    requires OwnerInStep(states[i], home, events[j].name)
    requires forall k :: i <= k < j ==> RetryEvent(events[k], events[j].name, ConnectionsAmong(events[j].run.plan))
    ensures OwnerInStep(states[j + 1], home, events[j].name)
  {
    RetriesStayRecoverable(states, events, home, events[j].name, ConnectionsAmong(events[j].run.plan), i, j);
    BaselineIsUntouched(states, events, home, j);
    RecordedRunRestores(states[j], events[j], states[j + 1], home);
  }

  // ----- Works in place

  /** `place` says which label the work at a key should carry; None is whoever else uses the hub. */
  ghost predicate InPlace(bundles: seq<BundleV>, name: string, place: WorkKey -> Option<string>)
  {
    forall k :: k in PlanKeys(bundles) ==> place(k) == Some(Truncate(name))
  }

  ghost predicate AllInPlace(s: Snap, place: WorkKey -> Option<string>)
  {
    (forall n :: n in s.record ==> InPlace(s.record[n], n, place))
    && forall k :: k in s.works && place(k).Some? ==> s.works[k].owner == place(k).value
  }

  ghost predicate PlacedEvent(e: Event, place: WorkKey -> Option<string>)
  {
    e.Ran? && e.run.Pushed? ==> InPlace(e.run.plan, e.name, place)
  }

  ghost predicate PlacedTrace(states: seq<Snap>, events: seq<Event>, place: WorkKey -> Option<string>)
  {
    Trace(states, events) && forall i :: 0 <= i < |events| ==> PlacedEvent(events[i], place)
  }

  lemma NothingIsInPlace(name: string, place: WorkKey -> Option<string>)
    ensures InPlace([], name, place)
  {
  }

  lemma ReachIsInPlace(pre: Snap, name: string, run: Run, place: WorkKey -> Option<string>, k: WorkKey)
    requires AllInPlace(pre, place) && (run.Pushed? ==> InPlace(run.plan, name, place)) && k in Reach(pre, name, run)
    ensures place(k) == Some(Truncate(name))
  {
    NothingIsInPlace(name, place);
    assert InPlace(RecordOf(pre.record, name), name, place);
  }

  lemma RunStaysInPlace(pre: Snap, name: string, env: Env, res: RunResult, run: Run, post: Snap,
                        place: WorkKey -> Option<string>)
    requires RunOk(pre, name, env, res, run, post)
    requires AllInPlace(pre, place) && (run.Pushed? ==> InPlace(run.plan, name, place))
    ensures AllInPlace(post, place)
  {
    RunMoves(pre, name, env, res, run, post);
    forall k | k in post.works && place(k).Some? ensures post.works[k].owner == place(k).value {
      RunTouches(pre, name, env, res, run, post, k);
      if k in Reach(pre, name, run) {
        ReachIsInPlace(pre, name, run, place, k);
      }
    }
  }

  lemma EventStaysInPlace(pre: Snap, e: Event, post: Snap, place: WorkKey -> Option<string>)
    requires Step(pre, e, post) && PlacedEvent(e, place) && AllInPlace(pre, place)
    ensures AllInPlace(post, place)
  {
    assert Looked(e);
    match e {
      case Ran(name, env, res, run) => RunStaysInPlace(pre, name, env, res, run, post, place);
      case Restarted =>
      case Edited =>
    }
  }

  lemma EverythingStaysInPlace(states: seq<Snap>, events: seq<Event>, place: WorkKey -> Option<string>, i: nat)
    requires PlacedTrace(states, events, place) && AllInPlace(states[0], place) && i < |states|
    ensures AllInPlace(states[i], place)
  {
    forall k | 0 <= k < i && AllInPlace(states[k], place) ensures AllInPlace(states[k + 1], place) {
      EventStaysInPlace(states[k], events[k], states[k + 1], place);
    }
    Throughout(states, (s: Snap) => AllInPlace(s, place), 0, i);
  }

  /** A run leaves alone every work that is not its own, by label and by place. */
  lemma RunKeepsForeignWork(pre: Snap, name: string, env: Env, res: RunResult, run: Run, post: Snap,
                            place: WorkKey -> Option<string>, k: WorkKey)
    requires RunOk(pre, name, env, res, run, post)
    requires AllInPlace(pre, place) && (run.Pushed? ==> InPlace(run.plan, name, place))
    requires place(k) != Some(Truncate(name)) && (k in pre.works ==> pre.works[k].owner != Truncate(name))
    ensures SameWorkAt(pre.works, post.works, k)
  {
    RunTouches(pre, name, env, res, run, post, k);
    if k in Reach(pre, name, run) {
      ReachIsInPlace(pre, name, run, place, k);
    }
  }

  /** A settled run leaves exactly its plan on the hub, and nothing that happens before the next run of the same
      manifest, be it runs of others, restarts or edits, changes any of it. */
  lemma SettledWorksStayExact(states: seq<Snap>, events: seq<Event>, place: WorkKey -> Option<string>, i: nat, j: nat)
    requires PlacedTrace(states, events, place) && AllInPlace(states[0], place) && i < j < |states|
    requires events[i].Ran? && SettledRun(events[i].name, events[i].res, states[i + 1])
    requires events[i].run.Pushed? ==> DistinctWorkKeys(events[i].run.plan)
    requires forall k :: 0 <= k < |events| ==> OwnLabel(events[k], events[i].name)
    requires forall k :: i < k < j ==> !RunsOnly(events[k], events[i].name)
    ensures events[i].run.Pushed? && WorksAreExactly(states[j].works, events[i].run.plan, Truncate(events[i].name))
  {
    EverythingStaysInPlace(states, events, place, i);
    assert PlacedEvent(events[i], place);
    SettledInPlace(states[i], events[i], states[i + 1], place);
    ExactWorksStay(states, events, place, events[i].name, events[i].run.plan, i + 1, j);
  }

  lemma ExactWorksStay(states: seq<Snap>, events: seq<Event>, place: WorkKey -> Option<string>, name: string,
                       plan: seq<BundleV>, i: nat, j: nat)
    requires PlacedTrace(states, events, place) && AllInPlace(states[0], place) && i <= j < |states|
    requires InPlace(plan, name, place) && WorksAreExactly(states[i].works, plan, Truncate(name))
    requires forall k :: 0 <= k < |events| ==> OwnLabel(events[k], name)
    requires forall k :: i <= k < j ==> !RunsOnly(events[k], name)
    ensures WorksAreExactly(states[j].works, plan, Truncate(name))
  {
    var p := (s: Snap) => WorksAreExactly(s.works, plan, Truncate(name));
    forall k | i <= k < j && p(states[k]) ensures p(states[k + 1]) {
      EverythingStaysInPlace(states, events, place, k);
      ExactWorksSurvive(states[k], events[k], states[k + 1], place, name, plan);
    }
    Throughout(states, p, i, j);
  }

  lemma SettledInPlace(pre: Snap, e: Event, post: Snap, place: WorkKey -> Option<string>)
    requires e.Ran? && Step(pre, e, post) && SettledRun(e.name, e.res, post)
    requires AllInPlace(pre, place) && PlacedEvent(e, place) && (e.run.Pushed? ==> DistinctWorkKeys(e.run.plan))
    ensures e.run.Pushed? && WorksAreExactly(post.works, e.run.plan, Truncate(e.name))
  {
    assert Looked(e);
    if e.run.Pushed? {
      forall i | 0 <= i < |e.run.plan| && KeyOf(e.run.plan[i]) in pre.works
        ensures pre.works[KeyOf(e.run.plan[i])].owner == Truncate(e.name)
      {
        assert KeyOf(e.run.plan[i]) in PlanKeys(e.run.plan);
      }
    }
    SettledRunIsExact(pre, e.name, e.env, e.res, e.run, post);
  }

  lemma ExactWorksSurvive(pre: Snap, e: Event, post: Snap, place: WorkKey -> Option<string>, name: string,
                          plan: seq<BundleV>)
    requires Step(pre, e, post) && AllInPlace(pre, place) && PlacedEvent(e, place)
    requires OwnLabel(e, name) && !RunsOnly(e, name)
    requires InPlace(plan, name, place) && WorksAreExactly(pre.works, plan, Truncate(name))
    ensures WorksAreExactly(post.works, plan, Truncate(name))
  {
    assert Looked(e);
    if e.Ran? {
      RunsAddNoWorksOfOthers(pre, e.name, e.env, e.res, e.run, post, Truncate(name));
      forall k | k in PlanKeys(plan) ensures SameWorkAt(pre.works, post.works, k) {
        assert place(k) == Some(Truncate(name));
        assert k in Owned(pre.works, Truncate(name));
        RunKeepsForeignWork(pre, e.name, e.env, e.res, e.run, post, place, k);
      }
      SameWorksAreExactly(pre.works, post.works, plan, Truncate(name));
    }
  }

  lemma SameWorksAreExactly(a: map<WorkKey, Work>, b: map<WorkKey, Work>, plan: seq<BundleV>, owner: string)
    requires WorksAreExactly(a, plan, owner) && Owned(b, owner) <= Owned(a, owner)
    requires forall k :: k in PlanKeys(plan) ==> SameWorkAt(a, b, k)
    ensures WorksAreExactly(b, plan, owner)
  {
    forall i | 0 <= i < |plan| ensures SameWorkAt(a, b, KeyOf(plan[i])) {
      assert KeyOf(plan[i]) in PlanKeys(plan);
    }
    forall k | k in PlanKeys(plan) ensures k in Owned(b, owner) {
      assert k in Owned(a, owner) && SameWorkAt(a, b, k);
    }
  }
}
