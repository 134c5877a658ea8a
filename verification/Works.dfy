/**
 How a run edits the ManifestWorks on the hub (internal/controller/p2codeschedulingmanifest_controller.go, lines 437-546
 and 702-746).
 */
module Works {
  import opened Collections
  import opened Resources
  import opened Bundles
  import opened Bundling
  import opened HubState

  // ----- Cleaning up after the previous bundles

  /** A recorded bundle whose work has to go: its cluster has changed, or there is no bundle of its name any more. */
  predicate Obsolete(v: BundleV, plan: seq<BundleV>)
  {
    match First(NamedBundle(v.name), plan)
    case Some(replacement) => replacement.cluster != v.cluster
    case None => v.resourceName != "" && v.cluster != ""
  }

  /** The keys removed by the first `n` iterations; a work that cannot be read is passed over. */
  function StaleKeys(existing: seq<BundleV>, plan: seq<BundleV>, env: Env, n: nat): set<WorkKey>
    requires n <= |existing|
  {
    if n == 0 then {}
    else StaleKeys(existing, plan, env, n - 1) + StaleKey(existing[n - 1], plan, env, n - 1)
  }

  function StaleKey(v: BundleV, plan: seq<BundleV>, env: Env, i: nat): set<WorkKey>
  {
    if Obsolete(v, plan) && !env.fails(GetStale(i)) then {KeyOf(v)} else {}
  }

  /** The works after the first `n` iterations. */
  function Cleaned(works: map<WorkKey, Work>, existing: seq<BundleV>, plan: seq<BundleV>, env: Env,
                   n: nat): map<WorkKey, Work>
    requires n <= |existing|
  {
    if n == 0 then works else Cleaned(works, existing, plan, env, n - 1) - StaleKey(existing[n - 1], plan, env, n - 1)
  }

  lemma {:induction false} CleanedIs(works: map<WorkKey, Work>, existing: seq<BundleV>, plan: seq<BundleV>, env: Env,
                                     n: nat)
    requires n <= |existing|
    ensures Cleaned(works, existing, plan, env, n) == works - StaleKeys(existing, plan, env, n)
  {
    if n > 0 {
      CleanedIs(works, existing, plan, env, n - 1);
    }
  }

  /** Deleting a work succeeds, unless it can be read and its deletion fails. */
  predicate DeletionSucceeds(works: map<WorkKey, Work>, k: WorkKey, i: nat, env: Env)
  {
    env.fails(GetStale(i)) || k !in works || !env.fails(DeleteStale(i))
  }

  /** The calls for one recorded bundle succeed. */
  predicate CleanUpSucceeds(works: map<WorkKey, Work>, v: BundleV, plan: seq<BundleV>, i: nat, env: Env)
  {
    match First(NamedBundle(v.name), plan)
    case Some(replacement) => replacement.cluster != v.cluster ==> DeletionSucceeds(works, KeyOf(v), i, env)
    case None => v.resourceName != "" ==>
                   !env.fails(DeletePlacement(i)) && (v.cluster != "" ==> DeletionSucceeds(works, KeyOf(v), i, env))
  }

  method DeleteManifestWork(hub: Hub, key: WorkKey, i: nat, env: Env) returns (ok: bool)
    modifies hub`works
    ensures ok ==> hub.works == if env.fails(GetStale(i)) then old(hub.works) else old(hub.works) - {key}
    ensures !ok ==> hub.works == old(hub.works)
    ensures ok <==> DeletionSucceeds(old(hub.works), key, i, env)
  {
    if !env.fails(GetStale(i)) && key in hub.works {
      if env.fails(DeleteStale(i)) {
        return false;
      }
      hub.works := hub.works - {key};
    } else {
      assert key !in hub.works ==> hub.works - {key} == hub.works;
    }
    return true;
  }

  /** One recorded bundle. */
  method CleanUpBundle(hub: Hub, existing: seq<Bundle>, i: nat, bundles: seq<Bundle>, env: Env,
                       ghost before: seq<BundleV>, ghost plan: seq<BundleV>) returns (ok: bool)
    requires Shows(existing, before) && Shows(bundles, plan) && DistinctNames(before) && i < |existing|
    modifies hub`works
    ensures ok ==> hub.works == old(hub.works) - StaleKey(before[i], plan, env, i)
    ensures !ok ==> hub.works == old(hub.works)
    ensures ok <==> CleanUpSucceeds(old(hub.works), before[i], plan, i, env)
  {
    var bundle := existing[i];
    assert bundle.View() == before[i];
    assert hub.works - {} == hub.works;
    var replacement, at := GetBundle(bundles, bundle.name, plan);
    if replacement.Some? {
      assert replacement.value.View() == plan[at];
      ghost var where: nat;
      var previous;
      previous, where := GetBundle(existing, bundle.name, before);
      FirstIsFirst(NamedBundle(bundle.name), before);
      assert before[i] in before && NamedBundle(bundle.name)(before[i]);
      assert previous.Some? && where == i;
      if replacement.value.cluster != previous.value.cluster {
        ok := DeleteManifestWork(hub, WorkKey(previous.value.resourceName, previous.value.cluster), i, env);
        return;
      }
    }
    if replacement.None? && bundle.resourceName != "" {
      if env.fails(DeletePlacement(i)) {
        return false;
      }
      if bundle.cluster != "" {
        ok := DeleteManifestWork(hub, WorkKey(bundle.resourceName, bundle.cluster), i, env);
        return;
      }
    }
    return true;
  }

  /** Cleaning up gets as far as bundle `n`: so far all calls have succeeded, and there one fails, if it is not the
      end. */
  ghost predicate CleanedUntil(works: map<WorkKey, Work>, before: seq<BundleV>, plan: seq<BundleV>, env: Env, n: nat)
  {
    forall j :: 0 <= j < |before| && j <= n ==> (CleanUpSucceedsAt(works, before, plan, j, env) <==> j < n)
  }

  predicate CleanUpSucceedsAt(works: map<WorkKey, Work>, before: seq<BundleV>, plan: seq<BundleV>, j: nat, env: Env)
    requires j < |before|
  {
    CleanUpSucceeds(Cleaned(works, before, plan, env, j), before[j], plan, j, env)
  }

  lemma CleanStep(works: map<WorkKey, Work>, before: seq<BundleV>, plan: seq<BundleV>, env: Env, i: nat,
                  now: map<WorkKey, Work>, ok: bool)
    requires i < |before| && now == Cleaned(works, before, plan, env, i)
    requires ok <==> CleanUpSucceeds(now, before[i], plan, i, env)
    ensures ok <==> CleanUpSucceedsAt(works, before, plan, i, env)
    ensures Cleaned(works, before, plan, env, i + 1) == now - StaleKey(before[i], plan, env, i)
  {
  }

  method CleanUp(hub: Hub, existing: seq<Bundle>, bundles: seq<Bundle>, env: Env,
                 ghost before: seq<BundleV>, ghost plan: seq<BundleV>) returns (ok: bool, ghost n: nat)
    requires Shows(existing, before) && Shows(bundles, plan) && DistinctNames(before)
    modifies hub`works
    ensures n <= |before| && (ok <==> n == |before|) && (!ok ==> !Faultless(env))
    ensures hub.works == Cleaned(old(hub.works), before, plan, env, n)
    ensures CleanedUntil(old(hub.works), before, plan, env, n)
  {
    n := 0;
    for i := 0 to |existing|
      invariant n == i && hub.works == Cleaned(old(hub.works), before, plan, env, i)
      invariant forall j :: 0 <= j < i ==> CleanUpSucceedsAt(old(hub.works), before, plan, j, env)
    {
      ghost var now := hub.works;
      ok := CleanUpBundle(hub, existing, i, bundles, env, before, plan);
      CleanStep(old(hub.works), before, plan, env, i, now, ok);
      if !ok {
        return;
      }
      n := i + 1;
    }
    ok := true;
  }

  // ----- Writing the works of the bundles

  /** One bundle: its work is created, or its content replaced while its owner stays. */
  function WrittenOne(works: map<WorkKey, Work>, v: BundleV, owner: string): map<WorkKey, Work>
  {
    var work := WorkOf(owner, v);
    works[KeyOf(v) := if KeyOf(v) in works then work.(owner := works[KeyOf(v)].owner) else work]
  }

  function Written(works: map<WorkKey, Work>, plan: seq<BundleV>, owner: string, n: nat): map<WorkKey, Work>
    requires n <= |plan|
  {
    if n == 0 then works else WrittenOne(Written(works, plan, owner, n - 1), plan[n - 1], owner)
  }

  /** The calls for one work succeed. */
  predicate WritingSucceeds(works: map<WorkKey, Work>, v: BundleV, i: nat, env: Env)
  {
    !env.fails(GetWork(i)) && !env.fails(if KeyOf(v) in works then UpdateWork(i) else CreateWork(i))
  }

  /** Writing gets as far as bundle `n`: so far all calls have succeeded, and there one fails, if it is not the end. */
  ghost predicate WrittenUntil(works: map<WorkKey, Work>, plan: seq<BundleV>, owner: string, env: Env, n: nat)
  {
    forall j :: 0 <= j < |plan| && j <= n ==> (WritingSucceedsAt(works, plan, owner, j, env) <==> j < n)
  }

  predicate WritingSucceedsAt(works: map<WorkKey, Work>, plan: seq<BundleV>, owner: string, j: nat, env: Env)
    requires j < |plan|
  {
    WritingSucceeds(Written(works, plan, owner, j), plan[j], j, env)
  }

  method WriteWork(hub: Hub, bundle: Bundle, owner: string, i: nat, env: Env) returns (ok: bool)
    modifies hub`works
    ensures hub.works == if ok then WrittenOne(old(hub.works), bundle.View(), owner) else old(hub.works)
    ensures ok <==> WritingSucceeds(old(hub.works), bundle.View(), i, env)
  {
    var key := WorkKey(bundle.resourceName, bundle.cluster);
    var work := GenerateManifestWork(owner, bundle.resources);
    if env.fails(GetWork(i)) {
      // Neither found nor reported missing: the update of the empty object that follows is refused.
      return false;
    }
    if key !in hub.works {
      if env.fails(CreateWork(i)) {
        return false;
      }
      hub.works := hub.works[key := work];
    } else {
      if env.fails(UpdateWork(i)) {
        return false;
      }
      hub.works := hub.works[key := work.(owner := hub.works[key].owner)];
    }
    return true;
  }

  method WriteWorks(hub: Hub, bundles: seq<Bundle>, owner: string, env: Env, ghost plan: seq<BundleV>)
    returns (ok: bool, placed: nat, ghost n: nat)
    requires Shows(bundles, plan)
    modifies hub`works
    ensures n <= |plan| && (ok <==> n == |plan|) && (if ok then placed == Placed(plan) else !Faultless(env))
    ensures hub.works == Written(old(hub.works), plan, owner, n)
    ensures WrittenUntil(old(hub.works), plan, owner, env, n)
  {
    placed, n := 0, 0;
    for i := 0 to |bundles|
      invariant n == i && placed == Placed(plan[..i]) && hub.works == Written(old(hub.works), plan, owner, i)
      invariant forall j :: 0 <= j < i ==> WritingSucceedsAt(old(hub.works), plan, owner, j, env)
    {
      assert bundles[i].View() == plan[i];
      Prefixes(plan, i);
      placed := placed + |bundles[i].resources|;
      ok := WriteWork(hub, bundles[i], owner, i, env);
      assert ok <==> WritingSucceedsAt(old(hub.works), plan, owner, i, env);
      if !ok {
        return;
      }
      n := i + 1;
    }
    assert plan[..|bundles|] == plan;
    ok := true;
  }

  // ----- Checking that they are applied

  /** The keys of the works with the owner's label, in some order. */
  method ListOwnedWorks(hub: Hub, owner: string) returns (keys: seq<WorkKey>)
    ensures Elems(keys) == Owned(hub.works, owner) && |keys| == |Owned(hub.works, owner)|
  {
    var rest := set k | k in hub.works && hub.works[k].owner == owner;
    keys := [];
    while rest != {}
      invariant rest <= Owned(hub.works, owner) && Elems(keys) == Owned(hub.works, owner) - rest
      invariant |keys| + |rest| == |Owned(hub.works, owner)|
      decreases |rest|
    {
      var k :| k in rest;
      Front(keys, k);
      assert Elems(keys + [k]) == Elems(keys) + {k};
      keys := keys + [k];
      rest := rest - {k};
    }
  }

  datatype Verdict = Applied | Waiting | Refused | Unlisted

  method CheckApplied(hub: Hub, count: nat, owner: string, env: Env) returns (verdict: Verdict)
    ensures verdict.Unlisted? <==> env.fails(ListOwned)
    ensures verdict.Applied? <==> !env.fails(ListOwned) && |Owned(hub.works, owner)| == count
                                  && forall k :: k in Owned(hub.works, owner) ==> Passes(env.reported(k))
    ensures verdict.Waiting? ==> |Owned(hub.works, owner)| != count
                                 || exists k :: k in Owned(hub.works, owner) && env.reported(k).manifests == []
    ensures verdict.Refused? ==> |Owned(hub.works, owner)| == count
                                 && exists k :: k in Owned(hub.works, owner) && FailedStatus(env.reported(k))
  {
    if env.fails(ListOwned) {
      return Unlisted;
    }
    var keys := ListOwnedWorks(hub, owner);
    if count != |keys| {
      return Waiting;
    }
    for i := 0 to |keys|
      invariant forall j :: 0 <= j < i ==> Passes(env.reported(keys[j]))
    {
      var v := ValidateManifestWorkApplied(env.reported(keys[i]));
      assert keys[i] in Elems(keys);
      if v.ApplyFailed? {
        return Refused;
      }
      if v.NotReady? {
        return Waiting;
      }
    }
    assert forall k :: k in Owned(hub.works, owner) ==> k in Elems(keys);
    return Applied;
  }

  // ----- Deleting all works of an owner

  /** The calls that delete all of so many works succeed. */
  predicate DeletionsSucceed(count: nat, env: Env)
  {
    !env.fails(ListOwned) && forall i :: 0 <= i < count ==> !env.fails(DeleteOwned(i))
  }

  method DeleteOwnedWorks(hub: Hub, owner: string, env: Env) returns (ok: bool, ghost removed: set<WorkKey>)
    modifies hub`works
    ensures removed <= Owned(old(hub.works), owner) && hub.works == old(hub.works) - removed
    ensures ok ==> removed == Owned(old(hub.works), owner)
    ensures ok <==> DeletionsSucceed(|Owned(old(hub.works), owner)|, env)
  {
    removed := {};
    assert hub.works - {} == hub.works;
    if env.fails(ListOwned) {
      return false, removed;
    }
    var keys := ListOwnedWorks(hub, owner);
    for i := 0 to |keys|
      invariant removed == Elems(keys[..i]) && hub.works == old(hub.works) - removed
      invariant forall j :: 0 <= j < i ==> !env.fails(DeleteOwned(j))
    {
      if env.fails(DeleteOwned(i)) {
        ElemsOfPrefix(keys, i);
        return false, removed;
      }
      Prefixes(keys, i);
      Unsnoc(keys[..i + 1]);
      assert Elems(keys[..i + 1]) == Elems(keys[..i]) + {keys[i]};
      hub.works := hub.works - {keys[i]};
      removed := removed + {keys[i]};
    }
    assert keys[..|keys|] == keys;
    return true, removed;
  }

  lemma ElemsOfPrefix<T>(s: seq<T>, i: nat)
    requires i <= |s|
    ensures Elems(s[..i]) <= Elems(s)
  {
  }

  // ----- What the edits achieve

  predicate DistinctWorkKeys(plan: seq<BundleV>)
  {
    forall i, j :: 0 <= i < j < |plan| ==> KeyOf(plan[i]) != KeyOf(plan[j])
  }

  ghost function PlanKeys(plan: seq<BundleV>): set<WorkKey> { set i | 0 <= i < |plan| :: KeyOf(plan[i]) }

  /** No work of another owner sits where a bundle's work is to go. */
  predicate Unshared(works: map<WorkKey, Work>, plan: seq<BundleV>, owner: string)
  {
    forall i :: 0 <= i < |plan| && KeyOf(plan[i]) in works ==> works[KeyOf(plan[i])].owner == owner
  }

  /** Writing touches the keys of the plan only, and keeps the owner of every work that was there. */
  lemma {:induction false} WrittenFrame(works: map<WorkKey, Work>, plan: seq<BundleV>, owner: string, n: nat)
    requires n <= |plan|
    ensures forall k :: k !in PlanKeys(plan) ==> (k in Written(works, plan, owner, n) <==> k in works)
    ensures forall k :: k !in PlanKeys(plan) && k in works ==> Written(works, plan, owner, n)[k] == works[k]
    ensures forall k :: k in works ==> k in Written(works, plan, owner, n)
                                       && Written(works, plan, owner, n)[k].owner == works[k].owner
    ensures forall k :: k in Written(works, plan, owner, n) && k !in works ==>
                          Written(works, plan, owner, n)[k].owner == owner
  {
    if n > 0 {
      WrittenFrame(works, plan, owner, n - 1);
      assert KeyOf(plan[n - 1]) in PlanKeys(plan);
    }
  }

  lemma OneWritten(works: map<WorkKey, Work>, v: BundleV, owner: string, k: WorkKey)
    ensures k in WrittenOne(works, v, owner) <==> k in works || k == KeyOf(v)
    ensures k != KeyOf(v) && k in works ==> WrittenOne(works, v, owner)[k] == works[k]
    ensures k == KeyOf(v) && (k in works ==> works[k].owner == owner) ==>
              WrittenOne(works, v, owner)[k] == WorkOf(owner, v)
  {
  }

  lemma {:induction false} WrittenKey(works: map<WorkKey, Work>, plan: seq<BundleV>, owner: string, n: nat, i: nat)
    requires i < n <= |plan|
    ensures KeyOf(plan[i]) in Written(works, plan, owner, n)
  {
    OneWritten(Written(works, plan, owner, n - 1), plan[n - 1], owner, KeyOf(plan[i]));
    if i < n - 1 {
      WrittenKey(works, plan, owner, n - 1, i);
    }
  }

  /** Every bundle written has its work, and with distinct keys that work holds exactly the bundle's manifests. */
  lemma WrittenContents(works: map<WorkKey, Work>, plan: seq<BundleV>, owner: string, n: nat, i: nat)
    requires i < n <= |plan|
    ensures KeyOf(plan[i]) in Written(works, plan, owner, n)
    ensures DistinctWorkKeys(plan) && Unshared(works, plan, owner) ==>
              Written(works, plan, owner, n)[KeyOf(plan[i])] == WorkOf(owner, plan[i])
  {
    WrittenKey(works, plan, owner, n, i);
    if DistinctWorkKeys(plan) && Unshared(works, plan, owner) {
      WrittenOnce(works, plan, owner, n, i);
    }
  }

  lemma {:induction false} WrittenOnce(works: map<WorkKey, Work>, plan: seq<BundleV>, owner: string, n: nat, i: nat)
    requires i < n <= |plan| && DistinctWorkKeys(plan) && Unshared(works, plan, owner)
    ensures KeyOf(plan[i]) in Written(works, plan, owner, n)
    ensures Written(works, plan, owner, n)[KeyOf(plan[i])] == WorkOf(owner, plan[i])
  {
    var now := Written(works, plan, owner, n - 1);
    OneWritten(now, plan[n - 1], owner, KeyOf(plan[i]));
    assert Written(works, plan, owner, n) == WrittenOne(now, plan[n - 1], owner);
    if i < n - 1 {
      WrittenOnce(works, plan, owner, n - 1, i);
      assert KeyOf(plan[i]) != KeyOf(plan[n - 1]);
    } else {
      WrittenFrame(works, plan, owner, n - 1);
    }
  }

  lemma {:induction false} DistinctKeysCount(plan: seq<BundleV>)
    requires DistinctWorkKeys(plan)
    ensures |PlanKeys(plan)| == |plan|
  {
    if plan != [] {
      var front, last := plan[..|plan| - 1], plan[|plan| - 1];
      DistinctKeysCount(front);
      assert forall i :: 0 <= i < |front| ==> front[i] == plan[i];
      assert PlanKeys(plan) == PlanKeys(front) + {KeyOf(last)};
      assert KeyOf(last) !in PlanKeys(front);
    }
  }

  /** The count guard is enough: once all bundles are written, if the owner has as many works as there are bundles,
      these are the works of the bundles and no others, and they hold what the bundles hold. */
  lemma CountGuardIsExact(works: map<WorkKey, Work>, plan: seq<BundleV>, owner: string)
    requires DistinctWorkKeys(plan) && Unshared(works, plan, owner)
    requires |Owned(Written(works, plan, owner, |plan|), owner)| == |plan|
    ensures Owned(Written(works, plan, owner, |plan|), owner) == PlanKeys(plan)
    ensures forall i :: 0 <= i < |plan| ==>
              var after := Written(works, plan, owner, |plan|);
              KeyOf(plan[i]) in after && after[KeyOf(plan[i])] == WorkOf(owner, plan[i])
  {
    var after := Written(works, plan, owner, |plan|);
    forall i | 0 <= i < |plan| ensures KeyOf(plan[i]) in after && after[KeyOf(plan[i])] == WorkOf(owner, plan[i]) {
      WrittenContents(works, plan, owner, |plan|, i);
    }
    DistinctKeysCount(plan);
    SubsetCount(PlanKeys(plan), Owned(after, owner));
  }

  /** Without distinct keys the guard cannot be met by the bundles' own works alone: two bundles share one work. */
  lemma {:induction false} SharedKeysFallShort(plan: seq<BundleV>)
    ensures |PlanKeys(plan)| <= |plan|
    ensures |PlanKeys(plan)| == |plan| ==> DistinctWorkKeys(plan)
  {
    if plan != [] {
      var front, last := plan[..|plan| - 1], plan[|plan| - 1];
      SharedKeysFallShort(front);
      assert forall i :: 0 <= i < |front| ==> front[i] == plan[i];
      assert PlanKeys(plan) == PlanKeys(front) + {KeyOf(last)};
      if |PlanKeys(plan)| == |plan| {
        assert KeyOf(last) !in PlanKeys(front);
        forall i, j | 0 <= i < j < |plan| ensures KeyOf(plan[i]) != KeyOf(plan[j]) {
          if j == |front| { assert KeyOf(front[i]) in PlanKeys(front); }
        }
      }
    }
  }

  lemma {:induction false} StaleKeysMean(existing: seq<BundleV>, plan: seq<BundleV>, env: Env, n: nat, k: WorkKey)
    requires n <= |existing|
    ensures k in StaleKeys(existing, plan, env, n) <==>
            exists i :: 0 <= i < n && Obsolete(existing[i], plan) && !env.fails(GetStale(i)) && KeyOf(existing[i]) == k
  {
    if n > 0 {
      StaleKeysMean(existing, plan, env, n - 1, k);
    }
  }

  /** Exactly which works there are after cleaning up and writing. */
  lemma SurvivesIff(works: map<WorkKey, Work>, existing: seq<BundleV>, plan: seq<BundleV>, owner: string, env: Env,
                    k: WorkKey)
    ensures k in Written(works - StaleKeys(existing, plan, env, |existing|), plan, owner, |plan|) <==>
            k in PlanKeys(plan)
            || (k in works
                && forall i :: 0 <= i < |existing| && Obsolete(existing[i], plan) && KeyOf(existing[i]) == k ==>
                                 env.fails(GetStale(i)))
  {
    var cleaned := works - StaleKeys(existing, plan, env, |existing|);
    WrittenFrame(cleaned, plan, owner, |plan|);
    StaleKeysMean(existing, plan, env, |existing|, k);
    if k in PlanKeys(plan) {
      var i :| 0 <= i < |plan| && KeyOf(plan[i]) == k;
      WrittenContents(cleaned, plan, owner, |plan|, i);
    }
  }

  /** The owner then has the works of the new bundles, and those of its old ones that were not removed. */
  lemma OwnedAfterEdits(works: map<WorkKey, Work>, existing: seq<BundleV>, plan: seq<BundleV>, owner: string, env: Env)
    requires Unshared(works, plan, owner)
    ensures Owned(Written(works - StaleKeys(existing, plan, env, |existing|), plan, owner, |plan|), owner)
         == PlanKeys(plan) + (Owned(works, owner) - StaleKeys(existing, plan, env, |existing|))
  {
    var stale := StaleKeys(existing, plan, env, |existing|);
    var after := Written(works - stale, plan, owner, |plan|);
    WrittenFrame(works - stale, plan, owner, |plan|);
    forall i | 0 <= i < |plan| ensures KeyOf(plan[i]) in Owned(after, owner) {
      WrittenKey(works - stale, plan, owner, |plan|, i);
    }
  }

  /** Cleaning up and writing leaves nothing stale: where the old works could be read, the work of a recorded bundle
      survives only if some new bundle has its key, or the bundle of its name stays on its cluster. */
  lemma CleanUpIsComplete(works: map<WorkKey, Work>, existing: seq<BundleV>, plan: seq<BundleV>, owner: string,
                          env: Env, i: nat)
    requires i < |existing| && !env.fails(GetStale(i)) && existing[i].resourceName != "" && existing[i].cluster != ""
    ensures var after := Written(works - StaleKeys(existing, plan, env, |existing|), plan, owner, |plan|);
            KeyOf(existing[i]) in after ==>
              KeyOf(existing[i]) in PlanKeys(plan)
              || exists j :: 0 <= j < |plan| && plan[j].name == existing[i].name
                             && plan[j].cluster == existing[i].cluster
  {
    var cleaned := works - StaleKeys(existing, plan, env, |existing|);
    WrittenFrame(cleaned, plan, owner, |plan|);
    StaleKeysMean(existing, plan, env, |existing|, KeyOf(existing[i]));
    FirstIsFirst(NamedBundle(existing[i].name), plan);
  }

  /** And it does no harm: works elsewhere are as they were, and every new bundle has its work. */
  lemma CleanUpIsHarmless(works: map<WorkKey, Work>, existing: seq<BundleV>, plan: seq<BundleV>, owner: string,
                          env: Env)
    ensures var after := Written(works - StaleKeys(existing, plan, env, |existing|), plan, owner, |plan|);
            && (forall k :: k !in PlanKeys(existing) && k !in PlanKeys(plan) ==>
                  (k in after <==> k in works) && (k in works ==> after[k] == works[k]))
            && PlanKeys(plan) <= after.Keys
  {
    var cleaned := works - StaleKeys(existing, plan, env, |existing|);
    StaleKeysAreRecorded(existing, plan, env, |existing|);
    WrittenFrame(cleaned, plan, owner, |plan|);
    forall i | 0 <= i < |plan| ensures KeyOf(plan[i]) in Written(cleaned, plan, owner, |plan|) {
      WrittenContents(cleaned, plan, owner, |plan|, i);
    }
  }

  lemma {:induction false} StaleKeysAreRecorded(existing: seq<BundleV>, plan: seq<BundleV>, env: Env, n: nat)
    requires n <= |existing|
    ensures StaleKeys(existing, plan, env, n) <= PlanKeys(existing)
  {
    if n > 0 {
      StaleKeysAreRecorded(existing, plan, env, n - 1);
      assert KeyOf(existing[n - 1]) in PlanKeys(existing);
    }
  }

  /** The exception is real: a recorded bundle whose name and cluster a single new bundle takes over under another
      resource name is passed over, and while its work is there the count guard fails. */
  lemma RenamedWorkIsPassedOver(works: map<WorkKey, Work>, existing: seq<BundleV>, j: nat, target: BundleV,
                                owner: string, env: Env)
    requires j < |existing| && DistinctWorkKeys(existing)
    requires target.name == existing[j].name && target.cluster == existing[j].cluster
    requires KeyOf(target) != KeyOf(existing[j])
    requires KeyOf(existing[j]) in works && works[KeyOf(existing[j])].owner == owner && Unshared(works, [target], owner)
    ensures var after := Written(works - StaleKeys(existing, [target], env, |existing|), [target], owner, 1);
            KeyOf(existing[j]) in Owned(after, owner) && |Owned(after, owner)| != 1
  {
    var previous := KeyOf(existing[j]);
    var cleaned := works - StaleKeys(existing, [target], env, |existing|);
    assert First(NamedBundle(target.name), [target]) == Some(target);
    StaleKeysMean(existing, [target], env, |existing|, previous);
    var after := Written(cleaned, [target], owner, 1);
    WrittenFrame(cleaned, [target], owner, 1);
    OwnedAfterEdits(works, existing, [target], owner, env);
    assert KeyOf([target][0]) in PlanKeys([target]);
    SubsetCount({KeyOf(target), previous}, Owned(after, owner));
  }

  // ----- The same of names and clusters

  /** A recorded bundle whose work has to go, told by names and clusters: the new bundle of its name is on another
      cluster, or there is none. */
  predicate HasToGo(v: BundleV, plan: seq<BundleV>)
  {
    (exists p :: p in plan && p.name == v.name && p.cluster != v.cluster)
    || ((forall p :: p in plan ==> p.name != v.name) && v.resourceName != "" && v.cluster != "")
  }

  lemma ObsoleteIff(v: BundleV, plan: seq<BundleV>)
    requires DistinctNames(plan)
    ensures Obsolete(v, plan) <==> HasToGo(v, plan)
  {
    FirstIsFirst(NamedBundle(v.name), plan);
    assert forall p: BundleV :: NamedBundle(v.name)(p) <==> p.name == v.name;
    match First(NamedBundle(v.name), plan) {
      case None =>
      case Some(found) =>
        assert found in plan && found.name == v.name;
        forall p | p in plan && p.name == v.name ensures p == found {
          var i :| 0 <= i < |plan| && plan[i] == p;
          var j :| 0 <= j < |plan| && plan[j] == found;
        }
    }
  }

  /** The key is where a bundle's work is: the resource name of the bundle, on its cluster. */
  predicate IsPlace(k: WorkKey, v: BundleV) { k.name == v.resourceName && k.cluster == v.cluster }

  predicate IsPlanned(k: WorkKey, plan: seq<BundleV>) { exists i :: 0 <= i < |plan| && IsPlace(k, plan[i]) }

  lemma PlannedMeans(k: WorkKey, plan: seq<BundleV>)
    ensures IsPlanned(k, plan) <==> k in PlanKeys(plan)
  {
    if IsPlanned(k, plan) {
      var i :| 0 <= i < |plan| && IsPlace(k, plan[i]);
      assert KeyOf(plan[i]) == k;
    }
    if k in PlanKeys(plan) {
      var i :| 0 <= i < |plan| && KeyOf(plan[i]) == k;
      assert IsPlace(k, plan[i]);
    }
  }

  /** Exactly which works there are after cleaning up and writing: the planned ones, and those that were there and that
      no recorded bundle has to give up, or whose deletion could not read them. */
  lemma SurvivesByNameIff(works: map<WorkKey, Work>, existing: seq<BundleV>, plan: seq<BundleV>, owner: string,
                          env: Env, k: WorkKey)
    requires DistinctNames(plan)
    ensures k in Written(works - StaleKeys(existing, plan, env, |existing|), plan, owner, |plan|) <==>
            IsPlanned(k, plan)
            || (k in works
                && forall i :: 0 <= i < |existing| && IsPlace(k, existing[i]) && HasToGo(existing[i], plan) ==>
                                 env.fails(GetStale(i)))
  {
    SurvivesIff(works, existing, plan, owner, env, k);
    PlannedMeans(k, plan);
    forall i | 0 <= i < |existing|
      ensures Obsolete(existing[i], plan) && KeyOf(existing[i]) == k <==>
              HasToGo(existing[i], plan) && IsPlace(k, existing[i])
    {
      ObsoleteIff(existing[i], plan);
    }
  }
}
