/**
 A request that is planned again. The objects are new, and selector labels are visited in another order; the plan is the
 same but for the order of the manifests within a bundle, and what is then written and registered is what was there.
 */
module Repeats {
  import opened Collections
  import opened Text
  import opened Resources
  import opened Annotations
  import opened Analysis
  import opened Bundles
  import opened Bundling
  import opened Links
  import opened LinkTheory
  import opened Connections
  import opened HubState
  import opened Works
  import opened Planning
  import opened Reconciler
  import opened RunTheory
  import opened Registry
  import opened Conversions

  // ----- Bundles made twice

  /** Bundles that differ in the order of their manifests only; their workloads correspond in order. */
  ghost predicate Alike(v: BundleV, w: BundleV)
  {
    v.(resources := []) == w.(resources := []) && Reordered(v.resources, w.resources)
    && Twin(Filter(Workloads(), v.resources), Filter(Workloads(), w.resources))
  }

  ghost predicate AllAlike(a: seq<BundleV>, b: seq<BundleV>)
  {
    |a| == |b| && forall i :: 0 <= i < |a| ==> Alike(a[i], b[i])
  }

  lemma SameManifests(a: seq<Resource>, b: seq<Resource>)
    requires Twin(a, b)
    ensures ManifestsOf(a) == ManifestsOf(b)
  {
  }

  lemma TwinsAreAlike(v: BundleV, w: BundleV)
    requires v.(resources := []) == w.(resources := []) && Twin(v.resources, w.resources)
    ensures Alike(v, w)
  {
    SameManifests(v.resources, w.resources);
    FilterTwins(Workloads(), Workloads(), v.resources, w.resources);
  }

  lemma ReorderedBehind(r: Resource, a: seq<Resource>, s: Resource, b: seq<Resource>)
    requires r.manifest == s.manifest && Reordered(a, b)
    ensures Reordered([r] + a, [s] + b)
  {
    assert ManifestsOf([r] + a) == [r.manifest] + ManifestsOf(a);
    assert ManifestsOf([s] + b) == [s.manifest] + ManifestsOf(b);
  }

  /** The bundles of one workload. */
  lemma BundleTwins(v: BundleV, x: Resource, a: seq<Resource>, w: BundleV, y: Resource, b: seq<Resource>,
                    request: Request, common: seq<Rule>)
    requires Twin(a, b) && DistinctKeys(a) && Mates(Filter(Workloads(), a), Filter(Workloads(), b), x, y)
    requires BundleOf(v, x, request, common, a) && BundleOf(w, y, request, common, b)
    ensures Alike(v, w)
  {
    FilterTwins(Workloads(), Workloads(), a, b);
    FilterTwins(Ancillaries(), Ancillaries(), a, b);
    FilterDistinct(Workloads(), a);
    FilterDistinct(Ancillaries(), a);
    TwinKeys(a, b);
    MatesMatch(Filter(Workloads(), a), Filter(Workloads(), b), x, y);
    BundleShape(v, x, request, common, a);
    BundleShape(w, y, request, common, b);
    BundleParts(v, x, a, w, y, b, request, common);
  }

  lemma BundleParts(v: BundleV, x: Resource, a: seq<Resource>, w: BundleV, y: Resource, b: seq<Resource>,
                    request: Request, common: seq<Rule>)
    requires BundleOf(v, x, request, common, a) && BundleOf(w, y, request, common, b) && x.manifest == y.manifest
    requires Twin(Filter(Ancillaries(), a), Filter(Ancillaries(), b)) && DistinctKeys(Filter(Ancillaries(), a))
    requires Twin(Filter(Workloads(), a), Filter(Workloads(), b)) && DistinctKeys(Filter(Workloads(), a))
    requires Mates(Filter(Workloads(), a), Filter(Workloads(), b), x, y)
    ensures v.(resources := []) == w.(resources := []) && Reordered(v.resources, w.resources)
  {
    var f, g := Findings(v.resources[1..], v.absent, v.external), Findings(w.resources[1..], w.absent, w.external);
    BundleOpens(v, x, request, common, a);
    BundleOpens(w, y, request, common, b);
    TwinFindings(x, Filter(Ancillaries(), a), f, y, Filter(Ancillaries(), b), g);
    ReorderedBehind(x, f.resources, y, g.resources);
    AssignedTwins(Filter(Workloads(), a), Filter(Workloads(), b), request.workloadAnnotations, x, y);
  }

  lemma MadeTwins(made: seq<BundleV>, a: seq<Resource>, made': seq<BundleV>, b: seq<Resource>, request: Request,
                  common: seq<Rule>)
    requires Twin(a, b) && DistinctKeys(a)
    requires MadeFor(made, Filter(Workloads(), a), request, common, a)
    requires MadeFor(made', Filter(Workloads(), b), request, common, b)
    ensures AllAlike(made, made')
  {
    FilterTwins(Workloads(), Workloads(), a, b);
    var ws, ws' := Filter(Workloads(), a), Filter(Workloads(), b);
    forall i | 0 <= i < |made| ensures Alike(made[i], made'[i]) {
      assert Mates(ws, ws', ws[i], ws'[i]);
      BundleTwins(made[i], ws[i], a, made'[i], ws'[i], b, request, common);
    }
  }

  lemma {:induction false} UpsertAlike(views: seq<BundleV>, v: BundleV, views': seq<BundleV>, v': BundleV)
    requires AllAlike(views, views') && Alike(v, v')
    ensures AllAlike(Upsert(views, v), Upsert(views', v'))
  {
    if views != [] {
      assert Alike(views[0], views'[0]);
      UpsertAlike(views[1..], v, views'[1..], v');
    }
  }

  lemma {:induction false} UpsertAllAlike(made: seq<BundleV>, made': seq<BundleV>)
    requires AllAlike(made, made')
    ensures AllAlike(UpsertAll(made), UpsertAll(made'))
  {
    if made != [] {
      var n := |made| - 1;
      UpsertAllAlike(made[..n], made'[..n]);
      UpsertAlike(UpsertAll(made[..n]), made[n], UpsertAll(made'[..n]), made'[n]);
    }
  }

  lemma BundledTwins(request: Request, a: seq<Resource>, made: seq<BundleV>, views: seq<BundleV>,
                     b: seq<Resource>, made': seq<BundleV>, views': seq<BundleV>)
    requires Twin(a, b) && DistinctKeys(a)
    requires Bundled(request, a, made, views) && Bundled(request, b, made', views')
    ensures AllAlike(views, views')
  {
    var common := PlacementRules(request.globalAnnotations).value;
    if request.workloadAnnotations == [] {
      TwinsAreAlike(Single(request, common, a), Single(request, common, b));
    } else {
      MadeTwins(made, a, made', b, request, common);
      UpsertAllAlike(made, made');
    }
  }

  // ----- Plans made twice

  /** Both environments answer alike about every placement. */
  ghost predicate SamePlacements(env: Env, env': Env) { forall n :: env.placement(n) == env'.placement(n) }

  lemma LocatedAlike(views: seq<BundleV>, env: Env, views': seq<BundleV>, env': Env)
    requires AllAlike(views, views') && SamePlacements(env, env')
    ensures AllAlike(Located(views, env), Located(views', env'))
  {
    forall i | 0 <= i < |views| ensures Alike(Located(views, env)[i], Located(views', env')[i]) {
      assert Alike(views[i], views'[i]);
    }
  }

  /** Two plans for one request and target, with the same placements, agree in everything but the order of the manifests
      within each bundle: in the names and rules of the bundles, in their clusters and keys, in what is absent, and in
      the external connections. */
  lemma PlansAgree(request: Request, target: Target, env: Env, blueprint: Blueprint, plan: seq<BundleV>,
                   env': Env, blueprint': Blueprint, plan': seq<BundleV>)
    requires PlanFrom(request, target, env, blueprint, plan) && PlanFrom(request, target, env', blueprint', plan')
    requires SamePlacements(env, env')
    ensures AllAlike(plan, plan')
  {
    assert Unfolded(blueprint) && Unfolded(blueprint');
    var a, b := blueprint.resources, blueprint'.resources;
    UnionTwins(blueprint.created, blueprint'.created);
    UnionKeys([], blueprint.created);
    if target.cluster != "" {
      TwinsAreAlike(Targeted(request, target, a), Targeted(request, target, b));
    } else {
      BundledTwins(request, a, blueprint.made, blueprint.views, b, blueprint'.made, blueprint'.views);
      LocatedAlike(blueprint.views, env, blueprint'.views, env');
    }
  }

  // ----- Connections between them

  /** Services of one name are in one namespace. What an analysis finds is stated up to its order, and a connection
      leads to the first Service of its name. */
  predicate OneNamespacePerService(manifests: seq<Manifest>)
  {
    forall m, n :: m in manifests && n in manifests && IsService(m) && IsService(n) && NameOf(m) == NameOf(n) ==>
                     m.metadata.namespace == n.metadata.namespace
  }

  predicate IsService(m: Manifest) { m.metadata.gvk.kind == Service }

  function NameOf(m: Manifest): string { m.metadata.name }

  ghost predicate MadeOf(rs: seq<Resource>, manifests: seq<Manifest>)
  {
    forall r :: r in rs ==> r.manifest in manifests
  }

  lemma ReorderedHas(a: seq<Resource>, b: seq<Resource>, r: Resource) returns (s: Resource)
    requires Reordered(a, b) && r in a
    ensures s in b && s.manifest == r.manifest
  {
    var i :| 0 <= i < |a| && a[i] == r;
    assert ManifestsOf(a)[i] in multiset(ManifestsOf(a));
    var j :| 0 <= j < |b| && ManifestsOf(b)[j] == r.manifest;
    s := b[j];
  }

  lemma ServiceIsFound(a: seq<Resource>, b: seq<Resource>, ref: Ref)
    requires Reordered(a, b) && Resolve(a, ref).Some?
    ensures Resolve(b, ref).Some?
  {
    ResolveMeans(a, ref);
    ResolveMeans(b, ref);
    var s := ReorderedHas(a, b, Resolve(a, ref).value);
    assert Matching(ref)(s);
  }

  lemma ServicesAgree(a: seq<Resource>, b: seq<Resource>, name: string, manifests: seq<Manifest>)
    requires Reordered(a, b) && MadeOf(a, manifests) && MadeOf(b, manifests) && OneNamespacePerService(manifests)
    ensures Resolve(a, Ref(name, Service)).None? <==> Resolve(b, Ref(name, Service)).None?
    ensures Resolve(a, Ref(name, Service)).Some? ==>
              Resolve(a, Ref(name, Service)).value.Namespace() == Resolve(b, Ref(name, Service)).value.Namespace()
  {
    var ref := Ref(name, Service);
    if Resolve(a, ref).Some? {
      ServiceIsFound(a, b, ref);
      ResolveMeans(a, ref);
      ResolveMeans(b, ref);
      assert IsService(Resolve(a, ref).value.manifest) && NameOf(Resolve(a, ref).value.manifest) == name;
      assert IsService(Resolve(b, ref).value.manifest) && NameOf(Resolve(b, ref).value.manifest) == name;
    } else if Resolve(b, ref).Some? {
      ServiceIsFound(b, a, ref);
    }
  }

  ghost predicate AllMadeOf(plan: seq<BundleV>, manifests: seq<Manifest>)
  {
    forall i :: 0 <= i < |plan| ==> MadeOf(plan[i].resources, manifests)
  }

  lemma ReachingAlike(plan: seq<BundleV>, plan': seq<BundleV>, v: BundleV, v': BundleV, target: Location,
                      service: ServicePort, manifests: seq<Manifest>)
    requires AllAlike(plan, plan') && AllMadeOf(plan, manifests) && AllMadeOf(plan', manifests) && v.name == v'.name
    requires OneNamespacePerService(manifests)
    ensures ForService(v, target, plan)(service) == ForService(v', target, plan')(service)
  {
    forall j | 0 <= j < |plan|
      ensures Reaching(v, target, service)(plan[j]) == Reaching(v', target, service)(plan'[j])
    {
      assert Alike(plan[j], plan'[j]);
      assert plan[j].(resources := []).name == plan[j].name && plan[j].(resources := []).cluster == plan[j].cluster;
      ServicesAgree(plan[j].resources, plan'[j].resources, service.name, manifests);
    }
    FlatMapTwins(Reaching(v, target, service), Reaching(v', target, service), plan, plan');
  }

  lemma BundleReachesAlike(plan: seq<BundleV>, plan': seq<BundleV>, i: nat, manifests: seq<Manifest>)
    requires AllAlike(plan, plan') && AllMadeOf(plan, manifests) && AllMadeOf(plan', manifests) && i < |plan|
    requires OneNamespacePerService(manifests)
    ensures ForBundle(plan)(plan[i]) == ForBundle(plan')(plan'[i])
  {
    var v, v' := plan[i], plan'[i];
    assert Alike(v, v');
    Fields(v, v');
    if v.external != [] && Filter(Workloads(), v.resources) != [] {
      var target := TargetOf(v);
      forall k | 0 <= k < |v.external|
        ensures ForService(v, target, plan)(v.external[k]) == ForService(v', target, plan')(v.external[k])
      {
        ReachingAlike(plan, plan', v, v', target, v.external[k], manifests);
      }
      FlatMapTwins(ForService(v, target, plan), ForService(v', target, plan'), v.external, v'.external);
    }
  }

  lemma Fields(v: BundleV, w: BundleV)
    requires v.(resources := []) == w.(resources := [])
    ensures v.name == w.name && v.external == w.external && v.cluster == w.cluster && v.resourceName == w.resourceName
  {
  }

  /** Alike plans call for the same connections, in the same order. */
  lemma ConnectionsAlike(plan: seq<BundleV>, plan': seq<BundleV>, manifests: seq<Manifest>)
    requires AllAlike(plan, plan') && AllMadeOf(plan, manifests) && AllMadeOf(plan', manifests)
    requires OneNamespacePerService(manifests)
    ensures ConnectionsAmong(plan) == ConnectionsAmong(plan')
  {
    forall i | 0 <= i < |plan| ensures ForBundle(plan)(plan[i]) == ForBundle(plan')(plan'[i]) {
      BundleReachesAlike(plan, plan', i, manifests);
    }
    FlatMapTwins(ForBundle(plan), ForBundle(plan'), plan, plan');
  }

  lemma PlanIsMadeOf(request: Request, target: Target, env: Env, blueprint: Blueprint, plan: seq<BundleV>)
    requires PlanFrom(request, target, env, blueprint, plan)
    ensures AllMadeOf(plan, request.manifests)
  {
    assert Unfolded(blueprint);
    PlansAreWellBundled(request, target, env, blueprint, plan);
    ConvertedIsMadeOf(blueprint.created, request.manifests);
    forall i | 0 <= i < |plan| ensures MadeOf(plan[i].resources, request.manifests) {
      assert WellBundled(plan[i], blueprint.resources);
    }
  }

  lemma ConvertedIsMadeOf(created: seq<Resource>, manifests: seq<Manifest>)
    requires ConvertedFrom(created, manifests)
    ensures MadeOf(Union([], created), manifests)
  {
    UnionMembers([], created);
  }

  // ----- Their works

  function ClaimOf(): Manifest -> seq<Metadata>
  {
    (m: Manifest) => if m.metadata.gvk.kind == PersistentVolumeClaim then [m.metadata] else []
  }

  lemma TakenOut<T>(t: seq<T>, x: T) returns (i: nat)
    requires x in multiset(t)
    ensures i < |t| && t[i] == x && t == t[..i] + [x] + t[i + 1..]
    ensures multiset(t[..i] + t[i + 1..]) == multiset(t) - multiset{x}
  {
    i :| 0 <= i < |t| && t[i] == x;
    assert t == t[..i] + [x] + t[i + 1..];
  }

  lemma {:induction false} FlatMapReorders<A, B>(f: A -> seq<B>, s: seq<A>, t: seq<A>)
    requires multiset(s) == multiset(t)
    ensures multiset(FlatMap(f, s)) == multiset(FlatMap(f, t))
  {
    if s == [] {
      assert |multiset(t)| == 0;
    } else {
      var front, x := s[..|s| - 1], s[|s| - 1];
      Unsnoc(s);
      var i := TakenOut(t, x);
      FlatMapReorders(f, front, t[..i] + t[i + 1..]);
      FlatMapConcat(f, t[..i], t[i + 1..]);
      FlatMapOnce(f, t[..i], x, t[i + 1..]);
    }
  }

  /** Works with one owner that hold the same manifests and options, in whatever order. */
  ghost predicate SameContent(x: Work, y: Work)
  {
    x.owner == y.owner && multiset(x.manifests) == multiset(y.manifests)
    && multiset(x.serverSideApply) == multiset(y.serverSideApply)
  }

  lemma WorksOfAlike(owner: string, v: BundleV, w: BundleV)
    requires Alike(v, w)
    ensures KeyOf(v) == KeyOf(w) && v.name == w.name && SameContent(WorkOf(owner, v), WorkOf(owner, w))
  {
    Fields(v, w);
    FlatMapTwins(ClaimOption(), ClaimOf(), v.resources, ManifestsOf(v.resources));
    FlatMapTwins(ClaimOption(), ClaimOf(), w.resources, ManifestsOf(w.resources));
    FlatMapReorders(ClaimOf(), ManifestsOf(v.resources), ManifestsOf(w.resources));
  }

  /** The same works, up to the order of what they hold. */
  ghost predicate SameWorks(x: map<WorkKey, Work>, y: map<WorkKey, Work>)
  {
    x.Keys == y.Keys && forall k :: k in x ==> SameContent(x[k], y[k])
  }

  /** The work of the bundle is there. */
  predicate IsThere(works: map<WorkKey, Work>, v: BundleV, owner: string)
  {
    KeyOf(v) in works && works[KeyOf(v)] == WorkOf(owner, v)
  }

  lemma OneWrittenAlike(works: map<WorkKey, Work>, now: map<WorkKey, Work>, v: BundleV, w: BundleV, owner: string)
    requires SameWorks(works, now) && Alike(v, w) && IsThere(works, v, owner)
    ensures SameWorks(works, WrittenOne(now, w, owner))
  {
    WorksOfAlike(owner, v, w);
    assert KeyOf(v) in now;
  }

  lemma SameAsItself(works: map<WorkKey, Work>)
    ensures SameWorks(works, works)
  {
  }

  /** What every single write keeps, all writes keep. */
  lemma {:induction false} WritingKeeps(p: map<WorkKey, Work> -> bool, works: map<WorkKey, Work>, plan: seq<BundleV>,
                                        owner: string, n: nat)
    requires n <= |plan| && p(works)
    requires forall m, i :: 0 <= i < n && p(m) ==> p(WrittenOne(m, plan[i], owner))
    ensures p(Written(works, plan, owner, n))
  {
    if n > 0 {
      WritingKeeps(p, works, plan, owner, n - 1);
    }
  }

  lemma WrittenAlike(works: map<WorkKey, Work>, before: seq<BundleV>, plan: seq<BundleV>, owner: string)
    requires AllAlike(before, plan)
    requires forall i :: 0 <= i < |before| ==> IsThere(works, before[i], owner)
    ensures SameWorks(works, Written(works, plan, owner, |plan|))
  {
    SameAsItself(works);
    forall m, i | 0 <= i < |plan| && SameWorks(works, m) ensures SameWorks(works, WrittenOne(m, plan[i], owner)) {
      OneWrittenAlike(works, m, before[i], plan[i], owner);
    }
    WritingKeeps((m: map<WorkKey, Work>) => SameWorks(works, m), works, plan, owner, |plan|);
  }

  lemma NothingIsStale(before: seq<BundleV>, plan: seq<BundleV>, env: Env)
    requires AllAlike(before, plan) && DistinctNames(plan)
    ensures StaleKeys(before, plan, env, |before|) == {}
  {
    forall i | 0 <= i < |before| ensures before[i].name == plan[i].name && KeyOf(before[i]) == KeyOf(plan[i]) {
      assert Alike(before[i], plan[i]);
      Fields(before[i], plan[i]);
    }
    NothingStale(before, plan, env);
  }

  lemma WrittenAgain(works: map<WorkKey, Work>, before: seq<BundleV>, plan: seq<BundleV>, owner: string, env: Env)
    requires AllAlike(before, plan) && DistinctNames(plan) && WorksAreExactly(works, before, owner)
    ensures SameWorks(works, Written(works - StaleKeys(before, plan, env, |before|), plan, owner, |plan|))
  {
    NothingIsStale(before, plan, env);
    assert works - {} == works;
    forall i | 0 <= i < |before| ensures IsThere(works, before[i], owner) {
    }
    WrittenAlike(works, before, plan, owner);
  }

  // ----- The run

  /** A run for the request and the placements of the record, when works and links are as recorded, writes the works
      that are there, but for the order of their manifests, and changes no entry of the registry. */
  lemma RepeatedRunChangesNothing(pre: Snap, name: string, env: Env, res: RunResult, run: Run, post: Snap,
                                  home: NetKey -> Option<string>, env0: Env, blueprint: Blueprint)
    requires RunOk(pre, name, env, res, run, post) && run.Pushed? && run.progress.recorded && name in pre.record
    requires PlanFrom(pre.objects[name].request, run.target, env0, blueprint, pre.record[name])
    requires SamePlacements(env0, env) && OneNamespacePerService(pre.objects[name].request.manifests)
    requires WorksAreExactly(pre.works, pre.record[name], Truncate(name))
    requires Grounded(pre, home) && PlanAtHome(name, run, home) && OwnerInStep(pre, home, name)
    ensures SameWorks(pre.works, post.works)
    ensures Meaning(LinksOf(post.network)) == Meaning(LinksOf(pre.network))
    ensures OwnerInStep(post, home, name) && AllAlike(pre.record[name], run.plan)
  {
    var request, before := pre.objects[name].request, pre.record[name];
    PlansAgree(request, run.target, env0, blueprint, before, env, run.blueprint, run.plan);
    PlanIsMadeOf(request, run.target, env0, blueprint, before);
    PlanIsMadeOf(request, run.target, env, run.blueprint, run.plan);
    ConnectionsAlike(before, run.plan, request.manifests);
    PlansAreOk(request, run.target, env, run.blueprint, run.plan);
    RepeatedWorks(pre, name, env, res, run, post);
    RunAgainKeepsLinks(pre, name, env, res, run, post, home);
  }

  lemma RepeatedWorks(pre: Snap, name: string, env: Env, res: RunResult, run: Run, post: Snap)
    requires RunOk(pre, name, env, res, run, post) && run.Pushed? && !res.Error? && name in pre.record
    requires AllAlike(pre.record[name], run.plan) && DistinctNames(run.plan)
    requires WorksAreExactly(pre.works, pre.record[name], Truncate(name))
    ensures SameWorks(pre.works, post.works)
  {
    PushedWorks(pre, name, env, res, run, post);
    WrittenAgain(pre.works, pre.record[name], run.plan, Truncate(name), env);
  }

  /** What a settled and recorded run leaves behind: its plan in the record, and its works. */
  lemma RecordedRunLeaves(pre: Snap, name: string, env: Env, res: RunResult, run: Run, post: Snap)
    requires RunOk(pre, name, env, res, run, post) && SettledRun(name, res, post)
    requires run.Pushed? && run.progress.recorded
    requires DistinctWorkKeys(run.plan) && Unshared(pre.works, run.plan, Truncate(name))
    ensures name in post.record && post.record[name] == run.plan
    ensures WorksAreExactly(post.works, run.plan, Truncate(name))
    ensures post.objects[name].request == pre.objects[name].request
    ensures run.target == TargetIn(pre.objects[name].request.globalAnnotations)
    ensures PlanFrom(pre.objects[name].request, run.target, env, run.blueprint, run.plan)
  {
    SettledRunIsExact(pre, name, env, res, run, post);
  }

  /** Of two runs for a manifest, one after the other, the second changes nothing: after a settled and recorded run that
      leaves the manifest in step, a recorded run with the same placements keeps all works, up to the order of what they
      hold, and all links. */
  lemma SecondRunChangesNothing(s0: Snap, env0: Env, res0: RunResult, run0: Run, s1: Snap, name: string, env: Env,
                                res: RunResult, run: Run, s2: Snap, home: NetKey -> Option<string>)
    requires RunOk(s0, name, env0, res0, run0, s1) && SettledRun(name, res0, s1)
    requires run0.Pushed? && run0.progress.recorded
    requires DistinctWorkKeys(run0.plan) && Unshared(s0.works, run0.plan, Truncate(name))
    requires RunOk(s1, name, env, res, run, s2) && run.Pushed? && run.progress.recorded && SamePlacements(env0, env)
    requires OneNamespacePerService(s0.objects[name].request.manifests)
    requires Grounded(s1, home) && PlanAtHome(name, run, home) && OwnerInStep(s1, home, name)
    ensures SameWorks(s1.works, s2.works)
    ensures Meaning(LinksOf(s2.network)) == Meaning(LinksOf(s1.network)) && OwnerInStep(s2, home, name)
    ensures AllAlike(run0.plan, run.plan)
  {
    RecordedRunLeaves(s0, name, env0, res0, run0, s1);
    TargetOfPush(s1, name, env, res, run, s2);
    RepeatedRunChangesNothing(s1, name, env, res, run, s2, home, env0, run0.blueprint);
  }

  lemma TargetOfPush(pre: Snap, name: string, env: Env, res: RunResult, run: Run, post: Snap)
    requires RunOk(pre, name, env, res, run, post) && run.Pushed?
    ensures name in pre.objects && run.target == TargetIn(pre.objects[name].request.globalAnnotations)
  {
  }
}
