/**
 What bundling guarantees (internal/controller/bundle.go, with the orphan count of the reconciler).
 */
module Bundling {
  import opened Collections
  import opened Text
  import opened Resources
  import opened Annotations
  import opened Analysis
  import opened Analysers
  import opened Bundles
  import Closure

  // ----- One bundle

  /** `r` is the first resource of the bundle. */
  predicate Heads(r: Resource, v: BundleV) { v.resources != [] && v.resources[0] == r }

  lemma MemberOf(p: Resource -> bool, resources: seq<Resource>, r: Resource)
    ensures r in Filter(p, resources) <==> r in resources && p(r)
  {
    var f := Filter(p, resources);
    FilterMembers(p, resources);
    if r in f {
      var i :| 0 <= i < |f| && f[i] == r;
    }
    if r in resources {
      var i :| 0 <= i < |resources| && resources[i] == r;
    }
  }

  /** Behind its workload a bundle holds ancillary resources only. */
  lemma RestIsAncillary(w: Resource, resources: seq<Resource>, f: Findings, i: nat)
    requires Accounts(w, Filter(Ancillaries(), resources), f) && i < |f.resources|
    ensures f.resources[i] in resources && !f.resources[i].IsWorkload()
  {
    assert Opened(f);
    var anc := Filter(Ancillaries(), resources);
    assert f.resources[i] in Elems(f.resources);
    assert f.resources[i] in Elems(anc);
    MemberOf(Ancillaries(), resources, f.resources[i]);
  }

  /** The bundle of a workload is the workload, once and first, and no other workload; nothing in it occurs twice. */
  lemma BundleShape(v: BundleV, w: Resource, request: Request, common: seq<Rule>, resources: seq<Resource>)
    requires DistinctKeys(resources) && w in Filter(Workloads(), resources)
    requires BundleOf(v, w, request, common, resources)
    ensures Heads(w, v) && DistinctKeys(v.resources)
    ensures Filter(Workloads(), v.resources) == [w]
    ensures forall i :: 0 <= i < |v.resources| ==> v.resources[i] in resources
  {
    var f := Findings(v.resources[1..], v.absent, v.external);
    MemberOf(Workloads(), resources, w);
    BundleOpens(v, w, request, common, resources);
    RestIsFine(w, resources, f);
    HeadAndRest(w, f.resources, resources);
  }

  lemma RestIsFine(w: Resource, resources: seq<Resource>, f: Findings)
    requires Accounts(w, Filter(Ancillaries(), resources), f)
    ensures DistinctKeys(f.resources)
    ensures forall i :: 0 <= i < |f.resources| ==> f.resources[i] in resources && !f.resources[i].IsWorkload()
  {
    forall i | 0 <= i < |f.resources| ensures f.resources[i] in resources && !f.resources[i].IsWorkload() {
      RestIsAncillary(w, resources, f, i);
    }
    RestIsDistinct(w, resources, f);
  }

  /** The parts of a workload's bundle. */
  lemma BundleOpens(v: BundleV, w: Resource, request: Request, common: seq<Rule>, resources: seq<Resource>)
    requires BundleOf(v, w, request, common, resources)
    ensures v.name == w.Name() && v.resources != [] && v.resources == [w] + v.resources[1..]
    ensures Accounts(w, Filter(Ancillaries(), resources), Findings(v.resources[1..], v.absent, v.external))
  {
  }

  lemma RestIsDistinct(w: Resource, resources: seq<Resource>, f: Findings)
    requires Accounts(w, Filter(Ancillaries(), resources), f)
    ensures DistinctKeys(f.resources)
  {
    assert Opened(f);
  }

  lemma HeadAndRest(w: Resource, rest: seq<Resource>, resources: seq<Resource>)
    requires DistinctKeys(resources) && DistinctKeys(rest) && w in resources && w.IsWorkload()
    requires forall i :: 0 <= i < |rest| ==> rest[i] in resources && !rest[i].IsWorkload()
    ensures DistinctKeys([w] + rest) && Filter(Workloads(), [w] + rest) == [w]
    ensures forall i :: 0 <= i < |[w] + rest| ==> ([w] + rest)[i] in resources
  {
    forall i | 0 <= i < |rest| ensures rest[i].Key() != w.Key() {
      if rest[i].Key() == w.Key() {
        DistinctIndex(resources, rest[i], w);
      }
    }
    HeadOnly(w, rest);
  }

  lemma HeadOnly(w: Resource, rest: seq<Resource>)
    requires w.IsWorkload() && forall i :: 0 <= i < |rest| ==> !rest[i].IsWorkload()
    ensures Filter(Workloads(), [w] + rest) == [w]
  {
    FilterConcat(Workloads(), [w], rest);
    NoneOf(Workloads(), rest);
    assert [w][..0] == [];
  }

  lemma {:induction false} NoneOf(p: Resource -> bool, s: seq<Resource>)
    requires forall i :: 0 <= i < |s| ==> !p(s[i])
    ensures Filter(p, s) == []
  {
    if s != [] {
      var front := s[..|s| - 1];
      forall i | 0 <= i < |front| ensures !p(front[i]) { assert front[i] == s[i]; }
      NoneOf(p, front);
    }
  }

  // ----- All bundles of a request

  /** Every bundle is the bundle of some workload, unless there is only the single one. */
  lemma BundleHasWorkload(request: Request, resources: seq<Resource>, made: seq<BundleV>, views: seq<BundleV>, b: nat)
    returns (j: nat)
    requires Bundled(request, resources, made, views) && request.workloadAnnotations != [] && b < |views|
    ensures j < |Filter(Workloads(), resources)| && j < |made| && views[b] == made[j]
    ensures BundleOf(views[b], Filter(Workloads(), resources)[j], request,
                     PlacementRules(request.globalAnnotations).value, resources)
  {
    UpsertAllMembers(made);
    assert views[b] in made;
    j :| 0 <= j < |made| && made[j] == views[b];
  }

  /** What later stages rely on: unique names, one workload where there are connections, nothing twice, known
      resources. */
  ghost predicate WellBundled(v: BundleV, resources: seq<Resource>)
  {
    DistinctKeys(v.resources)
    && (v.external != [] ==> |Filter(Workloads(), v.resources)| == 1)
    && forall i :: 0 <= i < |v.resources| ==> v.resources[i] in resources
  }

  lemma BundlesAreWellBundled(request: Request, resources: seq<Resource>, made: seq<BundleV>, views: seq<BundleV>)
    requires DistinctKeys(resources) && Bundled(request, resources, made, views)
    ensures DistinctNames(views) && |views| >= 1
    ensures forall b :: 0 <= b < |views| ==> WellBundled(views[b], resources)
  {
    if request.workloadAnnotations == [] {
      assert views == [Single(request, PlacementRules(request.globalAnnotations).value, resources)];
    } else {
      UpsertAllNames(made);
      forall b | 0 <= b < |views| ensures WellBundled(views[b], resources) {
        var j := BundleHasWorkload(request, resources, made, views, b);
        BundleShape(views[b], Filter(Workloads(), resources)[j], request,
                    PlacementRules(request.globalAnnotations).value, resources);
      }
      SomeBundle(request, resources, made, views);
    }
  }

  /** Annotations that name a workload make sure there is one, and so that there is a bundle. */
  lemma SomeBundle(request: Request, resources: seq<Resource>, made: seq<BundleV>, views: seq<BundleV>)
    requires Bundled(request, resources, made, views) && request.workloadAnnotations != []
    ensures |views| >= 1
  {
    var workloads, entries := Filter(Workloads(), resources), request.workloadAnnotations;
    assert EntryOutcome(workloads, entries[|entries| - 1]).Ok?;
    assert workloads != [];
    UpsertAllNames(made);
    assert made[0].name in Names(made);
    assert made[0].name in Elems(Names(views));
  }

  // ----- Conservation of workloads

  predicate DistinctWorkloadNames(workloads: seq<Resource>)
  {
    forall i, j :: 0 <= i < j < |workloads| ==> workloads[i].Name() != workloads[j].Name()
  }

  ghost predicate HeadsSome(w: Resource, views: seq<BundleV>) { exists b :: 0 <= b < |views| && Heads(w, views[b]) }

  /** With distinct workload names, bundles and workloads correspond one to one and in order. */
  lemma DistinctNamesKeepWorkloads(request: Request, resources: seq<Resource>, made: seq<BundleV>, views: seq<BundleV>)
    requires Bundled(request, resources, made, views) && request.workloadAnnotations != []
    requires DistinctWorkloadNames(Filter(Workloads(), resources))
    ensures views == made && |views| == |Filter(Workloads(), resources)|
    ensures forall b :: 0 <= b < |views| ==> Heads(Filter(Workloads(), resources)[b], views[b])
  {
    forall b | 0 <= b < |made|
      ensures Heads(Filter(Workloads(), resources)[b], made[b])
      ensures made[b].name == Filter(Workloads(), resources)[b].Name()
    {
      assert BundleOf(made[b], Filter(Workloads(), resources)[b], request,
                      PlacementRules(request.globalAnnotations).value, resources);
    }
    UpsertAllDistinct(made);
  }

  lemma HeadNamesBundle(request: Request, resources: seq<Resource>, made: seq<BundleV>, views: seq<BundleV>, b: nat)
    requires Bundled(request, resources, made, views) && request.workloadAnnotations != [] && b < |views|
    ensures views[b].resources != [] && views[b].name == views[b].resources[0].Name()
  {
    var j := BundleHasWorkload(request, resources, made, views, b);
  }

  /** A workload that heads no bundle is in no bundle. */
  lemma UnheadedIsInNoBundle(request: Request, resources: seq<Resource>, made: seq<BundleV>, views: seq<BundleV>,
                             w: Resource)
    requires DistinctKeys(resources) && Bundled(request, resources, made, views) && request.workloadAnnotations != []
    requires w.IsWorkload() && !HeadsSome(w, views)
    ensures InNoBundle(w, views)
  {
    forall b | 0 <= b < |views| ensures w !in views[b].resources {
      var j := BundleHasWorkload(request, resources, made, views, b);
      BundleShape(views[b], Filter(Workloads(), resources)[j], request,
                  PlacementRules(request.globalAnnotations).value, resources);
      MemberOf(Workloads(), views[b].resources, w);
      assert !Heads(w, views[b]);
    }
  }

  /** No workload is lost exactly when the workload names of the request are distinct: of two workloads with one name,
      even of different kinds or namespaces, one is silently dropped. */
  lemma WorkloadsAreKeptIff(request: Request, resources: seq<Resource>, made: seq<BundleV>, views: seq<BundleV>)
    requires DistinctKeys(resources)
    requires Bundled(request, resources, made, views) && request.workloadAnnotations != []
    ensures var workloads := Filter(Workloads(), resources);
            (forall j :: 0 <= j < |workloads| ==> HeadsSome(workloads[j], views)) <==> DistinctWorkloadNames(workloads)
  {
    var workloads := Filter(Workloads(), resources);
    if DistinctWorkloadNames(workloads) {
      DistinctNamesKeepWorkloads(request, resources, made, views);
      assert forall j :: 0 <= j < |workloads| ==> Heads(workloads[j], views[j]);
    }
    forall b | 0 <= b < |views| ensures views[b].resources != [] && views[b].name == views[b].resources[0].Name() {
      HeadNamesBundle(request, resources, made, views, b);
    }
    FilterDistinct(Workloads(), resources);
    UpsertAllNames(made);
    KeptNeedsDistinctNames(workloads, views);
  }

  lemma KeptNeedsDistinctNames(workloads: seq<Resource>, views: seq<BundleV>)
    requires DistinctKeys(workloads) && DistinctNames(views)
    requires forall b :: 0 <= b < |views| ==> views[b].resources != [] && views[b].name == views[b].resources[0].Name()
    ensures (forall j :: 0 <= j < |workloads| ==> HeadsSome(workloads[j], views)) ==> DistinctWorkloadNames(workloads)
  {
    if forall j :: 0 <= j < |workloads| ==> HeadsSome(workloads[j], views) {
      forall i, j | 0 <= i < j < |workloads| ensures workloads[i].Name() != workloads[j].Name() {
        var a :| 0 <= a < |views| && Heads(workloads[i], views[a]);
        var b :| 0 <= b < |views| && Heads(workloads[j], views[b]);
        assert workloads[i].Key() != workloads[j].Key();
        assert a != b;
      }
    }
  }

  /** The rules of a bundle: the global filters, then those of the last annotation entry that names the workload, if any
      does. */
  lemma BundleRules(request: Request, resources: seq<Resource>, made: seq<BundleV>, views: seq<BundleV>, b: nat)
    requires Bundled(request, resources, made, views) && request.workloadAnnotations != []
    requires DistinctWorkloadNames(Filter(Workloads(), resources)) && b < |views|
    ensures var entries, common := request.workloadAnnotations, PlacementRules(request.globalAnnotations).value;
            match LastEntryFor(entries, views[b].name)
            case None => views[b].rules == common
            case Some(e) => PlacementRules(entries[e].annotations).Some?
                            && views[b].rules == common + PlacementRules(entries[e].annotations).value
  {
    var workloads, entries := Filter(Workloads(), resources), request.workloadAnnotations;
    var j := BundleHasWorkload(request, resources, made, views, b);
    assert workloads[j] in workloads;
    MemberOf(Workloads(), resources, workloads[j]);
    match LastEntryFor(entries, views[b].name) {
      case None =>
        AssignedToNone(workloads, entries, workloads[j]);
        assert PlacementRules([]) == Some([]);
      case Some(e) => AssignedIsLast(workloads, entries, workloads[j], e);
    }
  }

  // ----- Orphans

  function Contents(): BundleV -> seq<Resource> { (v: BundleV) => v.resources }

  /** The reconciler's count of placed manifests. */
  function Placed(views: seq<BundleV>): nat
  {
    if views == [] then 0 else Placed(views[..|views| - 1]) + |views[|views| - 1].resources|
  }

  lemma {:induction false} PlacedIsLength(views: seq<BundleV>)
    ensures |FlatMap(Contents(), views)| == Placed(views)
  {
    if views != [] {
      PlacedIsLength(views[..|views| - 1]);
    }
  }

  lemma {:induction false} ElemsCount<T>(s: seq<T>)
    ensures |Elems(s)| <= |s|
    ensures (forall i, j :: 0 <= i < j < |s| ==> s[i] != s[j]) ==> |Elems(s)| == |s|
  {
    if s != [] {
      var front, last := s[..|s| - 1], s[|s| - 1];
      ElemsCount(front);
      Unsnoc(s);
      assert Elems(s) == Elems(front) + {last};
    }
  }

  lemma SubsetCount<T>(a: set<T>, b: set<T>)
    requires a <= b
    ensures |a| <= |b|
    ensures |a| == |b| ==> a == b
  {
    assert b == a + (b - a);
  }

  ghost predicate InNoBundle(r: Resource, views: seq<BundleV>)
  {
    forall b :: 0 <= b < |views| ==> r !in views[b].resources
  }

  /** The warning is sound: when there are more manifests, no two for the same resource, than resources counted over all
      bundles, however these overlap, some manifest is in no bundle. */
  lemma OrphanWarningIsSound(manifests: seq<Manifest>, created: seq<Resource>, views: seq<BundleV>)
    requires ConvertedFrom(created, manifests) && DistinctKeys(created) && |manifests| > Placed(views)
    ensures exists i :: 0 <= i < |created| && InNoBundle(created[i], views)
  {
    var flat := FlatMap(Contents(), views);
    PlacedIsLength(views);
    ElemsCount(flat);
    ElemsCount(created);
    if forall i :: 0 <= i < |created| ==> created[i] in flat {
      SubsetCount(Elems(created), Elems(flat));
    } else {
      var i :| 0 <= i < |created| && created[i] !in flat;
      FlatMapMembers(Contents(), views, created[i]);
      forall b | 0 <= b < |views| ensures created[i] !in views[b].resources {
        assert views[b] in views && Contents()(views[b]) == views[b].resources;
      }
    }
  }

  /** A request bundled as a whole never has orphans, and the warning appears exactly when two manifests describe the
      same resource. */
  lemma WholeBundleWarning(manifests: seq<Manifest>, created: seq<Resource>, v: BundleV)
    requires ConvertedFrom(created, manifests) && v.resources == Union([], created)
    ensures |manifests| > Placed([v]) <==> !DistinctKeys(created)
    ensures forall i :: 0 <= i < |created| ==> HasKey(v.resources, created[i].Key())
  {
    UnionOfDistinct(created);
    UnionKeys([], created);
    assert [v][..0] == [] && Placed([]) == 0 && Placed([v]) == |v.resources|;
    forall i | 0 <= i < |created| ensures HasKey(v.resources, created[i].Key()) {
      assert created[i].Key() in KeySet(created);
      HasKeyIsMembership(v.resources, created[i].Key());
    }
  }

  /** The resources of the request that no bundle holds. */
  ghost function Orphans(resources: seq<Resource>, views: seq<BundleV>): set<Resource>
  {
    set r | r in resources && InNoBundle(r, views)
  }

  /** The resources that some bundle holds. */
  ghost function PlacedSet(views: seq<BundleV>): set<Resource> { Elems(FlatMap(Contents(), views)) }

  /** How often a resource is placed again after its first placement, over all bundles. */
  ghost function Surplus(views: seq<BundleV>): int { Placed(views) - |PlacedSet(views)| }

  /** How many manifests describe a resource that an earlier one describes. */
  function Duplicates(created: seq<Resource>, resources: seq<Resource>): int { |created| - |resources| }

  lemma PlacedSetMeans(r: Resource, views: seq<BundleV>)
    ensures r in PlacedSet(views) <==> !InNoBundle(r, views)
  {
    FlatMapMembers(Contents(), views, r);
    if r in PlacedSet(views) {
      var v :| v in views && r in Contents()(v);
      var b :| 0 <= b < |views| && views[b] == v;
      assert r in views[b].resources;
    }
    if !InNoBundle(r, views) {
      var b :| 0 <= b < |views| && r in views[b].resources;
      assert views[b] in views && r in Contents()(views[b]);
    }
  }

  lemma DistinctElemsCount(s: seq<Resource>)
    requires DistinctKeys(s)
    ensures |Elems(s)| == |s|
  {
    forall i, j | 0 <= i < j < |s| ensures s[i] != s[j] { assert s[i].Key() != s[j].Key(); }
    ElemsCount(s);
  }

  /** Every resource of the request is placed or an orphan. */
  lemma PlacedOrOrphaned(resources: seq<Resource>, views: seq<BundleV>)
    requires DistinctKeys(resources) && forall b :: 0 <= b < |views| ==> WellBundled(views[b], resources)
    ensures |resources| == |PlacedSet(views)| + |Orphans(resources, views)|
  {
    var placed, orphans := PlacedSet(views), Orphans(resources, views);
    forall r | r in placed ensures r in resources && r !in orphans {
      PlacedSetMeans(r, views);
      var b :| 0 <= b < |views| && r in views[b].resources;
      assert WellBundled(views[b], resources);
    }
    forall r | r in resources ensures r in placed + orphans {
      PlacedSetMeans(r, views);
    }
    assert Elems(resources) == placed + orphans;
    DistinctElemsCount(resources);
  }

  /** When exactly the warning appears, in every mode: when repeated manifests and orphans together outnumber repeated
      placements. */
  lemma OrphanWarningIff(request: Request, created: seq<Resource>, resources: seq<Resource>, made: seq<BundleV>,
                         views: seq<BundleV>)
    requires ConvertedFrom(created, request.manifests) && resources == Union([], created)
    requires Bundled(request, resources, made, views)
    ensures |request.manifests| > Placed(views) <==>
            Duplicates(created, resources) + |Orphans(resources, views)| > Surplus(views)
  {
    UnionKeys([], created);
    BundlesAreWellBundled(request, resources, made, views);
    PlacedOrOrphaned(resources, views);
  }

  /** For distinct manifests the warning tells the truth exactly when there is no orphan, or the orphans outnumber the
      repeated placements. */
  lemma OrphanWarningIsTrueIff(request: Request, created: seq<Resource>, resources: seq<Resource>, made: seq<BundleV>,
                               views: seq<BundleV>)
    requires ConvertedFrom(created, request.manifests) && resources == Union([], created) && DistinctKeys(created)
    requires Bundled(request, resources, made, views)
    ensures (|request.manifests| > Placed(views) <==> Orphans(resources, views) != {}) <==>
            Orphans(resources, views) == {} || |Orphans(resources, views)| > Surplus(views)
  {
    OrphanWarningIff(request, created, resources, made, views);
    UnionOfDistinct(created);
    PlacedIsLength(views);
    ElemsCount(FlatMap(Contents(), views));
  }

  /** No resource is in two bundles. */
  ghost predicate NothingShared(views: seq<BundleV>)
  {
    forall a, b :: 0 <= a < b < |views| ==> Elems(views[a].resources) !! Elems(views[b].resources)
  }

  /** Placements repeat exactly when bundles overlap. */
  lemma {:induction false} NoSurplusIff(views: seq<BundleV>)
    requires forall b :: 0 <= b < |views| ==> DistinctKeys(views[b].resources)
    ensures Surplus(views) >= 0 && (Surplus(views) == 0 <==> NothingShared(views))
  {
    if views != [] {
      var front, last := views[..|views| - 1], views[|views| - 1];
      assert forall b :: 0 <= b < |front| ==> front[b] == views[b];
      NoSurplusIff(front);
      DistinctElemsCount(last.resources);
      var x, y := PlacedSet(front), Elems(last.resources);
      assert PlacedSet(views) == x + y;
      assert |x + y| == |x| + |y| - |x * y|;
      assert Surplus(views) == Surplus(front) + |x * y|;
      DisjointIff(x, y);
      LastOverlaps(views);
    }
  }

  lemma DisjointIff<T>(x: set<T>, y: set<T>)
    ensures x !! y <==> |x * y| == 0
  {
    if x * y == {} {
      forall r | r in x ensures r !in y {
        assert r in y <==> r in x * y;
      }
    } else {
      var r :| r in x * y;
      assert r in x && r in y;
    }
  }

  lemma LastOverlaps(views: seq<BundleV>)
    requires views != []
    ensures var front, last := views[..|views| - 1], views[|views| - 1];
            NothingShared(views) <==> NothingShared(front) && PlacedSet(front) !! Elems(last.resources)
  {
    var front, last := views[..|views| - 1], views[|views| - 1];
    assert forall b :: 0 <= b < |front| ==> front[b] == views[b];
    if NothingShared(views) {
      forall r | r in last.resources ensures r !in PlacedSet(front) {
        PlacedSetMeans(r, front);
        forall a | 0 <= a < |front| ensures r !in front[a].resources {
          assert Elems(views[a].resources) !! Elems(views[|front|].resources);
          assert r in Elems(last.resources);
        }
      }
    }
    if NothingShared(front) && PlacedSet(front) !! Elems(last.resources) {
      forall a, b | 0 <= a < b < |views| ensures Elems(views[a].resources) !! Elems(views[b].resources) {
        if b == |front| {
          forall r | r in Elems(front[a].resources) ensures r in PlacedSet(front) {
            assert r in front[a].resources;
            PlacedSetMeans(r, front);
          }
        } else {
          assert Elems(front[a].resources) !! Elems(front[b].resources);
        }
      }
    }
  }

  /** So with distinct manifests and bundles that do not overlap, the warning appears exactly when there is an
      orphan. */
  lemma OrphanWarningWithoutSharing(request: Request, created: seq<Resource>, resources: seq<Resource>,
                                    made: seq<BundleV>, views: seq<BundleV>)
    requires ConvertedFrom(created, request.manifests) && resources == Union([], created) && DistinctKeys(created)
    requires Bundled(request, resources, made, views) && NothingShared(views)
    ensures |request.manifests| > Placed(views) <==> Orphans(resources, views) != {}
  {
    UnionKeys([], created);
    BundlesAreWellBundled(request, resources, made, views);
    forall b | 0 <= b < |views| ensures DistinctKeys(views[b].resources) { assert WellBundled(views[b], resources); }
    NoSurplusIff(views);
    OrphanWarningIff(request, created, resources, made, views);
    UnionOfDistinct(created);
  }

  /** Told from the request: with distinct workload names a resource is an orphan if and only if it is no workload and
      no workload needs it. */
  lemma OrphanIff(request: Request, resources: seq<Resource>, made: seq<BundleV>, views: seq<BundleV>, r: Resource)
    requires DistinctKeys(resources) && Bundled(request, resources, made, views) && request.workloadAnnotations != []
    requires DistinctWorkloadNames(Filter(Workloads(), resources)) && r in resources
    ensures r in Orphans(resources, views) <==>
            !r.IsWorkload() && NobodyNeeds(Filter(Workloads(), resources), Filter(Ancillaries(), resources), r)
  {
    var workloads, anc := Filter(Workloads(), resources), Filter(Ancillaries(), resources);
    DistinctNamesKeepWorkloads(request, resources, made, views);
    forall b | 0 <= b < |views|
      ensures r in views[b].resources <==> r == workloads[b] || Closure.Needed(workloads[b], anc, r)
    {
      InBundleIff(request, resources, made, b, r);
    }
    MemberOf(Workloads(), resources, r);
    if r.IsWorkload() {
      var b :| 0 <= b < |workloads| && workloads[b] == r;
      assert r in views[b].resources;
    } else {
      forall b | 0 <= b < |workloads| ensures workloads[b] != r {
        MemberOf(Workloads(), resources, workloads[b]);
      }
    }
  }

  ghost predicate NobodyNeeds(workloads: seq<Resource>, anc: seq<Resource>, r: Resource)
  {
    forall j :: 0 <= j < |workloads| ==> !Closure.Needed(workloads[j], anc, r)
  }

  lemma InBundleIff(request: Request, resources: seq<Resource>, made: seq<BundleV>, b: nat, r: Resource)
    requires request.workloadAnnotations != [] && PlacementRules(request.globalAnnotations).Some?
    requires MadeFor(made, Filter(Workloads(), resources), request, PlacementRules(request.globalAnnotations).value,
                     resources)
    requires b < |made|
    ensures var w := Filter(Workloads(), resources)[b];
            r in made[b].resources <==> r == w || Closure.Needed(w, Filter(Ancillaries(), resources), r)
  {
    var w, v := Filter(Workloads(), resources)[b], made[b];
    assert BundleOf(v, w, request, PlacementRules(request.globalAnnotations).value, resources);
    var f := Findings(v.resources[1..], v.absent, v.external);
    Closure.AnalysisIsExact(w, Filter(Ancillaries(), resources), f, r);
    assert v.resources == [w] + f.resources;
  }

  // ----- What a bundle carries besides its resources

  /** Without workload annotations there is one bundle: of all resources, with the global filters as its rules, and
      called after whether there are any. */
  lemma WholeRequestIsOneBundle(request: Request, resources: seq<Resource>, made: seq<BundleV>, views: seq<BundleV>)
    requires Bundled(request, resources, made, views) && request.workloadAnnotations == []
    ensures |views| == 1 && views[0].resources == resources && views[0].absent == [] && views[0].external == []
    ensures PlacementRules(request.globalAnnotations) == Some(views[0].rules)
    ensures views[0].name == if views[0].rules == [] then "default" else "global"
    ensures views[0].resourceName == ResourceName(views[0].name, request.name) && views[0].cluster == ""
  {
  }

  /** In both modes every bundle holds the global filters first. */
  lemma GlobalRulesComeFirst(request: Request, resources: seq<Resource>, made: seq<BundleV>, views: seq<BundleV>,
                             b: nat)
    requires Bundled(request, resources, made, views) && b < |views|
    ensures PlacementRules(request.globalAnnotations).Some?
    ensures PlacementRules(request.globalAnnotations).value <= views[b].rules
  {
    if request.workloadAnnotations == [] {
      WholeRequestIsOneBundle(request, resources, made, views);
    } else {
      var j := BundleHasWorkload(request, resources, made, views, b);
    }
  }

  /** The connections of a bundle are the services that variables of its workload refer to. */
  lemma BundleConnections(request: Request, resources: seq<Resource>, made: seq<BundleV>, views: seq<BundleV>, b: nat,
                          p: ServicePort)
    requires Bundled(request, resources, made, views) && request.workloadAnnotations != [] && b < |views|
    ensures views[b].resources != []
    ensures var t := views[b].resources[0].manifest.body.template;
            p in views[b].external <==> Closure.SomeVariableReads(t.containers + t.initContainers, p)
  {
    var j := BundleHasWorkload(request, resources, made, views, b);
    var w := Filter(Workloads(), resources)[j];
    BundleOpens(views[b], w, request, PlacementRules(request.globalAnnotations).value, resources);
    FoundConnections(w, Filter(Ancillaries(), resources),
                     Findings(views[b].resources[1..], views[b].absent, views[b].external), p);
  }

  lemma FoundConnections(w: Resource, anc: seq<Resource>, f: Findings, p: ServicePort)
    requires Accounts(w, anc, f)
    ensures var t := w.manifest.body.template;
            p in f.connections <==> Closure.SomeVariableReads(t.containers + t.initContainers, p)
  {
    assert Opened(f);
    Closure.ConnectionsMean(AllContainers(w.Body().template), p);
  }

  /** What a bundle lists as absent is what its workload refers to and the bundle does not hold. */
  lemma BundleAbsences(request: Request, resources: seq<Resource>, made: seq<BundleV>, views: seq<BundleV>, b: nat,
                       ref: Ref)
    requires Bundled(request, resources, made, views) && request.workloadAnnotations != [] && b < |views|
    ensures views[b].resources != []
    ensures ref in views[b].absent <==>
            Closure.RefersTo(views[b].resources[0], Filter(Ancillaries(), resources), ref)
            && !Closure.HasNamed(views[b].resources[1..], ref)
  {
    var j := BundleHasWorkload(request, resources, made, views, b);
    var w := Filter(Workloads(), resources)[j];
    BundleOpens(views[b], w, request, PlacementRules(request.globalAnnotations).value, resources);
    Closure.ReferencesAreAccountedFor(w, Filter(Ancillaries(), resources),
                                      Findings(views[b].resources[1..], views[b].absent, views[b].external), ref);
  }

  /** A request can be bundled if and only if no global filter lacks its value and, where workloads are annotated, every
      entry is fine and the analysis of every workload goes through without panic. */
  lemma BundleableIff(request: Request, resources: seq<Resource>)
    ensures Bundleable(request, resources) <==>
            (forall a :: a in request.globalAnnotations && "p2code.filter" <= a ==> '=' in a)
            && (request.workloadAnnotations != [] ==>
                  var workloads, anc := Filter(Workloads(), resources), Filter(Ancillaries(), resources);
                  (forall i :: 0 <= i < |request.workloadAnnotations| ==>
                     IsFine(workloads, request.workloadAnnotations[i]))
                  && AllGoThrough(workloads, anc))
  {
    NoRules(request.globalAnnotations);
    OutcomeMeans(Filter(Workloads(), resources), request.workloadAnnotations);
    AllAnalysable(resources);
  }

  /** The analysis of every workload goes through without panic. */
  ghost predicate AllGoThrough(workloads: seq<Resource>, anc: seq<Resource>)
  {
    forall w :: w in workloads ==> Analysable(w, anc) && !AnalysisPanics(w, anc)
  }

  lemma AllAnalysable(resources: seq<Resource>)
    ensures WorkloadsAnalysable(resources) <==>
            AllGoThrough(Filter(Workloads(), resources), Filter(Ancillaries(), resources))
  {
    var workloads, p := Filter(Workloads(), resources), Unanalysable(Filter(Ancillaries(), resources));
    var f := Filter(p, workloads);
    FilterMembers(p, workloads);
    var anc := Filter(Ancillaries(), resources);
    if f != [] {
      assert f[0] in workloads && p(f[0]);
      assert !Analysable(f[0], anc) || AnalysisPanics(f[0], anc);
      assert !AllGoThrough(workloads, anc);
    } else {
      forall w | w in workloads ensures Analysable(w, anc) && !AnalysisPanics(w, anc) {
        var i :| 0 <= i < |workloads| && workloads[i] == w;
        assert !p(w);
      }
    }
  }
}
