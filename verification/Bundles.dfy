/**
 Bundles of resources that are scheduled together (internal/controller/bundle.go).
 */
module Bundles {
  import opened Collections
  import opened Text
  import opened Resources
  import opened Annotations
  import opened Analysis
  import opened Analysers

  /** The part of a scheduling manifest that bundling looks at. */
  datatype Request = Request(name: string, globalAnnotations: seq<string>, workloadAnnotations: seq<WorkloadAnnotation>,
                             manifests: seq<Manifest>)

  /** A bundle as a value. */
  datatype BundleV = BundleV(name: string, resources: seq<Resource>, absent: seq<Ref>, external: seq<ServicePort>,
                             rules: seq<Rule>, cluster: string, resourceName: string)

  class Bundle {
    var name: string
    var resources: seq<Resource>
    var absent: seq<Ref>
    var external: seq<ServicePort>
    var rules: seq<Rule>
    var cluster: string
    var resourceName: string

    function View(): BundleV
      reads this
    {
      BundleV(name, resources, absent, external, rules, cluster, resourceName)
    }

    constructor (v: BundleV)
      ensures View() == v
    {
      name, resources, absent, external := v.name, v.resources, v.absent, v.external;
      rules, cluster, resourceName := v.rules, v.cluster, v.resourceName;
    }
  }

  /** `views` are the values of the bundles `bs`, which are different objects. */
  ghost predicate Shows(bs: seq<Bundle>, views: seq<BundleV>)
    reads bs
  {
    |bs| == |views|
    && (forall i :: 0 <= i < |bs| ==> bs[i].View() == views[i])
    && (forall i, j :: 0 <= i < j < |bs| ==> bs[i] != bs[j])
  }

  // ----- Names of scheduling resources

  const MAX_NAME_LENGTH := 63

  function TrimRight(s: string, c: char): string
  {
    if s != [] && s[|s| - 1] == c then TrimRight(s[..|s| - 1], c) else s
  }

  /** Kubernetes object names are qualified names unless they are too long. */
  function Truncate(name: string): string
  {
    if |name| <= MAX_NAME_LENGTH then name else TrimRight(name[..MAX_NAME_LENGTH], '-')
  }

  function ResourceName(prefix: string, request: string): string { Truncate(prefix + "-" + request) }

  // ----- Looking bundles up by name

  function NamedBundle(name: string): BundleV -> bool { (v: BundleV) => v.name == name }

  method GetBundle(bs: seq<Bundle>, name: string, ghost views: seq<BundleV>) returns (b: Option<Bundle>, ghost at: nat)
    requires Shows(bs, views)
    ensures b.None? <==> First(NamedBundle(name), views).None?
    ensures b.Some? ==> at < |bs| && b.value == bs[at] && First(NamedBundle(name), views) == Some(views[at])
                        && views[at].name == name && forall j :: 0 <= j < at ==> views[j].name != name
  {
    at := 0;
    for i := 0 to |bs|
      invariant forall j :: 0 <= j < i ==> !NamedBundle(name)(views[j])
    {
      FirstSkips(NamedBundle(name), views, i);
      assert bs[i].View() == views[i];
      if bs[i].name == name {
        return Some(bs[i]), i;
      }
    }
    FirstSkips(NamedBundle(name), views, |bs|);
    return None, 0;
  }

  // ----- What the bundles of a request are

  /** `v` replaces the bundle of its name, or is appended when there is none. */
  function Upsert(views: seq<BundleV>, v: BundleV): seq<BundleV>
  {
    if views == [] then [v]
    else if views[0].name == v.name then [v] + views[1..]
    else [views[0]] + Upsert(views[1..], v)
  }

  function UpsertAll(made: seq<BundleV>): seq<BundleV>
  {
    if made == [] then [] else Upsert(UpsertAll(made[..|made| - 1]), made[|made| - 1])
  }

  lemma {:induction false} UpsertAt(views: seq<BundleV>, v: BundleV, at: nat)
    requires at <= |views| && forall j :: 0 <= j < at ==> views[j].name != v.name
    requires at < |views| ==> views[at].name == v.name
    ensures Upsert(views, v) == if at < |views| then views[at := v] else views + [v]
  {
    if views != [] {
      if at > 0 {
        UpsertAt(views[1..], v, at - 1);
      }
    }
  }

  predicate DistinctNames(views: seq<BundleV>)
  {
    forall i, j :: 0 <= i < j < |views| ==> views[i].name != views[j].name
  }

  function Names(views: seq<BundleV>): (names: seq<string>)
    ensures |names| == |views| && forall i :: 0 <= i < |names| ==> names[i] == views[i].name
  {
    seq(|views|, i requires 0 <= i < |views| => views[i].name)
  }

  ghost function NameSet(views: seq<BundleV>): set<string> { Elems(Names(views)) }

  lemma FindPosition(views: seq<BundleV>, name: string) returns (at: nat)
    ensures at <= |views| && forall j :: 0 <= j < at ==> views[j].name != name
    ensures at < |views| ==> views[at].name == name
  {
    at := 0;
    while at < |views| && views[at].name != name
      invariant at <= |views| && forall j :: 0 <= j < at ==> views[j].name != name
    {
      at := at + 1;
    }
  }

  lemma UpsertNames(views: seq<BundleV>, v: BundleV)
    ensures NameSet(Upsert(views, v)) == NameSet(views) + {v.name}
    ensures DistinctNames(views) ==> DistinctNames(Upsert(views, v))
    ensures |Upsert(views, v)| == |views| + if v.name in NameSet(views) then 0 else 1
  {
    var at := FindPosition(views, v.name);
    UpsertAt(views, v, at);
    var names, after := Names(views), Names(Upsert(views, v));
    if at < |views| {
      assert names[at] == v.name && after == names;
    } else {
      assert v.name !in names && after == names + [v.name];
    }
  }

  /** Bundle names are unique, whatever the names of the workloads. */
  lemma {:induction false} UpsertAllNames(made: seq<BundleV>)
    ensures DistinctNames(UpsertAll(made))
    ensures NameSet(UpsertAll(made)) == NameSet(made)
    ensures |UpsertAll(made)| <= |made|
  {
    if made != [] {
      var front, last := made[..|made| - 1], made[|made| - 1];
      UpsertAllNames(front);
      UpsertNames(UpsertAll(front), last);
      assert Names(made) == Names(front) + [last.name];
    }
  }

  /** With distinct workload names nothing is replaced. */
  lemma {:induction false} UpsertAllDistinct(made: seq<BundleV>)
    requires DistinctNames(made)
    ensures UpsertAll(made) == made
  {
    if made != [] {
      var front, last := made[..|made| - 1], made[|made| - 1];
      UpsertAllDistinct(front);
      UpsertAt(front, last, |front|);
      assert made == front + [last];
    }
  }

  lemma {:induction false} UpsertAllMembers(made: seq<BundleV>)
    ensures forall i :: 0 <= i < |UpsertAll(made)| ==> UpsertAll(made)[i] in made
  {
    if made != [] {
      var front, last := made[..|made| - 1], made[|made| - 1];
      UpsertAllMembers(front);
      var at := FindPosition(UpsertAll(front), last.name);
      UpsertAt(UpsertAll(front), last, at);
      forall i | 0 <= i < |UpsertAll(made)| ensures UpsertAll(made)[i] in made {
        if i != at {
          assert UpsertAll(front)[i] in front;
          assert forall k :: 0 <= k < |front| ==> front[k] == made[k];
        }
      }
    }
  }

  /** The bundle of one workload. */
  ghost predicate BundleOf(v: BundleV, w: Resource, request: Request, common: seq<Rule>, resources: seq<Resource>)
  {
    var workloads, anc := Filter(Workloads(), resources), Filter(Ancillaries(), resources);
    var own := PlacementRules(Assigned(workloads, request.workloadAnnotations, w));
    && v.name == w.Name()
    && v.resources != [] && v.resources[0] == w
    && Accounts(w, anc, Findings(v.resources[1..], v.absent, v.external))
    && own.Some? && v.rules == common + own.value
    && v.cluster == "" && v.resourceName == ResourceName(w.Name(), request.name)
  }

  /** One bundle for the whole request. */
  function Single(request: Request, common: seq<Rule>, resources: seq<Resource>): BundleV
  {
    var name := if common == [] then "default" else "global";
    BundleV(name, resources, [], [], common, "", ResourceName(name, request.name))
  }

  /** The bundles made for the workloads one after the other. */
  ghost predicate MadeFor(made: seq<BundleV>, workloads: seq<Resource>, request: Request, common: seq<Rule>,
                          resources: seq<Resource>)
  {
    |made| == |workloads| && forall i :: 0 <= i < |made| ==> BundleOf(made[i], workloads[i], request, common, resources)
  }

  /** The bundles of a request without a target cluster: a single one, or one for each workload. */
  ghost predicate Bundled(request: Request, resources: seq<Resource>, made: seq<BundleV>, bundles: seq<BundleV>)
  {
    var common := PlacementRules(request.globalAnnotations);
    common.Some?
    && if request.workloadAnnotations == [] then made == [] && bundles == [Single(request, common.value, resources)]
       else MadeFor(made, Filter(Workloads(), resources), request, common.value, resources)
            && bundles == UpsertAll(made)
            && Outcome(Filter(Workloads(), resources), request.workloadAnnotations).Ok?
  }

  ghost predicate WorkloadsAnalysable(resources: seq<Resource>)
  {
    Filter(Unanalysable(Filter(Ancillaries(), resources)), Filter(Workloads(), resources)) == []
  }

  /** The workload annotations are at fault: one of them is no filter or names no workload. */
  predicate AnnotationsMisconfigured(request: Request, resources: seq<Resource>)
  {
    PlacementRules(request.globalAnnotations).Some? && request.workloadAnnotations != []
    && Outcome(Filter(Workloads(), resources), request.workloadAnnotations).Failed?
  }

  ghost predicate Bundleable(request: Request, resources: seq<Resource>)
  {
    PlacementRules(request.globalAnnotations).Some?
    && (request.workloadAnnotations != [] ==>
          Outcome(Filter(Workloads(), resources), request.workloadAnnotations).Ok? && WorkloadsAnalysable(resources))
  }

  /** The resources made from the manifests, one each. */
  predicate ConvertedFrom(created: seq<Resource>, manifests: seq<Manifest>)
  {
    |created| == |manifests| && forall i :: 0 <= i < |created| ==> created[i].manifest == manifests[i]
  }

  predicate AllValid(manifests: seq<Manifest>) { forall i :: 0 <= i < |manifests| ==> manifests[i].IsValid() }

  // ----- Building them

  /** How a bundle list came about: the resources converted, the bundle made for each workload, the bundles kept. */
  datatype Blueprint = Blueprint(created: seq<Resource>, resources: seq<Resource>, made: seq<BundleV>,
                                 views: seq<BundleV>)

  lemma {:induction false} OutcomeGivesRules(workloads: seq<Resource>, entries: seq<WorkloadAnnotation>, w: Resource)
    requires Outcome(workloads, entries).Ok?
    ensures PlacementRules(Assigned(workloads, entries, w)).Some?
  {
    if entries != [] {
      OutcomeGivesRules(workloads, entries[..|entries| - 1], w);
    }
  }

  lemma NoneNamed(views: seq<BundleV>, name: string)
    requires First(NamedBundle(name), views).None?
    ensures forall i :: 0 <= i < |views| ==> views[i].name != name
  {
    FirstIsFirst(NamedBundle(name), views);
    forall i | 0 <= i < |views| ensures views[i].name != name {
      assert !NamedBundle(name)(views[i]);
    }
  }

  /** The bundle, which stands at that position, takes over what is in `v`. */
  method Overwrite(b: Bundle, v: BundleV, ghost bs: seq<Bundle>, ghost at: nat, ghost views: seq<BundleV>)
    requires Shows(bs, views) && at < |bs| && bs[at] == b
    requires views[at].name == v.name && views[at].cluster == v.cluster && views[at].resourceName == v.resourceName
    modifies b
    ensures Shows(bs, views[at := v])
  {
    assert b.View() == views[at];
    b.rules := v.rules;
    b.resources := v.resources;
    b.absent := v.absent;
    b.external := v.external;
    assert forall i :: 0 <= i < |bs| && i != at ==> bs[i].View() == views[i];
  }

  /** The bundle list after one more workload: the bundle of its name is overwritten, or a new one appended. */
  method StoreBundle(bs: seq<Bundle>, v: BundleV, ghost views: seq<BundleV>) returns (after: seq<Bundle>)
    requires Shows(bs, views)
    requires forall i :: 0 <= i < |views| && views[i].name == v.name ==>
               views[i].cluster == v.cluster && views[i].resourceName == v.resourceName
    modifies bs
    ensures Shows(after, Upsert(views, v))
    ensures forall k :: 0 <= k < |after| ==> after[k] in bs || fresh(after[k])
  {
    var found, at := GetBundle(bs, v.name, views);
    match found {
      case Some(b) =>
        UpsertAt(views, v, at);
        Overwrite(b, v, bs, at, views);
        after := bs;
      case None =>
        NoneNamed(views, v.name);
        UpsertAt(views, v, |views|);
        var b := new Bundle(v);
        after := bs + [b];
    }
  }

  /** The analysis of one workload, and the bundle it leads to. */
  method MakeBundle(w: Resource, request: Request, common: seq<Rule>, anc: seq<Resource>,
                    ghost resources: seq<Resource>)
    returns (r: Result<BundleV>)
    requires DistinctKeys(resources) && anc == Filter(Ancillaries(), resources)
    requires Outcome(Filter(Workloads(), resources), request.workloadAnnotations).Ok?
    requires w.annotations == Assigned(Filter(Workloads(), resources), request.workloadAnnotations, w)
    ensures r.Ok? || r.Failed? || r.Panicked?
    ensures r.Ok? <==> !Unanalysable(anc)(w)
    ensures r.Ok? ==> BundleOf(r.value, w, request, common, resources)
  {
    FilterDistinct(Ancillaries(), resources);
    var findings := AnalyseWorkload(w, anc);
    if findings.Failed? { return Failed; }
    if findings.Panicked? { return Panicked; }
    OutcomeGivesRules(Filter(Workloads(), resources), request.workloadAnnotations, w);
    var own := ExtractPlacementRules(w.annotations);
    var f := findings.value;
    var v := BundleV(w.Name(), [w] + f.resources, f.absent, f.connections, common + own.value, "",
                     ResourceName(w.Name(), request.name));
    assert v.resources[1..] == f.resources;
    return Ok(v);
  }

  /** One iteration: the bundle of `workloads[i]` is made and stored. */
  method BundleWorkload(bs: seq<Bundle>, workloads: seq<Resource>, i: nat, request: Request, common: seq<Rule>,
                        anc: seq<Resource>, ghost resources: seq<Resource>, ghost made: seq<BundleV>)
    returns (r: Result<seq<Bundle>>, ghost after: seq<BundleV>)
    requires i < |workloads| && DistinctKeys(resources)
    requires workloads == Filter(Workloads(), resources) && anc == Filter(Ancillaries(), resources)
    requires Outcome(workloads, request.workloadAnnotations).Ok?
    requires workloads[i].annotations == Assigned(workloads, request.workloadAnnotations, workloads[i])
    requires MadeFor(made, workloads[..i], request, common, resources) && Shows(bs, UpsertAll(made))
    modifies bs
    ensures r.Ok? || r.Failed? || r.Panicked?
    ensures r.Ok? <==> !Unanalysable(anc)(workloads[i])
    ensures r.Ok? ==> MadeFor(after, workloads[..i + 1], request, common, resources) && Shows(r.value, UpsertAll(after))
                      && forall k :: 0 <= k < |r.value| ==> r.value[k] in bs || fresh(r.value[k])
  {
    after := made;
    var v := MakeBundle(workloads[i], request, common, anc, resources);
    if v.Failed? { return Failed, after; }
    if v.Panicked? { return Panicked, after; }
    MadeNames(made, workloads[..i], request, common, resources);
    var stored := StoreBundle(bs, v.value, UpsertAll(made));
    MadeStep(made, v.value, workloads, i, request, common, resources);
    return Ok(stored), made + [v.value];
  }

  method BundleWorkloads(workloads: seq<Resource>, request: Request, common: seq<Rule>, anc: seq<Resource>,
                         ghost resources: seq<Resource>)
    returns (r: Result<seq<Bundle>>, ghost made: seq<BundleV>)
    requires DistinctKeys(resources)
    requires workloads == Filter(Workloads(), resources) && anc == Filter(Ancillaries(), resources)
    requires Outcome(workloads, request.workloadAnnotations).Ok?
    requires forall i :: 0 <= i < |workloads| ==>
               workloads[i].annotations == Assigned(workloads, request.workloadAnnotations, workloads[i])
    ensures r.Ok? || r.Failed? || r.Panicked?
    ensures r.Ok? <==> Filter(Unanalysable(anc), workloads) == []
    ensures r.Ok? ==> MadeFor(made, workloads, request, common, resources) && Shows(r.value, UpsertAll(made))
                      && forall k :: 0 <= k < |r.value| ==> fresh(r.value[k])
  {
    var bundles: seq<Bundle> := [];
    made := [];
    for i := 0 to |workloads|
      invariant Shows(bundles, UpsertAll(made)) && forall k :: 0 <= k < |bundles| ==> fresh(bundles[k])
      invariant Filter(Unanalysable(anc), workloads[..i]) == []
      invariant MadeFor(made, workloads[..i], request, common, resources) == true
    {
      var after;
      after, made := BundleWorkload(bundles, workloads, i, request, common, anc, resources, made);
      FilterStep(Unanalysable(anc), workloads, i);
      if !after.Ok? {
        FilterGrows(Unanalysable(anc), workloads, i + 1);
        return after, made;
      }
      bundles := after.value;
    }
    assert workloads[..|workloads|] == workloads;
    return Ok(bundles), made;
  }

  lemma MadeStep(made: seq<BundleV>, v: BundleV, workloads: seq<Resource>, i: nat, request: Request, common: seq<Rule>,
                 resources: seq<Resource>)
    requires i < |workloads| && MadeFor(made, workloads[..i], request, common, resources)
    requires BundleOf(v, workloads[i], request, common, resources)
    ensures MadeFor(made + [v], workloads[..i + 1], request, common, resources)
    ensures UpsertAll(made + [v]) == Upsert(UpsertAll(made), v)
  {
    Front(made, v);
    var more, upTo := made + [v], workloads[..i + 1];
    forall k | 0 <= k < |more| ensures BundleOf(more[k], upTo[k], request, common, resources) {
      if k < i {
        assert more[k] == made[k] && upTo[k] == workloads[..i][k];
      } else {
        assert more[k] == v && upTo[k] == workloads[i];
      }
    }
  }

  lemma MadeNames(made: seq<BundleV>, workloads: seq<Resource>, request: Request, common: seq<Rule>,
                  resources: seq<Resource>)
    requires MadeFor(made, workloads, request, common, resources)
    ensures forall i :: 0 <= i < |UpsertAll(made)| ==>
              var v := UpsertAll(made)[i]; v.cluster == "" && v.resourceName == ResourceName(v.name, request.name)
  {
    UpsertAllMembers(made);
    forall i | 0 <= i < |made|
      ensures made[i].cluster == "" && made[i].resourceName == ResourceName(made[i].name, request.name)
    {
      assert BundleOf(made[i], workloads[i], request, common, resources);
    }
  }

  /** The list of bundles of a request that names no target cluster. Reconciliation always starts from an empty list. */
  method BuildBundles(request: Request) returns (r: Result<seq<Bundle>>, ghost plan: Blueprint)
    ensures AllValid(request.manifests) ==> ConvertedFrom(plan.created, request.manifests)
                                            && plan.resources == Union([], plan.created)
    ensures r.Misconfigured? <==>
              (!AllValid(request.manifests) || AnnotationsMisconfigured(request, plan.resources))
    ensures r.Ok? <==> AllValid(request.manifests) && Bundleable(request, plan.resources)
    ensures r.Ok? ==> Bundled(request, plan.resources, plan.made, plan.views) && Shows(r.value, plan.views)
                      && forall k :: 0 <= k < |r.value| ==> fresh(r.value[k])
  {
    var converted;
    ghost var created;
    converted, created := BulkConvert(request.manifests);
    plan := Blueprint(created, [], [], []);
    if converted.Misconfigured? {
      return Misconfigured, plan;
    }
    var resources := converted.value;
    plan := plan.(resources := resources);
    var common := ExtractPlacementRules(request.globalAnnotations);
    if common.None? {
      return Panicked, plan;
    }
    if request.workloadAnnotations == [] {
      var bundle, v := SingleBundle(request, common.value, resources);
      return Ok([bundle]), plan.(views := [v]);
    }
    var bundles, made := BundleByWorkload(request, common.value, resources, created);
    return bundles, plan.(made := made, views := UpsertAll(made));
  }

  method SingleBundle(request: Request, common: seq<Rule>, resources: seq<Resource>)
    returns (bundle: Bundle, ghost v: BundleV)
    ensures fresh(bundle) && bundle.View() == v == Single(request, common, resources)
  {
    if |common| == 0 {
      bundle := new Bundle(BundleV("default", resources, [], [], [], "", ResourceName("default", request.name)));
    } else {
      bundle := new Bundle(BundleV("global", resources, [], [], common, "", ResourceName("global", request.name)));
    }
    v := bundle.View();
  }

  method BundleByWorkload(request: Request, common: seq<Rule>, resources: seq<Resource>, ghost created: seq<Resource>)
    returns (r: Result<seq<Bundle>>, ghost made: seq<BundleV>)
    requires resources == Union([], created)
    requires forall i :: 0 <= i < |created| ==> created[i].annotations == []
    modifies created
    ensures r.Misconfigured? <==> Outcome(Filter(Workloads(), resources), request.workloadAnnotations).Failed?
    ensures r.Ok? <==> Outcome(Filter(Workloads(), resources), request.workloadAnnotations).Ok?
                       && WorkloadsAnalysable(resources)
    ensures r.Ok? ==> MadeFor(made, Filter(Workloads(), resources), request, common, resources)
                      && Shows(r.value, UpsertAll(made)) && forall k :: 0 <= k < |r.value| ==> fresh(r.value[k])
  {
    var workloads, ancillaries := Categorise(resources);
    UnionKeys([], created);
    FreshWorkloads(created, workloads);
    var assignment := AssignWorkloadAnnotations(workloads, request.workloadAnnotations);
    if assignment.Panicked? { return Panicked, []; }
    if !assignment.Ok? { return Misconfigured, []; }
    r, made := BundleWorkloads(workloads, request, common, ancillaries, resources);
  }

  lemma FreshWorkloads(created: seq<Resource>, workloads: seq<Resource>)
    requires workloads == Filter(Workloads(), Union([], created))
    ensures forall i :: 0 <= i < |workloads| ==> workloads[i] in created
  {
    UnionMembers([], created);
    FilterMembers(Workloads(), Union([], created));
  }

  // ----- Resource names

  /** Short names stay as they are; of a long one the first 63 characters are kept, up to the hyphens at their end. */
  lemma {:induction false} TruncateMeans(name: string)
    ensures |name| <= 63 ==> Truncate(name) == name
    ensures |name| > 63 ==>
              Truncate(name) <= name[..63] && (Truncate(name) != [] ==> Truncate(name)[|Truncate(name)| - 1] != '-')
              && forall i :: |Truncate(name)| <= i < 63 ==> name[i] == '-'
  {
    if |name| > 63 {
      TrimMeans(name[..63]);
    }
  }

  lemma {:induction false} TrimMeans(s: string)
    ensures TrimRight(s, '-') <= s
    ensures TrimRight(s, '-') != [] ==> TrimRight(s, '-')[|TrimRight(s, '-')| - 1] != '-'
    ensures forall i :: |TrimRight(s, '-')| <= i < |s| ==> s[i] == '-'
  {
    if s != [] && s[|s| - 1] == '-' {
      TrimMeans(s[..|s| - 1]);
      assert forall i :: 0 <= i < |s| - 1 ==> s[..|s| - 1][i] == s[i];
    }
  }

  lemma ResourceNameIs(prefix: string, request: string)
    requires |prefix| + |request| <= 62
    ensures ResourceName(prefix, request) == prefix + "-" + request
  {
    TruncateMeans(prefix + "-" + request);
  }
}
