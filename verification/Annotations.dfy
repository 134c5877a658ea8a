/**
 Scheduling annotations of the form `key=value` (internal/controller/annotations.go).
 */
module Annotations {
  import opened Collections
  import opened Text
  import opened Resources

  const FILTER_PREFIX := "p2code.filter"
  const TARGET_CLUSTER_SET := "p2code.target.managedClusterSet"
  const TARGET_CLUSTER := "p2code.target.cluster"

  /** A requirement that the cluster claim `key` has the value `value`. */
  datatype Rule = Rule(key: string, value: string)
  datatype WorkloadAnnotation = WorkloadAnnotation(name: string, annotations: seq<string>)
  /** `cluster` is empty when no target cluster is given. */
  datatype Target = Target(clusterSet: string, cluster: string)

  function KeyPart(annotation: string): string { Split(annotation, '=')[0] }

  predicate IsFilter(annotation: string) { FILTER_PREFIX <= KeyPart(annotation) }

  predicate IsAnnotationSupported(annotation: string)
  {
    KeyPart(annotation) == TARGET_CLUSTER || KeyPart(annotation) == TARGET_CLUSTER_SET || IsFilter(annotation)
  }

  predicate AnnotationsSupported(global: seq<string>, workloads: seq<WorkloadAnnotation>)
  {
    (forall a :: a in global ==> IsAnnotationSupported(a))
    && forall i, a :: 0 <= i < |workloads| && a in workloads[i].annotations ==> IsAnnotationSupported(a)
  }

  method ValidateAnnotationsSupported(global: seq<string>, workloads: seq<WorkloadAnnotation>) returns (ok: bool)
    ensures ok <==> AnnotationsSupported(global, workloads)
  {
    ok := AllSupported(global);
    for i := 0 to |workloads|
      invariant ok <==> (forall a :: a in global ==> IsAnnotationSupported(a))
                        && (forall j, a :: 0 <= j < i && a in workloads[j].annotations ==> IsAnnotationSupported(a))
    {
      if !ok {
        return;
      }
      ok := AllSupported(workloads[i].annotations);
    }
  }

  method AllSupported(annotations: seq<string>) returns (ok: bool)
    ensures ok <==> forall a :: a in annotations ==> IsAnnotationSupported(a)
  {
    for i := 0 to |annotations|
      invariant forall j :: 0 <= j < i ==> IsAnnotationSupported(annotations[j])
    {
      if !IsAnnotationSupported(annotations[i]) {
        return false;
      }
    }
    return true;
  }

  // ----- Placement rules

  /** The rule an annotation stands for, if it is a filter; None where taking the part after '=' is out of range. */
  function RuleOf(): string -> Option<seq<Rule>>
  {
    (a: string) =>
      var parts := Split(a, '=');
      if !(FILTER_PREFIX <= parts[0]) then Some([])
      else if |parts| < 2 then None
      else Some([Rule(parts[0], parts[1])])
  }

  function PlacementRules(annotations: seq<string>): Option<seq<Rule>> { TryFlatMap(RuleOf(), annotations) }

  /** None stands for the run-time panic. */
  method ExtractPlacementRules(annotations: seq<string>) returns (r: Option<seq<Rule>>)
    ensures r == PlacementRules(annotations)
  {
    var rules: seq<Rule> := [];
    for i := 0 to |annotations|
      invariant PlacementRules(annotations[..i]) == Some(rules)
    {
      var parts := Split(annotations[i], '=');
      TryFlatMapStep(RuleOf(), annotations, i);
      if FILTER_PREFIX <= parts[0] {
        if |parts| < 2 {
          TryFlatMapStops(RuleOf(), annotations, i + 1);
          return None;
        }
        rules := rules + [Rule(parts[0], parts[1])];
      } else {
        assert rules + [] == rules;
      }
    }
    assert annotations[..|annotations|] == annotations;
    return Some(rules);
  }

  /** Extraction panics exactly when some filter annotation has no '='. */
  lemma ExtractionPanics(annotations: seq<string>)
    ensures PlacementRules(annotations).None? <==>
            exists i :: 0 <= i < |annotations| && IsFilter(annotations[i]) && '=' !in annotations[i]
  {
    TryFlatMapFails(RuleOf(), annotations);
    forall i | 0 <= i < |annotations|
      ensures RuleOf()(annotations[i]).None? <==> IsFilter(annotations[i]) && '=' !in annotations[i]
    {
      SplitHasSecondPiece(annotations[i], '=');
    }
  }

  /** Validation does not rule that out: the annotation `p2code.filter` passes it and makes the extraction panic. */
  lemma SupportedAnnotationCanPanic()
    ensures IsAnnotationSupported(FILTER_PREFIX) && PlacementRules([FILTER_PREFIX]).None?
  {
    SplitWithout(FILTER_PREFIX, '=');
    ExtractionPanics([FILTER_PREFIX]);
    assert [FILTER_PREFIX][0] == FILTER_PREFIX;
  }

  /** A well-formed filter annotation is read back as the pair it was written from; a further '=' cuts the value
      short. */
  lemma RuleRoundTrip(rule: Rule, rest: string)
    requires FILTER_PREFIX <= rule.key && '=' !in rule.key && '=' !in rule.value
    ensures RuleOf()(rule.key + "=" + rule.value) == Some([rule])
    ensures RuleOf()(rule.key + "=" + (rule.value + "=" + rest)) == Some([rule])
  {
    SplitAtFirst(rule.key, '=', rule.value);
    SplitWithout(rule.value, '=');
    SplitAtFirst(rule.key, '=', rule.value + "=" + rest);
    SplitAtFirst(rule.value, '=', rest);
  }

  // ----- The target

  /** The value of the last annotation with the given key, or the empty string. */
  function LastValue(key: string, annotations: seq<string>): string
  {
    if annotations == [] then ""
    else
      var parts := Split(annotations[|annotations| - 1], '=');
      if parts[0] == key && |parts| > 1 then parts[1] else LastValue(key, annotations[..|annotations| - 1])
  }

  function TargetIn(annotations: seq<string>): Target
  {
    Target(LastValue(TARGET_CLUSTER_SET, annotations), LastValue(TARGET_CLUSTER, annotations))
  }

  predicate TargetLacksValue(annotation: string)
  {
    (KeyPart(annotation) == TARGET_CLUSTER_SET || KeyPart(annotation) == TARGET_CLUSTER) && '=' !in annotation
  }

  predicate SomeTargetLacksValue(annotations: seq<string>)
  {
    exists i :: 0 <= i < |annotations| && TargetLacksValue(annotations[i])
  }

  method ExtractTarget(annotations: seq<string>) returns (r: Result<Target>)
    ensures r.Ok? || r.Failed? || r.Panicked?
    ensures r.Panicked? <==> SomeTargetLacksValue(annotations)
    ensures r.Failed? ==> TargetIn(annotations).clusterSet == ""
    ensures r.Ok? ==> r.value == TargetIn(annotations) && r.value.clusterSet != ""
  {
    var target := Target("", "");
    KeysDiffer();
    for i := 0 to |annotations|
      invariant forall j :: 0 <= j < i ==> !TargetLacksValue(annotations[j])
      invariant target.clusterSet == LastValue(TARGET_CLUSTER_SET, annotations[..i])
      invariant target.cluster == LastValue(TARGET_CLUSTER, annotations[..i])
    {
      var parts := Split(annotations[i], '=');
      assert annotations[..i + 1][..i] == annotations[..i];
      SplitHasSecondPiece(annotations[i], '=');
      if parts[0] == TARGET_CLUSTER_SET {
        if |parts| < 2 { return Panicked; }
        target := target.(clusterSet := parts[1]);
      } else if parts[0] == TARGET_CLUSTER {
        if |parts| < 2 { return Panicked; }
        target := target.(cluster := parts[1]);
      }
    }
    assert annotations[..|annotations|] == annotations;
    return if target.clusterSet == "" then Failed else Ok(target);
  }

  lemma KeysDiffer()
    ensures TARGET_CLUSTER != TARGET_CLUSTER_SET
  {
    assert |TARGET_CLUSTER| != |TARGET_CLUSTER_SET|;
  }

  // ----- Workload annotations

  /** What one entry of the workload annotations leads to. */
  function EntryOutcome(workloads: seq<Resource>, entry: WorkloadAnnotation): Result<()>
  {
    match PlacementRules(entry.annotations)
    case None => Panicked
    case Some(rules) =>
      if |rules| != |entry.annotations| || First(WorkloadNamed(entry.name), workloads).None? then Failed else Ok(())
  }

  /** The outcome of the first entry that goes wrong, if any does. */
  function Outcome(workloads: seq<Resource>, entries: seq<WorkloadAnnotation>): (r: Result<()>)
    ensures !r.Misconfigured?
  {
    if entries == [] then Ok(())
    else
      var before := Outcome(workloads, entries[..|entries| - 1]);
      if before.Ok? then EntryOutcome(workloads, entries[|entries| - 1]) else before
  }

  lemma {:induction false} OutcomeStays(workloads: seq<Resource>, entries: seq<WorkloadAnnotation>, i: nat)
    requires i <= |entries| && !Outcome(workloads, entries[..i]).Ok?
    ensures Outcome(workloads, entries) == Outcome(workloads, entries[..i])
    decreases |entries|
  {
    if i < |entries| {
      assert entries[..|entries| - 1][..i] == entries[..i];
      OutcomeStays(workloads, entries[..|entries| - 1], i);
    } else {
      assert entries[..i] == entries;
    }
  }

  /** The annotations a workload ends up with: those of the last entry that names it. */
  function Assigned(workloads: seq<Resource>, entries: seq<WorkloadAnnotation>, w: Resource): seq<string>
  {
    if entries == [] then []
    else if First(WorkloadNamed(entries[|entries| - 1].name), workloads) == Some(w)
    then entries[|entries| - 1].annotations
    else Assigned(workloads, entries[..|entries| - 1], w)
  }

  method AssignWorkloadAnnotations(workloads: seq<Resource>, entries: seq<WorkloadAnnotation>) returns (r: Result<()>)
    requires forall i :: 0 <= i < |workloads| ==> workloads[i].annotations == []
    modifies workloads
    ensures r == Outcome(workloads, entries)
    ensures r.Ok? ==> forall i :: 0 <= i < |workloads| ==>
                        workloads[i].annotations == Assigned(workloads, entries, workloads[i])
  {
    for e := 0 to |entries|
      invariant Outcome(workloads, entries[..e]) == Ok(())
      invariant forall i :: 0 <= i < |workloads| ==>
                  workloads[i].annotations == Assigned(workloads, entries[..e], workloads[i])
    {
      var entry := entries[e];
      assert entries[..e + 1][..e] == entries[..e];
      var rules := ExtractPlacementRules(entry.annotations);
      var found := FindWorkload(workloads, entry.name);
      if rules.None? || |rules.value| != |entry.annotations| || found.None? {
        OutcomeStays(workloads, entries, e + 1);
        return if rules.None? then Panicked else Failed;
      }
      FirstIsFirst(WorkloadNamed(entry.name), workloads);
      found.value.annotations := entry.annotations;
    }
    assert entries[..|entries|] == entries;
    return Ok(());
  }

  /** The last entry for a workload of the given name. */
  function LastEntryFor(entries: seq<WorkloadAnnotation>, name: string): (e: Option<nat>)
    ensures e.None? ==> forall i :: 0 <= i < |entries| ==> entries[i].name != name
    ensures e.Some? ==> e.value < |entries| && entries[e.value].name == name
                        && forall i :: e.value < i < |entries| ==> entries[i].name != name
  {
    if entries == [] then None
    else if entries[|entries| - 1].name == name then Some(|entries| - 1)
    else LastEntryFor(entries[..|entries| - 1], name)
  }

  /** A workload that no entry names ends up without annotations. */
  lemma {:induction false} AssignedToNone(workloads: seq<Resource>, entries: seq<WorkloadAnnotation>, w: Resource)
    requires forall i :: 0 <= i < |entries| ==> entries[i].name != w.Name()
    ensures Assigned(workloads, entries, w) == []
  {
    if entries != [] {
      FirstIsFirst(WorkloadNamed(entries[|entries| - 1].name), workloads);
      AssignedToNone(workloads, entries[..|entries| - 1], w);
    }
  }

  /** With names that are distinct among the workloads, "the last entry that names it" means just that. */
  lemma {:induction false} AssignedIsLast(workloads: seq<Resource>, entries: seq<WorkloadAnnotation>, w: Resource,
                                          i: nat)
    requires w in workloads && w.IsWorkload()
    requires forall j, k :: 0 <= j < k < |workloads| ==> workloads[j].Name() != workloads[k].Name()
    requires i < |entries| && entries[i].name == w.Name()
    requires forall j :: i < j < |entries| ==> entries[j].name != w.Name()
    ensures Assigned(workloads, entries, w) == entries[i].annotations
  {
    var last := entries[|entries| - 1];
    FirstIsFirst(WorkloadNamed(last.name), workloads);
    if i < |entries| - 1 {
      AssignedIsLast(workloads, entries[..|entries| - 1], w, i);
    } else {
      assert WorkloadNamed(last.name)(w);
      assert WorkloadNamed(last.name)(First(WorkloadNamed(last.name), workloads).value);
    }
  }

  // ----- The same of the characters of the annotations

  /** The annotation is that key and that value, with an equals sign between them; a second equals sign ends the
      value. */
  ghost predicate IsPair(a: string, key: string, value: string)
  {
    '=' !in key && '=' !in value
    && (a == key + "=" + value || exists rest :: a == key + "=" + (value + "=" + rest))
  }

  lemma {:induction false} FirstEquals(a: string) returns (key: string, rest: string)
    requires '=' in a
    ensures a == key + "=" + rest && '=' !in key
  {
    if a[0] == '=' {
      key, rest := "", a[1..];
    } else {
      assert a == [a[0]] + a[1..];
      key, rest := FirstEquals(a[1..]);
      key := [a[0]] + key;
    }
  }

  lemma PairMeans(a: string, key: string, value: string)
    ensures IsPair(a, key, value) <==> |Split(a, '=')| > 1 && Split(a, '=')[0] == key && Split(a, '=')[1] == value
  {
    SplitHasSecondPiece(a, '=');
    if IsPair(a, key, value) {
      SplitOfPair(a, key, value);
    }
    if '=' in a {
      PairOfSplit(a);
    }
  }

  lemma SplitOfPair(a: string, key: string, value: string)
    requires IsPair(a, key, value)
    ensures |Split(a, '=')| > 1 && Split(a, '=')[0] == key && Split(a, '=')[1] == value
  {
    if a == key + "=" + value {
      SplitAtFirst(key, '=', value);
      SplitWithout(value, '=');
    } else {
      var rest :| a == key + "=" + (value + "=" + rest);
      SplitAtFirst(key, '=', value + "=" + rest);
      SplitAtFirst(value, '=', rest);
    }
  }

  lemma PairOfSplit(a: string)
    requires '=' in a
    ensures |Split(a, '=')| > 1 && IsPair(a, Split(a, '=')[0], Split(a, '=')[1])
  {
    var key, more := FirstEquals(a);
    SplitAtFirst(key, '=', more);
    if '=' in more {
      var value, rest := FirstEquals(more);
      SplitAtFirst(value, '=', rest);
      assert a == key + "=" + (value + "=" + rest);
    } else {
      SplitWithout(more, '=');
    }
  }

  lemma KeyPartIs(a: string)
    ensures '=' in a ==> KeyPart(a) + "=" <= a && '=' !in KeyPart(a)
    ensures '=' !in a ==> KeyPart(a) == a
  {
    if '=' in a {
      var key, rest := FirstEquals(a);
      SplitAtFirst(key, '=', rest);
    } else {
      SplitWithout(a, '=');
    }
  }

  lemma PrefixOfKey(prefix: string, key: string, rest: string)
    requires '=' !in prefix
    ensures prefix <= key <==> prefix <= key + "=" + rest
  {
    var a := key + "=" + rest;
    assert a[|key|] == '=';
    if |prefix| <= |key| {
      assert a[..|prefix|] == key[..|prefix|];
    }
  }

  /** Filters are the annotations that begin like this. */
  lemma FiltersBegin(a: string)
    ensures IsFilter(a) <==> "p2code.filter" <= a
  {
    if '=' in a {
      var key, rest := FirstEquals(a);
      SplitAtFirst(key, '=', rest);
      PrefixOfKey("p2code.filter", key, rest);
    } else {
      SplitWithout(a, '=');
    }
  }

  /** The annotation has that key, with or without a value. */
  predicate IsKeyed(a: string, key: string) { a == key || key + "=" <= a }

  lemma KeyPartMeans(a: string, key: string)
    requires '=' !in key
    ensures KeyPart(a) == key <==> IsKeyed(a, key)
  {
    assert key + "=" <= a ==> a[|key|] == '=';
    if '=' in a {
      var k, rest := FirstEquals(a);
      SplitAtFirst(k, '=', rest);
      if key + "=" <= a {
        assert a == key + "=" + a[|key| + 1..];
        SplitAtFirst(key, '=', a[|key| + 1..]);
      }
      if k == key {
        assert a[..|key| + 1] == key + "=";
      }
    } else {
      SplitWithout(a, '=');
    }
  }

  predicate IsSupportedKey(a: string)
  {
    "p2code.filter" <= a || IsKeyed(a, "p2code.target.managedClusterSet") || IsKeyed(a, "p2code.target.cluster")
  }

  /** Supported annotations are filters and targets. */
  lemma SupportedIff(a: string)
    ensures IsAnnotationSupported(a) <==> IsSupportedKey(a)
  {
    FiltersBegin(a);
    KeyPartMeans(a, "p2code.target.managedClusterSet");
    KeyPartMeans(a, "p2code.target.cluster");
  }

  /** The rules are the keys and values of the filters, and nothing else. */
  lemma RulesMean(annotations: seq<string>, rule: Rule)
    requires PlacementRules(annotations).Some?
    ensures rule in PlacementRules(annotations).value <==>
            exists a :: a in annotations && "p2code.filter" <= a && IsPair(a, rule.key, rule.value)
  {
    TryFlatMapMembers(RuleOf(), annotations, rule);
    forall a: string | true
      ensures RuleOf()(a).Some? && rule in RuleOf()(a).value <==>
              "p2code.filter" <= a && IsPair(a, rule.key, rule.value)
    {
      FiltersBegin(a);
      PairMeans(a, rule.key, rule.value);
    }
  }

  /** The cluster set and the cluster are the values of the last annotations with these keys, and empty where there are
      none. */
  lemma TargetMeans(annotations: seq<string>)
    ensures LastPair(annotations, "p2code.target.managedClusterSet", TargetIn(annotations).clusterSet)
    ensures LastPair(annotations, "p2code.target.cluster", TargetIn(annotations).cluster)
  {
    LastValueMeans("p2code.target.managedClusterSet", annotations);
    LastValueMeans("p2code.target.cluster", annotations);
  }

  ghost predicate LastPair(annotations: seq<string>, key: string, value: string)
  {
    (value == "" && forall i :: 0 <= i < |annotations| ==> !SomePair(annotations[i], key))
    || exists i :: 0 <= i < |annotations| && IsPair(annotations[i], key, value)
                   && forall j :: i < j < |annotations| ==> !SomePair(annotations[j], key)
  }

  ghost predicate SomePair(a: string, key: string) { exists value :: IsPair(a, key, value) }

  lemma SomePairMeans(a: string, key: string)
    ensures SomePair(a, key) <==> |Split(a, '=')| > 1 && Split(a, '=')[0] == key
  {
    if SomePair(a, key) {
      var value :| IsPair(a, key, value);
      PairMeans(a, key, value);
    }
    if |Split(a, '=')| > 1 {
      PairMeans(a, Split(a, '=')[0], Split(a, '=')[1]);
    }
  }

  lemma {:induction false} LastValueMeans(key: string, annotations: seq<string>)
    ensures LastPair(annotations, key, LastValue(key, annotations))
  {
    if annotations != [] {
      var n := |annotations| - 1;
      var front, last := annotations[..n], annotations[n];
      SomePairMeans(last, key);
      if SomePair(last, key) {
        PairMeans(last, key, Split(last, '=')[1]);
        assert IsPair(annotations[n], key, LastValue(key, annotations));
      } else {
        LastValueMeans(key, front);
        assert forall i :: 0 <= i < n ==> front[i] == annotations[i];
      }
    }
  }

  /** Reading the target panics if and only if some annotation is one of the two keys alone. */
  lemma TargetPanicsIff(annotations: seq<string>)
    ensures SomeTargetLacksValue(annotations) <==>
            exists i :: 0 <= i < |annotations|
                        && annotations[i] in {"p2code.target.managedClusterSet", "p2code.target.cluster"}
  {
    forall i | 0 <= i < |annotations|
      ensures TargetLacksValue(annotations[i]) <==>
              annotations[i] in {"p2code.target.managedClusterSet", "p2code.target.cluster"}
    {
      LonelyKeys(annotations[i]);
    }
  }

  lemma LonelyKeys(a: string)
    ensures TargetLacksValue(a) <==> a == "p2code.target.managedClusterSet" || a == "p2code.target.cluster"
  {
    KeyPartMeans(a, "p2code.target.managedClusterSet");
    KeyPartMeans(a, "p2code.target.cluster");
    assert '=' !in a ==> !("p2code.target.managedClusterSet" + "=" <= a) by {
      assert "p2code.target.managedClusterSet" + "=" <= a ==> a[|"p2code.target.managedClusterSet"|] == '=';
    }
    assert '=' !in a ==> !("p2code.target.cluster" + "=" <= a) by {
      assert "p2code.target.cluster" + "=" <= a ==> a[|"p2code.target.cluster"|] == '=';
    }
  }

  // ----- And of the entries for workloads

  /** The entry names a workload, and all its annotations are filters with a value. */
  predicate IsFine(workloads: seq<Resource>, e: WorkloadAnnotation)
  {
    (forall a :: a in e.annotations ==> "p2code.filter" <= a && '=' in a) && NamesWorkload(workloads, e.name)
  }

  predicate NamesWorkload(workloads: seq<Resource>, name: string)
  {
    exists w :: w in workloads && w.IsWorkload() && w.manifest.metadata.name == name
  }

  /** The entry has a filter without a value. */
  predicate LacksValue(e: WorkloadAnnotation)
  {
    exists a :: a in e.annotations && "p2code.filter" <= a && '=' !in a
  }

  lemma NoRules(annotations: seq<string>)
    ensures PlacementRules(annotations).None? <==> exists a :: a in annotations && "p2code.filter" <= a && '=' !in a
  {
    ExtractionPanics(annotations);
    forall a: string | true ensures IsFilter(a) <==> "p2code.filter" <= a {
      FiltersBegin(a);
    }
    if exists a :: a in annotations && "p2code.filter" <= a && '=' !in a {
      var a :| a in annotations && "p2code.filter" <= a && '=' !in a;
      var i :| 0 <= i < |annotations| && annotations[i] == a;
    }
  }

  lemma {:induction false} AllRules(annotations: seq<string>)
    requires PlacementRules(annotations).Some?
    ensures |PlacementRules(annotations).value| <= |annotations|
    ensures |PlacementRules(annotations).value| == |annotations| <==>
            forall a :: a in annotations ==> "p2code.filter" <= a
  {
    if annotations != [] {
      var front, last := annotations[..|annotations| - 1], annotations[|annotations| - 1];
      AllRules(front);
      FiltersBegin(last);
      assert annotations == front + [last];
      assert |PlacementRules(annotations).value|
          == |PlacementRules(front).value| + if IsFilter(last) then 1 else 0;
      if forall a :: a in annotations ==> "p2code.filter" <= a {
        assert last in annotations;
        forall a | a in front ensures "p2code.filter" <= a {
          assert a in annotations;
        }
      }
    }
  }

  lemma EntryOutcomeMeans(workloads: seq<Resource>, e: WorkloadAnnotation)
    ensures EntryOutcome(workloads, e).Ok? <==> IsFine(workloads, e)
    ensures EntryOutcome(workloads, e).Panicked? <==> LacksValue(e)
  {
    NoRules(e.annotations);
    if PlacementRules(e.annotations).Some? {
      AllRules(e.annotations);
    }
    FirstIsFirst(WorkloadNamed(e.name), workloads);
    assert forall w: Resource :: WorkloadNamed(e.name)(w) <==> w.IsWorkload() && w.manifest.metadata.name == e.name;
  }

  /** The annotations of the workloads are assigned if and only if every entry is fine; otherwise the first entry that
      is not decides, and it panics if and only if it has a filter without a value. */
  lemma {:induction false} OutcomeMeans(workloads: seq<Resource>, entries: seq<WorkloadAnnotation>)
    ensures Outcome(workloads, entries).Ok? <==> forall i :: 0 <= i < |entries| ==> IsFine(workloads, entries[i])
    ensures Outcome(workloads, entries).Panicked? <==>
            exists i :: 0 <= i < |entries| && LacksValue(entries[i])
                        && forall j :: 0 <= j < i ==> IsFine(workloads, entries[j])
  {
    if entries != [] {
      var n := |entries| - 1;
      OutcomeMeans(workloads, entries[..n]);
      EntryOutcomeMeans(workloads, entries[n]);
      assert forall i :: 0 <= i < n ==> entries[..n][i] == entries[i];
      if Outcome(workloads, entries[..n]).Ok? {
        assert forall i :: 0 <= i < n ==> IsFine(workloads, entries[i]);
        forall i | 0 <= i < n ensures !LacksValue(entries[i]) {
          EntryOutcomeMeans(workloads, entries[i]);
        }
      }
    }
  }
}
