# A verified model of the P2CODE scheduler operator

The operator turns a `P2CodeSchedulingManifest` into `ManifestWork` objects on a hub cluster: it bundles each workload with
the resources it needs, lets placements choose a cluster for every bundle, pushes one work per bundle, and connects
bundles that ended up on different clusters through a registry of network links that all manifests share. This project
models the operator's own logic, proves each of its loops against a specification, and proves what the specifications
promise: about one function, about one run of `Reconcile`, and about every interleaving of runs, restarts and edits.

`dafny verify dfyconfig.toml` checks everything.

## How it is organised

| module | models |
|---|---|
| Collections, Text | list combinators for accumulator loops; `strings.Split`, `strconv.Atoi`, service references |
| Resources | manifests, `Resource`, `ResourceSet` and its mutators (`resourceset.go`) |
| Annotations | placement rules, targets, assignment to workloads (`annotations.go`) |
| Analysis, Analysers, Closure | what a workload needs: the lists, the loops that compute them (`analyse.go`), and a relation without loops |
| Bundles, Bundling | the bundler (`bundle.go`) and what bundling guarantees |
| Links, LinkTheory | the registry loops over link objects (`network-connectivity.go`), and the map they refine |
| Connections | which connections a list of bundles needs (`network-connectivity.go`) |
| HubState, Works, Network, Planning | hub, environment, status (`status.go`), and the stages of a run |
| Reconciler | `Reconcile` itself, proved to satisfy one relation, `RunOk`, between states |
| RunTheory, Outcomes, Registry | what `RunOk` means for one run: for works and status, told by fields, and for the registry of links |
| Traces | what it means for whole histories |
| Conversions, Repeats | what stays the same when a request is converted and planned again |
| Samples, HiddenOrphan, LinkedPair, Namesakes | concrete requests: one with a hidden orphan, one with a link, two with clashing names |

Objects that the operator updates in place are classes (`Resource`, `ResourceSet`, `AbsentResourceSet`, `Bundle`, `Link`,
`Hub`, `Reconciler`) and their loops are methods; each method is tied to a function of values, and the theorems are about
these functions. Go panics (an index out of range, a nil dereference) are an outcome, `Panicked`, never a precondition.
The environment of a run (`Env`) says for every API call whether it fails, what every placement answers and what every work
reports; all results hold for every environment.

## Main results

- The registry refines a map from (path, service) to port; registering and then deleting the same connections restores it
  exactly, order included, if and only if none of those pairs was there before. Over any history, with failures and
  restarts anywhere, the entries that belong to nobody stay untouched, and an owner whose own runs are tidy has exactly
  the (path, service) pairs of its recorded bundles, each with the port first asked for, whatever the runs of others do.
  After failed runs, the first recorded run for the same connections makes good.
- Planning a request again, with the same placements, gives the same plan up to the order of the manifests within a
  bundle, and after a settled run the next one changes no work, up to that order, and no link.
- The resources bundled with a workload are exactly those of a declarative relation over the fields of the manifests,
  and every named reference is either met in the bundle or listed as absent, never both.
- Admission, placement rules, decisions and endings are told by the fields of request and environment: a request is
  admitted if and only if its annotations are supported and its cluster set exists, has clusters, is bound and contains
  the target; every global filter is a rule of every bundle that a placement decides; a run that waits shows the clusters
  of its plan; a scheduling run changes the registry and the record only when all planned works pass; and no failing call
  is passed over, except the reading of a stale work.
- A settled run leaves exactly one work per bundle with exactly its contents, and that stays so until the next run of the
  same manifest. The proof uses only that the owner has as many works as there are bundles.
- Without faults, a run settles if and only if nothing stops it, no old work is left over, and all planned works pass.
- Finalisation is crash-safe. Through failed attempts, restarts and edits no work and no record outlives the finalizer;
  and no connection outlives it that was recorded when the finalisation began, however many attempts fail and whatever
  other manifests do. A recorded connection, once forgotten, does not come back until a plan is pushed again.
- The orphan warning appears if and only if repeated manifests and orphans outnumber repeated placements.
- No run stalls silently.

Where a property is not true of the code as it stands, the exact condition is proved instead. The members named are about
concrete requests, accepted by the operator, on which the property fails:

- Workloads survive bundling if and only if their names are distinct (bundles are keyed by bare name). Of a Deployment and
  a DaemonSet of one name one is lost (`Namesakes.TwinIsLost`).
- Every connection is registered with its port if and only if connections of one path and service agree in port.
- A run that pushes its plan without recording it keeps its owner's links and record in step if and only if it changed no
  connection, or registered just what is recorded. At the exits for orphaned and absent resources (lines 624 and 647 of
  the controller), with the network API: if and only if its connections equal the recorded ones; two workloads on two
  clusters, with a config map missing, leave a link without a record (`LinkedPair.MissingMapLosesRecord`). The exit at
  line 596, for a missing API, changes neither links nor record and always keeps step.
- A run that records its plan while the API is missing leaves the owner in step if and only if it had no links. The two
  workloads, moved to one cluster, leave theirs (`LinkedPair.RecordedWithoutNetworkLeavesLink`).
- A restart keeps an owner in step if and only if it had nothing connected, and finalising after a restart leaves the
  links, as it does for the two workloads (`LinkedPair.LinkOutlivesRestart`). So does a finalisation that forgets the
  record while the API is missing, unless there was no link.
- For distinct manifests the orphan warning tells the truth if and only if there is no orphan or the orphans outnumber
  the repeated placements. With distinct workload names the orphans are the ancillary resources that no workload needs.
  Two deployments that share a config map hide an orphan (`HiddenOrphan.HidingIsPushed`). In a bundle of the whole request
  the warning appears if and only if two manifests describe one resource.
- When a target cluster is set on which the bundle of the manifest's own name already is, the old work is passed over and
  the run cannot settle (`Namesakes.TargetOnItsClusterDoesNotSettle`). Neither can one whose bundles collide in their
  keys, unless old works make up the number.

## Hypotheses

Stated in the theorems that need them:

- Work keys (resource name and cluster) of the bundles of a plan are distinct and not used by another owner. Truncation
  and the joining of names are not injective.
- Owner labels of different manifests are distinct.
- Owners have disjoint (path, service) keys in the registry (`home`), and disjoint work keys (`place`).
- A tidy run, of the owner spoken of: it changes the record only where the network API is installed, and connections only
  if it reaches the line that records its bundles or, when finalising, the one that forgets them.
- During a finalisation, for what was recorded when it began: the operator does not restart, the API is installed for
  the attempt that forgets the record, and no manifest of that name is created anew.
- Two plans for one request are made with the same placements, and Services of one name are in one namespace.
- Workload names are distinct, for the correspondence of bundles and workloads only.

Built into the model:

- Manifests are decoded records and decoding succeeds. Names are valid, so that they are truncated for their length only.
- `GetService` looks a service up by name and answers -1 when there is none; `AddService` appends a service unless one of
  its name is there; neither touches anything else. Their library is not part of this model.
- Go's `int` has 64 bits.
- A manifest is stored under its own name; two manifests of one name in different namespaces are not told apart.
- Reads see earlier writes, an API call that fails has no effect, deletion of a work is immediate, and a run is atomic
  with respect to other runs and to edits.
- A manifest with the finalizer stays until the operator removes the finalizer, which is the only one.

Where code and documentation differ the code is followed: a service reference may contain `/` although the comment above
`isServiceNamePortReference` allows only lower-case alphanumerics and hyphens; and the syntax of annotations is not
validated, so that a filter annotation without `=` passes validation and makes the extraction of rules panic.

## Model

| member | source | states |
|---|---|---|
| Resources.ResourceSet.Add | internal/controller/resourceset.go:66-74 | appends a resource unless one with the same name, namespace and kind is there |
| Resources.ResourceSet.Merge | internal/controller/resourceset.go:76-80 | the new contents are the union with the merged list, element by element |
| Resources.UnionKeys | internal/controller/resourceset.go:62-80 | merging is union on keys, keeps the set free of duplicates and leaves what was there in front |
| Resources.UnionKeepsFirstOccurrences | internal/controller/resourceset.go:62-80 | merging appends exactly the first occurrences of new keys, in order |
| Resources.MergeTwice | internal/controller/resourceset.go:76-80 | merging a list twice is merging it once |
| Resources.UnionOfUnion | internal/controller/resourceset.go:76-80 | merging a de-duplicated list equals merging the list it was made from |
| Resources.UnionOfDistinct | internal/controller/resourceset.go:131-148 | conversion keeps the number of resources if and only if no two share a key |
| Resources.KeysAgreeIff | internal/controller/resourceset.go:62-64 | two manifests are one resource exactly when name, namespace and kind agree |
| Resources.AddedIff | internal/controller/resourceset.go:66-74 | a resource is added exactly when none of its name, namespace and kind is there |
| Resources.WorkloadIff | internal/controller/resourceset.go:40-60 | the workloads are the members of the apps and batch groups and the core pods |
| Resources.ValidIff | internal/controller/resourceset.go:150-210 | accepted exactly with a supported API version, a kind not left to the administrator, and a namespace where one is needed |
| Resources.FilterByKind | internal/controller/resourceset.go:104-113 | the resources of the kind, in order |
| Resources.Find | internal/controller/resourceset.go:82-91 | the first resource of that kind and name |
| Resources.ResolveMeans | internal/controller/resourceset.go:82-91 | look-up fails exactly when no resource of that kind and name is there, and otherwise finds such a one |
| Closure.ResolvesToFirst | internal/controller/resourceset.go:82-91 | look-up gives the first resource with that kind and name in its metadata |
| Resources.Categorise | internal/controller/resourceset.go:115-126 | both parts are the order-preserving selections of workloads and of the rest |
| Resources.CategoriseConserves | internal/controller/resourceset.go:115-126 | the two parts together are the whole with multiplicities |
| Resources.BulkConvert | internal/controller/resourceset.go:131-172 | succeeds exactly when every manifest is supported and has its namespace; the result is the union of one new resource per manifest |
| Text.ReferenceSplitsInTwo | internal/controller/network-connectivity.go:199-202 | what the pattern accepts splits at ':' into exactly a name and digits, and is put together from them |
| Text.ReferenceFailsOnlyOnOverflow | internal/controller/analyse.go:208-219 | parsing a reference fails exactly when its digits exceed the largest int |
| Text.ReferenceRoundTrip | internal/controller/analyse.go:208-219 | writing a name and port and parsing it gives them back, for every port up to the largest int |
| Annotations.ValidateAnnotationsSupported | internal/controller/annotations.go:23-39 | accepts exactly the manifests all of whose annotations have a supported key |
| Annotations.SupportedIff | internal/controller/annotations.go:11-21 | supported are the strings that begin with the filter prefix and those with one of the two target keys |
| Annotations.RulesMean | internal/controller/annotations.go:59-78 | the rules are the keys and values written in the filter annotations, and nothing else |
| Annotations.TargetMeans | internal/controller/annotations.go:83-98 | cluster set and cluster are the values written in the last annotations with these keys |
| Annotations.TargetPanicsIff | internal/controller/annotations.go:83-98 | reading the target panics exactly when an annotation is one of the two keys alone |
| Annotations.OutcomeMeans | internal/controller/annotations.go:41-57 | assignment succeeds exactly when every entry names a workload and holds filters with values only; the first other entry decides |
| Annotations.ExtractPlacementRules | internal/controller/annotations.go:61-78 | the rules of the filter annotations in order, or the panic |
| Annotations.ExtractionPanics | internal/controller/annotations.go:61-78 | the extraction panics exactly when some filter annotation has no '=' |
| Annotations.SupportedAnnotationCanPanic | internal/controller/annotations.go:18-21 | validation lets such an annotation pass |
| Annotations.RuleRoundTrip | internal/controller/annotations.go:59-78 | an annotation written from a key and value is read back as them; a second '=' cuts the value |
| Annotations.ExtractTarget | internal/controller/annotations.go:83-98 | the last cluster set and cluster given; fails without a cluster set and panics on a target without a value |
| Annotations.AssignWorkloadAnnotations | internal/controller/annotations.go:41-57 | stops at the first bad entry, and otherwise each workload has the annotations of the last entry resolving to it |
| Annotations.AssignedIsLast | internal/controller/annotations.go:41-57 | with distinct workload names, those are the annotations of the last entry that names the workload |
| Analysers.AnalyseContainers | internal/controller/analyse.go:159-224 | found and absent references and connections of all containers; fails exactly on a port out of range |
| Analysers.AnalyseServiceAccount | internal/controller/analyse.go:291-342 | the bindings of the account with their roles, and the roles that are absent |
| Analysers.AnalysePodSpec | internal/controller/analyse.go:69-156 | what the pod template brings in and refers to; fails exactly without a pod template or on a port out of range |
| Analysers.FindExternalNetworkAccess | internal/controller/analyse.go:346-378 | the ingresses and routes that lead to the service; panics exactly when some ingress rule has no HTTP section |
| Analysers.FindServiceMonitors | internal/controller/analyse.go:380-404 | the monitors that select the label |
| Analysers.AnalyseService | internal/controller/analyse.go:262-284 | for any order of the selector labels, everything the matching labels bring in |
| Analysers.ExtractNetworkResources | internal/controller/analyse.go:227-288 | the StatefulSet's service and whatever the services selecting the pod bring in; exact failures and panics |
| Analysers.FindScalers | internal/controller/analyse.go:406-423 | the autoscalers whose target is the workload |
| Analysers.AnalyseWorkload | internal/controller/analyse.go:29-66 | succeeds, fails or panics under exact conditions, and accounts for the workload |
| Closure.AnalysisIsExact | internal/controller/analyse.go:29-423 | a resource is bundled exactly when the declarative relation says the workload needs it, and none twice |
| Closure.ReferencesAreAccountedFor | internal/controller/analyse.go:69-342 | every reference is met in the bundle or listed as absent, never both, and nothing else is listed |
| Closure.AnalysisIgnoresOrder | internal/controller/analyse.go:262-284 | the order in which selector labels are visited does not change what is found |
| Closure.ConnectionsMean | internal/controller/analyse.go:186-220 | external connections are exactly the service references of the variables, and extraction fails exactly on a port out of range |
| Closure.AnalysableIff | internal/controller/analyse.go:29-66 | the analysis does not fail exactly when the namespace is the default one or given, the kind carries pods, and no port is too large |
| Closure.PanicsIff | internal/controller/analyse.go:227-288 | it panics exactly when some service selects the pod and some ingress has a rule without HTTP section |
| Bundles.GetBundle | internal/controller/bundle.go:40-47 | the first bundle of that name |
| Bundles.StoreBundle | internal/controller/bundle.go:116-129 | overwrites the bundle of that name in place or appends a new one |
| Bundles.BuildBundles | internal/controller/bundle.go:54-135 | misconfigured and successful under exact conditions; the bundles are those of the request |
| Bundles.UpsertAllNames | internal/controller/bundle.go:116-129 | bundle names are unique and are the names of the workloads |
| Bundling.BundleShape | internal/controller/bundle.go:102-131 | each bundle starts with a workload of its name, has no two equal members, and holds one workload only |
| Bundling.BundlesAreWellBundled | internal/controller/bundle.go:54-135 | in every mode names are unique, there is at least one bundle, and a bundle with references holds exactly one workload |
| Bundling.DistinctNamesKeepWorkloads | internal/controller/bundle.go:102-131 | with distinct workload names bundles and workloads correspond one to one, in order |
| Bundling.WorkloadsAreKeptIff | internal/controller/bundle.go:116-129 | no workload is lost if and only if workload names are distinct |
| Bundling.BundleRules | internal/controller/bundle.go:113-114 | the rules are the global filters followed by those of the last entry naming the workload, and the global ones alone where none does |
| Bundling.WholeRequestIsOneBundle | internal/controller/bundle.go:61-89 | without workload annotations there is one bundle of everything, with the global filters as rules, called "default" exactly when there are none |
| Bundling.BundleConnections | internal/controller/bundle.go:102-131 | the connections of a bundle are the services that variables of its workload refer to |
| Bundling.BundleAbsences | internal/controller/bundle.go:102-131 | what a bundle lists as absent is what its workload refers to and the bundle lacks |
| Bundling.BundleableIff | internal/controller/bundle.go:54-135 | bundling succeeds exactly when no global filter lacks its value, every workload entry is fine and every analysis goes through |
| Planning.GlobalFiltersHold | internal/controller/bundle.go:61-113 | every filter among the global annotations is a rule of every bundle of a plan by placement |
| Planning.OwnFiltersHold | internal/controller/bundle.go:110-113 | and every filter of the last entry for a workload is a rule of its bundle |
| Planning.PlanOfTarget | internal/controller/p2codeschedulingmanifest_controller.go:330-366 | with a target cluster there is one bundle of everything on that cluster, without rules |
| Bundling.OrphanWarningIsSound | internal/controller/p2codeschedulingmanifest_controller.go:609-613 | with distinct manifests, the warning implies that some manifest is in no bundle, though bundles may overlap |
| Bundling.WholeBundleWarning | internal/controller/bundle.go:63-89 | for one bundle of everything the warning appears if and only if two manifests describe one resource, and nothing is orphaned |
| Bundling.OrphanWarningIff | internal/controller/p2codeschedulingmanifest_controller.go:609-613 | in every mode, the warning appears if and only if repeated manifests and orphans outnumber repeated placements |
| Bundling.OrphanWarningIsTrueIff | internal/controller/p2codeschedulingmanifest_controller.go:609-613 | for distinct manifests, it coincides with there being an orphan if and only if there is none or the orphans outnumber repeated placements |
| Bundling.OrphanWarningWithoutSharing | internal/controller/p2codeschedulingmanifest_controller.go:609-613 | for distinct manifests and bundles that do not overlap, it appears exactly when there is an orphan |
| Bundling.NoSurplusIff | internal/controller/p2codeschedulingmanifest_controller.go:482-484 | the count repeats a placement exactly when bundles overlap |
| Bundling.OrphanIff | internal/controller/p2codeschedulingmanifest_controller.go:609-613 | told from the request: with distinct workload names a resource is an orphan exactly when it is no workload and no workload needs it |
| HiddenOrphan.SharedResourceHidesOrphan | internal/controller/p2codeschedulingmanifest_controller.go:609-613 | for a concrete list of manifests, however bundled, there is no warning and exactly one orphan |
| HiddenOrphan.HidingIsBundled | internal/controller/bundle.go:54-135 | that request is valid, and its resources can be bundled |
| HiddenOrphan.HidingIsPushed | internal/controller/p2codeschedulingmanifest_controller.go:218-505 | without faults and with satisfied placements every run pushes it, in bundles on which the warning fails |
| Namesakes.TwinIsLost | internal/controller/bundle.go:116-129 | every run without faults pushes a Deployment and a DaemonSet of one name with one of them in no bundle |
| Links.GetLink | internal/controller/network-connectivity.go:208-215 | the first link with the path of the connection, or -1 |
| Links.RegisterLinks | internal/controller/network-connectivity.go:57-79 | the loop over link objects computes the registration of the list, in place and with new links |
| Links.DeleteLinks | internal/controller/network-connectivity.go:96-109 | the loop over link objects computes the deletion of the list, with its slice removals |
| LinkTheory.RegisterRefines | internal/controller/network-connectivity.go:57-79 | keeps the registry well-formed and is insertion into the map, leaving every other entry |
| LinkTheory.DeleteRefines | internal/controller/network-connectivity.go:96-109 | keeps the registry well-formed and is removal of the keys, leaving every other entry |
| LinkTheory.DeletionStrips | internal/controller/network-connectivity.go:96-109 | closed form: what is left is the registry without those services and without links emptied by this, in its order |
| LinkTheory.RegisterThenDelete | internal/controller/network-connectivity.go:51-118 | deleting what was registered restores the registry exactly if and only if none of the pairs was there before |
| LinkTheory.SwapMeans | internal/controller/p2codeschedulingmanifest_controller.go:558-607 | swapping old for new connections, on the map |
| LinkTheory.RegisteredLinks | internal/controller/network-connectivity.go:51-88 | after a registration two locations are linked for a service exactly when they were or a connection from the one to the other asks for it |
| LinkTheory.RegisteredPorts | internal/controller/network-connectivity.go:51-88 | on the port they had, or else on the port of the first connection that asks |
| LinkTheory.DeletedLinks | internal/controller/network-connectivity.go:90-118 | after a deletion exactly the links that no connection asks for are left, on their ports |
| Connections.GetExternalService | internal/controller/network-connectivity.go:175-182 | the first service of that name in the bundle |
| Connections.BuildNetworkConnection | internal/controller/network-connectivity.go:145-173 | fails exactly with several workloads, panics exactly with none, and otherwise lists the bundle's connections in order |
| Connections.GetNetworkConnections | internal/controller/network-connectivity.go:33-49 | succeeds exactly when every bundle with references holds one workload; the list is the specified one |
| Connections.ConnectionsAreExact | internal/controller/network-connectivity.go:33-49 | a connection is listed exactly when a bundle refers to a service that another bundle carries elsewhere |
| HubState.SetStatusOk | internal/controller/status.go:24-38 | condition types stay unique and the state stays the type of a stored condition |
| HubState.SetStatusMeans | internal/controller/status.go:24-38 | the state and decisions given are stored, the condition is added, and no other condition is lost |
| HubState.GenerateManifestWork | internal/controller/p2codeschedulingmanifest_controller.go:838-887 | one manifest per resource in order, and a server-side option for each volume claim |
| HubState.ValidateManifestWorkApplied | internal/controller/p2codeschedulingmanifest_controller.go:889-904 | valid, not ready and failed under exact conditions |
| HubState.PassesIff | internal/controller/p2codeschedulingmanifest_controller.go:889-904 | a work passes exactly when something is reported of it and no condition of type Applied or Available is false |
| HubState.GetSchedulingDecisions | internal/controller/p2codeschedulingmanifest_controller.go:917-925 | name and cluster of every bundle, in order |
| Works.DeleteManifestWork | internal/controller/p2codeschedulingmanifest_controller.go:736-746 | removes the work; one that cannot be read is passed over |
| Works.CleanUpBundle | internal/controller/p2codeschedulingmanifest_controller.go:439-477 | removes the work of a recorded bundle exactly when it has moved or is gone |
| Works.WriteWork | internal/controller/p2codeschedulingmanifest_controller.go:486-504 | creates the work, or replaces its content and keeps its labels; fails only with a call |
| Works.WriteWorks | internal/controller/p2codeschedulingmanifest_controller.go:482-505 | writes the works of the bundles one by one and counts the placed manifests |
| Works.CheckApplied | internal/controller/p2codeschedulingmanifest_controller.go:507-546 | applied exactly when the owned works are as many as the bundles and all pass; why it waits or refuses |
| Works.DeleteOwnedWorks | internal/controller/p2codeschedulingmanifest_controller.go:721-734 | removes works of the owner only, and all of them when it succeeds |
| Works.CountGuardIsExact | internal/controller/p2codeschedulingmanifest_controller.go:507-518 | if the owner has as many works as there are bundles, these are the bundles' works, with their contents |
| Works.SharedKeysFallShort | internal/controller/p2codeschedulingmanifest_controller.go:482-505 | bundles that share a key have fewer keys than there are bundles |
| Namesakes.TargetOnItsClusterDoesNotSettle | internal/controller/p2codeschedulingmanifest_controller.go:445-478 | a manifest settles, is given the cluster of its workload of the same name as target, and cannot settle again |
| RunTheory.CollidingKeysDoNotSettle | internal/controller/p2codeschedulingmanifest_controller.go:507-518 | with nothing left over, the works are as many as the bundles exactly when no two bundles share a key, and only then can a run settle |
| Works.SurvivesIff | internal/controller/p2codeschedulingmanifest_controller.go:437-505 | which works there are after cleaning up and writing, exactly |
| Works.OwnedAfterEdits | internal/controller/p2codeschedulingmanifest_controller.go:437-505 | the owner's works then are the planned ones and its old ones that were not stale |
| Works.CleanUpIsComplete | internal/controller/p2codeschedulingmanifest_controller.go:437-477 | the work of a recorded bundle survives only if a new bundle has its key, or its name and cluster |
| Works.CleanUpIsHarmless | internal/controller/p2codeschedulingmanifest_controller.go:437-505 | works elsewhere are untouched and every new bundle has its work |
| Works.RenamedWorkIsPassedOver | internal/controller/p2codeschedulingmanifest_controller.go:443-455 | the exception is real: such a work is left, and the count guard then fails |
| Outcomes.PushedWorksSurvive | internal/controller/p2codeschedulingmanifest_controller.go:437-505 | which works there are after a push, told by names and clusters of recorded and planned bundles |
| RunTheory.RenamedWorkBlocksSettling | internal/controller/p2codeschedulingmanifest_controller.go:347-357 | a target cluster set to where the bundle of the manifest's own name already is keeps the run from settling |
| Planning.PlanResourceNames | internal/controller/p2codeschedulingmanifest_controller.go:355-355 | resource names are made from the name of the manifest and that of the target cluster or the bundle |
| Bundles.TruncateMeans | utils/utils.go:17-25 | names up to 63 characters stay as they are, and of a longer one the first 63 are kept, up to the hyphens at their end |
| Network.FetchNetworkLinks | internal/controller/network-connectivity.go:120-143 | reads the stored links, creating an empty registry where there is none |
| Network.RegisterNetworkLinks | internal/controller/network-connectivity.go:51-88 | stores the registration of the list, or leaves the stored links when a call fails |
| Network.DeleteNetworkLinks | internal/controller/network-connectivity.go:90-118 | stores the deletion of the list, or leaves the stored links when a call fails |
| Planning.PlaceBundles | internal/controller/p2codeschedulingmanifest_controller.go:378-426 | the first placement that is not satisfied decides; otherwise every bundle has its cluster |
| Planning.MakePlan | internal/controller/p2codeschedulingmanifest_controller.go:305-426 | plans exactly when nothing blocks the request, and names what does |
| Planning.PlansAreOk | internal/controller/network-connectivity.go:145-155 | in every list of bundles that is built, the single-workload error and the index panic cannot happen |
| Planning.OrphanWarningOnPlanIff | internal/controller/p2codeschedulingmanifest_controller.go:609-613 | the condition for the warning, on plans of either kind |
| Planning.OrphanWarningInOneBundle | internal/controller/p2codeschedulingmanifest_controller.go:609-613 | with a target cluster or without workload annotations the warning means two manifests for one resource |
| Reconciler.Reconciler.UpdateStatus | internal/controller/status.go:24-38 | sets condition, decisions and state together, or nothing when the call fails |
| Reconciler.Reconciler.Begin | internal/controller/p2codeschedulingmanifest_controller.go:94-150 | marks a run as in progress, turns other namespaces away and adds the finalizer |
| Reconciler.Reconciler.Preflight | internal/controller/p2codeschedulingmanifest_controller.go:218-326 | goes on exactly when annotations, target and cluster set are in order, and otherwise ends as the first fault says |
| Reconciler.Reconciler.Plan | internal/controller/p2codeschedulingmanifest_controller.go:328-435 | ends as the blocker says, or announces the decisions |
| Reconciler.Reconciler.EditWorks | internal/controller/p2codeschedulingmanifest_controller.go:437-505 | cleans up all recorded bundles before it writes any work |
| Reconciler.Reconciler.AwaitWorks | internal/controller/p2codeschedulingmanifest_controller.go:507-546 | goes on exactly when all owned works are applied, and says why not |
| Reconciler.Reconciler.Swap | internal/controller/p2codeschedulingmanifest_controller.go:551-607 | deletes the recorded connections, then registers those of the plan |
| Reconciler.Reconciler.Conclude | internal/controller/p2codeschedulingmanifest_controller.go:609-660 | tentative or successful, and recorded exactly when successful with nothing absent |
| Reconciler.Reconciler.CleanUpForDeletion | internal/controller/p2codeschedulingmanifest_controller.go:166-194 | forgets the record only when works and recorded connections are gone |
| Reconciler.Reconciler.Finalise | internal/controller/p2codeschedulingmanifest_controller.go:154-216 | the object goes only after a complete clean-up |
| Reconciler.Reconciler.Reconcile | internal/controller/p2codeschedulingmanifest_controller.go:83-660 | every run, in every environment, is in the relation `RunOk`, and keeps statuses well-formed |
| Outcomes.AdmittedIff | internal/controller/p2codeschedulingmanifest_controller.go:218-326 | admitted exactly when annotations are supported, a cluster set is named, the calls succeed, and the set exists, has clusters, is bound and contains the target |
| Outcomes.PushedIsAdmitted | internal/controller/p2codeschedulingmanifest_controller.go:218-326 | nothing is pushed for a cluster set that does not fit |
| Outcomes.UnfitClusterSetFails | internal/controller/p2codeschedulingmanifest_controller.go:243-326 | without faults such a set ends the run as failed, with works, links and record untouched |
| Outcomes.BadAnnotationsMisconfigure | internal/controller/p2codeschedulingmanifest_controller.go:218-241 | unsupported annotations, or none for the cluster set, end the run as misconfigured, with everything untouched |
| Outcomes.BadManifestMisconfigures | internal/controller/p2codeschedulingmanifest_controller.go:330-376 | and so does a manifest that is not valid |
| Outcomes.PlacementDecides | internal/controller/p2codeschedulingmanifest_controller.go:378-426 | the first placement that is not satisfied decides whether the run fails, waits or is in error |
| Outcomes.WaitingRunShowsDecisions | internal/controller/p2codeschedulingmanifest_controller.go:428-435 | a pushed run that waits or fails shows name and cluster of every bundle, or with a target cluster the decisions it began with |
| Outcomes.ConditionsStay | internal/controller/status.go:24-38 | no run takes a condition away |
| Outcomes.FinalisingKeepsState | internal/controller/status.go:40-52 | a manifest being deleted is not marked as in progress again |
| Outcomes.ForeignNamespace | internal/controller/p2codeschedulingmanifest_controller.go:112-128 | outside the operator's namespace a manifest is called misconfigured and gets no finalizer |
| Outcomes.LinksWaitForWorks | internal/controller/p2codeschedulingmanifest_controller.go:507-657 | registry and record change only when all planned works are written, are all there are, and pass |
| Outcomes.LinksGoAfterWorks | internal/controller/p2codeschedulingmanifest_controller.go:166-194 | a finalising run edits registry and record only when all works are gone |
| Outcomes.PushedCallsSucceed | internal/controller/p2codeschedulingmanifest_controller.go:437-607 | a pushed run without error has passed over no failing call but the reading of stale works |
| Outcomes.FinalisedCallsSucceed | internal/controller/p2codeschedulingmanifest_controller.go:154-216 | a completed finalisation has passed over no failing call |
| RunTheory.SettledRunIsExact | internal/controller/p2codeschedulingmanifest_controller.go:479-548 | a settled run leaves exactly the works of its plan, all passing, with the decisions to match |
| Outcomes.SettledWorkHolds | internal/controller/p2codeschedulingmanifest_controller.go:479-548 | under the resource name of every bundle, on its cluster, a work with its manifests in order, the option for its claims and a clean report |
| Outcomes.SettledWorksArePlanned | internal/controller/p2codeschedulingmanifest_controller.go:507-516 | and no other work of the manifest |
| Outcomes.RecordedIff | internal/controller/p2codeschedulingmanifest_controller.go:627-657 | recorded exactly when successful with no bundle missing anything |
| RunTheory.FaultlessRun | internal/controller/p2codeschedulingmanifest_controller.go:218-660 | without faults a run pushes its plan if and only if nothing stops it, and settles if and only if all works are applied |
| RunTheory.FaultlessRunSettlesIff | internal/controller/p2codeschedulingmanifest_controller.go:437-660 | whether it settles, told from the state before and the reports |
| RunTheory.SettledStateIs | internal/controller/p2codeschedulingmanifest_controller.go:581-660 | which of the three settled states it is |
| RunTheory.TentativeIff | internal/controller/p2codeschedulingmanifest_controller.go:609-625 | a settled run is tentative if and only if repeated manifests and orphans outnumber repeated placements |
| RunTheory.RunTouches | internal/controller/p2codeschedulingmanifest_controller.go:437-505 | which works a run can change, create or take over |
| RunTheory.AllOrNothing | internal/controller/p2codeschedulingmanifest_controller.go:378-426 | without a target cluster, a run touches nothing unless every placement is satisfied |
| RunTheory.EveryWorkloadIsPlaced | internal/controller/p2codeschedulingmanifest_controller.go:479-481 | a plan exists only if every workload of the request has a satisfied placement |
| Registry.PortsHeldIff | internal/controller/network-connectivity.go:51-88 | every connection is held with its port if and only if connections of one path and service agree in port |
| Registry.RunSwapsItsShare | internal/controller/p2codeschedulingmanifest_controller.go:558-607 | a run changes its own share of the registry and no other |
| Registry.SettledLinks | internal/controller/p2codeschedulingmanifest_controller.go:558-607 | after a settled run two locations are linked exactly as the plan asks, or as before where that is not recorded |
| Registry.SettledBundlesAreLinked | internal/controller/network-connectivity.go:145-182 | where a bundle refers to a service of another bundle elsewhere, a link runs from where the service is to where the workload is |
| Registry.InStepIff | internal/controller/p2codeschedulingmanifest_controller.go:558-657 | exactly when the owner is in step after a run |
| Registry.OthersKeepStep | internal/controller/p2codeschedulingmanifest_controller.go:558-657 | no run takes another owner out of step or brings it in step |
| Registry.TidyRunKeepsStep | internal/controller/p2codeschedulingmanifest_controller.go:558-657 | a run that changes links and record together or neither keeps its owner in step |
| Registry.UnrecordedRunKeepsStepIff | internal/controller/p2codeschedulingmanifest_controller.go:566-648 | wherever a run that does not record ends: if and only if it changed no connection or registered what is recorded |
| Registry.WarnedRunKeepsStepIff | internal/controller/p2codeschedulingmanifest_controller.go:609-648 | at the exits for orphaned and absent resources: if and only if the connections have not changed |
| Registry.UnreliableRunKeepsStep | internal/controller/p2codeschedulingmanifest_controller.go:585-597 | the exit for a missing network API changes neither links nor record |
| Registry.RecordingWithoutNetworkIff | internal/controller/p2codeschedulingmanifest_controller.go:566-657 | a run recorded without the API leaves the links: in step if and only if there were none |
| LinkedPair.PairIsPushed | internal/controller/p2codeschedulingmanifest_controller.go:218-505 | without faults and with satisfied placements every run pushes the request of two workloads with a connection |
| LinkedPair.MissingMapLosesRecord | internal/controller/p2codeschedulingmanifest_controller.go:599-648 | with a config map missing, a settled run on two clusters registers the link and does not record it |
| LinkedPair.RecordedWithoutNetworkLeavesLink | internal/controller/p2codeschedulingmanifest_controller.go:566-657 | moved to one cluster while the API is missing, the two are recorded and the link stays |
| LinkedPair.LinkOutlivesRestart | internal/controller/p2codeschedulingmanifest_controller.go:86-194 | recorded, restarted, deleted and finalised, the manifest is gone and the link is left |
| Registry.RecordedRunRestoresStepIff | internal/controller/p2codeschedulingmanifest_controller.go:558-657 | a recorded run brings its owner in step if and only if all its links are recorded or called for |
| Conversions.TwinFindings | internal/controller/analyse.go:29-423 | two analyses of a workload, among two conversions of the manifests, find the same manifests up to order, and the same absences and connections |
| Repeats.PlansAgree | internal/controller/p2codeschedulingmanifest_controller.go:305-426 | two plans for one request and the same placements agree in everything but the order of manifests within a bundle |
| Repeats.ConnectionsAlike | internal/controller/network-connectivity.go:145-197 | such plans call for the same connections, in the same order |
| Repeats.RepeatedRunChangesNothing | internal/controller/p2codeschedulingmanifest_controller.go:437-657 | a recorded run for the request of the record leaves the works, up to order, and the links as they are |
| Repeats.SecondRunChangesNothing | internal/controller/p2codeschedulingmanifest_controller.go:218-657 | of two runs one after the other the second changes no work, up to order, and no link |
| Registry.RestartKeepsStepIff | internal/controller/p2codeschedulingmanifest_controller.go:86-89 | a restart, which empties the record: if and only if the owner had nothing connected |
| Registry.ForgettingClearsIff | internal/controller/p2codeschedulingmanifest_controller.go:180-194 | finalising clears the owner's links if and only if the record covers them |
| Registry.ForgettingWithoutNetworkIff | internal/controller/p2codeschedulingmanifest_controller.go:180-194 | a record forgotten while the API is missing leaves every link: in step if and only if there was none |
| Registry.FinalisingWithoutRecordLeaksLinks | internal/controller/p2codeschedulingmanifest_controller.go:180-194 | without a record every link stays |
| RunTheory.FaultlessFinalising | internal/controller/p2codeschedulingmanifest_controller.go:154-216 | an attempt without faults completes the finalisation |
| RunTheory.FinalisingAgainChangesNothing | internal/controller/p2codeschedulingmanifest_controller.go:154-216 | attempts after the clean-up change nothing |
| Traces.StatusesStayOk | internal/controller/status.go:24-52 | in every reachable state, states and conditions agree and condition types are unique |
| Traces.NoSilentStall | internal/controller/p2codeschedulingmanifest_controller.go:106-659 | after a run that ended for good the manifest is not in progress until it is run again |
| Traces.NothingOutlivesTheFinalizer | internal/controller/p2codeschedulingmanifest_controller.go:154-216 | in every reachable state a manifest without finalizer has no work and no record |
| Traces.CleanedUpStaysSo | internal/controller/p2codeschedulingmanifest_controller.go:154-216 | what an attempt has cleaned up does not come back until the manifest is created anew, however many attempts follow |
| Traces.BaselineIsUntouched | internal/controller/network-connectivity.go:51-118 | over any history the registry stays well-formed and the entries of nobody stay as they were |
| Traces.OwnerStaysInStep | internal/controller/p2codeschedulingmanifest_controller.go:558-657 | an owner whose own runs are tidy stays in step, whatever the runs of others do |
| Traces.RegistryStaysInStep | internal/controller/p2codeschedulingmanifest_controller.go:558-657 | where all runs are tidy, registry and records stay in step as a whole |
| Traces.RecordedRunMakesGood | internal/controller/p2codeschedulingmanifest_controller.go:558-657 | after any number of failed runs, the first recorded one for the same connections brings its owner in step |
| Traces.RegistryIsBaselineAndRecords | internal/controller/network-connectivity.go:51-118 | entry by entry, the registry is the baseline and, for each owner whose own runs are tidy, its recorded connections |
| Traces.ForgottenLinksStayGone | internal/controller/p2codeschedulingmanifest_controller.go:180-194 | over any history, recorded connections that a finalising run has forgotten stay gone until the next push |
| Traces.FinalisationLeavesNoLinks | internal/controller/p2codeschedulingmanifest_controller.go:154-216 | through any failed attempts, a manifest without finalizer has none of the connections left that were recorded |
| Traces.NoLinkOutlivesTheFinalizer | internal/controller/p2codeschedulingmanifest_controller.go:180-194 | where its own runs were tidy, a manifest without finalizer has no link at all |
| Traces.EverythingStaysInPlace | internal/controller/p2codeschedulingmanifest_controller.go:437-505 | works keep the label that belongs to their key, over any history of runs that keep to their keys |
| Traces.SettledWorksStayExact | internal/controller/p2codeschedulingmanifest_controller.go:479-548 | after a settled run the works are exactly its plan until the next run of the same manifest |

## Left out

- Repeats.SecondRunChangesNothing: Services of one name are taken to be in one namespace, because what an analysis finds is
  specified up to order, and the namespace of a connection is that of the first Service of its name.
- JSON decoding and `extractPodTemplateSpec`: manifests are decoded records with one field per decoded part; a workload of
  a kind without a pod template is still an error.
- `membership.go`, `createPlacement`, `getAssociatedPlacement`, `getSelectedCluster`: each is an answer of the environment,
  which may also be a failure. Placement objects are not part of the state; `deletePlacement` is a call that may fail.
- The `default` and `global` update branches and `Bundle.update`: a run starts from an empty bundle list, so they are not
  reached.
- Reasons and messages of conditions, and the reasons for an unsatisfied placement (`extractFailedCondition`).
- The lists of supported API groups carry the groups and versions of the source, but kinds outside the model's
  enumeration are kept by name only.
- Edits of a manifest, and runs for other manifests, while a run is under way.
- Works that stay for a while after their deletion, and stale reads from a cache.
- Other finalizers on a manifest, and users who remove the operator's finalizer by hand.
- `BundleList` and the slices of links are sequences that are reassigned; sharing of one backing array between slices is
  not captured. Links and bundles themselves are objects.
- Status subfields that the operator never reads, logging, sleeps, watches, RBAC and leader election.
- `TruncateNameIfNeeded` on names that are not valid Kubernetes names.
- Progress over time: that a requeued manifest is run again is up to the controller runtime.
