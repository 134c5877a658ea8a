/**
 What runs do to the registry of network links that all manifests share, and when the registry agrees with what the
 operator remembers.
 */
module Registry {
  import opened Collections
  import opened Text
  import opened Bundles
  import opened Links
  import opened LinkTheory
  import opened Connections
  import opened HubState
  import opened Works
  import opened Reconciler
  import opened RunTheory

  // ----- Shares of the registry

  /** The connections as the map they register. */
  ghost function ConnectionMap(bundles: seq<BundleV>): map<NetKey, nat> { Inserted(map[], ConnectionsAmong(bundles)) }

  /** The entries of the registry at the keys that belong to `owner`; None is whoever else uses the registry. */
  ghost function Share(links: seq<LinkV>, home: NetKey -> Option<string>, owner: Option<string>): map<NetKey, nat>
  {
    Part(Meaning(links), home, owner)
  }

  /** The connections stay within the keys of their owner. */
  ghost predicate AtHome(cs: seq<Connection>, home: NetKey -> Option<string>, name: string)
  {
    forall k :: k in KeysOf(cs) ==> home(k) == Some(name)
  }

  /** Insertion looks at no entry but those with its own keys. */
  lemma {:induction false} InsertedShare(a: map<NetKey, nat>, b: map<NetKey, nat>, cs: seq<Connection>, k: NetKey)
    requires k in KeysOf(cs)
    requires forall j :: j in KeysOf(cs) ==> (j in a <==> j in b) && (j in a ==> a[j] == b[j])
    ensures k in Inserted(a, cs) && k in Inserted(b, cs) && Inserted(a, cs)[k] == Inserted(b, cs)[k]
  {
    InsertedKeys(a, cs);
    InsertedKeys(b, cs);
    var front := cs[..|cs| - 1];
    InsertedKeys(a, front);
    InsertedKeys(b, front);
    KeysOfSnoc(cs);
    if k in KeysOf(front) {
      InsertedShare(a, b, front, k);
    }
  }

  /** An entry that insertion adds has the port of the first connection with its key, whatever else the map holds. */
  lemma {:induction false} InsertedAfresh(m: map<NetKey, nat>, cs: seq<Connection>, k: NetKey)
    requires k in KeysOf(cs) && k !in m
    ensures k in Inserted(m, cs) && k in Inserted(map[], cs) && Inserted(m, cs)[k] == Inserted(map[], cs)[k]
  {
    var front := cs[..|cs| - 1];
    InsertedKeys(m, cs);
    InsertedKeys(map[], cs);
    InsertedKeys(m, front);
    InsertedKeys(map[], front);
    KeysOfSnoc(cs);
    if k in KeysOf(front) {
      InsertedAfresh(m, front, k);
    }
  }

  ghost function Part(m: map<NetKey, nat>, home: NetKey -> Option<string>, owner: Option<string>): map<NetKey, nat>
  {
    map k | k in m && home(k) == owner :: m[k]
  }

  lemma PartOfSwap(m: map<NetKey, nat>, dels: seq<Connection>, regs: seq<Connection>, home: NetKey -> Option<string>,
                   name: string, owner: Option<string>)
    requires AtHome(dels, home, name) && AtHome(regs, home, name)
    ensures Part(Inserted(m - KeysOf(dels), regs), home, owner)
         == if owner == Some(name) then Inserted(Part(m, home, owner) - KeysOf(dels), regs) else Part(m, home, owner)
  {
    var before := m - KeysOf(dels);
    InsertedKeys(before, regs);
    if owner == Some(name) {
      OwnPartOfInsertion(before, Part(m, home, owner) - KeysOf(dels), regs, home, name);
    }
  }

  lemma OwnPartOfInsertion(m: map<NetKey, nat>, own: map<NetKey, nat>, regs: seq<Connection>,
                           home: NetKey -> Option<string>, name: string)
    requires AtHome(regs, home, name) && own == Part(m, home, Some(name))
    ensures Part(Inserted(m, regs), home, Some(name)) == Inserted(own, regs)
  {
    InsertedKeys(m, regs);
    InsertedKeys(own, regs);
    forall k | k in KeysOf(regs) ensures k in Inserted(m, regs) && Inserted(m, regs)[k] == Inserted(own, regs)[k] {
      InsertedShare(m, own, regs, k);
    }
  }

  /** A swap of connections within one share: the share is swapped and the others stay as they are. */
  lemma SwapShares(links: seq<LinkV>, dels: seq<Connection>, regs: seq<Connection>, home: NetKey -> Option<string>,
                   name: string, owner: Option<string>)
    requires WellFormed(links) && AtHome(dels, home, name) && AtHome(regs, home, name)
    ensures var after := RegisterAll(DeleteAll(links, dels), regs);
            WellFormed(after)
            && Share(after, home, owner) == if owner == Some(name)
                                            then Inserted(Share(links, home, owner) - KeysOf(dels), regs)
                                            else Share(links, home, owner)
  {
    SwapMeans(links, dels, regs);
    PartOfSwap(Meaning(links), dels, regs, home, name, owner);
  }

  // ----- Ports

  /** Connections over one path to one service ask for one port. */
  predicate PortsAgree(cs: seq<Connection>)
  {
    forall i, j :: 0 <= i < j < |cs| && KeyOfConnection(cs[i]) == KeyOfConnection(cs[j]) ==>
                     cs[i].service.port == cs[j].service.port
  }

  predicate FirstOfKey(cs: seq<Connection>, i: nat)
    requires i < |cs|
  {
    forall j :: 0 <= j < i ==> KeyOfConnection(cs[j]) != KeyOfConnection(cs[i])
  }

  /** The first connection with its key gives the port. */
  lemma {:induction false} InsertedPort(cs: seq<Connection>, i: nat)
    requires i < |cs| && FirstOfKey(cs, i)
    ensures KeyOfConnection(cs[i]) in Inserted(map[], cs)
    ensures Inserted(map[], cs)[KeyOfConnection(cs[i])] == cs[i].service.port
  {
    var front := cs[..|cs| - 1];
    InsertedKeys(map[], front);
    if i < |front| {
      assert FirstOfKey(front, i);
      InsertedPort(front, i);
    } else {
      assert KeyOfConnection(cs[i]) !in KeysOf(front);
    }
  }

  lemma {:induction false} SomeFirstOfKey(cs: seq<Connection>, i: nat) returns (f: nat)
    requires i < |cs|
    ensures f <= i && FirstOfKey(cs, f) && KeyOfConnection(cs[f]) == KeyOfConnection(cs[i])
  {
    if j: nat :| j < i && KeyOfConnection(cs[j]) == KeyOfConnection(cs[i]) {
      f := SomeFirstOfKey(cs, j);
    } else {
      f := i;
    }
  }

  /** A connection is held with its own port. */
  ghost predicate HeldAsAsked(cs: seq<Connection>, i: nat)
    requires i < |cs|
  {
    var m := Inserted(map[], cs);
    KeyOfConnection(cs[i]) in m && m[KeyOfConnection(cs[i])] == cs[i].service.port
  }

  /** Registering keeps the first port it meets for a path and service: every connection is held with the port it asks
      for if and only if connections with one key agree in their ports. */
  lemma PortsHeldIff(cs: seq<Connection>)
    ensures (forall i :: 0 <= i < |cs| ==> HeldAsAsked(cs, i)) <==> PortsAgree(cs)
  {
    if PortsAgree(cs) {
      forall i | 0 <= i < |cs| ensures HeldAsAsked(cs, i) {
        var f := SomeFirstOfKey(cs, i);
        InsertedPort(cs, f);
      }
    }
    if forall i :: 0 <= i < |cs| ==> HeldAsAsked(cs, i) {
      forall i, j | 0 <= i < j < |cs| && KeyOfConnection(cs[i]) == KeyOfConnection(cs[j])
        ensures cs[i].service.port == cs[j].service.port
      {
        assert HeldAsAsked(cs, i) && HeldAsAsked(cs, j);
      }
    }
  }

  // ----- What a run does to them

  ghost predicate RecordsAtHome(record: map<string, seq<BundleV>>, home: NetKey -> Option<string>)
  {
    forall n :: n in record ==> AtHome(ConnectionsAmong(record[n]), home, n)
  }

  ghost predicate PlanAtHome(name: string, run: Run, home: NetKey -> Option<string>)
  {
    run.Pushed? ==> AtHome(ConnectionsAmong(run.plan), home, name)
  }

  function Deletions(run: Run): seq<Connection>
  {
    match run
    case Pushed(_, _, _, p) => p.dels
    case Finalised(_, dels, _) => dels
    case _ => []
  }

  function Registrations(run: Run): seq<Connection>
  {
    match run case Pushed(_, _, _, p) => p.regs case _ => []
  }

  /** What a run does to the registry and to the records. */
  ghost predicate Moves(pre: Snap, name: string, run: Run, post: Snap)
  {
    && LinksOf(post.network) == RegisterAll(DeleteAll(LinksOf(pre.network), Deletions(run)), Registrations(run))
    && (Deletions(run) == [] || Deletions(run) == ConnectionsAmong(RecordOf(pre.record, name)))
    && (Registrations(run) == []
        || (run.Pushed? && Registrations(run) == ConnectionsAmong(run.plan)
            && Deletions(run) == ConnectionsAmong(RecordOf(pre.record, name))))
    && post.record == match run
                      case Nothing => pre.record
                      case Stopped(_) => pre.record
                      case Pushed(_, _, plan, p) => if p.recorded then pre.record[name := plan] else pre.record
                      case Finalised(_, _, forgotten) => if forgotten then pre.record - {name} else pre.record
  }

  lemma RunMoves(pre: Snap, name: string, env: Env, res: RunResult, run: Run, post: Snap)
    requires RunOk(pre, name, env, res, run, post)
    ensures Moves(pre, name, run, post)
    ensures env.installed && run.Pushed? && run.progress.recorded ==>
              FullSwap(RecordOf(pre.record, name), run.plan, env, run.progress.dels, run.progress.regs)
    ensures env.installed && run.Finalised? && run.forgotten ==>
              run.dels == ConnectionsAmong(RecordOf(pre.record, name))
  {
  }

  lemma RecordAtHome(record: map<string, seq<BundleV>>, home: NetKey -> Option<string>, name: string)
    requires RecordsAtHome(record, home)
    ensures AtHome(ConnectionsAmong(RecordOf(record, name)), home, name)
  {
    NoConnectionsOfNoBundles();
  }

  /** The registry is well-formed, and what is recorded keeps to the keys of its owner. */
  ghost predicate Grounded(s: Snap, home: NetKey -> Option<string>)
  {
    WellFormed(LinksOf(s.network)) && RecordsAtHome(s.record, home)
  }

  /** A run swaps its own share and leaves every other share alone. */
  lemma RunSwapsItsShare(pre: Snap, name: string, run: Run, post: Snap, home: NetKey -> Option<string>,
                         owner: Option<string>)
    requires Moves(pre, name, run, post) && Grounded(pre, home) && PlanAtHome(name, run, home)
    ensures Grounded(post, home)
    ensures Share(LinksOf(post.network), home, owner)
         == if owner == Some(name)
            then Inserted(Share(LinksOf(pre.network), home, owner) - KeysOf(Deletions(run)), Registrations(run))
            else Share(LinksOf(pre.network), home, owner)
  {
    RecordAtHome(pre.record, home, name);
    RecordStaysAtHome(pre, name, run, post, home);
    SwapShares(LinksOf(pre.network), Deletions(run), Registrations(run), home, name, owner);
  }

  lemma RecordStaysAtHome(pre: Snap, name: string, run: Run, post: Snap, home: NetKey -> Option<string>)
    requires Moves(pre, name, run, post) && RecordsAtHome(pre.record, home) && PlanAtHome(name, run, home)
    ensures RecordsAtHome(post.record, home)
  {
  }

  /** A settled run with the network API has deleted the recorded connections and registered those of its plan. */
  lemma RegistersPlan(pre: Snap, name: string, env: Env, res: RunResult, run: Run, post: Snap)
    requires RunOk(pre, name, env, res, run, post) && SettledRun(name, res, post) && env.installed && run.Pushed?
    ensures LinksOf(post.network)
         == RegisterAll(DeleteAll(LinksOf(pre.network), Deletions(run)), ConnectionsAmong(run.plan))
    ensures Deletions(run) == ConnectionsAmong(RecordOf(pre.record, name))
  {
    RunMoves(pre, name, env, res, run, post);
    SettledStateIs(pre, name, env, res, run, post);
  }

  /** Told of the links: there is a link between two locations for a service if and only if the plan asks for it, or it
      was there and is not among what was recorded. */
  lemma SettledLinks(pre: Snap, name: string, env: Env, res: RunResult, run: Run, post: Snap, source: Location,
                     target: Location, service: string)
    requires RunOk(pre, name, env, res, run, post) && SettledRun(name, res, post) && env.installed && run.Pushed?
    requires WellFormed(LinksOf(pre.network))
    ensures LinkedByName(LinksOf(post.network), source, target, service) <==>
            SomeRuns(ConnectionsAmong(run.plan), source, target, service)
            || (LinkedByName(LinksOf(pre.network), source, target, service)
                && !SomeRuns(ConnectionsAmong(RecordOf(pre.record, name)), source, target, service))
  {
    RegistersPlan(pre, name, env, res, run, post);
    SwappedLinks(LinksOf(pre.network), Deletions(run), ConnectionsAmong(run.plan), source, target, service);
  }

  lemma SwappedLinks(links: seq<LinkV>, dels: seq<Connection>, regs: seq<Connection>, source: Location,
                     target: Location, service: string)
    requires WellFormed(links)
    ensures LinkedByName(RegisterAll(DeleteAll(links, dels), regs), source, target, service) <==>
            SomeRuns(regs, source, target, service)
            || (LinkedByName(links, source, target, service) && !SomeRuns(dels, source, target, service))
  {
    DeleteRefines(links, dels);
    RegisteredLinks(DeleteAll(links, dels), regs, source, target, service);
    LinkedByNameMeans(links, source, target, service);
    LinkedByNameMeans(DeleteAll(links, dels), source, target, service);
    SomeRunsMeans(dels, source, target, service);
  }

  lemma ConnectingRuns(plan: seq<BundleV>, b: BundleV, other: BundleV, c: Connection)
    requires b in plan && other in plan && Connects(c, b, other)
    ensures SomeRuns(ConnectionsAmong(plan), c.source, c.target, c.service.name)
  {
    ConnectionsAreExact(c, plan);
    var cs := ConnectionsAmong(plan);
    var i :| 0 <= i < |cs| && cs[i] == c;
    assert Runs(cs[i], c.source, c.target, c.service.name);
  }

  /** In particular, where a bundle refers to a service that another bundle carries elsewhere, a link runs from where
      the service is to where the workload is. */
  lemma SettledBundlesAreLinked(pre: Snap, name: string, env: Env, res: RunResult, run: Run, post: Snap, b: BundleV,
                                other: BundleV, c: Connection)
    requires RunOk(pre, name, env, res, run, post) && SettledRun(name, res, post) && env.installed && run.Pushed?
    requires WellFormed(LinksOf(pre.network)) && b in run.plan && other in run.plan && Connects(c, b, other)
    ensures LinkedByName(LinksOf(post.network), c.source, c.target, c.service.name)
  {
    ConnectingRuns(run.plan, b, other, c);
    SettledLinks(pre, name, env, res, run, post, c.source, c.target, c.service.name);
  }

  // ----- Registry and record in step

  /** An owner is in step when its share holds exactly the connections of its recorded bundles. */
  ghost predicate OwnerInStep(s: Snap, home: NetKey -> Option<string>, n: string)
  {
    Share(LinksOf(s.network), home, Some(n)) == ConnectionMap(RecordOf(s.record, n))
  }

  ghost predicate InStep(s: Snap, home: NetKey -> Option<string>) { forall n :: OwnerInStep(s, home, n) }

  /** No run of one owner takes another out of step, or brings it in step. */
  lemma OthersKeepStep(pre: Snap, name: string, run: Run, post: Snap, home: NetKey -> Option<string>, n: string)
    requires Moves(pre, name, run, post) && Grounded(pre, home) && PlanAtHome(name, run, home) && n != name
    ensures Grounded(post, home) && (OwnerInStep(post, home, n) <==> OwnerInStep(pre, home, n))
  {
    RunSwapsItsShare(pre, name, run, post, home, Some(n));
  }

  /** After a run its owner is in step if and only if the swap of its share gives what is recorded afterwards. */
  lemma InStepIff(pre: Snap, name: string, run: Run, post: Snap, home: NetKey -> Option<string>)
    requires Moves(pre, name, run, post) && Grounded(pre, home) && PlanAtHome(name, run, home)
    ensures Grounded(post, home)
    ensures OwnerInStep(post, home, name) <==>
            Inserted(Share(LinksOf(pre.network), home, Some(name)) - KeysOf(Deletions(run)), Registrations(run))
            == ConnectionMap(RecordOf(post.record, name))
  {
    RunSwapsItsShare(pre, name, run, post, home, Some(name));
  }

  lemma SwappingAll(before: seq<BundleV>, cs: seq<Connection>)
    ensures Inserted(ConnectionMap(before) - KeysOf(ConnectionsAmong(before)), cs) == Inserted(map[], cs)
  {
    InsertedKeys(map[], ConnectionsAmong(before));
    assert ConnectionMap(before) - KeysOf(ConnectionsAmong(before)) == map[];
  }

  lemma SwappingNothing(m: map<NetKey, nat>)
    ensures Inserted(m - KeysOf([]), []) == m
  {
    assert KeysOf([]) == {};
  }

  /** The run overwrites or forgets the record. */
  predicate ChangesRecord(run: Run)
  {
    (run.Pushed? && run.progress.recorded) || (run.Finalised? && run.forgotten)
  }

  /** A run is tidy when it changes registry and record together or neither: it changes the record only where the
      network API is installed, and connections only if it changes the record. */
  predicate Tidy(env: Env, run: Run)
  {
    if ChangesRecord(run) then env.installed else Deletions(run) == [] && Registrations(run) == []
  }

  /** Tidy runs keep their owner in step. */
  lemma TidyRunKeepsStep(pre: Snap, name: string, env: Env, res: RunResult, run: Run, post: Snap,
                         home: NetKey -> Option<string>)
    requires RunOk(pre, name, env, res, run, post) && Tidy(env, run)
    requires Grounded(pre, home) && PlanAtHome(name, run, home) && OwnerInStep(pre, home, name)
    ensures OwnerInStep(post, home, name)
  {
    RunMoves(pre, name, env, res, run, post);
    TidyMoveKeepsStep(pre, name, env, run, post, home);
  }

  lemma TidyMoveKeepsStep(pre: Snap, name: string, env: Env, run: Run, post: Snap, home: NetKey -> Option<string>)
    requires Moves(pre, name, run, post) && Tidy(env, run)
    requires run.Pushed? && run.progress.recorded ==>
               FullSwap(RecordOf(pre.record, name), run.plan, env, run.progress.dels, run.progress.regs)
    requires run.Finalised? && run.forgotten ==> run.dels == ConnectionsAmong(RecordOf(pre.record, name))
    requires Grounded(pre, home) && PlanAtHome(name, run, home) && OwnerInStep(pre, home, name)
    ensures OwnerInStep(post, home, name)
  {
    var before := RecordOf(pre.record, name);
    InStepIff(pre, name, run, post, home);
    NoConnectionsOfNoBundles();
    SwappingAll(before, Registrations(run));
    SwappingNothing(ConnectionMap(before));
  }

  /** A run that pushes its plan and does not record it, whether it fails on the way or settles at one of the exits
      that skip the record, keeps its owner in step if and only if it has not changed any connection, or what it has
      registered in the end is what is recorded already. */
  lemma UnrecordedRunKeepsStepIff(pre: Snap, name: string, env: Env, res: RunResult, run: Run, post: Snap,
                                  home: NetKey -> Option<string>)
    requires RunOk(pre, name, env, res, run, post) && run.Pushed? && !run.progress.recorded
    requires Grounded(pre, home) && PlanAtHome(name, run, home) && OwnerInStep(pre, home, name)
    ensures OwnerInStep(post, home, name) <==>
            (Deletions(run) == [] && Registrations(run) == [])
            || Inserted(map[], Registrations(run)) == ConnectionMap(RecordOf(pre.record, name))
  {
    var before := RecordOf(pre.record, name);
    RunMoves(pre, name, env, res, run, post);
    InStepIff(pre, name, run, post, home);
    SwappingAll(before, Registrations(run));
    SwappingNothing(ConnectionMap(before));
  }

  /** At the exits of a settled run with the network API, because of orphaned manifests or absent resources, that is: if
      and only if the connections of the plan are those recorded already. */
  lemma WarnedRunKeepsStepIff(pre: Snap, name: string, env: Env, res: RunResult, run: Run, post: Snap,
                              home: NetKey -> Option<string>)
    requires RunOk(pre, name, env, res, run, post) && SettledRun(name, res, post) && env.installed
    requires run.Pushed? && !run.progress.recorded
    requires Grounded(pre, home) && PlanAtHome(name, run, home) && OwnerInStep(pre, home, name)
    ensures OwnerInStep(post, home, name) <==> ConnectionMap(run.plan) == ConnectionMap(RecordOf(pre.record, name))
  {
    RunMoves(pre, name, env, res, run, post);
    InStepIff(pre, name, run, post, home);
    SwappingAll(RecordOf(pre.record, name), ConnectionsAmong(run.plan));
  }

  /** The exit for a missing network API changes neither registry nor record, and so keeps everyone's step. */
  lemma UnreliableRunKeepsStep(pre: Snap, name: string, env: Env, res: RunResult, run: Run, post: Snap,
                               home: NetKey -> Option<string>, n: string)
    requires RunOk(pre, name, env, res, run, post) && SettledRun(name, res, post)
    requires post.objects[name].status.state == Some(UnreliablyScheduled)
    ensures LinksOf(post.network) == LinksOf(pre.network) && post.record == pre.record
    ensures OwnerInStep(post, home, n) <==> OwnerInStep(pre, home, n)
  {
    SettledStateIs(pre, name, env, res, run, post);
  }

  /** A run that records its plan although the network API is missing leaves all links where they are, and so its
      owner is in step afterwards if and only if it had no links. */
  lemma RecordingWithoutNetworkIff(pre: Snap, name: string, env: Env, res: RunResult, run: Run, post: Snap,
                                   home: NetKey -> Option<string>)
    requires RunOk(pre, name, env, res, run, post) && run.Pushed? && run.progress.recorded && !env.installed
    ensures LinksOf(post.network) == LinksOf(pre.network)
    ensures OwnerInStep(post, home, name) <==> Share(LinksOf(pre.network), home, Some(name)) == map[]
  {
    assert ConnectionsAmong(run.plan) == [];
  }

  /** A restart of the operator, which forgets all records, keeps an owner in step only if it had nothing connected. */
  lemma RestartKeepsStepIff(s: Snap, home: NetKey -> Option<string>, n: string)
    requires OwnerInStep(s, home, n)
    ensures OwnerInStep(s.(record := map[]), home, n) <==> ConnectionMap(RecordOf(s.record, n)) == map[]
  {
    NoConnectionsOfNoBundles();
  }

  // ----- Failed swaps and retries

  /** Every entry of the share either belongs to the recorded connections, so that the next swap removes it, or is an
      entry that the connections `cs` call for. */
  ghost predicate Recoverable(share: map<NetKey, nat>, recorded: seq<Connection>, cs: seq<Connection>)
  {
    forall k :: k in share ==>
      k in KeysOf(recorded) || (k in Inserted(map[], cs) && share[k] == Inserted(map[], cs)[k])
  }

  /** Swapping the recorded connections for `cs` gives exactly the connections `cs` if and only if the share is
      recoverable. */
  lemma FullSwapGivesIff(share: map<NetKey, nat>, recorded: seq<Connection>, cs: seq<Connection>)
    ensures Inserted(share - KeysOf(recorded), cs) == Inserted(map[], cs) <==> Recoverable(share, recorded, cs)
  {
    var rest, goal := share - KeysOf(recorded), Inserted(map[], cs);
    InsertedKeys(rest, cs);
    InsertedKeys(map[], cs);
    forall k | k in KeysOf(cs) && k !in rest ensures k in Inserted(rest, cs) && Inserted(rest, cs)[k] == goal[k] {
      InsertedAfresh(rest, cs, k);
    }
    if Inserted(rest, cs) == goal {
      forall k | k in share && k !in KeysOf(recorded) ensures k in goal && share[k] == goal[k] {
        assert k in rest && Inserted(rest, cs)[k] == rest[k];
      }
    }
  }

  /** A recorded run with the network API brings its owner in step if and only if the share was recoverable, whatever
      had happened before. */
  lemma RecordedRunRestoresStepIff(pre: Snap, name: string, env: Env, res: RunResult, run: Run, post: Snap,
                                   home: NetKey -> Option<string>)
    requires RunOk(pre, name, env, res, run, post) && run.Pushed? && run.progress.recorded && env.installed
    requires Grounded(pre, home) && PlanAtHome(name, run, home)
    ensures OwnerInStep(post, home, name) <==>
            Recoverable(Share(LinksOf(pre.network), home, Some(name)), ConnectionsAmong(RecordOf(pre.record, name)),
                        ConnectionsAmong(run.plan))
  {
    RunMoves(pre, name, env, res, run, post);
    InStepIff(pre, name, run, post, home);
    FullSwapGivesIff(Share(LinksOf(pre.network), home, Some(name)), ConnectionsAmong(RecordOf(pre.record, name)),
                     ConnectionsAmong(run.plan));
  }

  /** What is in step can be recovered from. */
  lemma InStepIsRecoverable(s: Snap, home: NetKey -> Option<string>, name: string, cs: seq<Connection>)
    requires OwnerInStep(s, home, name)
    ensures Recoverable(Share(LinksOf(s.network), home, Some(name)), ConnectionsAmong(RecordOf(s.record, name)), cs)
  {
    InsertedKeys(map[], ConnectionsAmong(RecordOf(s.record, name)));
  }

  /** A run of the owner that does not reach the record; if it pushes a plan, that calls for the connections `cs`. */
  ghost predicate Retries(run: Run, cs: seq<Connection>)
  {
    !ChangesRecord(run) && (run.Pushed? ==> ConnectionsAmong(run.plan) == cs)
  }

  /** Wherever such a run ends, its share stays recoverable. */
  lemma FailedRunStaysRecoverable(pre: Snap, name: string, run: Run, post: Snap, home: NetKey -> Option<string>,
                                  cs: seq<Connection>)
    requires Moves(pre, name, run, post) && Retries(run, cs) && Grounded(pre, home) && PlanAtHome(name, run, home)
    requires Recoverable(Share(LinksOf(pre.network), home, Some(name)), ConnectionsAmong(RecordOf(pre.record, name)),
                         cs)
    ensures RecordOf(post.record, name) == RecordOf(pre.record, name)
    ensures Recoverable(Share(LinksOf(post.network), home, Some(name)), ConnectionsAmong(RecordOf(post.record, name)),
                        cs)
  {
    var share, recorded := Share(LinksOf(pre.network), home, Some(name)), ConnectionsAmong(RecordOf(pre.record, name));
    RunSwapsItsShare(pre, name, run, post, home, Some(name));
    InsertedKeys(share - KeysOf(Deletions(run)), Registrations(run));
    if Registrations(run) != [] {
      FullSwapGivesIff(share, recorded, cs);
    }
  }

  /** A recorded run whose plan calls for the recorded connections changes no entry of the registry. */
  lemma RunAgainKeepsLinks(pre: Snap, name: string, env: Env, res: RunResult, run: Run, post: Snap,
                           home: NetKey -> Option<string>)
    requires RunOk(pre, name, env, res, run, post) && run.Pushed? && run.progress.recorded
    requires ConnectionsAmong(RecordOf(pre.record, name)) == ConnectionsAmong(run.plan)
    requires Grounded(pre, home) && PlanAtHome(name, run, home) && OwnerInStep(pre, home, name)
    ensures Meaning(LinksOf(post.network)) == Meaning(LinksOf(pre.network))
    ensures OwnerInStep(post, home, name)
  {
    var links, cs := LinksOf(pre.network), ConnectionsAmong(run.plan);
    RunMoves(pre, name, env, res, run, post);
    InStepIff(pre, name, run, post, home);
    SwapMeans(links, Deletions(run), Registrations(run));
    RecordAtHome(pre.record, home, name);
    SwappingNothing(Meaning(links));
    SwappingNothing(ConnectionMap(RecordOf(pre.record, name)));
    if Deletions(run) == cs && Registrations(run) == cs {
      SwappingTheSame(Meaning(links), cs, home, name);
      SwappingAll(RecordOf(pre.record, name), cs);
    }
  }

  /** A recorded run whose plan calls for what is there already changes no work, no entry of the registry and no
      recorded connection. */
  lemma RunAgainChangesNothing(pre: Snap, name: string, env: Env, res: RunResult, run: Run, post: Snap,
                               home: NetKey -> Option<string>)
    requires RunOk(pre, name, env, res, run, post) && run.Pushed? && run.progress.recorded
    requires SamePlan(RecordOf(pre.record, name), run.plan, Truncate(name))
    requires WorksAreExactly(pre.works, RecordOf(pre.record, name), Truncate(name))
    requires Grounded(pre, home) && PlanAtHome(name, run, home) && OwnerInStep(pre, home, name)
    ensures post.works == pre.works
    ensures Meaning(LinksOf(post.network)) == Meaning(LinksOf(pre.network))
    ensures OwnerInStep(post, home, name)
  {
    RunAgainKeepsWorks(pre, name, env, res, run, post);
    RunAgainKeepsLinks(pre, name, env, res, run, post, home);
  }

  /** Entries that are removed and inserted again come back with their ports. */
  lemma SwappingTheSame(m: map<NetKey, nat>, cs: seq<Connection>, home: NetKey -> Option<string>, name: string)
    requires AtHome(cs, home, name) && Part(m, home, Some(name)) == Inserted(map[], cs)
    ensures Inserted(m - KeysOf(cs), cs) == m
  {
    InsertedKeys(map[], cs);
    InsertedKeys(m - KeysOf(cs), cs);
    forall k | k in KeysOf(cs) ensures k in m && Inserted(m - KeysOf(cs), cs)[k] == m[k] {
      InsertedAfresh(m - KeysOf(cs), cs, k);
      assert k in Part(m, home, Some(name));
    }
  }

  // ----- Finalising

  /** A run that forgets the record with the registry installed clears its owner's share if and only if the recorded
      connections cover that share. */
  lemma ForgettingClearsIff(pre: Snap, name: string, env: Env, res: RunResult, run: Run, post: Snap,
                            home: NetKey -> Option<string>)
    requires RunOk(pre, name, env, res, run, post) && run.Finalised? && run.forgotten && env.installed
    requires Grounded(pre, home)
    ensures Share(LinksOf(post.network), home, Some(name)) == map[] <==>
            Share(LinksOf(pre.network), home, Some(name)).Keys <= KeysOf(ConnectionsAmong(RecordOf(pre.record, name)))
  {
    RunMoves(pre, name, env, res, run, post);
    RunSwapsItsShare(pre, name, run, post, home, Some(name));
    EmptiedIff(Share(LinksOf(pre.network), home, Some(name)), KeysOf(ConnectionsAmong(RecordOf(pre.record, name))));
  }

  /** A run that forgets the record while the network API is missing leaves every link: its owner is in step afterwards
      if and only if it had no link, and, where it was in step, a recorded connection is left if and only if there was
      one. */
  lemma ForgettingWithoutNetworkIff(pre: Snap, name: string, env: Env, res: RunResult, run: Run, post: Snap,
                                    home: NetKey -> Option<string>)
    requires RunOk(pre, name, env, res, run, post) && run.Finalised? && run.forgotten && !env.installed
    ensures LinksOf(post.network) == LinksOf(pre.network)
    ensures OwnerInStep(post, home, name) <==> Share(LinksOf(pre.network), home, Some(name)) == map[]
    ensures OwnerInStep(pre, home, name) ==>
              var cs := ConnectionsAmong(RecordOf(pre.record, name));
              (Share(LinksOf(post.network), home, Some(name)).Keys !! KeysOf(cs) <==> cs == [])
  {
    var cs := ConnectionsAmong(RecordOf(pre.record, name));
    NoConnectionsOfNoBundles();
    InsertedKeys(map[], cs);
    if cs != [] {
      assert KeyOfConnection(cs[0]) in KeysOf(cs);
    }
  }

  lemma EmptiedIff(m: map<NetKey, nat>, ks: set<NetKey>)
    ensures m - ks == map[] <==> m.Keys <= ks
  {
    if !(m.Keys <= ks) {
      var k :| k in m && k !in ks;
      assert k in m - ks;
    }
  }

  /** So after a restart, when nothing is recorded, finalising leaves every link in place. */
  lemma FinalisingWithoutRecordLeaksLinks(pre: Snap, name: string, env: Env, res: RunResult, run: Run, post: Snap)
    requires RunOk(pre, name, env, res, run, post) && run.Finalised? && name !in pre.record
    ensures LinksOf(post.network) == LinksOf(pre.network)
  {
    NoConnectionsOfNoBundles();
  }
}
