/**
 What the registry of links means: a map from path and service name to port. Registering inserts, deleting removes, and
 the two undo each other down to the order of links and of services.
 */
module LinkTheory {
  import opened Collections
  import opened Text
  import opened Links

  // ----- The invariant and the meaning

  predicate DistinctServices(services: seq<ServicePort>)
  {
    forall i, j :: 0 <= i < j < |services| ==> services[i].name != services[j].name
  }

  predicate WellFormedLink(link: LinkV) { link.services != [] && DistinctServices(link.services) }

  /** Links are distinct by path, each carries a service, and services are distinct by name within a link. */
  predicate WellFormed(links: seq<LinkV>)
  {
    (forall i, j :: 0 <= i < j < |links| ==> links[i].path != links[j].path)
    && forall i :: 0 <= i < |links| ==> WellFormedLink(links[i])
  }

  /** The port under which the registry connects a service over a path. */
  function Lookup(links: seq<LinkV>, k: NetKey): Option<nat>
  {
    var i := LinkAt(links, k.path);
    if i == |links| then None
    else
      var j := ServiceAt(links[i].services, k.service);
      if j == |links[i].services| then None else Some(links[i].services[j].port)
  }

  ghost function LinkKeys(link: LinkV): set<NetKey>
  {
    set j | 0 <= j < |link.services| :: NetKey(link.path, link.services[j].name)
  }

  ghost function Keys(links: seq<LinkV>): set<NetKey>
  {
    set i, k | 0 <= i < |links| && k in LinkKeys(links[i]) :: k
  }

  ghost function Meaning(links: seq<LinkV>): map<NetKey, nat>
  {
    map k | k in Keys(links) && Lookup(links, k).Some? :: Lookup(links, k).value
  }

  lemma LookupFindsKeys(links: seq<LinkV>, k: NetKey)
    requires WellFormed(links)
    ensures Lookup(links, k).Some? <==> k in Keys(links)
  {
    var i := LinkAt(links, k.path);
    if i < |links| {
      var j := ServiceAt(links[i].services, k.service);
      if j < |links[i].services| {
        assert k in LinkKeys(links[i]);
      }
    }
    if k in Keys(links) {
      var m :| 0 <= m < |links| && k in LinkKeys(links[m]);
      assert m == i;
    }
  }

  lemma MeaningIs(links: seq<LinkV>, k: NetKey)
    requires WellFormed(links)
    ensures k in Meaning(links) <==> Lookup(links, k).Some?
    ensures k in Meaning(links) ==> Meaning(links)[k] == Lookup(links, k).value
  {
    LookupFindsKeys(links, k);
  }

  // ----- One registration, one deletion

  lemma RegisterStep(links: seq<LinkV>, c: Connection)
    requires WellFormed(links)
    ensures WellFormed(Register(links, c))
  {
    var i := LinkAt(links, PathOf(c));
    var after := Register(links, c);
    if i == |links| {
      assert WellFormedLink(after[i]);
    } else if after != links {
      assert WellFormedLink(links[i]);
      assert WellFormedLink(after[i]);
    }
  }

  lemma RegisterLookup(links: seq<LinkV>, c: Connection, k: NetKey)
    requires WellFormed(links)
    ensures Lookup(Register(links, c), k)
         == if k == KeyOfConnection(c) && Lookup(links, k).None? then Some(c.service.port) else Lookup(links, k)
  {
    var i, after := LinkAt(links, PathOf(c)), Register(links, c);
    var m, n := LinkAt(links, k.path), LinkAt(after, k.path);
    if i == |links| {
      assert after[|links|] == LinkV(PathOf(c), [c.service]);
      assert forall j :: 0 <= j < |links| ==> after[j] == links[j];
      assert n == if k.path == PathOf(c) then |links| else if m == |links| then |after| else m;
    } else if after != links {
      assert forall j :: 0 <= j < |links| ==> after[j].path == links[j].path;
      assert n == m;
      if n == i {
        AppendedService(links[i].services, c.service, k.service);
      }
    }
  }

  lemma AppendedService(services: seq<ServicePort>, s: ServicePort, name: string)
    ensures ServiceAt(services + [s], name)
         == if ServiceAt(services, name) < |services| then ServiceAt(services, name)
            else if s.name == name then |services| else |services| + 1
  {
    var all, j := services + [s], ServiceAt(services, name);
    assert all[|services|] == s && forall k :: 0 <= k < |services| ==> all[k] == services[k];
    assert j < |services| ==> all[j].name == name;
  }

  lemma DeleteStep(links: seq<LinkV>, c: Connection)
    requires WellFormed(links)
    ensures WellFormed(Delete(links, c))
  {
    var i := LinkAt(links, PathOf(c));
    if i < |links| {
      var services := links[i].services;
      var k := ServiceAt(services, c.service.name);
      assert WellFormedLink(links[i]);
      if k < |services| && |services| == 1 {
        assert forall j :: 0 <= j < |links| - 1 ==> Without(links, i)[j] == links[if j < i then j else j + 1];
      } else if k < |services| {
        assert forall j :: 0 <= j < |services| - 1 ==> Without(services, k)[j] == services[if j < k then j else j + 1];
        assert WellFormedLink(Delete(links, c)[i]);
      }
    }
  }

  lemma DeleteLookup(links: seq<LinkV>, c: Connection, k: NetKey)
    requires WellFormed(links)
    ensures Lookup(Delete(links, c), k) == if k == KeyOfConnection(c) then None else Lookup(links, k)
  {
    var i, after := LinkAt(links, PathOf(c)), Delete(links, c);
    if i < |links| {
      var services := links[i].services;
      var s := ServiceAt(services, c.service.name);
      assert WellFormedLink(links[i]);
      if s < |services| && |services| == 1 {
        DroppedLink(links, i, k);
        assert k.path == PathOf(c) && k != KeyOfConnection(c) ==> Lookup(links, k).None?;
      } else if s < |services| {
        assert forall j :: 0 <= j < |links| ==> after[j].path == links[j].path;
        assert LinkAt(after, k.path) == LinkAt(links, k.path);
        if k.path == PathOf(c) {
          DroppedService(services, s, k.service);
        }
      }
    }
  }

  lemma DroppedLink(links: seq<LinkV>, i: nat, k: NetKey)
    requires WellFormed(links) && i < |links|
    ensures Lookup(Without(links, i), k) == if k.path == links[i].path then None else Lookup(links, k)
  {
    var after, m := Without(links, i), LinkAt(links, k.path);
    assert forall j :: 0 <= j < |after| ==> after[j] == links[if j < i then j else j + 1];
    if k.path == links[i].path {
      assert m == i;
      assert LinkAt(after, k.path) == |after|;
    } else {
      assert m < |links| ==> after[if m < i then m else m - 1] == links[m];
    }
  }

  lemma DroppedService(services: seq<ServicePort>, i: nat, name: string)
    requires DistinctServices(services) && i < |services|
    ensures var after := Without(services, i);
            var j, m := ServiceAt(after, name), ServiceAt(services, name);
            if name == services[i].name then j == |after|
            else if m == |services| then j == |after| else j < |after| && after[j] == services[m]
  {
    var after, m, j := Without(services, i), ServiceAt(services, name), ServiceAt(Without(services, i), name);
    if name != services[i].name && m < |services| {
      assert after[if m < i then m else m - 1] == services[m];
    }
    if j < |after| {
      assert after[j] == services[if j < i then j else j + 1];
    }
  }

  // ----- Whole lists of connections

  ghost function KeysOf(cs: seq<Connection>): set<NetKey> { set i | 0 <= i < |cs| :: KeyOfConnection(cs[i]) }

  lemma KeysOfSnoc(cs: seq<Connection>)
    requires cs != []
    ensures KeysOf(cs) == KeysOf(cs[..|cs| - 1]) + {KeyOfConnection(cs[|cs| - 1])}
  {
    var front := cs[..|cs| - 1];
    assert forall i :: 0 <= i < |front| ==> front[i] == cs[i];
  }

  /** What registering `cs` does to a map: each pair is inserted unless its key is there already. */
  ghost function Inserted(m: map<NetKey, nat>, cs: seq<Connection>): map<NetKey, nat>
  {
    if cs == [] then m else InsertedOne(Inserted(m, cs[..|cs| - 1]), cs[|cs| - 1])
  }

  ghost function InsertedOne(m: map<NetKey, nat>, c: Connection): map<NetKey, nat>
  {
    if KeyOfConnection(c) in m then m else m[KeyOfConnection(c) := c.service.port]
  }

  /** The registry refines the map: registering is insertion, and every other entry keeps its port. */
  lemma {:induction false} RegisterRefines(links: seq<LinkV>, cs: seq<Connection>)
    requires WellFormed(links)
    ensures WellFormed(RegisterAll(links, cs))
    ensures Meaning(RegisterAll(links, cs)) == Inserted(Meaning(links), cs)
  {
    if cs != [] {
      var before, c := RegisterAll(links, cs[..|cs| - 1]), cs[|cs| - 1];
      RegisterRefines(links, cs[..|cs| - 1]);
      MeaningOfRegister(before, c);
    }
  }

  lemma MeaningOfRegisterAt(links: seq<LinkV>, c: Connection, k: NetKey)
    requires WellFormed(links)
    ensures k in Meaning(Register(links, c)) <==> k in Meaning(links) || k == KeyOfConnection(c)
    ensures k in Meaning(links) ==> Meaning(Register(links, c))[k] == Meaning(links)[k]
    ensures k == KeyOfConnection(c) && k !in Meaning(links) ==> Meaning(Register(links, c))[k] == c.service.port
  {
    RegisterStep(links, c);
    RegisterLookup(links, c, k);
    MeaningIs(links, k);
    MeaningIs(Register(links, c), k);
  }

  lemma MeaningOfRegister(links: seq<LinkV>, c: Connection)
    requires WellFormed(links)
    ensures WellFormed(Register(links, c))
    ensures Meaning(Register(links, c)) == InsertedOne(Meaning(links), c)
  {
    RegisterStep(links, c);
    var m, n := Meaning(Register(links, c)), InsertedOne(Meaning(links), c);
    forall k: NetKey | true ensures (k in m <==> k in n) && (k in m ==> m[k] == n[k]) {
      MeaningOfRegisterAt(links, c, k);
    }
    SameMap(m, n);
  }

  lemma SameMap<K, V>(m: map<K, V>, n: map<K, V>)
    requires forall k :: (k in m <==> k in n) && (k in m ==> m[k] == n[k])
    ensures m == n
  {
  }

  /** Deleting is removal of the keys, and every other entry keeps its port. */
  lemma {:induction false} DeleteRefines(links: seq<LinkV>, cs: seq<Connection>)
    requires WellFormed(links)
    ensures WellFormed(DeleteAll(links, cs))
    ensures Meaning(DeleteAll(links, cs)) == Meaning(links) - KeysOf(cs)
  {
    if cs != [] {
      var before, c := DeleteAll(links, cs[..|cs| - 1]), cs[|cs| - 1];
      DeleteRefines(links, cs[..|cs| - 1]);
      MeaningOfDelete(before, c);
      KeysOfSnoc(cs);
      RemoveMore(Meaning(links), KeysOf(cs[..|cs| - 1]), KeyOfConnection(c));
    }
  }

  lemma MeaningOfDelete(links: seq<LinkV>, c: Connection)
    requires WellFormed(links)
    ensures WellFormed(Delete(links, c)) && Meaning(Delete(links, c)) == Meaning(links) - {KeyOfConnection(c)}
  {
    DeleteStep(links, c);
    forall k: NetKey | true
      ensures k in Meaning(Delete(links, c)) <==> k in Meaning(links) && k != KeyOfConnection(c)
      ensures k in Meaning(Delete(links, c)) ==> Meaning(Delete(links, c))[k] == Meaning(links)[k]
    {
      MeaningOfDeleteAt(links, c, k);
    }
  }

  lemma MeaningOfDeleteAt(links: seq<LinkV>, c: Connection, k: NetKey)
    requires WellFormed(links)
    ensures k in Meaning(Delete(links, c)) <==> k in Meaning(links) && k != KeyOfConnection(c)
    ensures k in Meaning(Delete(links, c)) ==> Meaning(Delete(links, c))[k] == Meaning(links)[k]
  {
    DeleteStep(links, c);
    DeleteLookup(links, c, k);
    MeaningIs(links, k);
    MeaningIs(Delete(links, c), k);
  }

  lemma RemoveMore<V>(m: map<NetKey, V>, ks: set<NetKey>, k: NetKey)
    ensures m - ks - {k} == m - (ks + {k})
  {
  }

  lemma MeaningKeys(links: seq<LinkV>)
    requires WellFormed(links)
    ensures Meaning(links).Keys == Keys(links)
  {
    forall k: NetKey | true ensures k in Meaning(links) <==> k in Keys(links) {
      MeaningIs(links, k);
      LookupFindsKeys(links, k);
    }
  }

  // ----- Undoing: the closed form of deletion

  function Outside(path: Path, ks: set<NetKey>): ServicePort -> bool
  {
    (s: ServicePort) => NetKey(path, s.name) !in ks
  }

  function StrippedLink(ks: set<NetKey>): LinkV -> seq<LinkV>
  {
    (link: LinkV) =>
      var rest := Filter(Outside(link.path, ks), link.services);
      if rest == [] then [] else [LinkV(link.path, rest)]
  }

  /** The registry without the services of the keys `ks`, and without the links that this leaves empty; all else in
      place. */
  function Stripped(links: seq<LinkV>, ks: set<NetKey>): seq<LinkV> { FlatMap(StrippedLink(ks), links) }

  lemma {:induction false} StrippingNothing(links: seq<LinkV>, ks: set<NetKey>)
    requires (forall i :: 0 <= i < |links| ==> links[i].services != [] && LinkKeys(links[i]) !! ks)
    ensures Stripped(links, ks) == links
  {
    if links != [] {
      var front, last := links[..|links| - 1], links[|links| - 1];
      StrippingNothing(front, ks);
      forall j | 0 <= j < |last.services| ensures Outside(last.path, ks)(last.services[j]) {
        assert NetKey(last.path, last.services[j].name) in LinkKeys(last);
      }
      FilterAll(Outside(last.path, ks), last.services);
      Unsnoc(links);
    }
  }

  lemma StrippingNoKeys(links: seq<LinkV>, ks: set<NetKey>)
    requires WellFormed(links) && Keys(links) !! ks
    ensures Stripped(links, ks) == links
  {
    forall i | 0 <= i < |links| ensures links[i].services != [] && LinkKeys(links[i]) !! ks {
      assert WellFormedLink(links[i]);
      forall k | k in LinkKeys(links[i]) ensures k !in ks { assert k in Keys(links); }
    }
    StrippingNothing(links, ks);
  }

  lemma StrippedRegister(links: seq<LinkV>, c: Connection, ks: set<NetKey>)
    requires KeyOfConnection(c) in ks
    ensures Stripped(Register(links, c), ks) == Stripped(links, ks)
  {
    var i, f := LinkAt(links, PathOf(c)), StrippedLink(ks);
    var p := Outside(PathOf(c), ks);
    if i == |links| {
      var link := LinkV(PathOf(c), [c.service]);
      Front(links, link);
      StrippedAppend(p, [], c.service);
      assert [] + [c.service] == [c.service];
      assert f(link) == [];
    } else if Register(links, c) != links {
      StrippedAppend(p, links[i].services, c.service);
      FlatMapReplace(f, links, i, links[i].(services := links[i].services + [c.service]));
    }
  }

  lemma StrippedAppend(p: ServicePort -> bool, services: seq<ServicePort>, s: ServicePort)
    requires !p(s)
    ensures Filter(p, services + [s]) == Filter(p, services)
  {
    Front(services, s);
  }

  lemma StrippedDelete(links: seq<LinkV>, c: Connection, ks: set<NetKey>)
    requires KeyOfConnection(c) in ks
    ensures Stripped(Delete(links, c), ks) == Stripped(links, ks)
  {
    var i := LinkAt(links, PathOf(c));
    if i < |links| {
      var k := ServiceAt(links[i].services, c.service.name);
      if k < |links[i].services| {
        StrippedServiceDropped(links[i], k, ks);
        FlatMapReplace(StrippedLink(ks), links, i, links[i].(services := Without(links[i].services, k)));
      }
    }
  }

  /** Dropping a service whose key is in `ks` does not show once the link is stripped. */
  lemma StrippedServiceDropped(link: LinkV, k: nat, ks: set<NetKey>)
    requires k < |link.services| && NetKey(link.path, link.services[k].name) in ks
    ensures StrippedLink(ks)(link.(services := Without(link.services, k))) == StrippedLink(ks)(link)
    ensures |link.services| == 1 ==> StrippedLink(ks)(link) == []
  {
    FilterSkip(Outside(link.path, ks), link.services, k);
    if |link.services| == 1 {
      assert Without(link.services, k) == [];
    }
  }

  lemma {:induction false} StrippedDeleteAll(links: seq<LinkV>, cs: seq<Connection>, ks: set<NetKey>)
    requires KeysOf(cs) <= ks
    ensures Stripped(DeleteAll(links, cs), ks) == Stripped(links, ks)
  {
    if cs != [] {
      KeysOfSnoc(cs);
      StrippedDeleteAll(links, cs[..|cs| - 1], ks);
      StrippedDelete(DeleteAll(links, cs[..|cs| - 1]), cs[|cs| - 1], ks);
    }
  }

  lemma {:induction false} StrippedRegisterAll(links: seq<LinkV>, cs: seq<Connection>, ks: set<NetKey>)
    requires KeysOf(cs) <= ks
    ensures Stripped(RegisterAll(links, cs), ks) == Stripped(links, ks)
  {
    if cs != [] {
      KeysOfSnoc(cs);
      StrippedRegisterAll(links, cs[..|cs| - 1], ks);
      StrippedRegister(RegisterAll(links, cs[..|cs| - 1]), cs[|cs| - 1], ks);
    }
  }

  lemma DeletedKeysAreGone(links: seq<LinkV>, cs: seq<Connection>)
    requires WellFormed(links)
    ensures WellFormed(DeleteAll(links, cs)) && Keys(DeleteAll(links, cs)) == Keys(links) - KeysOf(cs)
  {
    DeleteRefines(links, cs);
    MeaningKeys(links);
    MeaningKeys(DeleteAll(links, cs));
  }

  /** Deletion in closed form: whatever the order of the connections and their repetitions, what is left is the registry
      stripped of their keys, in the original order. */
  lemma DeletionStrips(links: seq<LinkV>, cs: seq<Connection>)
    requires WellFormed(links)
    ensures DeleteAll(links, cs) == Stripped(links, KeysOf(cs))
  {
    DeletedKeysAreGone(links, cs);
    StrippingNoKeys(DeleteAll(links, cs), KeysOf(cs));
    StrippedDeleteAll(links, cs, KeysOf(cs));
  }

  /** Registering connections and deleting them again restores the registry exactly, order included, if and only if none
      of their paths carried their service before. */
  lemma RegisterThenDelete(links: seq<LinkV>, cs: seq<Connection>)
    requires WellFormed(links)
    ensures DeleteAll(RegisterAll(links, cs), cs) == links <==> Keys(links) !! KeysOf(cs)
  {
    RegisterRefines(links, cs);
    DeletionStrips(RegisterAll(links, cs), cs);
    StrippedRegisterAll(links, cs, KeysOf(cs));
    DeletedKeysAreGone(RegisterAll(links, cs), cs);
    if Keys(links) !! KeysOf(cs) {
      StrippingNoKeys(links, KeysOf(cs));
    }
  }

  /** What a run does when it swaps its old connections for new ones, on the map the registry stands for. */
  lemma SwapMeans(links: seq<LinkV>, dels: seq<Connection>, regs: seq<Connection>)
    requires WellFormed(links)
    ensures WellFormed(RegisterAll(DeleteAll(links, dels), regs))
    ensures Meaning(RegisterAll(DeleteAll(links, dels), regs)) == Inserted(Meaning(links) - KeysOf(dels), regs)
  {
    DeleteRefines(links, dels);
    RegisterRefines(DeleteAll(links, dels), regs);
  }

  // ----- The same of links and their ends

  /** The link runs from `source` to `target` and carries a service of that name, on that port. */
  predicate Carries(link: LinkV, source: Location, target: Location, service: ServicePort)
  {
    link.path.source == source && link.path.target == target && service in link.services
  }

  /** Some link of the registry does. */
  predicate Linked(links: seq<LinkV>, source: Location, target: Location, service: ServicePort)
  {
    exists i :: 0 <= i < |links| && Carries(links[i], source, target, service)
  }

  /** Some link does, on some port. */
  ghost predicate LinkedByName(links: seq<LinkV>, source: Location, target: Location, name: string)
  {
    exists port :: Linked(links, source, target, ServicePort(name, port))
  }

  lemma LinkedMeans(links: seq<LinkV>, source: Location, target: Location, service: ServicePort)
    requires WellFormed(links)
    ensures var m, k := Meaning(links), NetKey(Path(source, target), service.name);
            Linked(links, source, target, service) <==> k in m && m[k] == service.port
  {
    var k := NetKey(Path(source, target), service.name);
    MeaningIs(links, k);
    if Linked(links, source, target, service) {
      var i :| 0 <= i < |links| && Carries(links[i], source, target, service);
      var j :| 0 <= j < |links[i].services| && links[i].services[j] == service;
      assert WellFormedLink(links[i]);
      assert LinkAt(links, k.path) == i && ServiceAt(links[i].services, service.name) == j;
    }
    if Lookup(links, k) == Some(service.port) {
      var i := LinkAt(links, k.path);
      var j := ServiceAt(links[i].services, k.service);
      assert links[i].services[j] == service;
      assert Carries(links[i], source, target, service);
    }
  }

  lemma LinkedByNameMeans(links: seq<LinkV>, source: Location, target: Location, name: string)
    requires WellFormed(links)
    ensures LinkedByName(links, source, target, name) <==> NetKey(Path(source, target), name) in Meaning(links)
  {
    var k := NetKey(Path(source, target), name);
    if LinkedByName(links, source, target, name) {
      var port :| Linked(links, source, target, ServicePort(name, port));
      LinkedMeans(links, source, target, ServicePort(name, port));
    }
    if k in Meaning(links) {
      LinkedMeans(links, source, target, ServicePort(name, Meaning(links)[k]));
    }
  }

  /** The connection runs from `source` to `target` for a service of that name. */
  predicate Runs(c: Connection, source: Location, target: Location, name: string)
  {
    c.source == source && c.target == target && c.service.name == name
  }

  predicate SomeRuns(cs: seq<Connection>, source: Location, target: Location, name: string)
  {
    exists j :: 0 <= j < |cs| && Runs(cs[j], source, target, name)
  }

  /** The first of them asks for that port. */
  predicate FirstAsked(cs: seq<Connection>, source: Location, target: Location, service: ServicePort)
  {
    exists j :: 0 <= j < |cs| && Runs(cs[j], source, target, service.name) && cs[j].service.port == service.port
                && forall i :: 0 <= i < j ==> !Runs(cs[i], source, target, service.name)
  }

  lemma SomeRunsMeans(cs: seq<Connection>, source: Location, target: Location, name: string)
    ensures SomeRuns(cs, source, target, name) <==> NetKey(Path(source, target), name) in KeysOf(cs)
  {
    var k := NetKey(Path(source, target), name);
    if SomeRuns(cs, source, target, name) {
      var j :| 0 <= j < |cs| && Runs(cs[j], source, target, name);
      assert KeyOfConnection(cs[j]) == k;
    }
    if k in KeysOf(cs) {
      var j :| 0 <= j < |cs| && KeyOfConnection(cs[j]) == k;
      assert Runs(cs[j], source, target, name);
    }
  }

  lemma {:induction false} InsertedKeys(m: map<NetKey, nat>, cs: seq<Connection>)
    ensures Inserted(m, cs).Keys == m.Keys + KeysOf(cs)
    ensures forall k :: k in m ==> Inserted(m, cs)[k] == m[k]
  {
    if cs != [] {
      InsertedKeys(m, cs[..|cs| - 1]);
      KeysOfSnoc(cs);
    }
  }

  /** After a registration there is a link between two locations for a service if and only if there was one, or a
      connection asked for it: from the location of the service to that of the workload. */
  lemma RegisteredLinks(links: seq<LinkV>, cs: seq<Connection>, source: Location, target: Location, name: string)
    requires WellFormed(links)
    ensures LinkedByName(RegisterAll(links, cs), source, target, name) <==>
            LinkedByName(links, source, target, name) || SomeRuns(cs, source, target, name)
  {
    RegisterRefines(links, cs);
    InsertedKeys(Meaning(links), cs);
    LinkedByNameMeans(links, source, target, name);
    LinkedByNameMeans(RegisterAll(links, cs), source, target, name);
    SomeRunsMeans(cs, source, target, name);
  }

  /** What was linked stays on its port; what was not is on the port of the first connection that asks for it. */
  lemma RegisteredPorts(links: seq<LinkV>, cs: seq<Connection>, source: Location, target: Location,
                        service: ServicePort)
    requires WellFormed(links)
    ensures LinkedByName(links, source, target, service.name) ==>
              (Linked(RegisterAll(links, cs), source, target, service) <==> Linked(links, source, target, service))
    ensures !LinkedByName(links, source, target, service.name) ==>
              (Linked(RegisterAll(links, cs), source, target, service) <==>
               FirstAsked(cs, source, target, service))
  {
    var k := NetKey(Path(source, target), service.name);
    RegisterRefines(links, cs);
    InsertedKeys(Meaning(links), cs);
    LinkedByNameMeans(links, source, target, service.name);
    LinkedMeans(links, source, target, service);
    LinkedMeans(RegisterAll(links, cs), source, target, service);
    if k !in Meaning(links) {
      FirstInserted(Meaning(links), cs, source, target, service);
    }
  }

  lemma {:induction false} FirstInserted(m: map<NetKey, nat>, cs: seq<Connection>, source: Location, target: Location,
                                         service: ServicePort)
    requires NetKey(Path(source, target), service.name) !in m
    ensures var k := NetKey(Path(source, target), service.name);
            (k in Inserted(m, cs) && Inserted(m, cs)[k] == service.port) <==>
            FirstAsked(cs, source, target, service)
  {
    var k := NetKey(Path(source, target), service.name);
    if cs != [] {
      var front, c := cs[..|cs| - 1], cs[|cs| - 1];
      FirstInserted(m, front, source, target, service);
      InsertedKeys(m, front);
      SomeRunsMeans(front, source, target, service.name);
      assert forall i :: 0 <= i < |front| ==> front[i] == cs[i];
      assert Runs(c, source, target, service.name) <==> KeyOfConnection(c) == k;
      FirstOfMore(cs, source, target, service);
    }
  }

  /** The first connection of a list is the first of its front, or the last of the list if the front has none. */
  lemma FirstOfMore(cs: seq<Connection>, source: Location, target: Location, service: ServicePort)
    requires cs != []
    ensures FirstAsked(cs, source, target, service) <==>
            FirstAsked(cs[..|cs| - 1], source, target, service)
            || (!SomeRuns(cs[..|cs| - 1], source, target, service.name)
                && Runs(cs[|cs| - 1], source, target, service.name) && cs[|cs| - 1].service.port == service.port)
  {
  }

  /** After a deletion there is a link for exactly what was linked and is not asked for, on its port. */
  lemma DeletedLinks(links: seq<LinkV>, cs: seq<Connection>, source: Location, target: Location, service: ServicePort)
    requires WellFormed(links)
    ensures Linked(DeleteAll(links, cs), source, target, service) <==>
            Linked(links, source, target, service) && !SomeRuns(cs, source, target, service.name)
  {
    DeleteRefines(links, cs);
    LinkedMeans(links, source, target, service);
    LinkedMeans(DeleteAll(links, cs), source, target, service);
    SomeRunsMeans(cs, source, target, service.name);
  }
}
