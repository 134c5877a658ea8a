/**
 The registry of network links (internal/controller/network-connectivity.go, lines 51-118 and 208-215).

 The registry lists links, one for each network path, each with the services it carries. GetService and AddService
 belong to a library that is not part of this model; they are taken to look a service up by name and to append it when
 absent.
 */
module Links {
  import opened Collections
  import opened Text

  datatype Location = Location(cluster: string, namespace: string)
  datatype Connection = Connection(service: ServicePort, source: Location, target: Location)
  datatype Path = Path(source: Location, target: Location)

  /** What a connection needs from the registry: the path and the name of the service. */
  datatype NetKey = NetKey(path: Path, service: string)

  function PathOf(c: Connection): Path { Path(c.source, c.target) }
  function KeyOfConnection(c: Connection): NetKey { NetKey(PathOf(c), c.service.name) }

  /** A link as a value. */
  datatype LinkV = LinkV(path: Path, services: seq<ServicePort>)

  // ----- The registry as a value

  /** The index of the first service with the given name, or the number of services. */
  function ServiceAt(services: seq<ServicePort>, name: string): (i: nat)
    ensures i <= |services|
    ensures i < |services| ==> services[i].name == name
    ensures forall j :: 0 <= j < i ==> services[j].name != name
  {
    if services == [] || services[0].name == name then 0 else 1 + ServiceAt(services[1..], name)
  }

  /** The index of the first link with the given path, or the number of links. */
  function LinkAt(links: seq<LinkV>, path: Path): (i: nat)
    ensures i <= |links|
    ensures i < |links| ==> links[i].path == path
    ensures forall j :: 0 <= j < i ==> links[j].path != path
  {
    if links == [] || links[0].path == path then 0 else 1 + LinkAt(links[1..], path)
  }

  function Without<T>(s: seq<T>, i: nat): seq<T>
    requires i < |s|
  {
    s[..i] + s[i + 1..]
  }

  function Register(links: seq<LinkV>, c: Connection): seq<LinkV>
  {
    var i := LinkAt(links, PathOf(c));
    if i == |links| then links + [LinkV(PathOf(c), [c.service])]
    else if ServiceAt(links[i].services, c.service.name) < |links[i].services| then links
    else links[i := links[i].(services := links[i].services + [c.service])]
  }

  function Delete(links: seq<LinkV>, c: Connection): seq<LinkV>
  {
    var i := LinkAt(links, PathOf(c));
    if i == |links| then links
    else
      var services := links[i].services;
      var k := ServiceAt(services, c.service.name);
      if k == |services| then links
      else if |services| == 1 then Without(links, i)
      else links[i := links[i].(services := Without(services, k))]
  }

  function RegisterAll(links: seq<LinkV>, cs: seq<Connection>): seq<LinkV>
  {
    if cs == [] then links else Register(RegisterAll(links, cs[..|cs| - 1]), cs[|cs| - 1])
  }

  function DeleteAll(links: seq<LinkV>, cs: seq<Connection>): seq<LinkV>
  {
    if cs == [] then links else Delete(DeleteAll(links, cs[..|cs| - 1]), cs[|cs| - 1])
  }

  // ----- The loops

  class Link {
    const path: Path
    var services: seq<ServicePort>

    constructor (path: Path, services: seq<ServicePort>)
      ensures View() == LinkV(path, services)
    {
      this.path := path;
      this.services := services;
    }

    function View(): LinkV
      reads this
    {
      LinkV(path, services)
    }

    method GetService(name: string) returns (i: int)
      ensures i == if ServiceAt(services, name) == |services| then -1 else ServiceAt(services, name)
    {
      for j := 0 to |services|
        invariant forall k :: 0 <= k < j ==> services[k].name != name
      {
        if services[j].name == name {
          return j;
        }
      }
      return -1;
    }

    method AddService(service: ServicePort)
      modifies this
      ensures services == if ServiceAt(old(services), service.name) < |old(services)| then old(services)
                          else old(services) + [service]
    {
      var i := GetService(service.name);
      if i == -1 {
        services := services + [service];
      }
    }
  }

  /** The links are different objects and `views` their values. */
  ghost predicate ShowsLinks(links: seq<Link>, views: seq<LinkV>)
    reads links
  {
    |links| == |views|
    && (forall i :: 0 <= i < |links| ==> links[i].View() == views[i])
    && (forall i, j :: 0 <= i < j < |links| ==> links[i] != links[j])
  }

  method GetLink(links: seq<Link>, c: Connection, ghost views: seq<LinkV>) returns (i: int)
    requires ShowsLinks(links, views)
    ensures i == if LinkAt(views, PathOf(c)) == |views| then -1 else LinkAt(views, PathOf(c))
    ensures i == -1 <==> forall j :: 0 <= j < |views| ==> views[j].path.source != c.source
                                                          || views[j].path.target != c.target
    ensures i != -1 ==> 0 <= i < |views| && views[i].path.source == c.source && views[i].path.target == c.target
  {
    for j := 0 to |links|
      invariant forall k :: 0 <= k < j ==> views[k].path != PathOf(c)
    {
      assert links[j].View() == views[j];
      if links[j].path.source.cluster == c.source.cluster && links[j].path.target.cluster == c.target.cluster
         && links[j].path.source.namespace == c.source.namespace
         && links[j].path.target.namespace == c.target.namespace {
        return j;
      }
    }
    return -1;
  }

  method RegisterOne(links: seq<Link>, c: Connection, ghost views: seq<LinkV>) returns (after: seq<Link>)
    requires ShowsLinks(links, views)
    modifies links
    ensures ShowsLinks(after, Register(views, c))
    ensures forall k :: 0 <= k < |after| ==> after[k] in links || fresh(after[k])
  {
    var i := GetLink(links, c, views);
    if i != -1 {
      assert links[i].View() == views[i];
      links[i].AddService(c.service);
      assert links[i].View() == Register(views, c)[i];
      after := links;
    } else {
      var link := new Link(PathOf(c), [c.service]);
      after := links + [link];
    }
  }

  method DeleteOne(links: seq<Link>, c: Connection, ghost views: seq<LinkV>) returns (after: seq<Link>)
    requires ShowsLinks(links, views)
    modifies links
    ensures ShowsLinks(after, Delete(views, c))
    ensures forall k :: 0 <= k < |after| ==> after[k] in links
  {
    after := links;
    var i := GetLink(links, c, views);
    if i != -1 {
      var link := links[i];
      assert link.View() == views[i];
      var k := link.GetService(c.service.name);
      if |link.services| == 1 && k != -1 {
        after := links[..i] + links[i + 1..];
      } else if k != -1 {
        link.services := link.services[..k] + link.services[k + 1..];
        assert link.View() == Delete(views, c)[i];
      }
    }
  }

  /** The loop of registerNetworkLinks. */
  method RegisterLinks(links: seq<Link>, cs: seq<Connection>, ghost views: seq<LinkV>) returns (after: seq<Link>)
    requires ShowsLinks(links, views)
    modifies links
    ensures ShowsLinks(after, RegisterAll(views, cs))
    ensures forall k :: 0 <= k < |after| ==> after[k] in links || fresh(after[k])
  {
    after := links;
    for i := 0 to |cs|
      invariant ShowsLinks(after, RegisterAll(views, cs[..i]))
      invariant forall k :: 0 <= k < |after| ==> after[k] in links || fresh(after[k])
    {
      after := RegisterOne(after, cs[i], RegisterAll(views, cs[..i]));
      Prefixes(cs, i);
    }
    assert cs[..|cs|] == cs;
  }

  /** The loop of deleteNetworkLinks. */
  method DeleteLinks(links: seq<Link>, cs: seq<Connection>, ghost views: seq<LinkV>) returns (after: seq<Link>)
    requires ShowsLinks(links, views)
    modifies links
    ensures ShowsLinks(after, DeleteAll(views, cs))
    ensures forall k :: 0 <= k < |after| ==> after[k] in links
  {
    after := links;
    for i := 0 to |cs|
      invariant ShowsLinks(after, DeleteAll(views, cs[..i]))
      invariant forall k :: 0 <= k < |after| ==> after[k] in links
    {
      after := DeleteOne(after, cs[i], DeleteAll(views, cs[..i]));
      Prefixes(cs, i);
    }
    assert cs[..|cs|] == cs;
  }

  /** Reading the stored registry makes new link objects; storing it writes their values back. */
  method Load(views: seq<LinkV>) returns (links: seq<Link>)
    ensures ShowsLinks(links, views) && forall k :: 0 <= k < |links| ==> fresh(links[k])
  {
    links := [];
    for i := 0 to |views|
      invariant ShowsLinks(links, views[..i]) && forall k :: 0 <= k < |links| ==> fresh(links[k])
    {
      var link := new Link(views[i].path, views[i].services);
      links := links + [link];
    }
    assert views[..|views|] == views;
  }

  method Store(links: seq<Link>, ghost views: seq<LinkV>) returns (stored: seq<LinkV>)
    requires ShowsLinks(links, views)
    ensures stored == views
  {
    stored := [];
    for i := 0 to |links|
      invariant stored == views[..i]
    {
      assert links[i].View() == views[i];
      stored := stored + [LinkV(links[i].path, links[i].services)];
    }
  }
}
