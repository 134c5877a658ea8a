/**
 How a run edits the stored registry of network links (internal/controller/network-connectivity.go, lines 51-143). A
 call that fails leaves the stored registry as it is, except that an empty one may have been created.
 */
module Network {
  import opened Collections
  import opened Links
  import opened HubState

  /** The calls that one edit of the registry makes all succeed. */
  predicate NetworkCallsSucceed(network: Option<seq<LinkV>>, site: nat, env: Env)
  {
    !env.fails(FetchNetwork(site)) && (network.None? ==> !env.fails(CreateNetwork(site)))
    && !env.fails(UpdateNetwork(site))
  }

  method FetchNetworkLinks(hub: Hub, site: nat, env: Env) returns (r: Option<seq<Link>>)
    modifies hub`network
    ensures LinksOf(hub.network) == LinksOf(old(hub.network))
    ensures r.Some? <==> !env.fails(FetchNetwork(site)) && (old(hub.network).None? ==> !env.fails(CreateNetwork(site)))
    ensures r.Some? ==> hub.network.Some? && ShowsLinks(r.value, LinksOf(hub.network))
                        && forall k :: 0 <= k < |r.value| ==> fresh(r.value[k])
  {
    if env.fails(FetchNetwork(site)) {
      return None;
    }
    if hub.network.None? {
      if env.fails(CreateNetwork(site)) {
        return None;
      }
      hub.network := Some([]);
    }
    var links := Load(hub.network.value);
    return Some(links);
  }

  method RegisterNetworkLinks(hub: Hub, cs: seq<Connection>, site: nat, env: Env) returns (ok: bool)
    modifies hub`network
    ensures LinksOf(hub.network) == if ok then RegisterAll(LinksOf(old(hub.network)), cs) else LinksOf(old(hub.network))
    ensures ok <==> NetworkCallsSucceed(old(hub.network), site, env)
  {
    var fetched := FetchNetworkLinks(hub, site, env);
    if fetched.None? {
      return false;
    }
    ghost var before := LinksOf(hub.network);
    var links := RegisterLinks(fetched.value, cs, before);
    if env.fails(UpdateNetwork(site)) {
      return false;
    }
    var stored := Store(links, RegisterAll(before, cs));
    hub.network := Some(stored);
    return true;
  }

  method DeleteNetworkLinks(hub: Hub, cs: seq<Connection>, site: nat, env: Env) returns (ok: bool)
    modifies hub`network
    ensures LinksOf(hub.network) == if ok then DeleteAll(LinksOf(old(hub.network)), cs) else LinksOf(old(hub.network))
    ensures ok <==> NetworkCallsSucceed(old(hub.network), site, env)
  {
    var fetched := FetchNetworkLinks(hub, site, env);
    if fetched.None? {
      return false;
    }
    ghost var before := LinksOf(hub.network);
    var links := DeleteLinks(fetched.value, cs, before);
    if env.fails(UpdateNetwork(site)) {
      return false;
    }
    var stored := Store(links, DeleteAll(before, cs));
    hub.network := Some(stored);
    return true;
  }
}
