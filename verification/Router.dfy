/** The local routing table: public hostnames to tunnels and labels. */
module Router {
  datatype RouteKey = RouteKey(tunnel: string, name: string)

  type HostMap = map<string, RouteKey>

  function TrimPrefix(s: string, prefix: string): string {
    if prefix <= s then s[|prefix|..] else s
  }

  function HostnameForTunnel(domain: string, tunnel: string): string {
    TrimPrefix(tunnel, "t-") + "." + domain
  }

  function HostnameForLabel(domain: string, tunnel: string, name: string): string {
    name + "-" + TrimPrefix(tunnel, "t-") + "." + domain
  }

  /** Default hostnames tell tunnels apart as long as their trimmed IDs do. */
  lemma HostnameInjective(domain: string, t1: string, t2: string)
    ensures HostnameForTunnel(domain, t1) == HostnameForTunnel(domain, t2)
            <==> TrimPrefix(t1, "t-") == TrimPrefix(t2, "t-")
    ensures "t-" <= t1 && "t-" <= t2 && HostnameForTunnel(domain, t1) == HostnameForTunnel(domain, t2) ==> t1 == t2
  {
    var a, b, tail := TrimPrefix(t1, "t-"), TrimPrefix(t2, "t-"), "." + domain;
    assert a + "." + domain == a + tail && b + "." + domain == b + tail;
    if a + tail == b + tail {
      assert a == (a + tail)[..|a|] && b == (b + tail)[..|b|];
      if "t-" <= t1 && "t-" <= t2 {
        assert t1 == "t-" + a && t2 == "t-" + b;
      }
    }
  }

  /** `h` is `name`, a dot and the domain. */
  predicate Under(h: string, name: string, domain: string) {
    && |h| == |name| + 1 + |domain|
    && h[..|name|] == name && h[|name|] == '.' && h[|name| + 1..] == domain
  }

  /** What stands before the dot and the domain: the ID without a "t-" at its front, and for a label
      the label, a dash and that ID. */
  lemma HostnamesRead(domain: string, id: string, name: string)
    ensures !("t-" <= id) ==>
              Under(HostnameForTunnel(domain, id), id, domain)
              && Under(HostnameForLabel(domain, id, name), name + "-" + id, domain)
    ensures Under(HostnameForTunnel(domain, "t-" + id), id, domain)
    ensures Under(HostnameForLabel(domain, "t-" + id, name), name + "-" + id, domain)
  {
    assert ("t-" + id)[2..] == id;
  }

  function WithoutTunnel(hosts: HostMap, tunnel: string): HostMap {
    map h | h in hosts && hosts[h].tunnel != tunnel :: hosts[h]
  }

  class TunnelRouter {
    var hostMap: HostMap
    const domain: string

    constructor (domain: string)
      ensures hostMap == map[] && this.domain == domain
    {
      this.domain := domain;
      hostMap := map[];
    }

    method Register(tunnel: string) returns (hostname: string)
      modifies this
      ensures hostname == HostnameForTunnel(domain, tunnel)
      ensures hostMap == old(hostMap)[hostname := RouteKey(tunnel, "default")]
    {
      hostname := HostnameForTunnel(domain, tunnel);
      hostMap := hostMap[hostname := RouteKey(tunnel, "default")];
    }

    method RegisterLabel(tunnel: string, name: string) returns (hostname: string)
      modifies this
      ensures hostname == HostnameForLabel(domain, tunnel, name)
      ensures hostMap == old(hostMap)[hostname := RouteKey(tunnel, name)]
    {
      hostname := HostnameForLabel(domain, tunnel, name);
      hostMap := hostMap[hostname := RouteKey(tunnel, name)];
    }

    method Deregister(tunnel: string)
      modifies this
      ensures hostMap == old(hostMap) - {HostnameForTunnel(domain, tunnel)}
    {
      hostMap := hostMap - {HostnameForTunnel(domain, tunnel)};
    }

    /** The scan visits the hosts in any order and deletes those of the tunnel, and no others. */
    method DeregisterAll(tunnel: string)
      modifies this
      ensures hostMap == WithoutTunnel(old(hostMap), tunnel)
    {
      var todo := hostMap.Keys;
      while todo != {}
        invariant todo <= hostMap.Keys <= old(hostMap).Keys
        invariant forall h :: h in hostMap ==> hostMap[h] == old(hostMap)[h]
        invariant forall h :: h in old(hostMap) && h !in hostMap ==> old(hostMap)[h].tunnel == tunnel
        invariant forall h :: h in hostMap && h !in todo ==> hostMap[h].tunnel != tunnel
        decreases |todo|
      {
        var host :| host in todo;
        todo := todo - {host};
        if hostMap[host].tunnel == tunnel {
          hostMap := hostMap - {host};
        }
      }
    }
  }
}
