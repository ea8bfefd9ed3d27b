/** The watch-driven mirror of which peer gateway owns which tunnel. */
module DistributedRouter {
  import opened Common
  import opened Router

  datatype Session = Session(tunnel: string, owner: string)

  datatype Holding = Holding(tunnel: string, relay: string)

  datatype RelayInfo = RelayInfo(id: string, addr: string)

  datatype Kind =
    RelayUpserted | RelayHealthUpdated | TunnelUpserted | TunnelDeleted | LeaseAcquired | LeaseReleased | Unknown

  /** A registry event; absent parts are nil. */
  datatype Event = Event(kind: Kind, tunnel: Option<Session>, lease: Option<Holding>, relay: Option<RelayInfo>)

  datatype Route = Route(tunnel: string, name: string, owner: string, addr: string)

  datatype Self = Self(relay: string, domain: string)

  datatype Mirror = Mirror(routes: map<string, Route>, relays: map<string, string>)

  // ---------------------------------------------------------------- one event

  function AddrOf(relays: map<string, string>, relay: string): string {
    if relay in relays then relays[relay] else ""
  }

  function Upsert(self: Self, m: Mirror, tunnel: string, owner: string): Mirror {
    var route := Route(tunnel, "default", owner, AddrOf(m.relays, owner));
    m.(routes := m.routes[HostnameForTunnel(self.domain, tunnel) := route])
  }

  function Remove(m: Mirror, tunnel: string): Mirror {
    m.(routes := map h | h in m.routes && m.routes[h].tunnel != tunnel :: m.routes[h])
  }

  function LearnRelay(m: Mirror, relay: Option<RelayInfo>): Mirror {
    if relay.Some? && relay.value.addr != "" then m.(relays := m.relays[relay.value.id := relay.value.addr]) else m
  }

  function Handle(self: Self, m: Mirror, e: Event): Mirror {
    match e.kind
    case RelayUpserted => LearnRelay(m, e.relay)
    case RelayHealthUpdated => LearnRelay(m, e.relay)
    case TunnelUpserted =>
      if e.tunnel.None? then m
      else
        var owner := if e.tunnel.value.owner == "" && e.lease.Some? then e.lease.value.relay else e.tunnel.value.owner;
        if owner == "" || owner == self.relay then m else Upsert(self, m, e.tunnel.value.tunnel, owner)
    case LeaseAcquired =>
      if e.lease.None? || e.lease.value.relay == "" || e.lease.value.relay == self.relay then m
      else Upsert(self, m, e.lease.value.tunnel, e.lease.value.relay)
    case LeaseReleased => if e.lease.None? then m else Remove(m, e.lease.value.tunnel)
    case TunnelDeleted => if e.tunnel.None? then m else Remove(m, e.tunnel.value.tunnel)
    case Unknown => m
  }

  function LookupRoute(self: Self, m: Mirror, host: string): Option<Route> {
    if host !in m.routes || m.routes[host].owner == self.relay then None else Some(m.routes[host])
  }

  // ---------------------------------------------------------------- the object

  class Watcher {
    const self: Self
    var routes: map<string, Route>
    var relays: map<string, string>

    ghost function View(): Mirror reads this { Mirror(routes, relays) }

    constructor (self: Self)
      ensures View() == Mirror(map[], map[]) && this.self == self
    {
      this.self := self;
      routes, relays := map[], map[];
    }

    method UpsertTunnelRoutes(tunnel: string, owner: string)
      modifies this
      ensures View() == Upsert(self, old(View()), tunnel, owner)
    {
      var addr := if owner in relays then relays[owner] else "";
      routes := routes[HostnameForTunnel(self.domain, tunnel) := Route(tunnel, "default", owner, addr)];
    }

    /** The scan visits the routes in any order and deletes those of the tunnel. */
    method RemoveTunnelRoutes(tunnel: string)
      modifies this
      ensures View() == Remove(old(View()), tunnel)
    {
      var todo := routes.Keys;
      while todo != {}
        invariant relays == old(relays) && todo <= routes.Keys <= old(routes).Keys
        invariant forall h :: h in routes ==> routes[h] == old(routes)[h]
        invariant forall h :: h in old(routes) && h !in routes ==> old(routes)[h].tunnel == tunnel
        invariant forall h :: h in routes && h !in todo ==> routes[h].tunnel != tunnel
        decreases |todo|
      {
        var host :| host in todo;
        todo := todo - {host};
        if routes[host].tunnel == tunnel {
          routes := routes - {host};
        }
      }
    }

    method HandleEvent(e: Event)
      modifies this
      ensures View() == Handle(self, old(View()), e)
    {
      match e.kind {
        case RelayUpserted =>
          if e.relay.Some? && e.relay.value.addr != "" { relays := relays[e.relay.value.id := e.relay.value.addr]; }
        case RelayHealthUpdated =>
          if e.relay.Some? && e.relay.value.addr != "" { relays := relays[e.relay.value.id := e.relay.value.addr]; }
        case TunnelUpserted =>
          if e.tunnel.None? { return; }
          var owner := e.tunnel.value.owner;
          if owner == "" && e.lease.Some? { owner := e.lease.value.relay; }
          if owner == "" || owner == self.relay { return; }
          UpsertTunnelRoutes(e.tunnel.value.tunnel, owner);
        case LeaseAcquired =>
          if e.lease.None? { return; }
          if e.lease.value.relay == "" || e.lease.value.relay == self.relay { return; }
          UpsertTunnelRoutes(e.lease.value.tunnel, e.lease.value.relay);
        case LeaseReleased =>
          if e.lease.None? { return; }
          RemoveTunnelRoutes(e.lease.value.tunnel);
        case TunnelDeleted =>
          if e.tunnel.None? { return; }
          RemoveTunnelRoutes(e.tunnel.value.tunnel);
        case Unknown =>
      }
    }

    method Lookup(host: string) returns (r: Option<Route>)
      ensures r == LookupRoute(self, View(), host)
      ensures r.Some? <==> host in routes && routes[host].owner != self.relay
      ensures r.Some? ==> r.value == routes[host]
    {
      if host !in routes { return None; }
      if routes[host].owner == self.relay { return None; }
      return Some(routes[host]);
    }
  }

  // ---------------------------------------------------------------- histories

  /** What an event says about ownership, read off the event alone. */
  datatype Claim = Owns(tunnel: string, owner: string) | Drops(tunnel: string) | Silent

  function ClaimOf(e: Event): Claim {
    match e.kind
    case TunnelUpserted =>
      if e.tunnel.None? then Silent
      else if e.tunnel.value.owner != "" then Owns(e.tunnel.value.tunnel, e.tunnel.value.owner)
      else if e.lease.Some? then Named(e.tunnel.value.tunnel, e.lease.value.relay)
      else Silent
    case LeaseAcquired => if e.lease.None? then Silent else Named(e.lease.value.tunnel, e.lease.value.relay)
    case LeaseReleased => if e.lease.None? then Silent else Drops(e.lease.value.tunnel)
    case TunnelDeleted => if e.tunnel.None? then Silent else Drops(e.tunnel.value.tunnel)
    case _ => Silent
  }

  function Named(tunnel: string, owner: string): Claim {
    if owner == "" then Silent else Owns(tunnel, owner)
  }

  /** The claim as the router hears it: it passes over those that name this gateway itself. */
  function PeerClaim(self: Self, e: Event): Claim {
    var claim := ClaimOf(e);
    if claim.Owns? && claim.owner == self.relay then Silent else claim
  }

  /** The address the last event that gave one gave for a relay. */
  function KnownAddr(history: seq<Event>, relay: string): string {
    if history == [] then ""
    else
      var e := history[|history| - 1];
      if (e.kind.RelayUpserted? || e.kind.RelayHealthUpdated?) && e.relay.Some?
         && e.relay.value.id == relay && e.relay.value.addr != ""
      then e.relay.value.addr
      else KnownAddr(history[..|history| - 1], relay)
  }

  datatype Owner = Owner(relay: string, addr: string)

  /** The owner named by the last event about the tunnel, this gateway or a peer, with the address
      known for it by then; none if that event dropped the tunnel. */
  function LastOwner(history: seq<Event>, tunnel: string): Option<Owner> {
    if history == [] then None
    else
      var p := history[..|history| - 1];
      match ClaimOf(history[|history| - 1])
      case Owns(t, o) => if t == tunnel then Some(Owner(o, KnownAddr(p, o))) else LastOwner(p, tunnel)
      case Drops(t) => if t == tunnel then None else LastOwner(p, tunnel)
      case Silent => LastOwner(p, tunnel)
  }

  /** The last peer named as the tunnel's owner since the tunnel was last dropped. */
  function LastPeer(self: Self, history: seq<Event>, tunnel: string): Option<Owner> {
    if history == [] then None
    else
      var p := history[..|history| - 1];
      match PeerClaim(self, history[|history| - 1])
      case Owns(t, o) => if t == tunnel then Some(Owner(o, KnownAddr(p, o))) else LastPeer(self, p, tunnel)
      case Drops(t) => if t == tunnel then None else LastPeer(self, p, tunnel)
      case Silent => LastPeer(self, p, tunnel)
  }

  function After(self: Self, history: seq<Event>): Mirror {
    if history == [] then Mirror(map[], map[])
    else Handle(self, After(self, history[..|history| - 1]), history[|history| - 1])
  }

  /** Two tunnels that share a default hostname. */
  predicate Collide(t: string, u: string) { t != u && TrimPrefix(t, "t-") == TrimPrefix(u, "t-") }

  ghost predicate NoneCollides(self: Self, history: seq<Event>, tunnel: string) {
    forall i :: 0 <= i < |history| ==>
      !PeerClaim(self, history[i]).Owns? || !Collide(PeerClaim(self, history[i]).tunnel, tunnel)
  }

  /** Every route stands under the default hostname of its tunnel and belongs to a peer. */
  ghost predicate WellPlaced(self: Self, m: Mirror) {
    forall h :: h in m.routes ==>
      h == HostnameForTunnel(self.domain, m.routes[h].tunnel) && m.routes[h].owner != self.relay
  }

  /** The default route of a tunnel to an owner, if it has one. */
  function RouteTo(tunnel: string, owner: Option<Owner>): Option<Route> {
    if owner.None? then None else Some(Route(tunnel, "default", owner.value.relay, owner.value.addr))
  }

  function Routed(self: Self, history: seq<Event>, tunnel: string): Option<Route> {
    LookupRoute(self, After(self, history), HostnameForTunnel(self.domain, tunnel))
  }

  predicate OwnedHere(self: Self, history: seq<Event>, tunnel: string) {
    LastOwner(history, tunnel).Some? && LastOwner(history, tunnel).value.relay == self.relay
  }

  /** The tunnel's default hostname is routed to its last owner if that is a peer, and to nothing if
      the tunnel was dropped or is owned here. */
  predicate Follows(self: Self, history: seq<Event>, tunnel: string) {
    Routed(self, history, tunnel)
    == if OwnedHere(self, history, tunnel) then None else RouteTo(tunnel, LastOwner(history, tunnel))
  }

  /** Handling an event is acting on its claim about a peer. */
  lemma HandleByClaim(self: Self, m: Mirror, e: Event)
    ensures Handle(self, m, e).routes
            == match PeerClaim(self, e)
               case Owns(t, o) => Upsert(self, m, t, o).routes
               case Drops(t) => Remove(m, t).routes
               case Silent => m.routes
  {
  }

  lemma {:induction false} RelaysKnown(self: Self, history: seq<Event>, relay: string)
    ensures AddrOf(After(self, history).relays, relay) == KnownAddr(history, relay)
  {
    if history != [] { RelaysKnown(self, history[..|history| - 1], relay); }
  }

  lemma {:induction false} StaysPlaced(self: Self, history: seq<Event>)
    ensures WellPlaced(self, After(self, history))
  {
    if history != [] {
      var n := |history| - 1;
      StaysPlaced(self, history[..n]);
      HandleByClaim(self, After(self, history[..n]), history[n]);
    }
  }

  /** After any event history in which no tunnel shares its hostname, the tunnel's default hostname
      leads to the last peer named as its owner, at the address known when it was named, and to
      nothing if none was named since the tunnel was last dropped. */
  lemma {:induction false} RoutesFollowPeers(self: Self, history: seq<Event>, tunnel: string)
    requires NoneCollides(self, history, tunnel)
    ensures Routed(self, history, tunnel) == RouteTo(tunnel, LastPeer(self, history, tunnel))
  {
    if history != [] {
      var n := |history| - 1;
      var p := history[..n];
      assert forall i :: 0 <= i < n ==> p[i] == history[i];
      RoutesFollowPeers(self, p, tunnel);
      StaysPlaced(self, p);
      var m, claim := After(self, p), PeerClaim(self, history[n]);
      HandleByClaim(self, m, history[n]);
      if claim.Owns? {
        HostnameInjective(self.domain, claim.tunnel, tunnel);
        RelaysKnown(self, p, claim.owner);
      } else if claim.Drops? {
        var h := HostnameForTunnel(self.domain, tunnel);
        if h in m.routes { HostnameInjective(self.domain, m.routes[h].tunnel, tunnel); }
      }
    }
  }

  /** The last peer is the last owner, unless the last owner is this gateway. */
  lemma {:induction false} PeerUnlessHere(self: Self, history: seq<Event>, tunnel: string)
    ensures !OwnedHere(self, history, tunnel) ==> LastPeer(self, history, tunnel) == LastOwner(history, tunnel)
  {
    if history != [] { PeerUnlessHere(self, history[..|history| - 1], tunnel); }
  }

  /** A history without collisions is followed exactly unless this gateway took the tunnel over from
      a peer: nobody having dropped the tunnel in between, the peer's route still stands. */
  lemma FollowsUnlessTakenOver(self: Self, history: seq<Event>, tunnel: string)
    requires NoneCollides(self, history, tunnel)
    ensures Follows(self, history, tunnel)
            <==> !(OwnedHere(self, history, tunnel) && LastPeer(self, history, tunnel).Some?)
  {
    RoutesFollowPeers(self, history, tunnel);
    PeerUnlessHere(self, history, tunnel);
  }

  /** Tunnel IDs as the gateway makes them, with the "t-" prefix, never collide. */
  lemma PrefixedNeverCollide(t: string, u: string)
    requires "t-" <= t && "t-" <= u
    ensures !Collide(t, u)
  {
    assert t == "t-" + TrimPrefix(t, "t-") && u == "t-" + TrimPrefix(u, "t-");
  }

  // ---------------------------------------------------------------- the condition is exact

  function Grant(tunnel: string, owner: string): Event {
    Event(LeaseAcquired, None, Some(Holding(tunnel, owner)), None)
  }

  /** When two tunnels share a hostname, an event about one is answered for the other. */
  lemma CollisionMisroutes(self: Self, t: string, u: string, owner: string)
    requires Collide(u, t) && owner != "" && owner != self.relay
    ensures !Follows(self, [Grant(u, owner)], t)
  {
    var e := Grant(u, owner);
    HostnameInjective(self.domain, t, u);
    assert [e][..0] == [];
    assert After(self, [e]) == Handle(self, Mirror(map[], map[]), e);
    assert LastOwner([e], t) == None;
  }

  /** When this gateway is granted a tunnel that a peer held, its own lookup still leads to the peer. */
  lemma TakeoverStaysRouted(self: Self, t: string, owner: string)
    requires owner != "" && owner != self.relay && self.relay != ""
    ensures
      var history := [Grant(t, owner), Grant(t, self.relay)];
      && OwnedHere(self, history, t)
      && Routed(self, history, t) == Some(Route(t, "default", owner, ""))
      && !Follows(self, history, t)
  {
    var a, b := Grant(t, owner), Grant(t, self.relay);
    assert [a, b][..1] == [a] && [a][..0] == [];
    assert After(self, [a]) == Handle(self, Mirror(map[], map[]), a);
    assert After(self, [a, b]) == After(self, [a]);
  }

  /** A history about `t` and `u` only; without `own`, one that never names this gateway as the
      owner of `t`. */
  ghost predicate Over(self: Self, own: bool, history: seq<Event>, t: string, u: string) {
    forall i :: 0 <= i < |history| ==>
      var claim := ClaimOf(history[i]);
      claim.Silent? || ((claim.tunnel == t || claim.tunnel == u) && (own || claim != Owns(t, self.relay)))
  }

  lemma {:induction false} NeverOwnedHere(self: Self, history: seq<Event>, t: string)
    requires forall i :: 0 <= i < |history| ==> ClaimOf(history[i]) != Owns(t, self.relay)
    ensures !OwnedHere(self, history, t)
  {
    if history != [] {
      var p := history[..|history| - 1];
      assert forall i :: 0 <= i < |p| ==> p[i] == history[i];
      NeverOwnedHere(self, p, t);
    }
  }

  lemma OverFollows(self: Self, own: bool, history: seq<Event>, t: string, u: string)
    requires Over(self, own, history, t, u) && !Collide(u, t) && (own ==> self.relay == "")
    ensures Follows(self, history, t)
  {
    forall i | 0 <= i < |history| ensures ClaimOf(history[i]) != Owns(t, self.relay) {
      assert ClaimOf(history[i]).Owns? ==> ClaimOf(history[i]).owner != "";
    }
    NeverOwnedHere(self, history, t);
    FollowsUnlessTakenOver(self, history, t);
  }

  /** Every history over two tunnels is routed by its last event exactly when the two do not share a
      default hostname and this gateway, if it has an ID, is never named as the owner. */
  lemma RoutesFollowIff(self: Self, own: bool, t: string, u: string)
    ensures (forall history :: Over(self, own, history, t, u) ==> Follows(self, history, t))
            <==> !Collide(u, t) && !(own && self.relay != "")
  {
    var peer := if self.relay == "a" then "b" else "a";
    if Collide(u, t) {
      CollisionMisroutes(self, t, u, peer);
      assert Over(self, own, [Grant(u, peer)], t, u);
    } else if own && self.relay != "" {
      TakeoverStaysRouted(self, t, peer);
      assert Over(self, own, [Grant(t, peer), Grant(t, self.relay)], t, u);
    } else {
      forall history | Over(self, own, history, t, u) ensures Follows(self, history, t) {
        OverFollows(self, own, history, t, u);
      }
    }
  }

  /** The full-map removal scan deletes just the tunnel's own hostname. */
  lemma ScanIsOneKey(self: Self, history: seq<Event>, tunnel: string)
    requires NoneCollides(self, history, tunnel)
    ensures Remove(After(self, history), tunnel).routes
            == After(self, history).routes - {HostnameForTunnel(self.domain, tunnel)}
  {
    var m, h := After(self, history), HostnameForTunnel(self.domain, tunnel);
    StaysPlaced(self, history);
    RoutesFollowPeers(self, history, tunnel);
  }
}
