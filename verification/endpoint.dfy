/**
 The state of one endpoint together with the parts of its surroundings its operations
 read, and the operations on its zone cache and its client set (lib/remote/endpoint.cpp).
 */
module Endpoint {
  import opened Wrappers
  import opened Events
  import opened Traffic

  /** The listener's view the endpoint consults: its anonymous (unidentified) clients,
      in the order GetAnonymousClients() hands them out. */
  datatype Listener = Listener(anonymousClients: seq<Conn>)

  /** One endpoint and its surroundings.
      - `zoneName`: the configured zone-name attribute, rewritten at load time;
      - `cachedZone`: m_Zone, the resolved zone, filled at most once;
      - `clients`: m_Clients; `connecting`: the Connecting attribute;
      - `zones`: the zone table, name to optional parent name;
      - `localZone`: Zone::GetLocalZone(); `listener`: ApiListener::GetInstance(). */
  datatype World = World(
    name: string,
    zoneName: string,
    cachedZone: Option<ZoneName>,
    clients: set<Conn>,
    connecting: bool,
    traffic: TrafficLog,
    zones: map<ZoneName, Option<ZoneName>>,
    localZone: Option<ZoneName>,
    listener: Option<Listener>)

  /** The outcome of an operation: the new state and what it emitted, in order. */
  datatype Step = Step(world: World, events: seq<Event>)

  /** ApiListener::IsMaster() is not part of this model: operations take it as a predicate
      over the whole state. */
  type MasterPredicate = World -> bool

  /** Endpoint::SetCachedZone: the cache takes `zone` only while it is still empty. */
  function SetCachedZone(w: World, zone: Option<ZoneName>): (r: World)
    ensures w.cachedZone.Some? ==> r == w
    ensures w.cachedZone.None? ==> r.cachedZone == zone
    ensures r == w.(cachedZone := r.cachedZone)
  {
    if w.cachedZone.None? then w.(cachedZone := zone) else w
  }

  /** The first non-null zone among `zones`, or none: what a series of writes into an
      empty first-write-wins cache should end with. */
  function FirstSome(zones: seq<Option<ZoneName>>): Option<ZoneName>
  {
    if zones == [] then None
    else if zones[0].Some? then zones[0] else FirstSome(zones[1..])
  }

  /** A series of SetCachedZone calls. */
  function SetCachedZones(w: World, zones: seq<Option<ZoneName>>): World
    decreases |zones|
  {
    if zones == [] then w else SetCachedZones(SetCachedZone(w, zones[0]), zones[1..])
  }

  /** First write wins: after any series of writes the cache holds what it held before if
      that was set, and otherwise the first non-null zone written; nothing else changes. */
  lemma {:induction false} FirstWriteWins(w: World, zones: seq<Option<ZoneName>>)
    ensures SetCachedZones(w, zones).cachedZone
         == (if w.cachedZone.Some? then w.cachedZone else FirstSome(zones))
    ensures SetCachedZones(w, zones) == w.(cachedZone := SetCachedZones(w, zones).cachedZone)
    decreases |zones|
  {
    if zones != [] {
      FirstWriteWins(SetCachedZone(w, zones[0]), zones[1..]);
    }
  }

  /** Endpoint::GetZone: the cached zone. */
  function GetZone(w: World): (r: Option<ZoneName>)
    ensures r.Some? <==> w.cachedZone.Some?
    ensures r.Some? ==> r.value == w.cachedZone.value
  {
    w.cachedZone
  }

  /** Endpoint::GetClients: a copy of the client set. */
  function GetClients(w: World): (r: set<Conn>)
    ensures forall c :: c in r <==> c in w.clients
  {
    w.clients
  }

  /** Endpoint::GetConnected: whether any client is connected. */
  function GetConnected(w: World): (r: bool)
    ensures r <==> exists c :: c in w.clients
  {
    |w.clients| != 0
  }

  /** The notifications of a client-set change: `MasterChanged(isMaster)` when the role
      read before differs from the one read after, then `last`. */
  function Notify(wasMaster: bool, isMaster: bool, last: Event): (r: seq<Event>)
    requires !last.MasterChanged?
    ensures MasterChanges(r) == (if wasMaster != isMaster then 1 else 0)
    ensures 0 < |r| && r[|r| - 1] == last
    ensures forall i :: 0 <= i < |r| - 1 ==> r[i] == MasterChanged(isMaster)
    ensures Role(wasMaster, r) == isMaster
    ensures FlipsOnly(wasMaster, r)
  {
    if wasMaster != isMaster then
      assert [last][1..] == [];
      assert MasterChanges([last]) == 0 && Role(isMaster, [last]) == isMaster;
      assert FlipsOnly(isMaster, [last]);
      assert [MasterChanged(isMaster), last][1..] == [last];
      [MasterChanged(isMaster), last]
    else
      assert [last][1..] == [];
      [last]
  }

  /** Endpoint::AddClient: `c` joins the client set and nothing else changes; the master
      role is read before and after and a change is announced exactly once, before the
      one `Connected(c)` that closes the trace. */
  function AddClient(w: World, c: Conn, isMaster: MasterPredicate): (r: Step)
    requires w.listener.Some?
    ensures r.world.clients == w.clients + {c}
    ensures r.world == w.(clients := r.world.clients)
    ensures MasterChanges(r.events) == (if isMaster(w) != isMaster(r.world) then 1 else 0)
    ensures forall i :: 0 <= i < |r.events| - 1 ==> r.events[i] == MasterChanged(isMaster(r.world))
    ensures 0 < |r.events| && r.events[|r.events| - 1] == Connected(c)
    ensures Role(isMaster(w), r.events) == isMaster(r.world)
    ensures FlipsOnly(isMaster(w), r.events)
  {
    var wasMaster := isMaster(w);
    var w' := w.(clients := w.clients + {c});
    Step(w', Notify(wasMaster, isMaster(w'), Connected(c)))
  }

  /** Endpoint::RemoveClient: `c` leaves the client set (a no-op on the set when absent) and
      the endpoint stops connecting; role notification as in AddClient, and the one
      `Disconnected(c)` closes the trace even when `c` was not a client. */
  function RemoveClient(w: World, c: Conn, isMaster: MasterPredicate): (r: Step)
    requires w.listener.Some?
    ensures r.world.clients == w.clients - {c}
    ensures c !in w.clients ==> r.world.clients == w.clients
    ensures !r.world.connecting
    ensures r.world == w.(clients := r.world.clients, connecting := false)
    ensures MasterChanges(r.events) == (if isMaster(w) != isMaster(r.world) then 1 else 0)
    ensures forall i :: 0 <= i < |r.events| - 1 ==> r.events[i] == MasterChanged(isMaster(r.world))
    ensures 0 < |r.events| && r.events[|r.events| - 1] == Disconnected(c)
    ensures Role(isMaster(w), r.events) == isMaster(r.world)
    ensures FlipsOnly(isMaster(w), r.events)
  {
    var wasMaster := isMaster(w);
    var w' := w.(clients := w.clients - {c}, connecting := false);
    Step(w', Notify(wasMaster, isMaster(w'), Disconnected(c)))
  }

  /** Adding a new client and removing it again restores the client set, and an endpoint
      that had no clients is disconnected again. */
  lemma AddRemoveRoundTrip(w: World, c: Conn, isMaster: MasterPredicate)
    requires w.listener.Some?
    requires c !in w.clients
    ensures GetClients(RemoveClient(AddClient(w, c, isMaster).world, c, isMaster).world) == GetClients(w)
    ensures GetConnected(AddClient(w, c, isMaster).world)
    ensures GetConnected(RemoveClient(AddClient(w, c, isMaster).world, c, isMaster).world) == GetConnected(w)
  {
    var w1 := AddClient(w, c, isMaster).world;
    assert c in w1.clients;
  }

  /** Endpoint::AddMessageSent at time `now` on the endpoint's traffic logs. */
  function MessageSent(w: World, bytes: Int32, now: int): (r: World)
    ensures r.traffic.messagesSent == w.traffic.messagesSent + [Sample(now, 1)]
    ensures r.traffic.bytesSent == w.traffic.bytesSent + [Sample(now, bytes as int)]
    ensures Total(r.traffic.bytesSent) == Total(w.traffic.bytesSent) + bytes as int
    ensures r.traffic.lastMessageSent == now
    ensures r.traffic.messagesReceived == w.traffic.messagesReceived
    ensures r.traffic.bytesReceived == w.traffic.bytesReceived
    ensures r.traffic.lastMessageReceived == w.traffic.lastMessageReceived
    ensures r == w.(traffic := r.traffic)
  {
    w.(traffic := AddMessageSent(w.traffic, bytes, now))
  }

  /** Endpoint::AddMessageReceived at time `now` on the endpoint's traffic logs. */
  function MessageReceived(w: World, bytes: Int32, now: int): (r: World)
    ensures r.traffic.messagesReceived == w.traffic.messagesReceived + [Sample(now, 1)]
    ensures r.traffic.bytesReceived == w.traffic.bytesReceived + [Sample(now, bytes as int)]
    ensures Total(r.traffic.bytesReceived) == Total(w.traffic.bytesReceived) + bytes as int
    ensures r.traffic.lastMessageReceived == now
    ensures r.traffic.messagesSent == w.traffic.messagesSent
    ensures r.traffic.bytesSent == w.traffic.bytesSent
    ensures r.traffic.lastMessageSent == w.traffic.lastMessageSent
    ensures r == w.(traffic := r.traffic)
  {
    w.(traffic := AddMessageReceived(w.traffic, bytes, now))
  }
}
