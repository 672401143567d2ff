/**
 Concrete configurations: a satellite endpoint, an endpoint without a zone, and a direct
 child of the local zone with a stale anonymous session.
 */
module Scenarios {
  import opened Wrappers
  import opened Events
  import opened Traffic
  import opened Endpoint
  import opened Binding

  const NoTraffic := TrafficLog([], [], [], [], 0, 0)

  /** Zone "satellite" has parent "master", which is a root. */
  const Zones: map<ZoneName, Option<ZoneName>> := map["satellite" := Some("master"), "master" := None]

  /** An unbound endpoint called `name` configured with zone `zone`. */
  function Fresh(name: string, zone: string, local: Option<ZoneName>, listener: Option<Listener>): World
  {
    World(name, zone, None, {}, false, NoTraffic, Zones, local, listener)
  }

  /** Endpoint "node-1" in zone "satellite": it stays in "satellite" and its zone-name
      attribute becomes "master". */
  lemma SatelliteBinding()
    ensures var r := OnAllConfigLoaded(Fresh("node-1", "satellite", Some("satellite"), None), z => true);
            GetZone(r.world) == Some("satellite") && r.world.zoneName == "master" &&
            r.events == [AddToZone("satellite")]
  {
  }

  /** Endpoint "orphan" without a zone name fails with the no-zone error naming it. */
  lemma OrphanFails()
    ensures var r := OnAllConfigLoaded(Fresh("orphan", "", Some("master"), None), z => true);
            r.events == [Error(NoZoneMessage("orphan"))] && Mentions(r.events[0].message, "orphan")
  {
    ErrorsNameTheirSubjects("orphan", "");
  }

  /** Endpoint "node-1" in a child of the local zone "master": the anonymous session that
      claims "node-1" is disconnected, the other is left alone, then a connection is
      requested. */
  lemma LocalChildReconnects()
    ensures var stale := Conn(1, "node-1");
            var other := Conn(2, "node-2");
            var r := OnAllConfigLoaded(Fresh("node-1", "satellite", Some("master"), Some(Listener([stale, other]))), z => true);
            r.events == [AddToZone("satellite"), DisconnectCalled(stale), AddConnection]
  {
    var stale := Conn(1, "node-1");
    var other := Conn(2, "node-2");
    assert Evictions([stale, other], "node-1") == [DisconnectCalled(stale)] by {
      assert [stale, other][1..] == [other];
      assert [other][1..] == [];
    }
  }
}
