/**
 Endpoint::OnAllConfigLoaded: binding an endpoint to its zone once all configuration
 objects exist, rewriting its zone-name attribute to the parent zone, and, for a direct
 child of the local zone, replacing stale anonymous sessions with an active connection.
 */
module Binding {
  import opened Wrappers
  import opened Events
  import opened Endpoint

  /** The text of the error thrown for a zone name that names no zone. */
  function UnknownZoneMessage(endpoint: string, zone: ZoneName): string
  {
    "Endpoint '" + endpoint + "' cannot belong to zone '" + zone + "', zone does not exist."
  }

  /** The text of the error thrown for an endpoint left without a zone. */
  function NoZoneMessage(endpoint: string): string
  {
    "Endpoint '" + endpoint + "' does not belong to a zone."
  }

  /** `part` occurs in `text`. */
  predicate Mentions(text: string, part: string)
  {
    exists i :: 0 <= i <= |text| && part <= text[i..]
  }

  /** The unknown-zone error names both the endpoint and the zone; the no-zone error names
      the endpoint. */
  lemma ErrorsNameTheirSubjects(endpoint: string, zone: ZoneName)
    ensures Mentions(UnknownZoneMessage(endpoint, zone), endpoint)
    ensures Mentions(UnknownZoneMessage(endpoint, zone), zone)
    ensures Mentions(NoZoneMessage(endpoint), endpoint)
  {
    var m := UnknownZoneMessage(endpoint, zone);
    assert m[10..] == endpoint + "' cannot belong to zone '" + zone + "', zone does not exist.";
    assert endpoint <= m[10..];
    var k := 10 + |endpoint| + 25;
    assert m[k..] == zone + "', zone does not exist.";
    assert zone <= m[k..];
    var n := NoZoneMessage(endpoint);
    assert n[10..] == endpoint + "' does not belong to a zone.";
    assert endpoint <= n[10..];
  }

  /** The Disconnect() calls on the anonymous clients whose claimed identity is the
      endpoint's name. */
  function Evictions(anonymous: seq<Conn>, name: string): (r: seq<Event>)
    ensures |r| <= |anonymous|
    ensures forall e :: e in r ==> e.DisconnectCalled? && e.conn in anonymous && e.conn.identity == name
    ensures forall c: Conn :: c.identity == name ==> multiset(r)[DisconnectCalled(c)] == multiset(anonymous)[c]
  {
    if anonymous == [] then []
    else
      var rest := Evictions(anonymous[1..], name);
      assert anonymous == [anonymous[0]] + anonymous[1..];
      if anonymous[0].identity == name then [DisconnectCalled(anonymous[0])] + rest else rest
  }

  /** The zone name resolves through Zone::GetByName. */
  predicate Resolves(w: World)
  {
    w.zoneName != "" && w.zoneName in w.zones
  }

  /** The zone name is set but resolves to no zone. */
  predicate Unresolvable(w: World)
  {
    w.zoneName != "" && w.zoneName !in w.zones
  }

  /** The endpoint's zone resolves and its parent is the local zone (both absent counts
      as equal), and a listener exists: the endpoint is to be connected actively. */
  predicate Reconnects(w: World)
  {
    Resolves(w) && w.zones[w.zoneName] == w.localZone && w.listener.Some?
  }

  /** Whether the load failed. */
  predicate Failed(es: seq<Event>)
  {
    exists i :: 0 <= i < |es| && es[i].Error?
  }

  /** The final check: an error when the cache is still empty. */
  function ZoneCheck(w: World): (r: seq<Event>)
    ensures r == [] || r == [Error(NoZoneMessage(w.name))]
    ensures r != [] <==> w.cachedZone.None?
  {
    if w.cachedZone.None? then [Error(NoZoneMessage(w.name))] else []
  }

  /** Evicting stale anonymous sessions, then asking the listener to connect. */
  function Reconnect(w: World): (r: seq<Event>)
    requires w.listener.Some?
    ensures 0 < |r| && r[|r| - 1] == AddConnection
    ensures forall i :: 0 <= i < |r| - 1 ==> r[i].DisconnectCalled?
  {
    var ev := Evictions(w.listener.value.anonymousClients, w.name);
    assert forall i :: 0 <= i < |ev| ==> ev[i] in ev;
    ev + [AddConnection]
  }

  /** Endpoint::OnAllConfigLoaded. `registerCaches(z)` says whether Zone::AddEndpoint, whose
      body is not part of this model, fills the endpoint's zone cache with `z` by calling
      SetCachedZone; the final check reads the cache after that hook. */
  function OnAllConfigLoaded(w: World, registerCaches: ZoneName -> bool): (r: Step)
    // A set zone name that resolves to nothing fails at once, naming endpoint and zone:
    // no registration, no rewrite, no connection.
    ensures Unresolvable(w) ==>
              r.world == w && r.events == [Error(UnknownZoneMessage(w.name, w.zoneName))]
    // The cache is only ever filled, with the resolved zone, and never overwritten.
    ensures w.cachedZone.Some? ==> r.world.cachedZone == w.cachedZone
    ensures w.cachedZone.None? && r.world.cachedZone.Some? ==>
              Resolves(w) && r.world.cachedZone == Some(w.zoneName)
    ensures Resolves(w) && registerCaches(w.zoneName) ==> r.world.cachedZone.Some?
    ensures w.cachedZone.None? ==>
              (r.world.cachedZone.Some? <==> Resolves(w) && registerCaches(w.zoneName))
    // The zone-name attribute becomes the parent's name when there is a parent.
    ensures Resolves(w) && w.zones[w.zoneName].Some? ==>
              r.world.zoneName == w.zones[w.zoneName].value
    ensures !(Resolves(w) && w.zones[w.zoneName].Some?) ==> r.world.zoneName == w.zoneName
    // Nothing else about the endpoint or its surroundings changes.
    ensures r.world == w.(zoneName := r.world.zoneName, cachedZone := r.world.cachedZone)
  {
    if w.zoneName == "" then
      Step(w, ZoneCheck(w))
    else if w.zoneName !in w.zones then
      Step(w, [Error(UnknownZoneMessage(w.name, w.zoneName))])
    else
      var bound := BindWorld(w, registerCaches(w.zoneName));
      Step(bound, BindEvents(w, bound))
  }

  /** The state after a resolved zone is bound: Zone::AddEndpoint's hook may fill the cache
      (`caches`), then the zone-name attribute is rewritten to the parent's name. */
  function BindWorld(w: World, caches: bool): World
    requires Resolves(w)
  {
    var zone := w.zoneName;
    var parent := w.zones[zone];
    var registered := if caches then SetCachedZone(w, Some(zone)) else w;
    if parent.Some? then registered.(zoneName := parent.value) else registered
  }

  /** The trace of a load whose zone resolves, ending in the check of the state `bound`:
      registration, the reconnect when the parent is local, then the final check. */
  function BindEvents(w: World, bound: World): seq<Event>
    requires Resolves(w)
  {
    [AddToZone(w.zoneName)] + (if Reconnects(w) then Reconnect(w) else []) + ZoneCheck(bound)
  }

  /** Load failures: an unresolvable zone name fails with the unknown-zone error alone;
      otherwise the load fails exactly when the cache is empty at the end, with the
      no-zone error as the last event; a failure always ends the trace. */
  lemma LoadFailure(w: World, registerCaches: ZoneName -> bool)
    ensures var r := OnAllConfigLoaded(w, registerCaches);
            Unresolvable(w) ==> Failed(r.events) && r.events[|r.events| - 1] == Error(UnknownZoneMessage(w.name, w.zoneName))
    ensures var r := OnAllConfigLoaded(w, registerCaches);
            !Unresolvable(w) ==> (Failed(r.events) <==> r.world.cachedZone.None?)
    ensures var r := OnAllConfigLoaded(w, registerCaches);
            !Unresolvable(w) && r.world.cachedZone.None? ==>
              r.events[|r.events| - 1] == Error(NoZoneMessage(w.name))
    ensures var r := OnAllConfigLoaded(w, registerCaches);
            forall i :: 0 <= i < |r.events| - 1 ==> !r.events[i].Error?
  {
    var r := OnAllConfigLoaded(w, registerCaches);
    if Unresolvable(w) {
      assert r.events[0].Error?;
    } else if w.zoneName == "" {
      assert r.events == ZoneCheck(w);
      if r.world.cachedZone.None? {
        assert r.events[0].Error?;
      }
    } else {
      assert r.events == BindEvents(w, r.world);
      var connect := if Reconnects(w) then Reconnect(w) else [];
      var head := [AddToZone(w.zoneName)] + connect;
      assert forall i :: 0 <= i < |head| ==> !head[i].Error?;
      var check := ZoneCheck(r.world);
      assert r.events == head + check;
      if r.world.cachedZone.None? {
        assert r.events[|r.events| - 1].Error?;
      } else {
        assert r.events == head;
      }
    }
  }

  /** A load emits nothing but the registration, the evictions, the connection request and
      its errors: in particular no client or master-role notification. */
  lemma LoadEventKinds(w: World, registerCaches: ZoneName -> bool)
    ensures var r := OnAllConfigLoaded(w, registerCaches);
            forall e :: e in r.events ==>
              e == AddToZone(w.zoneName) || e.DisconnectCalled? || e == AddConnection || e.Error?
  {
    var r := OnAllConfigLoaded(w, registerCaches);
    if Resolves(w) {
      assert r.events == BindEvents(w, r.world);
      var check := ZoneCheck(r.world);
      if Reconnects(w) {
        var ev := Evictions(w.listener.value.anonymousClients, w.name);
        assert r.events == [AddToZone(w.zoneName)] + ev + [AddConnection] + check;
      } else {
        assert r.events == [AddToZone(w.zoneName)] + check;
      }
    }
  }

  /** The endpoint registers with its zone exactly when the zone name resolves, and the
      registration is the first thing that happens. */
  lemma LoadRegistration(w: World, registerCaches: ZoneName -> bool)
    ensures var r := OnAllConfigLoaded(w, registerCaches);
            (exists z :: AddToZone(z) in r.events) <==> Resolves(w)
    ensures var r := OnAllConfigLoaded(w, registerCaches);
            Resolves(w) ==> r.events[0] == AddToZone(w.zoneName) && multiset(r.events)[AddToZone(w.zoneName)] == 1
  {
    var r := OnAllConfigLoaded(w, registerCaches);
    if Resolves(w) {
      assert r.events == BindEvents(w, r.world);
      var connect := if Reconnects(w) then Reconnect(w) else [];
      assert forall e :: e in connect ==> e.DisconnectCalled? || e == AddConnection;
      assert r.events == [AddToZone(w.zoneName)] + (connect + ZoneCheck(r.world));
      assert r.events[0] == AddToZone(w.zoneName);
    } else {
      assert forall e :: e in r.events ==> e.Error?;
    }
  }

  /** Order in a reconnecting trace: every Disconnect() precedes the connection request. */
  lemma DisconnectsPrecedeConnect(es: seq<Event>, head: Event, ev: seq<Event>, check: seq<Event>)
    requires es == [head] + ev + [AddConnection] + check
    requires head.AddToZone?
    requires forall e :: e in ev ==> e.DisconnectCalled?
    requires forall e :: e in check ==> e.Error?
    ensures forall i, j ::
              (0 <= i < |es| && 0 <= j < |es| &&
               es[i].DisconnectCalled? && es[j] == AddConnection) ==> i < j
  {
    var k := 1 + |ev|;
    assert es[0] == head && es[k] == AddConnection;
    assert forall m :: 1 <= m < k ==> es[m] == ev[m - 1] && es[m] in ev;
    assert forall m :: k < m < |es| ==> es[m] == check[m - k - 1] && es[m] in check;
  }

  /** The bound trace requests a connection once exactly when the endpoint reconnects. */
  lemma BindEventsConnect(w: World, bound: World)
    requires Resolves(w)
    ensures multiset(BindEvents(w, bound))[AddConnection] == (if Reconnects(w) then 1 else 0)
  {
    var check := ZoneCheck(bound);
    assert AddConnection !in check;
    if Reconnects(w) {
      var ev := Evictions(w.listener.value.anonymousClients, w.name);
      assert BindEvents(w, bound) == [AddToZone(w.zoneName)] + ev + [AddConnection] + check;
      assert AddConnection !in ev;
    }
  }

  /** The bound trace disconnects exactly the anonymous clients claiming the endpoint's
      name, and only when the endpoint reconnects. */
  lemma BindEventsEvict(w: World, bound: World, c: Conn)
    requires Resolves(w)
    ensures multiset(BindEvents(w, bound))[DisconnectCalled(c)] ==
              (if Reconnects(w) && c.identity == w.name
               then multiset(w.listener.value.anonymousClients)[c] else 0)
  {
    var check := ZoneCheck(bound);
    assert DisconnectCalled(c) !in check;
    if Reconnects(w) {
      var ev := Evictions(w.listener.value.anonymousClients, w.name);
      assert BindEvents(w, bound) == [AddToZone(w.zoneName)] + ev + [AddConnection] + check;
      if c.identity != w.name {
        assert DisconnectCalled(c) !in ev;
      }
    }
  }

  /** In the bound trace every Disconnect() precedes the connection request. */
  lemma BindEventsOrder(w: World, bound: World)
    requires Resolves(w)
    ensures forall i, j ::
              (0 <= i < |BindEvents(w, bound)| && 0 <= j < |BindEvents(w, bound)| &&
               BindEvents(w, bound)[i].DisconnectCalled? && BindEvents(w, bound)[j] == AddConnection) ==> i < j
  {
    var es := BindEvents(w, bound);
    var check := ZoneCheck(bound);
    if Reconnects(w) {
      var ev := Evictions(w.listener.value.anonymousClients, w.name);
      assert es == [AddToZone(w.zoneName)] + ev + [AddConnection] + check;
      DisconnectsPrecedeConnect(es, AddToZone(w.zoneName), ev, check);
    } else {
      assert es == [AddToZone(w.zoneName)] + check;
      assert forall e :: e in es ==> !e.DisconnectCalled?;
    }
  }

  /** The reconnect of a load: exactly one connection request, only for a child of the
      local zone when a listener exists, preceded by one Disconnect() per anonymous client
      claiming the endpoint's name and by none for any other session. */
  lemma LoadReconnect(w: World, registerCaches: ZoneName -> bool)
    ensures var r := OnAllConfigLoaded(w, registerCaches);
            multiset(r.events)[AddConnection] == (if Reconnects(w) then 1 else 0)
    ensures var r := OnAllConfigLoaded(w, registerCaches);
            forall c: Conn :: multiset(r.events)[DisconnectCalled(c)] ==
              (if Reconnects(w) && c.identity == w.name
               then multiset(w.listener.value.anonymousClients)[c] else 0)
    ensures var r := OnAllConfigLoaded(w, registerCaches);
            forall i, j ::
              (0 <= i < |r.events| && 0 <= j < |r.events| &&
               r.events[i].DisconnectCalled? && r.events[j] == AddConnection) ==> i < j
  {
    var r := OnAllConfigLoaded(w, registerCaches);
    if Resolves(w) {
      assert r.events == BindEvents(w, r.world);
      BindEventsConnect(w, r.world);
      forall c: Conn {
        BindEventsEvict(w, r.world, c);
      }
      BindEventsOrder(w, r.world);
    } else {
      assert forall e :: e in r.events ==> e.Error?;
    }
  }
}
