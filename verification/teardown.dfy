/**
 Endpoint::Stop: tearing an endpoint down when it is removed at runtime or at shutdown.
 */
module Teardown {
  import opened Wrappers
  import opened Events
  import opened Endpoint

  /** Endpoint::Stop. Disconnect() is called once on every client of a snapshot of the
      client set, in the snapshot's order, then the endpoint leaves its zone if it has one.
      The state itself is not changed here: the model assumes each Disconnect() is later
      followed by a separate RemoveClient. */
  method Stop(w: World) returns (events: seq<Event>)
    ensures |events| == |w.clients| + (if w.cachedZone.Some? then 1 else 0)
    ensures forall i :: 0 <= i < |w.clients| ==> events[i].DisconnectCalled?
    ensures forall c: Conn :: multiset(events)[DisconnectCalled(c)] == (if c in w.clients then 1 else 0)
    ensures w.cachedZone.Some? ==> events[|events| - 1] == RemoveFromZone(w.cachedZone.value)
    ensures forall z :: RemoveFromZone(z) in events <==> w.cachedZone == Some(z)
  {
    var snapshot := GetClients(w);
    var rest := snapshot;
    var issued: seq<Event> := [];
    while rest != {}
      invariant rest <= snapshot
      invariant |issued| + |rest| == |snapshot|
      invariant forall i :: 0 <= i < |issued| ==> issued[i].DisconnectCalled?
      invariant forall c: Conn :: multiset(issued)[DisconnectCalled(c)] ==
                  (if c in snapshot && c !in rest then 1 else 0)
      decreases rest
    {
      var c :| c in rest;
      issued := issued + [DisconnectCalled(c)];
      rest := rest - {c};
    }
    var leave := if w.cachedZone.Some? then [RemoveFromZone(w.cachedZone.value)] else [];
    assert forall e :: e in issued ==> e.DisconnectCalled?;
    events := issued + leave;
  }
}
