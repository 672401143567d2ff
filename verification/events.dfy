/**
 Connections and the events an endpoint operation emits, in the order it emits them.
 */
module Events {

  /** Zones are addressed by their unique name. */
  type ZoneName = string

  /** A JSON-RPC session: a handle (its identity as a set key) and the peer name it claims. */
  datatype Conn = Conn(handle: nat, identity: string)

  /** Everything an endpoint operation makes visible outside the endpoint object. */
  datatype Event =
    | MasterChanged(isMaster: bool)       // ApiListener::OnMasterChanged(b)
    | Connected(conn: Conn)               // Endpoint::OnConnected(this, c)
    | Disconnected(conn: Conn)            // Endpoint::OnDisconnected(this, c)
    | DisconnectCalled(conn: Conn)        // c->Disconnect()
    | AddToZone(zone: ZoneName)           // zone->AddEndpoint(this)
    | AddConnection                       // listener->AddConnection(this)
    | RemoveFromZone(zone: ZoneName)      // m_Zone->RemoveEndpoint(this)
    | Error(message: string)              // a thrown ScriptError

  /** Number of master-role notifications in a trace. */
  function MasterChanges(es: seq<Event>): nat
  {
    if es == [] then 0
    else (if es[0].MasterChanged? then 1 else 0) + MasterChanges(es[1..])
  }

  /** Master-role notifications are counted piecewise over a concatenated trace. */
  lemma {:induction false} MasterChangesAppend(a: seq<Event>, b: seq<Event>)
    ensures MasterChanges(a + b) == MasterChanges(a) + MasterChanges(b)
  {
    if a == [] {
      assert a + b == b;
    } else {
      assert (a + b)[1..] == a[1..] + b;
      MasterChangesAppend(a[1..], b);
    }
  }

  /** The master role a subscriber believes in after seeing `es`, starting from `role`:
      the value of the last `MasterChanged` event, or `role` when there is none. */
  function Role(role: bool, es: seq<Event>): bool
    decreases |es|
  {
    if es == [] then role
    else Role(if es[0].MasterChanged? then es[0].isMaster else role, es[1..])
  }

  /** A subscriber's belief can be computed trace piece by trace piece. */
  lemma {:induction false} RoleAppend(role: bool, a: seq<Event>, b: seq<Event>)
    ensures Role(role, a + b) == Role(Role(role, a), b)
    decreases |a|
  {
    if a == [] {
      assert a + b == b;
    } else {
      assert (a + b)[1..] == a[1..] + b;
      RoleAppend(if a[0].MasterChanged? then a[0].isMaster else role, a[1..], b);
    }
  }

  /** Every master-role notification in `es` announces a real flip of the role a
      subscriber holds at that point: no notification is a duplicate. */
  predicate FlipsOnly(role: bool, es: seq<Event>)
    decreases |es|
  {
    es == [] ||
    ((es[0].MasterChanged? ==> es[0].isMaster != role) &&
     FlipsOnly(if es[0].MasterChanged? then es[0].isMaster else role, es[1..]))
  }

  /** Two flip-only traces chain into a flip-only trace. */
  lemma {:induction false} FlipsOnlyAppend(role: bool, a: seq<Event>, b: seq<Event>)
    requires FlipsOnly(role, a)
    requires FlipsOnly(Role(role, a), b)
    ensures FlipsOnly(role, a + b)
    decreases |a|
  {
    if a == [] {
      assert a + b == b;
    } else {
      assert (a + b)[1..] == a[1..] + b;
      FlipsOnlyAppend(if a[0].MasterChanged? then a[0].isMaster else role, a[1..], b);
    }
  }
}
