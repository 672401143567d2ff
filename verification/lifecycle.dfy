/**
 Runs of endpoint operations, and what holds over a whole run rather than one call.
 */
module Lifecycle {
  import opened Wrappers
  import opened Events
  import opened Traffic
  import opened Endpoint
  import opened Binding

  /** One operation on the endpoint. */
  datatype Op =
    | Load(registerCaches: ZoneName -> bool)   // OnAllConfigLoaded
    | CacheZone(zone: Option<ZoneName>)        // SetCachedZone
    | Add(conn: Conn)                          // AddClient
    | Remove(conn: Conn)                       // RemoveClient
    | Send(bytes: Int32, now: int)             // AddMessageSent at time `now`
    | Receive(bytes: Int32, now: int)          // AddMessageReceived at time `now`

  /** Operations that change the client set. */
  predicate ClientOp(op: Op)
  {
    op.Add? || op.Remove?
  }

  /** Client-set changes read ApiListener::GetInstance()->IsMaster() without a null check,
      so a run may contain them only when the listener exists. */
  predicate ListenerFor(w: World, ops: seq<Op>)
  {
    w.listener.Some? || forall i :: 0 <= i < |ops| ==> !ClientOp(ops[i])
  }

  /** The requirement carries over to the rest of a run, since no operation changes the
      listener. */
  lemma ListenerForTail(w: World, ops: seq<Op>, w': World)
    requires ListenerFor(w, ops) && ops != [] && w'.listener == w.listener
    ensures ListenerFor(w', ops[1..])
  {
    if w.listener.None? {
      forall i | 0 <= i < |ops[1..]| ensures !ClientOp(ops[1..][i]) {
        assert ops[1..][i] == ops[i + 1];
      }
    }
  }

  /** The effect of one operation. */
  function Apply(w: World, op: Op, isMaster: MasterPredicate): (r: Step)
    requires ClientOp(op) ==> w.listener.Some?
    ensures r.world.listener == w.listener
    ensures r.world.name == w.name && r.world.zones == w.zones
  {
    match op
    case Load(registerCaches) => OnAllConfigLoaded(w, registerCaches)
    case CacheZone(zone) => Step(SetCachedZone(w, zone), [])
    case Add(c) => AddClient(w, c, isMaster)
    case Remove(c) => RemoveClient(w, c, isMaster)
    case Send(bytes, now) => Step(MessageSent(w, bytes, now), [])
    case Receive(bytes, now) => Step(MessageReceived(w, bytes, now), [])
  }

  /** The operations applied one after the other, their traces concatenated. */
  function Run(w: World, ops: seq<Op>, isMaster: MasterPredicate): Step
    requires ListenerFor(w, ops)
    decreases |ops|
  {
    if ops == [] then Step(w, [])
    else
      var first := Apply(w, ops[0], isMaster);
      ListenerForTail(w, ops, first.world);
      var rest := Run(first.world, ops[1..], isMaster);
      Step(rest.world, first.events + rest.events)
  }

  /** Once the zone cache is filled no run of operations reassigns it, and the endpoint's
      identity and its surroundings stay as they are. */
  lemma {:induction false} CacheNeverReassigned(w: World, ops: seq<Op>, isMaster: MasterPredicate)
    requires ListenerFor(w, ops)
    requires w.cachedZone.Some?
    ensures Run(w, ops, isMaster).world.cachedZone == w.cachedZone
    ensures Run(w, ops, isMaster).world.name == w.name
    ensures Run(w, ops, isMaster).world.zones == w.zones
    decreases |ops|
  {
    if ops != [] {
      var w1 := Apply(w, ops[0], isMaster).world;
      ListenerForTail(w, ops, w1);
      CacheNeverReassigned(w1, ops[1..], isMaster);
    }
  }

  /** Whether `c` is a client after `ops` when `member` says whether it was one before:
      the last Add or Remove of `c` decides. */
  function Member(c: Conn, ops: seq<Op>, member: bool): bool
    decreases |ops|
  {
    if ops == [] then member
    else Member(c, ops[1..],
                if ops[0] == Add(c) then true
                else if ops[0] == Remove(c) then false
                else member)
  }

  /** The client set after a run is determined by the Add and Remove operations alone. */
  lemma {:induction false} ClientsFollowAddRemove(w: World, ops: seq<Op>, isMaster: MasterPredicate, c: Conn)
    requires ListenerFor(w, ops)
    ensures c in Run(w, ops, isMaster).world.clients <==> Member(c, ops, c in w.clients)
    decreases |ops|
  {
    if ops != [] {
      var w1 := Apply(w, ops[0], isMaster).world;
      assert c in w1.clients <==>
        (if ops[0] == Add(c) then true else if ops[0] == Remove(c) then false else c in w.clients);
      ListenerForTail(w, ops, w1);
      ClientsFollowAddRemove(w1, ops[1..], isMaster, c);
    }
  }

  /** Over a run of client-set changes, a subscriber that starts from the role before the
      run and follows the MasterChanged notifications ends with the role after the run,
      and every notification it receives announces a real flip. */
  lemma {:induction false} RoleTracksMaster(w: World, ops: seq<Op>, isMaster: MasterPredicate)
    requires w.listener.Some?
    requires forall i :: 0 <= i < |ops| ==> ClientOp(ops[i])
    ensures Role(isMaster(w), Run(w, ops, isMaster).events) == isMaster(Run(w, ops, isMaster).world)
    ensures FlipsOnly(isMaster(w), Run(w, ops, isMaster).events)
    decreases |ops|
  {
    if ops != [] {
      var first := Apply(w, ops[0], isMaster);
      assert ClientOp(ops[0]);
      assert Role(isMaster(w), first.events) == isMaster(first.world);
      assert FlipsOnly(isMaster(w), first.events);
      var rest := Run(first.world, ops[1..], isMaster);
      ClientOpsTail(ops);
      RoleTracksMaster(first.world, ops[1..], isMaster);
      RoleAppend(isMaster(w), first.events, rest.events);
      FlipsOnlyAppend(isMaster(w), first.events, rest.events);
    }
  }

  /** The rest of a run of client-set changes is one too. */
  lemma ClientOpsTail(ops: seq<Op>)
    requires ops != [] && forall i :: 0 <= i < |ops| ==> ClientOp(ops[i])
    ensures forall i :: 0 <= i < |ops[1..]| ==> ClientOp(ops[1..][i])
  {
    forall i | 0 <= i < |ops[1..]| ensures ClientOp(ops[1..][i]) {
      assert ops[1..][i] == ops[i + 1];
    }
  }

  /** Over a run of client-set changes there is at most one MasterChanged per call, and
      their number is odd exactly when the role after the run differs from the role
      before it. */
  lemma {:induction false} MasterChangesOverRun(w: World, ops: seq<Op>, isMaster: MasterPredicate)
    requires w.listener.Some?
    requires forall i :: 0 <= i < |ops| ==> ClientOp(ops[i])
    ensures MasterChanges(Run(w, ops, isMaster).events) <= |ops|
    ensures MasterChanges(Run(w, ops, isMaster).events) % 2
         == (if isMaster(w) != isMaster(Run(w, ops, isMaster).world) then 1 else 0)
    decreases |ops|
  {
    if ops != [] {
      var first := Apply(w, ops[0], isMaster);
      var rest := Run(first.world, ops[1..], isMaster);
      assert Run(w, ops, isMaster) == Step(rest.world, first.events + rest.events);
      ClientStepFlips(w, ops[0], isMaster);
      ClientOpsTail(ops);
      MasterChangesOverRun(first.world, ops[1..], isMaster);
      FlipParity(first.events, rest.events, |ops[1..]|,
                 isMaster(w), isMaster(first.world), isMaster(rest.world));
    }
  }

  /** One client-set change announces a role flip exactly when it causes one. */
  lemma ClientStepFlips(w: World, op: Op, isMaster: MasterPredicate)
    requires w.listener.Some? && ClientOp(op)
    ensures MasterChanges(Apply(w, op, isMaster).events)
         == (if isMaster(w) != isMaster(Apply(w, op, isMaster).world) then 1 else 0)
  {
  }

  /** Parity of flips: one call's notifications followed by those of a run of `n` calls. */
  lemma FlipParity(first: seq<Event>, rest: seq<Event>, n: nat, a: bool, b: bool, c: bool)
    requires MasterChanges(first) == (if a != b then 1 else 0)
    requires MasterChanges(rest) <= n
    requires MasterChanges(rest) % 2 == (if b != c then 1 else 0)
    ensures MasterChanges(first + rest) <= n + 1
    ensures MasterChanges(first + rest) % 2 == (if a != c then 1 else 0)
  {
    MasterChangesAppend(first, rest);
  }

  /** Number of messages sent in a run. */
  function SentMessages(ops: seq<Op>): nat
    decreases |ops|
  {
    if ops == [] then 0 else (if ops[0].Send? then 1 else 0) + SentMessages(ops[1..])
  }

  /** Number of bytes sent in a run. */
  function SentBytes(ops: seq<Op>): int
    decreases |ops|
  {
    if ops == [] then 0 else (if ops[0].Send? then ops[0].bytes as int else 0) + SentBytes(ops[1..])
  }

  /** The sending logs account for every message and every byte sent during a run, and the
      message log keeps holding unit samples only. */
  lemma {:induction false} SentTotals(w: World, ops: seq<Op>, isMaster: MasterPredicate)
    requires ListenerFor(w, ops)
    requires Valid(w.traffic)
    ensures var t := Run(w, ops, isMaster).world.traffic;
            Valid(t) &&
            |t.messagesSent| == |w.traffic.messagesSent| + SentMessages(ops) &&
            Total(t.bytesSent) == Total(w.traffic.bytesSent) + SentBytes(ops)
    decreases |ops|
  {
    if ops != [] {
      var w1 := Apply(w, ops[0], isMaster).world;
      assert Valid(w1.traffic);
      ListenerForTail(w, ops, w1);
      SentTotals(w1, ops[1..], isMaster);
    }
  }

  /** Number of messages received in a run. */
  function ReceivedMessages(ops: seq<Op>): nat
    decreases |ops|
  {
    if ops == [] then 0 else (if ops[0].Receive? then 1 else 0) + ReceivedMessages(ops[1..])
  }

  /** Number of bytes received in a run. */
  function ReceivedBytes(ops: seq<Op>): int
    decreases |ops|
  {
    if ops == [] then 0 else (if ops[0].Receive? then ops[0].bytes as int else 0) + ReceivedBytes(ops[1..])
  }

  /** The receiving logs account for every message and every byte received during a run,
      and the message log keeps holding unit samples only. */
  lemma {:induction false} ReceivedTotals(w: World, ops: seq<Op>, isMaster: MasterPredicate)
    requires ListenerFor(w, ops)
    requires Valid(w.traffic)
    ensures var t := Run(w, ops, isMaster).world.traffic;
            Valid(t) &&
            |t.messagesReceived| == |w.traffic.messagesReceived| + ReceivedMessages(ops) &&
            Total(t.bytesReceived) == Total(w.traffic.bytesReceived) + ReceivedBytes(ops)
    decreases |ops|
  {
    if ops != [] {
      var w1 := Apply(w, ops[0], isMaster).world;
      assert Valid(w1.traffic);
      ListenerForTail(w, ops, w1);
      ReceivedTotals(w1, ops[1..], isMaster);
    }
  }
}
