# Icinga 2 endpoint lifecycle, modelled in Dafny

This project models the lifecycle of one cluster endpoint of Icinga 2
(`lib/remote/endpoint.cpp`): binding the endpoint to its zone once all configuration is
loaded, its first-write-wins zone cache, its set of JSON-RPC client connections with the
master-role and connect/disconnect notifications, its teardown, and its traffic sample logs.

Every operation is a pure transition over an immutable `World` record (the endpoint and the
parts of its surroundings it reads: the zone table, the local zone, the API listener's
anonymous clients). It returns the new state and the trace of events it emits, in order:
`MasterChanged(b)`, `Connected(c)`, `Disconnected(c)`, `DisconnectCalled(c)`,
`AddToZone(z)`, `AddConnection`, `RemoveFromZone(z)` and `Error(message)`.

Abstractions:
- `ApiListener::IsMaster()` is a parameter `isMaster: World -> bool`. It is read before and after each client-set change, as the source does.
- `Zone::AddEndpoint` has no body in this model. It is the `AddToZone` event plus a hook `registerCaches: ZoneName -> bool`. The hook says whether registration fills the endpoint's zone cache through `SetCachedZone`. The final "does not belong to a zone" check reads the cache after that hook.
- Zones are addressed by name. The zone table maps a name to its optional parent name. `parent == local` compares two optional names, so two absent zones compare equal, as two null pointers do.
- `JsonRpcConnection::Disconnect`, `ApiListener::AddConnection` and `Zone::RemoveEndpoint` are trace events only.
- Time is an integer parameter instead of `Utility::GetTime()`. Byte counts are a 32-bit `Int32`, matching the source's `int`.
- A thrown `ScriptError` is an `Error(message)` event that ends the trace. The state at the throw point is returned with it.

Modules: `Wrappers` (Option), `Events` (connections, events, trace counting), `Traffic`
(sample logs), `Endpoint` (state, zone cache, client set), `Binding` (config-load binding),
`Teardown` (Stop), `Lifecycle` (runs of operations), `Scenarios` (concrete configurations).

Behaviours of the source worth noting:
- The "does not belong to a zone" error names only the endpoint, not a zone (lines 63-65).
- When the zone has no parent and there is no local zone, the parent still "equals" the local zone. The endpoint then evicts stale sessions and requests a connection when a listener exists (line 50).
- `AddClient` and `RemoveClient` call `ApiListener::GetInstance()->IsMaster()` without a null check (lines 91, 98, 108, 121), unlike lines 50 and 150. The model therefore requires a listener for both.
- Zone membership is changed by `Zone::AddEndpoint`, whose body is not part of this model. Registration is therefore stated as the `AddToZone` event.

## Model

| member | source | states |
|---|---|---|
| `Endpoint.SetCachedZone` | lib/remote/endpoint.cpp:83-87 | a set cache is left as it is; an empty cache takes the argument; nothing else in the state changes |
| `Endpoint.FirstWriteWins` | lib/remote/endpoint.cpp:83-87 | after any series of writes the cache holds its earlier value if it had one, otherwise the first non-null zone written (checked against an independent `FirstSome` definition); the rest of the state is unchanged |
| `Endpoint.GetZone` | lib/remote/endpoint.cpp:135-138 | the zone returned is present exactly when the cache is filled, and then it is the cached zone |
| `Endpoint.GetClients` | lib/remote/endpoint.cpp:129-133 | the returned set has exactly the current clients |
| `Endpoint.GetConnected` | lib/remote/endpoint.cpp:140-144 | connected iff some client is in the set |
| `Endpoint.Notify` | lib/remote/endpoint.cpp:98-103 | one MasterChanged(after) iff the role read before differs from the role read after, zero otherwise, always before the single closing connect/disconnect event; a subscriber's role ends at the new value and never sees a non-flip |
| `Endpoint.AddClient` | lib/remote/endpoint.cpp:89-104 | requires a listener, as the unchecked `IsMaster()` calls do; the client set becomes old + {c} and nothing else changes; MasterChanged is emitted exactly once iff the role flips, carrying the new role, and precedes the one Connected(c) that ends the trace |
| `Endpoint.RemoveClient` | lib/remote/endpoint.cpp:106-127 | requires a listener; the client set becomes old - {c}, unchanged if c was absent; connecting becomes false; role notification as in AddClient; Disconnected(c) ends the trace even for an absent client |
| `Endpoint.AddRemoveRoundTrip` | lib/remote/endpoint.cpp:89-144 | adding a new client and removing it restores the client set and the connected flag; the endpoint is connected in between |
| `Endpoint.MessageSent` | lib/remote/endpoint.cpp:156-162 | appends (t,1) to the messages-sent log and (t,bytes) to the bytes-sent log, so the byte total grows by bytes; last-sent becomes t; the received logs and last-received time are unchanged; nothing outside the traffic logs changes |
| `Endpoint.MessageReceived` | lib/remote/endpoint.cpp:164-170 | appends (t,1) to the messages-received log and (t,bytes) to the bytes-received log, so the byte total grows by bytes; last-received becomes t; the sent logs and last-sent time are unchanged; nothing outside the traffic logs changes |
| `Traffic.AddMessageSent` | lib/remote/endpoint.cpp:156-162 | appends (t,1) to the messages-sent log and (t,bytes) to the bytes-sent log, so the totals grow by 1 and by bytes; last-sent becomes t; the received logs and timestamp are unchanged; message logs keep unit samples |
| `Traffic.AddMessageReceived` | lib/remote/endpoint.cpp:164-170 | the mirror image on the receiving logs; the sending side is unchanged |
| `Traffic.SentReceivedCommute` | lib/remote/endpoint.cpp:156-170 | recording a sent and a received message in either order yields the same traffic state |
| `Traffic.TotalAppend` | lib/remote/endpoint.cpp:159-160 | inserting a sample adds its value to the log's total |
| `Traffic.UnitTotalIsLength` | lib/remote/endpoint.cpp:159-167 | a message log whose samples are all 1 totals its number of messages |
| `Binding.ErrorsNameTheirSubjects` | lib/remote/endpoint.cpp:29-65 | the unknown-zone error text contains the endpoint name and the zone name; the no-zone error text contains the endpoint name |
| `Binding.Evictions` | lib/remote/endpoint.cpp:51-55 | Disconnect() is called once for each anonymous client whose identity equals the endpoint name, as often as it occurs, and never on any other client |
| `Binding.ZoneCheck` | lib/remote/endpoint.cpp:63-65 | the no-zone error is raised iff the cache is empty |
| `Binding.Reconnect` | lib/remote/endpoint.cpp:49-57 | the connection request is the last event and only Disconnect() calls precede it |
| `Binding.OnAllConfigLoaded` | lib/remote/endpoint.cpp:20-66 | an unresolvable zone name leaves the state unchanged and emits only the unknown-zone error; the cache is only filled, with the resolved zone, and never overwritten; an empty cache ends filled iff the zone resolves and the AddEndpoint hook fills it; the zone-name attribute becomes the parent's name iff the zone resolves and has a parent; nothing else changes |
| `Binding.LoadFailure` | lib/remote/endpoint.cpp:24-65 | an unresolvable name fails with the unknown-zone error; otherwise the load fails iff the cache is empty at the end, including for an empty zone name, with the no-zone error last; no error occurs before the end of the trace |
| `Binding.LoadEventKinds` | lib/remote/endpoint.cpp:20-66 | a load emits only the registration with its own zone, Disconnect() calls, the connection request and errors; never a client or master-role notification |
| `Binding.LoadRegistration` | lib/remote/endpoint.cpp:26-34 | the endpoint registers with a zone iff its zone name resolves, and then exactly once, as the first event |
| `Binding.DisconnectsPrecedeConnect` | lib/remote/endpoint.cpp:51-56 | in a registration, eviction, connect, check trace every Disconnect() comes before the connection request |
| `Binding.BindEventsConnect` | lib/remote/endpoint.cpp:47-58 | a resolved binding requests a connection exactly once iff the parent equals the local zone and a listener exists, otherwise never |
| `Binding.BindEventsEvict` | lib/remote/endpoint.cpp:47-55 | a resolved binding disconnects each client as often as it occurs among the anonymous clients, iff it claims the endpoint's name and the endpoint reconnects; otherwise zero times |
| `Binding.BindEventsOrder` | lib/remote/endpoint.cpp:51-56 | in a resolved binding every Disconnect() precedes the connection request |
| `Binding.LoadReconnect` | lib/remote/endpoint.cpp:45-58 | over the whole load: exactly one AddConnection iff the parent equals the local zone and a listener exists; Disconnect() exactly on the anonymous clients claiming the endpoint's name; all of them before the AddConnection |
| `Teardown.Stop` | lib/remote/endpoint.cpp:68-81 | Disconnect() exactly once per client of the snapshot and on nothing else, first; then RemoveFromZone(z) as the last event iff the cache holds z; with zero clients and no cache the trace is empty |
| `Lifecycle.CacheNeverReassigned` | lib/remote/endpoint.cpp:83-87 | once the cache is filled, no run (with a listener whenever it changes clients) of loads, cache writes, client changes or traffic reassigns it, and the name and zone table stay fixed |
| `Lifecycle.ClientsFollowAddRemove` | lib/remote/endpoint.cpp:89-119 | after any run, a connection is a client iff the last Add/Remove of it was an Add, or there was none and it was a client before |
| `Lifecycle.MasterChangesOverRun` | lib/remote/endpoint.cpp:91-124 | over any run of client changes there is at most one MasterChanged per call, and their number is odd iff the final role differs from the initial one |
| `Lifecycle.RoleTracksMaster` | lib/remote/endpoint.cpp:91-124 | over any run of client changes, following the MasterChanged events from the initial role yields the final role, and no event repeats the role already held |
| `Lifecycle.SentTotals` | lib/remote/endpoint.cpp:156-162 | over any run, the sent logs hold one unit sample per message sent and total every byte sent |
| `Lifecycle.ReceivedTotals` | lib/remote/endpoint.cpp:164-170 | over any run, the received logs hold one unit sample per message received and total every byte received |
| `Scenarios.SatelliteBinding` | lib/remote/endpoint.cpp:24-43 | node-1 in zone satellite (parent master) stays cached in satellite and gets zone-name attribute master |
| `Scenarios.OrphanFails` | lib/remote/endpoint.cpp:63-65 | an endpoint named orphan with no zone name fails with the no-zone error naming it |
| `Scenarios.LocalChildReconnects` | lib/remote/endpoint.cpp:45-58 | for a child of the local zone, the stale anonymous node-1 session is disconnected, the node-2 one is not, then a connection is requested |

## Left out

- Rates: `CalculateRate` and the four `Get*PerSecond` getters (lib/remote/endpoint.cpp:172-190) are not modelled. Their windowed-rate algorithm is not part of this model and returns a floating-point value. Only the sample bookkeeping is kept.
- Counter storage: the internal storage of the rate counters is not part of this model. A counter is the append-only log of its (time, value) samples.
- `Endpoint::GetLocalEndpoint` (lib/remote/endpoint.cpp:146-154) is not modelled. It only forwards to the listener.
- Concurrency: mutexes, `boost::signals2` dispatch and concurrent connect/disconnect races are not modelled. Each operation is one atomic transition, so nothing is said about two operations interleaving between the two `IsMaster()` reads.
- `ApiListener`, `Zone` and `JsonRpcConnection` internals are not part of this model. `IsMaster` is a predicate parameter. `Zone::GetByName` is a lookup in the zone table. `Zone::GetLocalZone` and `ApiListener::GetInstance` are state fields. `AddConnection`, `Disconnect`, `AddEndpoint` and `RemoveEndpoint` are events.
- `Disconnect()`: its body is not part of this model, and it is only a trace event. Load and Stop leave the anonymous-client list and the client set unchanged. The model assumes any removal happens later, as a separate `RemoveClient` call.
- The `ObjectImpl<Endpoint>` base-class calls, logging and `ScriptError` debug information are not modelled. The error text is kept.
- Time is an integer, not the source's `double` seconds.
- Stop: the order of the Disconnect() calls is the snapshot's iteration order, which this model leaves unspecified. The source's `std::set` orders connections by pointer value. The `runtimeRemoved` flag has no effect on the modelled behaviour.
- test/icinga-perfdata.cpp is not modelled. It tests the performance-data parser and formatter, whose implementations are not part of this model.
