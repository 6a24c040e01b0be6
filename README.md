# Connector service-handle bookkeeping, in Dafny

This project models the bookkeeping core of `omero.gateway.Connector` from
omero-gateway-java. A connector holds an encrypted session to an OMERO
server and, when it is not encrypted, an unencrypted companion client. It
hands out service proxies through three tables:

- stateless proxies, one per service name, which are reused;
- stateful proxies, any number per service name (a Guava `HashMultimap`);
- rendering engines, any number per pixels set id (also a `HashMultimap`).

It also holds an import store and a cache of connectors derived for other
users. The model covers:

- how `get` and `create` fill these tables;
- how `close(proxy)`, `shutDownRenderingEngine`, `shutdownStateful`,
  `shutdownImports` and `shutDownServices` empty them;
- what `close(networkUp)`, `closeImport` and `closeDerived` do, in order;
- the keep-alive timer;
- `joinSession`;
- the blank-name branch of `getConnector`, `getClient`, and the
  constructor's argument checks.

Files:

- `multimaps.dfy` (module `Multimaps`): a `HashMultimap` as a
  `map<K, set<V>>` in which no key maps to an empty set, with the
  operations the connector uses (`put`, `remove(key, value)`,
  `removeAll(key)`) and lemmas about them.
- `types.dfy` (module `GatewayTypes`): the opaque values (proxies, entry
  points, clients, the import store, derived connectors), the outcome of a
  remote call, the errors the connector raises, and the log of remote
  calls. It also states what a run of closes and a shutdown log are.
- `connector.dfy` (module `Gateway`): the class `Connector`, whose methods
  update its fields in place as the Java methods do. It also defines the
  close log of `close(networkUp)` and the lemmas about it.
- `scenarios.dfy` (module `Scenarios`): short client sessions proved from
  the contracts alone, including the exhibit of the finding below.

Modelling choices:

- Every remote call becomes a parameter holding its outcome: `Ok(value)`,
  `NotExist` (Ice's `ObjectNotExistException`) or `Failed` (any other
  exception). The clock becomes a `now` parameter.
- The ghost field `calls` logs every remote call the connector makes. It
  is what lets the contracts say which entry point a lookup went to, that
  a cached `get` makes no call, and that a shutdown closes each handle
  exactly once.
- A proxy carries its kind (stateless service, stateful service,
  rendering engine), which is fixed by the call that produced it. The
  `instanceof RenderingEnginePrx` test of `close(proxy)` therefore reads
  the kind. The class invariant `Valid()` keeps each table to proxies of
  its own kind.
- The state-changing methods that make many calls return the calls they
  made as a ghost `issued` sequence, with `calls == old(calls) + issued`.
  Their contracts say what `issued` is:
  - `ClosesExactly(s, ps)`: `s` closes each proxy of `ps` once and does
    nothing else.
  - `ShutdownLog`: the stateful proxies, then the import store, then the
    rendering engines.
  - `DerivedCloses`: one close per cached derived connector.
  - `CloseLog`: the whole order of `close(networkUp)`.
- Closing with the network up is sometimes described as emptying all
  three tables. The code does not do that: `close(true)` shuts down the
  stateful services, the import store and the rendering engines, but it
  never clears the stateless cache. The model follows the code, so
  `Close` leaves `statelessServices` as it was.

## Model

All source paths are in `src/main/java/omero/gateway/Connector.java`.

| member | source | states |
|---|---|---|
| Multimaps.Put | src/main/java/omero/gateway/Connector.java:243-248 | `put` adds the pair under its key, keeps every other value and key, and keeps the table well formed; the values of the table grow by exactly that value |
| Multimaps.Remove | src/main/java/omero/gateway/Connector.java:824-827 | `remove(key, value)` drops that one pair, and the key when it was the key's last value; every other key is unchanged |
| Multimaps.RemoveAll | src/main/java/omero/gateway/Connector.java:847 | `removeAll(key)` forgets exactly that key and no value under another key |
| Multimaps.RemoveValues | src/main/java/omero/gateway/Connector.java:822-835 | removing a set of handles from every key leaves a well-formed table whose values are the old ones minus that set |
| Multimaps.RemoveValueAtEveryKey | src/main/java/omero/gateway/Connector.java:822-835 | the loop of `remove(key, proxy)` over a snapshot of all keys removes the proxy from the whole table and nothing else |
| Multimaps.RemoveValueAtStep | src/main/java/omero/gateway/Connector.java:824-827 | one more `remove(key, proxy)` extends the set of keys already visited by the loop |
| Multimaps.RemoveValuesTwice | src/main/java/omero/gateway/Connector.java:845-851 | closing handles one by one removes their union |
| Multimaps.PutAllKeepsEvery | src/main/java/omero/gateway/Connector.java:1052-1067 | a run of `create`s under one name keeps every handle already there and adds every new one, under that name only |
| Multimaps.PutAllCount | src/main/java/omero/gateway/Connector.java:1052-1067 | `n` distinct new handles under one name grow it by exactly `n`: nothing is deduplicated or replaced |
| Multimaps.RemoveAllThenValues | src/main/java/omero/gateway/Connector.java:845-851 | after `shutDownRenderingEngine(id)` no engine is left under `id`, and another pixels set loses only engines it shared with `id` |
| Multimaps.RemoveAllThenValuesAll | src/main/java/omero/gateway/Connector.java:845-851 | after `shutDownRenderingEngine(id)` the engines left are exactly those that were not under `id` |
| Multimaps.DrainKey | src/main/java/omero/gateway/Connector.java:768-772 | draining the tables one pixels id at a time moves that id's engines from the table to the closed ones, keeping the two disjoint |
| GatewayTypes.ArgumentError | src/main/java/omero/gateway/Connector.java:222-227 | the constructor refuses a missing security context, server entry point or services entry point, checked in that order and with those messages, and accepts exactly when all three are present |
| GatewayTypes.ClosesExactlyAppend | src/main/java/omero/gateway/Connector.java:845-851 | two runs of closes over disjoint handle sets close their union, each handle once |
| GatewayTypes.ClosesExactlyCount | src/main/java/omero/gateway/Connector.java:845-851 | a run of closes makes one call per handle |
| GatewayTypes.ClosesExactlyMember | src/main/java/omero/gateway/Connector.java:845-851 | a run of closes contains a close of each handle of its set |
| GatewayTypes.ClosesExactlyElement | src/main/java/omero/gateway/Connector.java:845-851 | every call of a run of closes closes a handle of its set |
| GatewayTypes.ShutdownLogCount | src/main/java/omero/gateway/Connector.java:764-773 | a shutdown log makes one call per stateful handle it closes, one for the import store if there is one, and one per rendering engine; with the corrected `shutdownStateful` the stateful handles are all those the table held, as written there are none |
| GatewayTypes.ShutdownLogCloses | src/main/java/omero/gateway/Connector.java:764-773 | a shutdown log closes every stateful handle of its set, every rendering engine and the import store, and makes no other call; with the corrected `shutdownStateful` that set is the whole stateful table, as written it is empty |
| Gateway.FastShutdowns | src/main/java/omero/gateway/Connector.java:693-695 | `close` first sets fast shutdown to `!networkUp` on the secure client, then on the unencrypted client exactly when there is one |
| Gateway.Teardown | src/main/java/omero/gateway/Connector.java:699-716 | the secure session is detached from exactly when it was joined, and the unencrypted one too when that succeeded; both clients are destroyed |
| Gateway.CloseLogClients | src/main/java/omero/gateway/Connector.java:691-724 | a close log switches both clients to fast shutdown exactly when the network is down, detaches from the secure session exactly when it was joined (and from the unencrypted one when that succeeded), and destroys both clients |
| Gateway.CloseLogNetworkUp | src/main/java/omero/gateway/Connector.java:696-698 | with the network up, a close log closes every stateful handle of its set, every rendering engine and the import store, and no other proxy; with the corrected `shutdownStateful` the stateful set is the whole table, as written it is empty |
| Gateway.CloseLogNetworkDown | src/main/java/omero/gateway/Connector.java:696-698 | with the network down, `close` makes no service close at all |
| Gateway.CloseLogDerived | src/main/java/omero/gateway/Connector.java:723 | `close` closes every cached derived connector, passing on `networkUp` |
| Gateway.Connector.constructor | src/main/java/omero/gateway/Connector.java:218-251 | a new connector has empty tables, no import store and no derived connectors, keeps its clients and entry points, and records the construction time as the last keep-alive |
| Gateway.Connector.Open | src/main/java/omero/gateway/Connector.java:218-251 | the argument checks come first; an unencrypted connector also needs its companion client and that client's session, and a failure of either propagates; otherwise the connector is built as above |
| Gateway.Connector.LookupEntry | src/main/java/omero/gateway/Connector.java:1030-1034 | the unencrypted entry point is used when it exists and the caller did not ask for a secure proxy; otherwise the encrypted one is used |
| Gateway.Connector.GetClient | src/main/java/omero/gateway/Connector.java:885-889 | the unencrypted client if there is one, else the secure one |
| Gateway.Connector.NeedsKeepAlive | src/main/java/omero/gateway/Connector.java:1007-1012 | true exactly when strictly more than ELAPSED_TIME (30000 ms) have passed since the last successful keep-alive |
| Gateway.Connector.Get | src/main/java/omero/gateway/Connector.java:1023-1041 | a cached stateless proxy is returned without a remote call unless `secure` is set; otherwise one lookup on the chosen entry point replaces the cached proxy; a failed lookup raises "Could not load <name>" and leaves the cache as it was |
| Gateway.Connector.Create | src/main/java/omero/gateway/Connector.java:1052-1067 | every call creates on the chosen entry point; the new handle is added next to the ones already under the name; a failure raises "Could not create <name>" and changes no table |
| Gateway.Connector.GetRenderingService | src/main/java/omero/gateway/Connector.java:626-646 | a new engine is created and its compression set, then it is added under the pixels id; a creation failure raises "Could not get rendering engine", and a compression failure propagates without recording the engine |
| Gateway.Connector.GetImportStore | src/main/java/omero/gateway/Connector.java:589-609 | an existing store is returned without a call; otherwise a new store is initialized on the chosen entry point and recorded only on success; a failure raises "Failed to create import store" |
| Gateway.Connector.KeepSessionAlive | src/main/java/omero/gateway/Connector.java:781-802 | succeeds exactly when the encrypted keep-alive succeeds and, if there is an unencrypted entry point, its keep-alive does too; the unencrypted one is tried only after the encrypted one succeeded; only success records `now` |
| Gateway.Connector.CloseService | src/main/java/omero/gateway/Connector.java:809-838 | a null proxy changes nothing; otherwise the proxy is closed once, whatever the close does, and removed from every key of its own table only |
| Gateway.Connector.ShutDownRenderingEngine | src/main/java/omero/gateway/Connector.java:845-851 | removes the pixels id and closes each engine that was under it exactly once; those engines leave every other key too; the stateful table is untouched |
| Gateway.Connector.CloseDrained | src/main/java/omero/gateway/Connector.java:874-877 | closes each handle of a drained collection exactly once and removes it from the stateful table |
| Gateway.Connector.ShutdownStatefulAsWritten | src/main/java/omero/gateway/Connector.java:867-877 | as written: the table is emptied and no call is made, so no handle is closed |
| Gateway.Connector.ShutdownStateful | src/main/java/omero/gateway/Connector.java:867-877 | as intended: the table is emptied and every handle that was in it is closed exactly once |
| Gateway.Connector.ShutdownImports | src/main/java/omero/gateway/Connector.java:854-864 | no store, no call; otherwise the store's services are closed, and the store is forgotten only when that succeeded |
| Gateway.Connector.ShutDownEngines | src/main/java/omero/gateway/Connector.java:768-772 | `shutDownRenderingEngine` over a snapshot of the pixels ids closes every engine exactly once and empties the table |
| Gateway.Connector.ShutDownServices | src/main/java/omero/gateway/Connector.java:764-773 | with the corrected `shutdownStateful`: empties the stateful table, then deals with the import store, then (only when `rendering`) empties the engine table; the calls are a shutdown log of what the tables held |
| Gateway.Connector.ShutDownServicesAsWritten | src/main/java/omero/gateway/Connector.java:764-773 | as written: the same steps and the same final tables, but the calls are a shutdown log with no stateful handle, so the handles the table held are never closed |
| Gateway.Connector.ShutDownServicesIfUp | src/main/java/omero/gateway/Connector.java:696-698 | with the network up every service is shut down (the stateful handles closed with the corrected `shutdownStateful`, none as written); with it down no table changes and no call is made |
| Gateway.Connector.CloseDerived | src/main/java/omero/gateway/Connector.java:745-756 | one close per cached user with the same `networkUp`, whatever each close does; then the cache is empty |
| Gateway.Connector.CloseEachDerived | src/main/java/omero/gateway/Connector.java:747-754 | the loop over the cached connectors closes each one, one call per user |
| Gateway.Connector.Close | src/main/java/omero/gateway/Connector.java:691-724 | with the corrected `shutdownStateful`, the calls form a close log: fast shutdown, the services (all with the network up, none with it down), detach and destroy, then the derived connectors; the tables are emptied only with the network up, and the derived cache always |
| Gateway.Connector.CloseAsWritten | src/main/java/omero/gateway/Connector.java:691-724 | as written: the same tables afterwards, and a close log in which no stateful handle is closed |
| Gateway.Connector.CloseImport | src/main/java/omero/gateway/Connector.java:729-737 | closes the import store if there is one, then every derived connector as with the network down; the cache is empty afterwards |
| Gateway.Connector.CloseSessionOnExit | src/main/java/omero/gateway/Connector.java:993-995 | a session closed on exit is not a joined one: the flag is the negation of the argument |
| Gateway.Connector.GetConnector | src/main/java/omero/gateway/Connector.java:944-984 | a blank name (null, empty or whitespace) gives this connector with no call; a cached user gives the cached connector; otherwise the loader runs once and its connector is cached, and a loader failure caches nothing and raises an ExecutionException, or an UncheckedExecutionException when the loader threw Ice's unchecked ObjectNotExistException |
| Gateway.Connector.JoinSession | src/main/java/omero/gateway/Connector.java:653-672 | all three tables are cleared whatever happens; the calls are, in order, the secure and then the unencrypted session close, the rejoin, and the creation of the new unencrypted client and its session, each made only when every call before it succeeded; success needs every call to succeed; the first failure is the one raised, unchanged, and the state it leaves is stated for each failure point |
| Gateway.Connector.CloseSessions | src/main/java/omero/gateway/Connector.java:660-663 | the secure session is closed, then the unencrypted one only if there is one and the first close succeeded; the first failure is the one raised, unchanged |
| Gateway.Connector.RecreateUnencrypted | src/main/java/omero/gateway/Connector.java:665-670 | the old unencrypted client and entry point are dropped; the client is created, then its session is asked for only if that succeeded; the new client is kept when it was created, and its entry point only when the session was also obtained; the first failure is the one raised, unchanged |
| Scenarios.CachedGet | src/main/java/omero/gateway/Connector.java:1026-1029 | a second plain `get` returns the cached proxy and makes no second lookup |
| Scenarios.SecureGetReloads | src/main/java/omero/gateway/Connector.java:1026-1036 | a secure `get` looks the service up again and replaces the cached proxy |
| Scenarios.RepeatedCreates | src/main/java/omero/gateway/Connector.java:1052-1067 | two creations of one stateful service keep both handles |
| Scenarios.TwoEnginesForOnePixelsSet | src/main/java/omero/gateway/Connector.java:626-646 | two engines for pixels set 42 are both kept, and shutting that set down closes both and leaves no engine |
| Scenarios.KeepAliveWindow | src/main/java/omero/gateway/Connector.java:1007-1012 | after a keep-alive at 1000 ms, none is needed at 31000 ms and one is needed at 31001 ms |
| Scenarios.FailedKeepAlive | src/main/java/omero/gateway/Connector.java:781-802 | a failed keep-alive reports failure and leaves the previous time, so one is still needed |
| Scenarios.BlankUserName | src/main/java/omero/gateway/Connector.java:947-948 | a whitespace-only user name gives the connector itself |
| Scenarios.UncheckedLoaderFailure | src/main/java/omero/gateway/Connector.java:950-983 | a loader that throws ObjectNotExistException for a user not yet cached gives an UncheckedExecutionException and caches nothing |
| Scenarios.StatefulShutdownLeaksHandle | src/main/java/omero/gateway/Connector.java:867-877 | as written, a created stateful handle leaves the table without ever being closed |
| Scenarios.StatefulShutdownClosesHandle | src/main/java/omero/gateway/Connector.java:867-877 | the corrected shutdown closes that handle |
| Scenarios.CloseWithNetworkDown | src/main/java/omero/gateway/Connector.java:691-698 | closing with the network down keeps a created handle in its table and makes no service close |
| Scenarios.CloseWithNetworkUp | src/main/java/omero/gateway/Connector.java:691-698 | with the corrected `shutdownStateful`, closing with the network up closes a created handle and empties its table |
| Scenarios.CloseLeaksHandleAsWritten | src/main/java/omero/gateway/Connector.java:691-698 | as written, closing with the network up empties the table of a created handle without ever closing it |

## Left out

- Property-change listeners and the events `get`, `create`, `close`,
  `joinSession` and the others fire are not modelled. They carry no state
  of the connector.
- Logging is not modelled; it has no effect on the state.
- `Gateway.Connector.GetConnector`: the outcome `Failed` does not tell a
  checked loader failure (which Guava's cache wraps in an
  `ExecutionException`) from an unchecked one other than
  `ObjectNotExistException` (wrapped in an `UncheckedExecutionException`).
  The model reports every `Failed` load as an `ExecutionException`.
- `GatewayTypes.IsWhitespace` follows `Character.isWhitespace` from Java 9
  on. On Java 7 and 8, U+180E is also whitespace, so a user name made of it
  alone is blank there.
- The loader of `getConnector` (lines 950-983) is not modelled. It looks up
  the group name, creates a session for the user, then a client and a
  connector. Its outcome is the `load` parameter, and a derived connector
  is an opaque reference.
- `Gateway.Connector.CloseDerived`: a derived connector's own
  `close(networkUp)` is one logged call. The model does not recurse into
  the child connector's tables.
- Concurrency is not modelled: the `synchronized` blocks, the thread-safe
  maps, and the `AtomicLong` of the keep-alive time.
- The typed getters (`getAdminService`, `getQueryService` and the rest,
  lines 288-571) are not modelled. Each is `get` or `create` with a fixed
  service name, and the name is a parameter of the model. Every one of
  them except `getSharedResources` (which always passes `secure = true`)
  and `getAdminService(boolean)` passes `secure = unsecureClient == null`
  (lines 307, 411, 441 and the others). So on an encrypted connector
  these getters always look the service up again and never return the
  cached stateless proxy; the model's `Get` covers both values of
  `secure`.
- `submit`, `getRenderingEngines`, the group-id helper and the listener
  registration are not modelled. They make no change to the tables.
- `Gateway.Connector.GetRenderingService`: the compression level is a
  `real`; Java's `float` rounding is not modelled.
- `Gateway.Connector.NeedsKeepAlive`: times are unbounded integers; the
  `long` overflow of `currentTimeMillis() - last` is not modelled.
- `Gateway.Connector.Close`: a runtime exception other than `ServerError`
  from the detach calls would escape `close`. The model treats every
  detach failure as caught.
- `Gateway.Connector.Close` and `Gateway.Connector.ShutDownServices` use
  the corrected `ShutdownStateful` (see Findings). The code as written is
  `Gateway.Connector.CloseAsWritten` and
  `Gateway.Connector.ShutDownServicesAsWritten`, which close no stateful
  handle.
- `Gateway.CloseLogNetworkUp` closes the stateful handles of the set it is
  given. That set is the whole table only for `Close`, with the corrected
  `shutdownStateful`; for `CloseAsWritten` it is empty.
- `GatewayTypes.ShutdownLogCount` and `GatewayTypes.ShutdownLogCloses`
  count and list the closes of the stateful set a shutdown log is given.
  That set is the whole table only with the corrected `shutdownStateful`.
- `Scenarios.CloseWithNetworkUp` goes through `Close`, that is with the
  corrected `shutdownStateful`; `Scenarios.CloseLeaksHandleAsWritten`
  shows the code as written.
- `Gateway.Connector.JoinSession` and `Gateway.Connector.Close` assume that
  `getSessionId()` succeeds (on the secure client at lines 656 and 699, on
  the unencrypted one at line 714). The model has no outcome parameter for
  it. If the call at line 656 threw, `joinSession` would raise before
  clearing any table. If the call at line 699 threw, `close` would raise
  after the service shutdown and before any detach or destruction. If the
  call at line 714 threw, `close` would raise before destroying the
  unencrypted client and before closing the derived connectors.
- `Gateway.Connector.RecreateUnencrypted` can leave an unencrypted client
  with no entry point when the client is created but its session cannot
  be obtained. This is the state the code leaves, and `Valid()` allows it.
- `Gateway.Connector.Close`: `close(true)` leaves the stateless cache as
  it was, as the code does.
- `Gateway.Connector.CloseService` accepts only stateful proxies and
  rendering engines, as the Java parameter type
  `StatefulServiceInterfacePrx` does.
- Closing an import store or a proxy remotely is one logged call. The
  server side of these calls is not part of this model.
- Only one constructor is modelled. The other one (lines 198-204) passes
  a null user name to it.

## Findings

| source | as written | input that shows it | evidently intended | confidence | as-written member | corrected member |
|---|---|---|---|---|---|---|
| src/main/java/omero/gateway/Connector.java:867-877 | `shutdownStateful` takes `statefulServices.values()`, a live view of the multimap, calls `clear()`, and then iterates the view, which is now empty | one `create("search")` followed by `shutdownStateful()`: the handle leaves the table but is never closed | close every stateful handle the table held before it was cleared | high, not executed | Gateway.Connector.ShutdownStatefulAsWritten | Gateway.Connector.ShutdownStateful |
