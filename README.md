# RpcCall: the RPC call buffering manager

This project models `Neo.manager.RpcCall`, the manager that collects remote
procedure calls on the client. For each call request (`service`, `method`,
`params`), `onMessage` does four things:

1. It asks the routing table for the endpoint of `service.method`.
2. It registers a pending call record. The record gets the current
   `messageId` as its id and `transactionId` 0.
3. It increments `messageId`.
4. It arms a buffer timer of `requestBuffer` (20) milliseconds for the
   endpoint URL, unless that URL is already in `endPointTimeouts`. The
   manager uses that list as its "timer already armed" set.

When such a timer fires, it calls `resolveBufferTimeout(url)`. That method
only logs, so nothing is ever sent, and the returned promise is never
settled. `endPointTimeouts` is never cleared either. As a result, each URL
gets at most one timer over the whole life of the manager.

All declarations live in one module, `RpcCallManager` (`rpc_call.dfy`):

- **Pure description.** `ManagerState` holds the whole state as values. `Inv`
  is the invariant every reachable state keeps. `Receive` is `onMessage` on
  values. `Run` is the state after a sequence of events, where an event is a
  call request or a firing timer. `Records` is an independent reference for
  what a run adds to the registry.
- **The class `RpcCall`.** Its fields are the source's own `endPointTimeouts`,
  `messageId`, `requestBuffer` and `transactionId`, and the registry `items`
  that the source inherits from its base collection. A ghost field `timers`
  stands for the `setTimeout` calls made so far: it is a log, not state of
  the source. `OnMessage` is proved to move the fields exactly as `Receive`
  moves the state. `ResolveBufferTimeout` is proved to leave the state
  unchanged.

The routing table (`Neo.manager.RpcApi`) becomes a parameter of type
`map<string, string>`. It maps the key `service + "." + method` to the URL.

The code implements only the registering and timer-arming half of a batching
design. There is no flush, send, transaction assignment or response
demultiplexing, so the model has none either. It describes the code as it
stands: timers never fire anything useful, and a URL is never re-armed.

A lookup that finds no route is not treated as a precondition. In the code,
reading `.url` of the missing route throws inside the promise executor, which
rejects the promise before anything is registered. The model follows that:
`Receive` returns `Rejected` and leaves the state unchanged.

## Model

| member | source | states |
|---|---|---|
| `RpcCallManager.InitialState` | src/manager/RpcCall.mjs:13-30 | A new manager has no records, no armed URLs and no timers, and satisfies the invariant: `messageId` starts at 1, `requestBuffer` at 20, `transactionId` at 1. |
| `RpcCallManager.RpcCall.constructor` | src/manager/RpcCall.mjs:13-30 | A new manager object satisfies the invariant, and its state is the initial state. |
| `RpcCallManager.Receive` | src/manager/RpcCall.mjs:57-84 | A missing route rejects the call and changes nothing. Otherwise exactly one record is appended. Its id is the old `messageId`, its `transactionId` is 0, it copies service, method and params, and its url is the routed URL. `messageId` goes up by 1. The URL is in `endPointTimeouts` afterwards, and no other URL was added. A timer is armed exactly when the URL was new. `requestBuffer` and `transactionId` are unchanged. The invariant is preserved: unique ascending ids below `messageId`, every record's URL armed, no duplicate URLs, one timer per armed URL. |
| `RpcCallManager.RpcCall.OnMessage` | src/manager/RpcCall.mjs:57-84 | The fields change exactly as `Receive` says, and the object invariant is kept. The outcome is `Pending` with the new record's id, or `Rejected` with no state change when the route is unknown. |
| `RpcCallManager.RpcCall.ResolveBufferTimeout` | src/manager/RpcCall.mjs:89-94 | Registry, `messageId`, `endPointTimeouts`, the timer log and all other fields are identical before and after. |
| `RpcCallManager.Run` | src/manager/RpcCall.mjs:57-94 | Any sequence of call requests and timer firings preserves the invariant. `messageId` and the registry grow by exactly the number of routed requests. The registry, `endPointTimeouts` and the timer log only grow at the end. `requestBuffer` and `transactionId` never change. |
| `RpcCallManager.Records` | src/manager/RpcCall.mjs:63-74 | Registering messages one after another from a first id gives consecutive ids, `transactionId` 0, and the service, method, params and routed URL of each message. |
| `RpcCallManager.RunRegisters` | src/manager/RpcCall.mjs:63-74 | Over any run, the registry becomes the old registry followed by `Records` of the routed requests, numbered from the starting `messageId`. Ids are therefore unique and increase in registration order. |
| `RpcCallManager.NeverRearmed` | src/manager/RpcCall.mjs:76-82 | Once a URL is in `endPointTimeouts`, no later event arms another timer for it. |
| `RpcCallManager.AtMostOneTimerPerUrl` | src/manager/RpcCall.mjs:76-82 | Over the manager's whole lifetime, starting from a new manager, no two armed timers share a URL. |
| `RpcCallManager.TimeoutsAreInert` | src/manager/RpcCall.mjs:79-94 | Firing buffer timers, in any number and at any point, gives the same state as not firing them. |
| `RpcCallManager.AppendIsSortedInsert` | src/manager/RpcCall.mjs:46-49 | The registry is sorted ascending by id, and every new id is larger than every registered one. So appending a record equals inserting it at its sorted place, and the registry stays sorted. |
| `RpcCallManager.RouteKeyInjective` | src/manager/RpcCall.mjs:60 | When service names contain no dot, the lookup key `service.method` determines both service and method. |
| `RpcCallManager.RouteKeyAmbiguous` | src/manager/RpcCall.mjs:60 | When service names may contain dots, two different (service, method) pairs can produce the same lookup key. |

## Left out

- The JavaScript `Promise` and its `resolve`/`reject` callbacks are not modelled. The code never calls them; the model keeps only the outcome: pending for a registered call, rejected for a failed lookup.
- `setTimeout` and real time are not modelled: arming a timer appends a `Timer(url, delay)` entry to the `timers` log, and a timer firing is a `BufferTimeout` event in `Run`.
- Neo.manager.RpcApi is not part of this model. It is a `map<string, string>` parameter from route key to URL. A route entry that exists but has no `url` is not modelled.
- src/manager/Base.mjs is not part of this model. Its `register` is modelled as appending to `items`. `AppendIsSortedInsert` shows that this agrees with insertion sorted by id.
- `params` is an opaque string that is carried unchanged; its JavaScript value is not modelled.
- Counters are unbounded naturals. The loss of precision of JavaScript numbers above 2^53 is not modelled.
- `console.log`, the commented-out network call, and the singleton and global-namespace registration (src/manager/RpcCall.mjs:90-103) are left out: they are output or wiring.
- src/calendar/view/MainContainer.mjs is not part of this model. It is UI layout and view switching, with no state rules of the manager.
- Flushing, sending batches, assigning transaction ids and demultiplexing responses are left out, because the code does not implement them.
