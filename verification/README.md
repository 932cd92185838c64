# Order fulfilment: saga, reservations, recovery, and what they stand on

The system takes an order, reserves stock for each of its lines with atomic Redis scripts, charges, ships, and then
commits the reservations. Any failure is compensated. A process may die between any two of these calls; on restart a
sweep finds unfinished orders and undoes whatever their recorded history proves was done. This project models that
saga, the reservation scripts, the recovery sweep, the in-process event bus and the nodes that listen to it, the
Redis protocol codec, and the two order stores, and proves what they promise each other.

## How it is put together

- `Inventory` is the effect of the two scripts on counters and reservations, with a ledger of every reservation ever
  taken. The scripts never read the ledger; it is what lets conservation be stated. An expired reservation is marked
  as such and its units are not put back.
- `Saga` is the step machine. One step is one `await`. `Step` follows `run`, `compensate`, `fail` and `transition`
  (src/orders/sagaOrchestrator.ts:70-112, 156-189); `Recovery` follows `recoverStuck` and `reservationsFromHistory`
  (129-148). A run of the machine is any sequence of actions: new orders, awaits of any activity with any answer from
  the payment and shipping services, crashes, recoveries that may race and may crash too, expiries, and stock
  updates. An action that is not possible does nothing, so every sequence is a run.
- `SagaInvariant`, `SagaSteps` and `SagaTheorems` give the invariant, its preservation by every action, and what
  follows for whole runs. `SagaRacing` compares a race of recoverers with a single recovery. `SagaSolo` treats runs in
  which recoveries of one order exclude each other, and what goes wrong when they do not.
- `Services`, `Orchestrator` and `Recovery` are the objects themselves, updated in place. Each await of
  `SagaOrchestrator` is proved to be one step of the machine, so the theorems about the machine hold of the objects;
  `SagaAlone` adds what an undisturbed activity does exactly.
- `Redis` is the two Lua scripts over a database that expires keys eagerly; `InMemoryRedis` is the two-map client
  that deletes lazily; `Scripts` ties the scripts to `Inventory`. `Quota` is contention for one key.
- `Resp` is the reply parser and the command encoder, `RespClient` the buffer and the queue of waiting callers. Text
  is a sequence of bytes, one `char` each.
- `Bus` and `EventBus` are the in-memory bus; `Warehouse` and `AsyncRunner` are its subscribers.
- `PgTables`, `PgRefinement` and `PgOrderStore` are the three-table store and the map it stands for; `PgStatus` ties
  the statuses the tables spell to the saga's.
- `Wrappers`, `Decimal` and `Text` are small helpers.

## What is assumed

- One activity per order: an order is created and then run by one process, and is recovered only once that process
  is dead. `run` has no guard of its own (src/orders/sagaOrchestrator.ts:70-71). That the in-memory bus starts no
  order twice is proved in `AsyncRunner.OneRunPerOrder`.
- Each Lua script and each SQL transaction is one atomic step.
- Charges and shipments live with outside services, so they survive a crash.
- Reservation and order ids are fresh.
- Stock values are integers, times to live are positive, and clocks do not run backwards.

## Where the code does other than its comments say

- Expiry does not return stock. The comments at src/inventory/inventoryService.ts:7 and src/inventory/reserve.lua:7-9
  promise that an abandoned reservation is released; the counter was decremented and a separate key lapses, so the
  units are gone from `available`. They appear as the expired term of `SagaTheorems.Conservation`, and
  `Scripts.TimePasses` says that time changes no counter.
- "Done for good" (src/orders/orderStore.ts:4) fails when recoverers race: one that read the order before another
  cancelled it writes COMPENSATING over CANCELLED (`SagaSolo.RacingReopens`). `SagaSolo.DoneForGoodExactly` gives
  the exact condition. A CONFIRMED order is never written again, with or without races, and the race leaves the same
  stock, reservations, charges and shipments as one recovery does (`SagaRacing.RacingIsLikeOne`).
- FAILED is never written (`SagaTheorems.HistoryGrammar`).
- Lines are released in the order they were reserved, not in reverse (src/orders/sagaOrchestrator.ts:150-151, 169).
- Warehouse ids with a colon can make stock keys collide (`Scripts.StockKeysMeetExactly` says which), and a topic with a colon gets no
  deliveries at its subscribers (`Bus.TopicOfKey`).
- One drain at a time is one for all topics: a publish to another topic meanwhile waits for that topic's next publish
  (`EventBus.InMemoryEventBus.Publish`).
- A warehouse node that reconnects while its group has undelivered events applies those twice
  (`Warehouse.EarlyReconnect`), though src/warehouse/warehouseSync.ts:13-16 says it must not.
- A stream that holds an unknown type byte is read differently according to where it is cut
  (`RespClient.CutAtError`), because the parser then drops its buffer; `RespClient.TwoChunksExactly` says exactly when
  the cut does not show.
- `PgOrderStore.create` stores no history, and reads sort events by time: an order whose timestamps ran backwards
  comes back with another history (`PgRefinement.InsertRefines`, `PgRefinement.HydratedExactly`).

## Model

| member | source | states |
|---|---|---|
| SagaTheorems.Conservation | src/inventory/reserve.lua:25-46 | in every run, for every stock key: available is never negative, and available + live + committed + expired is what was provisioned |
| Inventory.ReserveConserves | src/inventory/reserve.lua:39-46 | an accepted reservation keeps that balance for every key |
| Inventory.ResolveConserves | src/inventory/release.lua:15-29 | release and commit keep it provided the caller names the key the reservation was taken from, which the script cannot check |
| Inventory.ResolveConservesExactly | src/inventory/release.lua:11-29 | the balance survives a call if and only if it does not release a live reservation to another key than it was taken from |
| Inventory.LapseConserves | src/inventory/reserve.lua:43-44 | so does expiry, with the units moved to the expired share |
| Inventory.SetStockConserves | src/inventory/inventoryService.ts:48-51 | so does setting a counter, which changes what is provisioned by the difference |
| SagaSteps.Reachable | src/orders/sagaOrchestrator.ts:70-189 | the invariant of all orders, recoverers and reservations holds in every state any run can reach; in particular every held or recorded reservation is that of its own order line and key |
| SagaSteps.RunStep | src/orders/sagaOrchestrator.ts:70-112 | each await of a running order keeps that order's invariant |
| SagaSteps.RecStep | src/orders/sagaOrchestrator.ts:129-189 | each await of a recoverer keeps the invariant of its order and of itself, and undoes no progress of other recoverers |
| SagaSteps.RecoveryReads | src/orders/sagaOrchestrator.ts:132-148 | what recovery reads off the history is exactly what the dead process had recorded |
| SagaTheorems.AllOrNothing | src/orders/sagaOrchestrator.ts:70-112 | whatever interleaved, a run that ended is confirmed with every line committed, charged and shipped, or cancelled with every reservation released and neither charge nor shipment; expired reservations are the only exception |
| SagaTheorems.AllOrNothingExactly | src/orders/sagaOrchestrator.ts:70-112 | in a run without expiry that exception is gone: all committed, charged and shipped, or all released and neither |
| SagaTheorems.CrashResidue | src/orders/sagaOrchestrator.ts:114-172 | after a crash at any await and a recovery (raced, crashed and restarted at will), exactly this survives: unrecorded reservations, an already committed prefix, a charge or shipment only if the crash fell between the call and its record |
| SagaTheorems.CrashResidueExactly | src/orders/sagaOrchestrator.ts:114-172 | in a run without expiry the residue is exact for every reservation |
| SagaTheorems.TimelyRuns | src/inventory/reserve.lua:43-44 | a reservation is expired only if an expiry happened in the run |
| SagaRacing.RacingLeavesTheSame | src/orders/recoverStuckOrders.ts:27-30 | from any reachable state in which the order's process is dead, any two interleavings of any numbers of its recoverers, crashing or not, that leave it cancelled leave equal stock counters, reservation keys, charges and shipments |
| SagaRacing.FirstRaces | src/orders/recoverStuckOrders.ts:27-30 | where nobody had begun to recover, this holds of any mix of recoveries of the order, their awaits and their deaths |
| SagaRacing.RacingIsLikeOne | src/orders/recoverStuckOrders.ts:27-30 | in particular those of a single undisturbed recovery |
| SagaTheorems.RacingIsHarmless | src/orders/recoverStuckOrders.ts:27-30 | the same across runs that otherwise have nothing in common: two runs in which the order died at the same point and was cancelled agree on its charge, its shipment and the fate of every reservation that expired in neither |
| SagaTheorems.AllFinished | src/orders/sagaOrchestrator.ts:129-140 | once all recoverers of an order have finished, it is CANCELLED |
| SagaTheorems.RecoveryCompletes | src/orders/sagaOrchestrator.ts:129-140 | from any reachable state one undisturbed recovery ends with the order CANCELLED |
| SagaTheorems.UndoneInReverse | src/orders/sagaOrchestrator.ts:150-172 | in every run, a recoverer that has come to the payment has cancelled the shipment, and one that has come to the reservations has refunded the payment and resolved those before |
| SagaTheorems.RecovererDies | src/orders/sagaOrchestrator.ts:121-125 | a recoverer may die at any of its awaits, and nothing else changes then |
| SagaTheorems.DeadForGood | src/orders/sagaOrchestrator.ts:121-125 | a dead recoverer takes no further step in any continuation |
| SagaTheorems.HistoryGrammar | src/orders/sagaOrchestrator.ts:84-109 | every history is a prefix of reserved, charged, shipped followed by compensation records, or those three and confirmed; the status is CREATED, INVENTORY_RESERVED, PAYMENT_CHARGED, SHIPPING_SCHEDULED or CONFIRMED by the length of that prefix, or COMPENSATING or CANCELLED by the last compensation record, and never FAILED |
| SagaTheorems.StatusExactly | src/orders/sagaOrchestrator.ts:84-109 | an order stands at each of the seven statuses if and only if its history is the one that status names |
| SagaTheorems.Publication | src/orders/sagaOrchestrator.ts:178-189 | for an order whose process lives, the topic holds created and then its history, short of at most the one record between store write and publish |
| SagaSolo.SoloGrammar | src/orders/sagaOrchestrator.ts:156-176 | with one recoverer at a time, compensation is COMPENSATING any number of times and then CANCELLED at most once |
| SagaSolo.TerminalForever | src/orders/orderStore.ts:3-8 | with one recoverer at a time, a terminal order is never written again |
| SagaSolo.ConfirmedForever | src/orders/orderStore.ts:3-8 | with any number of recoverers, a CONFIRMED order is never written again |
| SagaSolo.ReopenedExactlyWhen | src/orders/sagaOrchestrator.ts:129-137 | an action writes to a terminal order if and only if it is a recoverer's await of `updateStatus` for it |
| SagaSolo.DoneForGoodExactly | src/orders/orderStore.ts:3-8 | from a reachable state, a terminal order stays as it is through every continuation if and only if no live recoverer of it still has COMPENSATING or CANCELLED to record |
| SagaSolo.RacingReopens | src/orders/sagaOrchestrator.ts:129-137 | for any order and lines, a run in which that happens: CANCELLED becomes COMPENSATING |
| SagaAlone.FillableNext | src/orders/sagaOrchestrator.ts:75-83 | reserving line by line accepts the next line exactly when the order up to it asks no more of any key than there was, repeated keys included |
| SagaAlone.NetStock | src/orders/sagaOrchestrator.ts:70-112 | undisturbed, a confirmed run took exactly what the lines asked for and a cancelled one left stock and reservations as they were |
| SagaAlone.NetCalls | src/orders/sagaOrchestrator.ts:86-103 | undisturbed, it leaves a charge and a shipment if confirmed and otherwise neither |
| Orchestrator.Acted | src/orders/sagaOrchestrator.ts:70-189 | one await of a runner or recoverer moves exactly its own activity one step of the machine |
| Orchestrator.SagaOrchestrator.CreateOrder | src/orders/sagaOrchestrator.ts:47-67 | the order is stored with no history, its created message is published, its run is ready to start, and nothing else changes |
| Orchestrator.SagaOrchestrator.SetStock | src/inventory/inventoryService.ts:48-51 | setting a counter is the machine's step of that name, and touches no order |
| Orchestrator.SagaOrchestrator.ReserveAll | src/orders/sagaOrchestrator.ts:71-84 | all lines are reserved if and only if the order can be filled from the stock it found |
| Orchestrator.SagaOrchestrator.Transition | src/orders/sagaOrchestrator.ts:178-185 | the record is appended and the status the caller names is set before the message goes out |
| Orchestrator.SagaOrchestrator.Compensate | src/orders/sagaOrchestrator.ts:156-172 | COMPENSATING is recorded, then shipment, payment and each reservation are undone, each await a machine step |
| Orchestrator.SagaOrchestrator.Run | src/orders/sagaOrchestrator.ts:69-112 | undisturbed, it confirms if and only if the order can be filled and neither service declines, takes exactly what was asked, and otherwise cancels with no net effect; no other order changes |
| Orchestrator.AloneRun | src/orders/sagaOrchestrator.ts:69-112 | the same about any stretch of machine steps of one activity alone |
| Recovery.RecoverySweep.RecoverStuck | src/orders/sagaOrchestrator.ts:129-140 | does nothing to a terminal order, cancels any other, and touches no other order's record, charge, shipment or reservations |
| Recovery.RecoverySweep.RecoverStuckOrders | src/orders/recoverStuckOrders.ts:38-51 | returns the number of unfinished orders, leaves none, spares every finished order in every respect, and does nothing at all when there are none |
| Recovery.RescueRun | src/orders/sagaOrchestrator.ts:156-176 | any number of awaits of one recoverer touch its order only |
| Services.InventoryService.Reserve | src/inventory/inventoryService.ts:79-107 | accepted exactly when the quantity is positive, the key known and the stock sufficient; each refusal says which of these failed and changes nothing |
| Services.InventoryService.Resolve | src/inventory/inventoryService.ts:109-128 | the new state is the script's, and a second call for the same id reports ALREADY_RESOLVED |
| Services.InventoryService.Lapse | src/inventory/reserve.lua:43-44 | expiry drops the reservation and gives nothing back |
| Services.PaymentGateway.Charge | src/payments/paymentGateway.ts:21-28 | declined exactly for the listed orders, and then nothing is charged; otherwise charged under the payment id it returns |
| Services.PaymentGateway.Refund | src/payments/paymentGateway.ts:30-34 | idempotent: says whether there was a charge, and leaves none |
| Services.ShippingProvider.Schedule | src/shipping/shippingProvider.ts:14-21 | declined exactly for the listed orders, and then nothing is scheduled; otherwise scheduled under the shipment id it returns |
| Services.ShippingProvider.Cancel | src/shipping/shippingProvider.ts:23-26 | leaves no shipment of that order and every other |
| Services.OrderStore.UpdateStatus | src/orders/orderStore.ts:56-62 | appends the record and sets the status it is given, or reports an unknown id and changes nothing |
| Services.OrderStore.NonTerminal | src/orders/orderStore.ts:70-72 | exactly the unfinished orders, once each, in the order they were created |
| Quota.NeverOversold | src/inventory/inventoryService.ts:79-107 | over any sequence of calls that gives no unit of a key back, the sum granted never exceeds what was there, and the rest remains |
| Quota.ExactQuota | src/inventory/inventoryService.ts:72-78 | of n one-unit requests for a key with S units, in any order amid any other calls, exactly min(S, n) are granted |
| Redis.ServeNumeric | src/inventory/reserve.lua:15-46 | commands that set only integers leave a database whose every value reads back as an integer |
| Redis.DelAllExactly | src/inventory/inMemoryRedis.ts:64-72 | DEL removes every key it names and counts each that was there once |
| InMemoryRedis.InMemoryRedisClient.IsLive | src/inventory/inMemoryRedis.ts:44-52 | true if and only if the key is there and, if it has an expiry, that instant is still to come; looking deletes a key whose time is up and changes nothing an eagerly expiring database could show |
| InMemoryRedis.InMemoryRedisClient.Get | src/inventory/inMemoryRedis.ts:54-56 | the stored text if the key is there and not past its expiry, else nothing |
| InMemoryRedis.InMemoryRedisClient.Set | src/inventory/inMemoryRedis.ts:58-62 | the effect of SET, any time to live cleared |
| InMemoryRedis.InMemoryRedisClient.Del | src/inventory/inMemoryRedis.ts:64-72 | the effect and count of DEL on the live keys, duplicates included |
| InMemoryRedis.InMemoryRedisClient.EvalReserve | src/inventory/inMemoryRedis.ts:90-111 | the reply and effect of reserve.lua on the live keys |
| InMemoryRedis.InMemoryRedisClient.EvalRelease | src/inventory/inMemoryRedis.ts:114-130 | the reply and effect of release.lua on the live keys, invalid modes included |
| InMemoryRedis.InMemoryRedisClient.Replay | src/inventory/inMemoryRedis.ts:39-130 | over any sequence of commands at non-decreasing times, every reply and the live keys at the end are those of the scripts over an eagerly expiring database |
| Redis.ReservationLasts | src/inventory/reserve.lua:44 | end to end: an accepted reservation made at t for ttl seconds, whatever else happens to other keys, is released or committed at any later time before t + 1000 ttl ms, and from then on answers ALREADY_RESOLVED |
| Scripts.ReserveRefines | src/inventory/reserve.lua:17-46 | on a database that stands for an inventory, the script accepts exactly what the model accepts, with the same reply and effect, and otherwise changes nothing |
| Scripts.ResolveRefines | src/inventory/release.lua:11-29 | likewise for release and commit, an already resolved id included |
| Scripts.SetRefines | src/inventory/inventoryService.ts:48-51 | likewise for setting stock |
| Scripts.TimePasses | src/inventory/reserve.lua:43-44 | passing time makes lapse exactly the reservations whose expiry instant is not after now, and changes no counter |
| Scripts.StockKeysMeetExactly | src/inventory/inventoryService.ts:40-42 | two warehouses share a stock key for some skus if and only if one id, with a colon after it, begins the other |
| Scripts.StockKeyInjective | src/inventory/inventoryService.ts:40-42 | so stock keys of colon-free warehouse ids tell warehouse and sku apart |
| Scripts.StockKeyClash | src/inventory/inventoryService.ts:40-42 | and any warehouse id with a colon shares its keys with a shorter one |
| Scripts.ResvKeyInjective | src/inventory/inventoryService.ts:44-46 | reservation keys tell ids apart |
| Resp.TryParseReply | src/lib/redisClient.ts:136-174 | the parser with its loop computes the recursive grammar `Parse` |
| Resp.ParseStable | src/lib/redisClient.ts:136-174 | bytes that arrive later never change a verdict already reached |
| Resp.RoundTrip | src/lib/redisClient.ts:136-174 | in the middle of any buffer, the encoding of any well-formed reply, nested arrays and nulls included, parses to its meaning and consumes exactly its length |
| Resp.SimpleStringExactly | src/lib/redisClient.ts:144-145 | a simple string survives if and only if it holds no CRLF |
| Resp.EncodeCommand | src/lib/redisClient.ts:124-128 | a command is the protocol's array of bulk strings |
| Resp.CommandRoundTrip | src/lib/redisClient.ts:124-174 | parsing an encoded command gives exactly its arguments, CRLFs inside them included |
| RespClient.RawRespClient.OnData | src/lib/redisClient.ts:66-95 | for bytes whose bulk lengths and array counts are those of the protocol: settles, keeps and drops what `Receive` says, error replies rejecting and others resolving their callers, and its loop ends |
| RespClient.RawRespClient.Send | src/lib/redisClient.ts:97-104 | queues the caller last and writes the encoded command |
| RespClient.RawRespClient.FailAllPending | src/lib/redisClient.ts:61-64 | every waiting caller is rejected as disconnected, in order, none waits, and what was settled before stays |
| RespClient.TwoChunks | src/lib/redisClient.ts:66-95 | two chunks have the effect of one, for any bytes without an unknown type byte whose lengths and counts are those of the protocol; and the second chunk meets only such lengths too |
| RespClient.AnyChunking | src/lib/redisClient.ts:66-95 | so does any way of cutting such a stream |
| RespClient.TwoChunksExactly | src/lib/redisClient.ts:66-95 | with unknown type bytes admitted (lengths and counts still those of the protocol), two chunks have the effect of one if and only if the first does not make the parser throw, or the second is empty or used up with nobody waiting |
| RespClient.CutAtError | src/lib/redisClient.ts:79-84 | an example where the cut shows |
| RespClient.CallersConserved | src/lib/redisClient.ts:61-104 | over any sends, chunks (unknown type bytes included, lengths outside the protocol not followed) and failures, those settled and those waiting are, in order, exactly the calls made: each settled at most once |
| RespClient.QueueConserved | src/lib/redisClient.ts:61-104 | the same of the queue alone: adding at its end, `shift` and emptying it, in any mix, keep every call in its place; `onData` does nothing else to it, whatever the parser makes of the bytes |
| RespClient.InTurn | src/lib/redisClient.ts:61-104 | while the stream is well formed and the connection holds, the i-th call gets the i-th reply as soon as its last byte is there, however sends and chunks interleave |
| RespClient.OutcomesInTurn | src/lib/redisClient.ts:85-93 | what the i-th call gets, read off the wire: a simple error rejects it with that message; any other reply, an array holding errors included, resolves it with that value |
| RespClient.UnknownTypeRejects | src/lib/redisClient.ts:76-84 | an unknown type byte after any well-formed replies rejects the next caller, after those have settled theirs, and drops all that follows |
| RespClient.WellFormedModelled | src/lib/redisClient.ts:66-95 | well-formed replies, whole or in part, are among the bytes `OnData` takes, and never make the parser throw |
| Bus.TopicOfKey | src/lib/eventBus.ts:96-99 | a group hears the topic it subscribed to if and only if the topic's name has no colon |
| Bus.AddEventKeeps | src/lib/eventBus.ts:44-48 | a publish at any moment, also from inside a handler, keeps exact delivery |
| Bus.AddHandlerKeeps | src/lib/eventBus.ts:51-57 | so does a subscription at any moment |
| Bus.ServeKeeps | src/lib/eventBus.ts:73-75 | so does calling the next handler with the current event |
| Bus.AdvanceKeeps | src/lib/eventBus.ts:76 | so does moving the cursor once all handlers were called |
| Bus.Processed | src/lib/eventBus.ts:59-83 | what a group has processed is exactly its topic's log up to its cursor, and the cursor never passes the log |
| EventBus.InMemoryEventBus.Subscribe | src/lib/eventBus.ts:51-57 | the handler is added last, a new group starts at 0, and at any moment of a drain every handler has still seen exactly what it had to |
| EventBus.InMemoryEventBus.Drain | src/lib/eventBus.ts:59-83 | called while another drain runs, a handler's await included, does nothing; otherwise it ends, every group on the topic has cursor = log length, cursors and logs only grew, groups on other topics heard nothing, and each event reached each handler registered at its delivery once and in order |
| EventBus.InMemoryEventBus.Publish | src/lib/eventBus.ts:44-49 | the event is appended; called while a drain runs, from inside a handler too, that is all; otherwise the same holds of what follows, with any publishes and subscriptions during any handler's await |
| EventBus.LagShrinks | src/lib/eventBus.ts:68-77 | one delivery brings the topic exactly one closer to its end: the measure by which a drain terminates |
| Warehouse.WarehouseNode.Handle | src/warehouse/warehouseSync.ts:24-27 | a connected node applies the event; a disconnected one ignores it |
| Warehouse.WarehouseNode.Reconnect | src/warehouse/warehouseSync.ts:55-59 | replays, in order, all history past what it counts as applied |
| Warehouse.Convergence | src/warehouse/warehouseSync.ts:5-60 | if nodes reconnect only when the bus has nothing undelivered for them: a node's stock is always the fold of the log up to what it applied, a connected node has applied exactly what the bus handed it, and those caught up all hold the fold of the whole log |
| Warehouse.BusSteps | src/warehouse/warehouseSync.ts:23-28 | the schedule's steps are those of the in-memory bus: publish, subscribe, call of the handler and, after its await, the cursor |
| Warehouse.BusRuns | src/lib/eventBus.ts:38-83 | whatever the bus does (publishes to any topic, subscriptions, handler calls and cursor moves of any group) and however nodes come and go, what the nodes show is a run of such a schedule |
| Warehouse.BusConvergence | src/warehouse/warehouseSync.ts:5-60 | so convergence holds of nodes on the bus itself |
| Warehouse.CanConverge | src/warehouse/warehouseSync.ts:50-59 | from every state some continuation of the bus, ending with a reconnect, leaves the node connected and holding the whole log |
| Warehouse.ReconnectExactly | src/warehouse/warehouseSync.ts:55-59 | reconnecting keeps a node in step if and only if the bus has nothing undelivered for it |
| Warehouse.EarlyReconnect | src/warehouse/warehouseSync.ts:25-59 | otherwise, whether or not its handler was running, it has applied each undelivered event twice once caught up |
| Warehouse.EarlyReconnectShows | src/warehouse/warehouseSync.ts:25-59 | and shows the right quantity of a sku if and only if those events cancelled out for it |
| AsyncRunner.SagaRunner.Handle | src/orders/asyncSagaRunner.ts:35-43 | starts one run for each `order.created`, and nothing for other messages |
| AsyncRunner.CreatedOnce | src/orders/sagaOrchestrator.ts:64-65 | in every run, `order.created` of an order is on the topic exactly once from when its process published it |
| AsyncRunner.OneRunPerOrder | src/orders/asyncSagaRunner.ts:35-43 | a runner fed by the bus starts no order twice, and once caught up has started exactly those published |
| PgOrderStore.PgOrderStore.Create | src/orders/pgOrderStore.ts:46-68 | all the inserts take effect, or, if any of them is refused, none |
| PgOrderStore.PgOrderStore.UpdateStatus | src/orders/pgOrderStore.ts:88-110 | status and event are written together, or neither |
| PgOrderStore.PgOrderStore.LinesFor | src/orders/pgOrderStore.ts:149-161 | one query for many orders gives each of them its own lines |
| PgOrderStore.PgOrderStore.EventsFor | src/orders/pgOrderStore.ts:163-175 | one sorted query for many orders gives each of them its own events, sorted |
| PgOrderStore.PgOrderStore.HydrateAll | src/orders/pgOrderStore.ts:139-144 | gives each order what reading it alone gives |
| PgOrderStore.PgOrderStore.Get | src/orders/pgOrderStore.ts:70-86 | the order of that id if and only if there is one and the scope is anyone's or exactly its own business (or nobody's), read with its own lines and events |
| PgOrderStore.PgOrderStore.Query | src/orders/pgOrderStore.ts:112-137 | `all` lists every order, or exactly those of one business or of none; `nonTerminal` exactly those neither CONFIRMED, CANCELLED nor FAILED; once each, oldest first, each as the map has it exactly when its timestamps never ran backwards |
| PgRefinement.InsertRefines | src/orders/pgOrderStore.ts:46-68 | `create` succeeds if and only if the id is new, the amount positive and the lines have positive quantities and distinct sku and warehouse; the tables then stand for the map if and only if the order came without history |
| PgRefinement.UpdateRefines | src/orders/pgOrderStore.ts:88-110 | `updateStatus` fails for the same ids as the in-memory store's, and otherwise does the same |
| PgRefinement.WritesRefine | src/orders/pgOrderStore.ts:46-110 | after any sequence of such writes the tables stand for the map |
| PgRefinement.SortCommutes | src/orders/pgOrderStore.ts:163-175 | sorting the events of many orders together sorts those of each |
| PgRefinement.HistoryExactly | src/orders/pgOrderStore.ts:163-175 | events come back in the order they were recorded if and only if their timestamps never ran backwards |
| PgRefinement.HydratedExactly | src/orders/pgOrderStore.ts:139-144 | an order read back is the map's, lines in any order, if and only if its timestamps never ran backwards |
| PgRefinement.GetRefines | src/orders/pgOrderStore.ts:70-86 | `get` finds an order under a scope if and only if the map has it and the scope is anyone's or its own business, as the in-memory store's `get` does |
| PgRefinement.ScopesApart | src/orders/pgOrderStore.ts:73-79 | no order is found in two different businesses' scopes, nobody's counting as one; without a scope every order is |
| PgRefinement.QueryRefines | src/orders/pgOrderStore.ts:112-137 | the same of the lists under each of the three views and of the unfinished orders |
| PgRefinement.AllSpelled | src/orders/pgOrderStore.ts:112-123 | spelled out: without a scope every order is listed |
| PgRefinement.ScopeSpelled | src/orders/pgOrderStore.ts:112-123 | under a scope, exactly those whose business is that one, nobody's for null |
| PgRefinement.UnfinishedSpelled | src/orders/pgOrderStore.ts:125-137 | `nonTerminal` lists exactly those whose status is none of CONFIRMED, CANCELLED, FAILED |
| PgStatus.TextIsTerminal | src/orders/orderStore.ts:9-17 | a stored status text is one of CONFIRMED, CANCELLED and FAILED if and only if the saga counts that status as terminal |
| PgStatus.SweepAlike | src/orders/pgOrderStore.ts:133-137 | for the same orders both stores give the startup sweep the same ones |
| PgRefinement.LinesInAnyOrder | src/orders/pgOrderStore.ts:149-161 | none of this depends on the order in which the server returns lines |

## Left out

- HTTP routes, request validation, server-sent events and server wiring; from validation only that quantities are integers.
- Sockets, `ioredis`, `kafkajs` and the `pg` driver, and the Kafka bus: nothing is claimed about redelivery.
- Business accounts, sessions, passwords, metrics, `listAll` and the `known` registry.
- Log texts, failure reasons, message payloads beyond what the saga reads back, and `updatedAt`.
- The `previousStatus` detail at src/orders/sagaOrchestrator.ts:138: with the in-memory store it is read from an alias that compensation has already changed.
- The amount charged and the address of a shipment: the machine keeps which orders are charged and shipped.
- Handlers that throw, and the rejection that src/orders/asyncSagaRunner.ts:39-41 logs.
- Interleaving inside the methods of `SagaOrchestrator` and `RecoverySweep`: those are the undisturbed calls; every interleaving of their awaits is in the step machine.
- Interleaving of handlers beyond publishes and subscriptions: what happens during a handler's await is any finite list of those, which is also the bound under which a drain ends.
- Character decoding: the codec works on bytes, one `char` each, so argument lengths are byte lengths as on the wire.
- RespClient.RawRespClient.OnData: only for bytes whose bulk lengths and array counts are integers, bulk lengths at least -1. JavaScript's `Number` makes something of others ("1e3", a blank), and a length such as -7 consumes no bytes, so that the loop does not end; no server sends these.
- RespClient.TwoChunks: likewise. A length of -9 ("$-9\r\n" and then "+OK\r\n") is read differently according to where it is cut.
- RespClient.TwoChunksExactly: likewise.
- RespClient.AnyChunking: likewise.
- RespClient.CallersConserved: likewise, but RespClient.QueueConserved covers all bytes.
- What JavaScript makes of an integer reply that is no integer: only that it settles its caller and how many bytes it takes.
- Integers beyond 2^53, where JavaScript numbers lose precision, and stock values other than what `setStock` writes: for "007" or "+5" the in-memory client counts on where Redis refuses.
- `close` of the bus and `quit` of the clients.
- PgOrderStore.PgOrderStore.Create: column widths and types are not modelled, because the values are those the rest of the system makes.
