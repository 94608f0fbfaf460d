# WebSocket JSON-RPC subscription gateway — Dafny model

This project models the real-time notification gateway of the Stacks blockchain
API (`src/api/routes/ws-rpc.ts`). Clients send JSON-RPC 2.0 `subscribe` and
`unsubscribe` requests over a WebSocket. Each request names one of three topic
kinds: `tx_update` (keyed by a normalized transaction id), `address_tx_update`
or `address_balance_update` (both keyed by the raw address). The gateway keeps
one `SubscriptionManager` per kind. When the data store reports a transaction
update, the gateway, if anyone is subscribed to it, looks the transaction up and, when the lookup finds it,
pushes one `tx_update` notification to every subscriber of that transaction.

Files and modules:

- `jsonrpc.dfy` (module `JsonRpc`): protocol values. These are the classified
  units that `jsonrpc-lite` produces (request, notification, success, error,
  invalid), the response objects, the error codes of section 5.1 of the
  JSON-RPC 2.0 specification, and clients as opaque identities.
- `registry.dfy` (module `Registry`): the subscription registry.
  - Pure functions `Add`, `Remove` and `WithoutClient` say what each operation
    does to the `map<string, set<Client>>`.
  - `RegistryState` adds the close callbacks that `addSubscription` registers.
  - The class `SubscriptionManager` updates its fields in place. It is proved
    against those functions under the invariant that no mapped set is empty
    and every membership has a close callback.
- `router.dfy` (module `Router`): the request router as a decision. For each
  parsed unit it gives the response and the single registry change (`Effect`)
  to make. `HandleMessage` gives the whole effect of one frame: the new
  registries and what is sent back.
- `gateway.dfy` (module `Gateway`): the class `WsRpcGateway`. It has the three
  managers, the handlers `handleClientMessage` … `handleAddressBalanceUpdateSubscription`
  as methods proved against `Router`, the fan-out loop `ProcessTxUpdate`, and the
  close event `ClientClosed`.
- `scenarios.dfy` (module `Scenarios`): properties that span several frames.

Collaborators that the model passes in as parameters:

- `normalizeHashString` is the function parameter `normalize: string -> string`.
  The empty string stands for its falsy result.
- The data-store lookup in `processTxUpdate` is the input `TxLookup`.
- Sends are returned as an I/O log (`Io`). The log records the lookup and one
  `Send` per client.

Behaviour of the code that the model keeps as written:

- `processTxUpdate` looks up the event's `txId` as given, without normalizing it.
- There is no remove-all operation on close. Each `addSubscription`
  registers its own close callback for that (client, topic) pair. Subscribing twice
  registers two callbacks, and unsubscribing does not remove any.
  `Registry.CloseRemovesClient` proves that firing them still removes the client
  from every topic.
- A batch is always answered with an array, even an empty one. This holds when
  every unit is a notification (`Router.NotificationBatch`).

## Model

| member | source | states |
|---|---|---|
| `Registry.Add` | src/api/routes/ws-rpc.ts:62-68 | the topic is present afterwards and its set gains exactly the client; every other topic keeps its set |
| `Registry.Remove` | src/api/routes/ws-rpc.ts:74-82 | the client leaves the topic's set; the topic stays only if clients remain; other topics are untouched |
| `Registry.WithoutClient` | src/api/routes/ws-rpc.ts:69-82 | after a disconnect the client is in no topic, every other client's memberships are unchanged (each topic's set loses exactly that client), and no set is empty |
| `Registry.DropClient` | src/api/routes/ws-rpc.ts:69-71 | the callbacks left are exactly those registered on other clients |
| `Registry.AddIdempotent` | src/api/routes/ws-rpc.ts:62-68 | adding the same (client, topic) twice gives the same map as adding it once |
| `Registry.AddKeepsValid` | src/api/routes/ws-rpc.ts:62-71 | add keeps every mapped set non-empty and every membership backed by a close callback |
| `Registry.RemoveKeepsValid` | src/api/routes/ws-rpc.ts:74-82 | remove keeps every mapped set non-empty, since an emptied topic is deleted |
| `Registry.RemoveAbsentIsNoOp` | src/api/routes/ws-rpc.ts:74-82 | removing from an unknown topic, or a non-member, changes nothing |
| `Registry.AddThenRemove` | src/api/routes/ws-rpc.ts:62-82 | adding a non-member to a topic and then removing it restores the topic map exactly (the close callback stays registered) |
| `Registry.RemoveThenAdd` | src/api/routes/ws-rpc.ts:62-82 | removing a member from a topic and then adding it again restores the topic map exactly |
| `Registry.RunHooks` | src/api/routes/ws-rpc.ts:69-71 | firing a client's close callbacks in order only shrinks the map and touches no other client; proved equal to `WithoutClient` by `CloseRemovesClient` |
| `Registry.RunHooksIsStrip` | src/api/routes/ws-rpc.ts:69-82 | firing a client's close callbacks in order removes it from exactly the topics those callbacks name |
| `Registry.CloseRemovesClient` | src/api/routes/ws-rpc.ts:69-71 | on a valid registry, firing all of a client's close callbacks equals removing the client from every topic |
| `Registry.Subscribe` | src/api/routes/ws-rpc.ts:62-71 | adding and registering the close callback preserves the registry invariant |
| `Registry.Unsubscribe` | src/api/routes/ws-rpc.ts:74-82 | removing preserves the registry invariant |
| `Registry.Disconnect` | src/api/routes/ws-rpc.ts:69-82 | a disconnect preserves the registry invariant |
| `Registry.SubscriptionManager.constructor` | src/api/routes/ws-rpc.ts:60 | a new manager has no topics and no callbacks |
| `Registry.SubscriptionManager.AddSubscription` | src/api/routes/ws-rpc.ts:62-72 | the in-place update equals `Subscribe` on the old state and keeps the invariant |
| `Registry.SubscriptionManager.RemoveSubscription` | src/api/routes/ws-rpc.ts:74-82 | the in-place update equals `Unsubscribe` on the old state and keeps the invariant |
| `Registry.SubscriptionManager.Close` | src/api/routes/ws-rpc.ts:69-71 | running the client's callbacks one by one yields `WithoutClient` of the old map, and the client's callbacks go |
| `Router.TxUpdateSubscription` | src/api/routes/ws-rpc.ts:185-201 | succeeds exactly when the normalized `tx_id` is non-empty, then answers `true` and changes the tx registry at the normalized key; otherwise invalid-params with the id and no change |
| `Router.AddressSubscription` | src/api/routes/ws-rpc.ts:204-234 | every address is accepted unvalidated: the answer is `true` and the raw address is the topic changed in that kind's registry |
| `Router.ClientSubscription` | src/api/routes/ws-rpc.ts:157-182 | echoes the id; succeeds with `true` exactly when it makes a change, in the requested direction; a missing event or any failure is invalid-params with no change; proved against `RequestedTopic` by `SubscriptionOutcome` |
| `Router.ClientRpcReq` | src/api/routes/ws-rpc.ts:145-154 | the response echoes the id; an unknown method is method-not-found with no change; success iff one registry change; subscribe vs unsubscribe follows the method |
| `Router.SubscriptionOutcome` | src/api/routes/ws-rpc.ts:157-234 | a subscription succeeds with `true` exactly when params name a valid topic, and then changes only that kind's registry at that key; otherwise it is invalid-params with the id and no change |
| `Router.InvalidParamsCases` | src/api/routes/ws-rpc.ts:162-193 | missing params or event, an unknown event, and an empty normalized `tx_id` each give invalid-params with the id and no change |
| `Router.Respond` | src/api/routes/ws-rpc.ts:104-126 | requests are routed; client success/error units get invalid-request with their id; invalid units get their error with a null id; only requests change registries |
| `Router.DropNotifications` | src/api/routes/ws-rpc.ts:101-102 | exactly the non-notification units survive |
| `Router.DropNotificationsConcat` | src/api/routes/ws-rpc.ts:101-102 | the filter keeps the relative order of the units |
| `Router.OnlyNotificationsDropped` | src/api/routes/ws-rpc.ts:101-102 | a sequence of notifications filters to nothing |
| `Router.Responses` | src/api/routes/ws-rpc.ts:104-126 | one response per unit, the i-th answering the i-th unit |
| `Router.Effects` | src/api/routes/ws-rpc.ts:104-126 | one registry change per unit, the i-th from the i-th unit |
| `Router.Apply` | src/api/routes/ws-rpc.ts:88-90 | a change touches only the registry of its kind and preserves the invariant of all three |
| `Router.ApplyAll` | src/api/routes/ws-rpc.ts:104-126 | applying the changes of a frame in order preserves the invariant of all three registries |
| `Router.HandleMessage` | src/api/routes/ws-rpc.ts:92-132 | reference for one frame: it keeps the registries valid, a non-text frame changes nothing, and the reply is an array exactly for a batch; see `SingleUnit`, `BatchAnswersInOrder`, `NotificationBatch` |
| `Router.Answered` | src/api/routes/ws-rpc.ts:98-102 | the units answered are exactly the frame's units that are not notifications |
| `Router.Replies` | src/api/routes/ws-rpc.ts:128-132 | a batch is answered with an array of one response per answered unit; a lone notification gets nothing; any other lone unit gets its own response |
| `Router.NonTextIsParseError` | src/api/routes/ws-rpc.ts:94-95 | a non-text frame gets one parse error with a null id and changes nothing |
| `Router.SingleUnit` | src/api/routes/ws-rpc.ts:128-132 | a lone notification is never answered and changes nothing; any other lone unit is answered with its one response |
| `Router.BatchAnswersInOrder` | src/api/routes/ws-rpc.ts:98-129 | the batch reply to `a + b` is the reply to `a` followed by the reply to `b` |
| `Router.BatchOfOne` | src/api/routes/ws-rpc.ts:98-129 | within a batch a notification contributes no response and any other unit exactly one |
| `Router.NotificationBatch` | src/api/routes/ws-rpc.ts:98-129 | an all-notification batch still sends an empty array and changes nothing |
| `Gateway.WsRpcGateway.constructor` | src/api/routes/ws-rpc.ts:85-90 | three distinct, empty registries |
| `Gateway.WsRpcGateway.HandleClientMessage` | src/api/routes/ws-rpc.ts:92-132 | the frame's handling, unit by unit in order, leaves the registries and the reply `HandleMessage` gives |
| `Gateway.WsRpcGateway.HandleUnits` | src/api/routes/ws-rpc.ts:102-126 | handling the units of a frame in order yields their responses in that order and applies their changes one after another |
| `Gateway.WsRpcGateway.HandleUnit` | src/api/routes/ws-rpc.ts:104-126 | one unit's handling agrees with `Respond`: its response and its one change |
| `Gateway.WsRpcGateway.HandleClientRpcReq` | src/api/routes/ws-rpc.ts:145-154 | agrees with `ClientRpcReq`: its response and its one change |
| `Gateway.WsRpcGateway.HandleClientSubscription` | src/api/routes/ws-rpc.ts:157-182 | agrees with the routing by `params.event`: its response and its one change |
| `Gateway.WsRpcGateway.HandleTxUpdateSubscription` | src/api/routes/ws-rpc.ts:185-201 | an empty normalized id is refused; otherwise the normalized id is added to or removed from the tx registry only and the reply is `true` |
| `Gateway.WsRpcGateway.HandleAddressTxUpdateSubscription` | src/api/routes/ws-rpc.ts:204-218 | the raw address is added to or removed from the address-tx registry only; always `true` |
| `Gateway.WsRpcGateway.HandleAddressBalanceUpdateSubscription` | src/api/routes/ws-rpc.ts:220-234 | the raw address is added to or removed from the balance registry only; always `true` |
| `Gateway.WsRpcGateway.ProcessTxUpdate` | src/api/routes/ws-rpc.ts:236-252 | no subscribers: no lookup and no send; not found: only the lookup; found: the lookup, then the same payload `(tx_id, tx_status)` once to each subscriber and to nobody else |
| `Gateway.WsRpcGateway.ClientClosed` | src/api/routes/ws-rpc.ts:69-71 | a close disconnects the client from all three registries |
| `Scenarios.UnknownMethodChangesNothing` | src/api/routes/ws-rpc.ts:146-153 | a frame with an unknown method is answered method-not-found with its id and changes nothing |
| `Scenarios.SubscribeThenUnsubscribe` | src/api/routes/ws-rpc.ts:185-201 | a client not yet subscribed subscribes then unsubscribes: both answered `true`, the tx topic map is restored, the other registries are unchanged; the close callback stays registered |
| `Scenarios.SpellingsShareTopic` | src/api/routes/ws-rpc.ts:191-196 | two spellings of one transaction id that normalize alike subscribe two clients to one topic |
| `Scenarios.TwoSubscribesBatch` | src/api/routes/ws-rpc.ts:98-129 | a batch of two valid subscribes is answered `[true, true]` in order |
| `Scenarios.ClosedClientGetsNothing` | src/api/routes/ws-rpc.ts:69-71 | from any gateway state, after a client closes, a later transaction update sends that client nothing, whatever the lookup finds |
| `Scenarios.SubscribeSubscribeClose` | src/api/routes/ws-rpc.ts:62-82 | when two clients subscribe and the first closes, the topic loses the first client, gains the second and keeps its other subscribers; on a fresh gateway (`SubscribeTwoThenClose`) only the second remains |
| `Scenarios.SubscribeThenNotify` | src/api/routes/ws-rpc.ts:236-252 | on a fresh gateway, after a subscribe, a found update sends the subscriber one notification keyed by the normalized id |
| `Scenarios.UnsubscribeThenNoNotify` | src/api/routes/ws-rpc.ts:236-252 | on a fresh gateway, after one client subscribes and unsubscribes, an update makes no lookup and sends nothing |
| `Scenarios.CloseThenNoNotify` | src/api/routes/ws-rpc.ts:236-252 | on a fresh gateway with two subscribers to one transaction, after the first closes, a found update is looked up and reaches the second only |
| `Scenarios.UnsubscribedClientGetsNothing` | src/api/routes/ws-rpc.ts:74-82 | from any gateway state, after a client unsubscribes from a transaction, a later update of it sends that client nothing, whatever the lookup finds |

## Left out

- The WebSocket server, connections and `client.send` (src/api/routes/ws-rpc.ts:86, 259-263) are I/O. Sends are modelled as the returned `Outbound` value and the `Io` log.
- `jsonrpc-lite` parsing and serialization are a foreign library. The model takes classified units as input and gives response values. It keeps error codes and the `data` strings, but not the library's message text.
- `getTxFromDataStore` and the `db.addListener('txUpdate', …)` wiring are asynchronous data-store calls. The lookup result is a parameter of `ProcessTxUpdate`, and each event is one call.
- `normalizeHashString` lives in helpers, which is not part of this model. It is the `normalize` parameter.
- The exception catch-all (src/api/routes/ws-rpc.ts:133-136) is left out. Only the parse error thrown for a non-text frame is modelled. Note that the handler builds `res` and then sends `err` instead.
- Params: `tx_id` and `address` are taken as strings. An absent or non-string value is not modelled; the code would pass `undefined` on to the normalizer or use it as a map key.
- Asynchrony and interleaving across connections are left out. Each frame, event and close is one sequential step.
- A `send` that fails for one subscriber is not modelled.
- Gateway.WsRpcGateway.ProcessTxUpdate: does not state the order of the sends. `Set.forEach` follows insertion order, but the model's sets are unordered. It states that each subscriber gets exactly one send.
- Registry.SubscriptionManager.Close: the closed client's callbacks are dropped from the manager. In the code they stay on the discarded socket object, which never fires them again.
- src/btc-faucet.ts is not part of this model: Bitcoin RPC, PSBT signing, environment settings and floating-point amounts.
- src/index.ts is not part of this model: process bootstrap and the heartbeat loop.
- src/migrations/1605184662317_miner_rewards.ts is not part of this model: it is schema DDL only.
