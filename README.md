# iocluster: a Dafny model of the cluster core

iocluster connects the worker processes of a socket server to a set of
broker processes (nData servers). Every worker holds an `IOClusterClient`,
which routes each data and channel operation to a broker. It does so by
hashing a key. The client reconciles three levels of channel subscription:

- the worker's own exchange (`Exchange`);
- the worker's client sockets;
- the broker-level subscriptions.

The master process runs an `IOCluster` supervisor, which launches the brokers
and relaunches any that exit.

This project models the four pieces of logic in `index.js` that hold that
behaviour:

- **Hash router** (`hashing.dfy`, module `Hashing`).
  - The `hasher` closure and `_defaultMapper` as pure functions, with
    JavaScript's 32-bit arithmetic written out (`ToInt32`).
  - The hash is proved to be Java's `String.hashCode` (the polynomial in 31,
    reduced to 32 bits).
  - The loops of the code (`Hasher`, `HashEach`, `Route`) are proved to compute
    those functions.
- **Exchange channel registry** (`exchange.dfy`, module `ExchangeModel`).
  - `Exchange` is a class holding a map from names to `ScChannel` objects.
  - Each channel has the three states UNSUBSCRIBED, PENDING and SUBSCRIBED,
    updated in place.
  - Calls made on the cluster client are recorded in `calls`. The subscribe
    callback runs when `CompleteSubscribe` is called.
- **Subscription manager** of `IOClusterClient` (`cluster_client.dfy`, module
  `SubscriptionManager`).
  - The exchange-level table `_exchangeSubscriptions`.
  - The subscriber sets `_clientSubscribers`.
  - The per-socket marks and counts (`Socket`).
  - The drop rule.
  - The subscribe waterfall and the unsubscribe waterfall.
  - The fan-out of inbound messages.
  - Every broker round-trip is a request left in `outstanding`. An `Ack*`
    method runs its callback, in any order, so interleavings can be stated.
- **Broker supervisor** `IOCluster` (`supervisor.dfy`, module `Supervisor`).
  - The ready counter and the `firstTime` flag.
  - Relaunch at the same index.
  - `sendToBroker`.

`scenarios.dfy` (module `Scenarios`) proves concrete runs that show the
less obvious behaviour listed below. `common.dfy` holds small shared helpers.

### How the code behaves where its documentation differs

The model follows `index.js` in each of these cases:

- **Null keys.** A `null` key is serialised to `"null"` and hashed. Only
  `undefined`, an empty string or a failed serialisation give 0
  (`Scenarios.NullKeyHash`).
- **Array keys.** An array key is unwrapped one level only. A number inside an
  array is serialised, not used as a number.
- **The `'*'` hint.** The hint is compared to `'*'` with loose equality, so
  `['*']` and `[['*']]` also reach every broker
  (`Scenarios.ArrayStarBroadcasts`).
- **Inherited names.** An operation whose name is inherited from
  `Object.prototype`, such as `toString`, is routed like a channel operation
  (`Scenarios.InheritedNameBroadcasts`).
- **Null keys on keyed operations.** `query`, `run` and `send` with a `null` or
  `undefined` key throw, because they read `key.mapIndex` (`Target.Throws`).
- **Repeated socket subscribes.** A socket subscribe asks the broker every
  time, even when another socket or the exchange already holds the channel.
  Two sockets joining one channel make two broker subscribes
  (`Scenarios.TwoSocketsOneChannel`).
- **Unsubscribing a channel never subscribed.** This still decrements the
  socket's count, possibly below zero, and can ask the broker to unsubscribe
  (`Scenarios.UnsubscribeUnknownChannel`).
- **A refused re-subscribe.** The socket's mark is deleted and its count
  decremented. The socket stays in the channel's subscriber set and still
  receives its messages (`Scenarios.ResubscribeRollback`).
- **Late acknowledgements.** A subscribe acknowledgement that arrives after
  an unsubscribe leaves the channel subscribed, both in the exchange and in
  the exchange-level table (`Scenarios.ExchangeLateAck`,
  `Scenarios.ClientLateAck`).
- **Ready events.** A broker relaunched before the first `ready` also gets a
  ready handler. `ready` can then be emitted before the relaunched broker is
  ready, and a second time after it (`Scenarios.ReadyTwice`).

## Model

| member | source | states |
|---|---|---|
| `Hashing.ToInt32` | index.js:437-438 | the 32-bit wrap of `<<` and `&`: the result is a signed 32-bit integer congruent to the input modulo 2^32 |
| `Hashing.ShiftStepIsJavaStep` | index.js:437-438 | the step `(h << 5) - h + ch` followed by `h & h` equals Java's `ToInt32(31 * h + ch)` for every `h` and code unit |
| `Hashing.StringHash` | index.js:435-439 | the folded hash of a string is always a signed 32-bit integer |
| `Hashing.StringHashIsWrappedPoly` | index.js:435-439 | the fold equals the exact polynomial `s[0]*31^(n-1) + ... + s[n-1]` reduced to 32 bits, so the overflow at every step does not change the result |
| `Hashing.KeyString` | index.js:422-434 | a string key is folded as itself; `undefined` and the empty array are not folded; a non-empty array stands for its first element; any other value is serialised |
| `Hashing.Hash` | index.js:416-442 | for n > 0 brokers the hash is in [0, n); an integer key gives `abs(key) mod n`; a key with no string or an empty string gives 0 |
| `Hashing.StringKeyHash` | index.js:416-442 | a string key hashes to `abs(ToInt32(polynomial)) mod n`, which is Java's `String.hashCode` made non-negative and reduced |
| `Hashing.ArrayHashesFirstElement` | index.js:422-434 | an empty array hashes to 0; an array whose first element is neither a number nor an array hashes as that element |
| `Hashing.Hasher` | index.js:416-442 | the hasher's loop with the shift step computes `Hash` for every key |
| `Hashing.HashAll` | index.js:466-471 | one hash per element of an array hint, in the same order and of the same length |
| `Hashing.HashEach` | index.js:466-471 | the loop that builds `hashedIndexes` computes `HashAll` |
| `Hashing.LooselyStar` | index.js:462 | a string is loosely equal to `'*'` exactly when it is `"*"`; only a string or an array can be, and such a hint is always truthy, so it never falls to broker 0 |
| `Hashing.IsChannelMethod` | index.js:444-452 | `publish`, `subscribe`, `unsubscribe` and `isSubscribed` are channel operations, and so is any other name exactly when a plain object inherits it; a channel operation is never a hinted one nor `removeAll`, so the first branch of the mapper takes precedence without overlap |
| `Hashing.DefaultMapper` | index.js:451-482 | the mapper throws exactly for `query`, `run` or `send` with a null or undefined key; a single index is always below n; a list other than all the brokers comes only from an array hint of `query`, `run` or `send` |
| `Hashing.MapperWithinBrokers` | index.js:451-482 | with broker ids below n, every index the default mapper returns is below n |
| `Hashing.MapperRoutes` | index.js:451-482 | the routing table: channel operations send a null key to every broker and hash any other key; `removeAll` goes to every broker; `query`, `run` and `send` throw on a null key, go to broker 0 without a truthy hint, go to every broker on a hint loosely equal to `'*'`, hash each element of any other array hint in order, and hash any other truthy hint; any other operation hashes the key |
| `Hashing.Route` | index.js:451-482 | `_defaultMapper` as written, with its loop, computes `DefaultMapper` |
| `ExchangeModel.ScChannel.constructor` | index.js:196-199 | a new channel is UNSUBSCRIBED under its name |
| `ExchangeModel.Exchange.constructor` | index.js:107-120 | the registry starts empty, with no calls and no events |
| `ExchangeModel.Exchange.IsSubscribed` | index.js:270-277 | true exactly when the channel exists and is SUBSCRIBED, or PENDING too when pending channels are included |
| `ExchangeModel.Exchange.Subscriptions` | index.js:248-268 | lists each name once, and exactly the names for which `IsSubscribed` holds; it changes nothing |
| `ExchangeModel.Exchange.Channel` | index.js:231-239 | returns the registered channel, creating it UNSUBSCRIBED only when missing; nothing else changes |
| `ExchangeModel.Exchange.Subscribe` | index.js:191-212 | creates a missing channel; only from UNSUBSCRIBED does it move to PENDING and make exactly one subscribe call; otherwise it makes no call and returns the same channel in the same state |
| `ExchangeModel.Exchange.TriggerSubscribe` | index.js:135-142 | the channel becomes SUBSCRIBED and one subscribe event is emitted |
| `ExchangeModel.Exchange.TriggerSubscribeFail` | index.js:144-151 | the channel becomes UNSUBSCRIBED and one failure event is emitted |
| `ExchangeModel.Exchange.TriggerUnsubscribe` | index.js:153-166 | the channel takes the given state, or UNSUBSCRIBED when none is given; an unsubscribe event is emitted only when it was SUBSCRIBED |
| `ExchangeModel.Exchange.CompleteSubscribe` | index.js:203-209 | the callback sets SUBSCRIBED on success and UNSUBSCRIBED on failure, whatever happened in between; the registry is unchanged |
| `ExchangeModel.Exchange.Unsubscribe` | index.js:214-229 | a PENDING or SUBSCRIBED channel becomes UNSUBSCRIBED with exactly one unsubscribe call, and an event only if it was SUBSCRIBED; otherwise nothing changes |
| `ExchangeModel.Exchange.DestroyChannel` | index.js:241-246 | the channel leaves the registry and nothing else does |
| `ExchangeModel.Exchange.HandleChannelMessage` | index.js:128-133 | a message is delivered exactly when its channel is SUBSCRIBED; PENDING does not count |
| `SubscriptionManager.Socket.Decorate` | index.js:547-551 | a decorated socket has no marks and a count of 0 |
| `SubscriptionManager.Socket.Subscriptions` | index.js:568-576 | lists each marked channel once, and exactly the marked channels |
| `SubscriptionManager.Socket.IsSubscribed` | index.js:578-580 | true exactly when the socket holds a mark for the channel |
| `SubscriptionManager.With` | index.js:798-801 | joining adds the socket to that channel's set only, and never leaves an empty set |
| `SubscriptionManager.Without` | index.js:816-821 | leaving removes the socket from that channel's set only, deleting the set when it empties |
| `SubscriptionManager.WithoutAllIsRemovedFrom` | index.js:813-821 | leaving channels one at a time equals leaving all of them at once, whatever their order and repetitions |
| `SubscriptionManager.LeavingChannels` | index.js:813-821 | after leaving a list of channels the socket is in none of their sets, and every other channel's set is unchanged |
| `SubscriptionManager.ClusterClient.constructor` | index.js:497-500 | both tables start empty, with no broker requests |
| `SubscriptionManager.ClusterClient.IsSubscribed` | index.js:716-721 | with pending included, true exactly when the exchange table has an entry; otherwise true exactly when the entry is `true`, so `'pending'` does not count |
| `SubscriptionManager.ClusterClient.DropUnused` | index.js:658-669 | an empty or missing subscriber set is deleted; a broker unsubscribe is issued exactly when the set was empty and the exchange table has no entry; a non-empty set changes nothing |
| `SubscriptionManager.ClusterClient.Subscribe` | index.js:675-692 | with no entry, records `'pending'` and issues exactly one broker subscribe; with any entry, changes nothing and makes no broker call |
| `SubscriptionManager.ClusterClient.AckExchangeSubscribe` | index.js:680-688 | success stores `true`, even for an entry deleted in between; failure deletes the entry and applies the drop rule; every other `'pending'` entry keeps its request in flight |
| `SubscriptionManager.ClusterClient.Unsubscribe` | index.js:694-697 | deletes the entry, so the channel is not subscribed even counting pending entries, then applies the drop rule |
| `SubscriptionManager.ClusterClient.UnsubscribeAll` | index.js:699-714 | the table ends empty and the subscriber sets are unchanged; exactly the old entries with no subscribers get one broker unsubscribe each |
| `SubscriptionManager.ClusterClient.SubscribeSingle` | index.js:774-811 | at a truthy limit that the count has reached, rejects without any change or broker call; otherwise marks the channel, counting it only if it was unmarked, and issues a broker subscribe every time |
| `SubscriptionManager.ClusterClient.SubscribeClientSocket` | index.js:723-743 | the waterfall starts with the first channel; an empty list answers at once with no change |
| `SubscriptionManager.ClusterClient.AckSocketSubscribe` | index.js:793-807 | failure deletes the mark and decrements the count even if the mark existed before, and stops the waterfall; success adds the socket to the channel's subscriber set and goes on with the next channel, which may be rejected at the limit |
| `SubscriptionManager.ClusterClient.UnsubscribeSingle` | index.js:813-830 | removes the socket from the channel's set, deletes its mark and decrements its count whether or not it was marked, then applies the drop rule; the waterfall waits only when a broker unsubscribe was issued |
| `SubscriptionManager.ClusterClient.ContinueUnsubscribe` | index.js:756-768 | the waterfall processes channels in order, never waiting on the ones before the last it processed, and stops at the first that issues a broker unsubscribe, or at the end |
| `SubscriptionManager.ClusterClient.UnsubscribeClientSocket` | index.js:745-772 | with no channel list, processes every marked channel once, and the socket ends with no marks unless the waterfall is waiting on the broker |
| `SubscriptionManager.ClusterClient.AckSocketUnsubscribe` | index.js:826-829 | the broker's answer resumes the waterfall with the remaining channels on success and stops it on failure; the resumed waterfall removes the marks, count and subscriber sets of the channels it processes, and parks on a new broker unsubscribe exactly at the first channel nobody holds any more |
| `SubscriptionManager.ClusterClient.AckCaller` | index.js:664 | an answer whose callback only reaches a caller changes no table |
| `SubscriptionManager.ClusterClient.KickOut` | index.js:555-566 | one notice for the given channel, or one for each marked channel, each once; the socket is then unsubscribed from exactly the noticed channels in the same order: the marks, count and subscriber sets of the channels processed are removed, the exchange table is unchanged, and a broker unsubscribe is issued (and the rest parked) exactly at the first channel nobody holds any more |
| `SubscriptionManager.ClusterClient.HandleExchangeMessage` | index.js:832-847 | the packet goes to exactly the sockets in the channel's subscriber set, once each |
| `Supervisor.IOCluster.constructor` | index.js:308-364 | one server per broker, in order, each with a ready handler; `_dataServers[i]` is the server for broker i |
| `Supervisor.IOCluster.Launch` | index.js:320-361 | a new server for index i with that socket path replaces `_dataServers[i]`; it has a ready handler only while `firstTime` holds |
| `Supervisor.IOCluster.OnServerReady` | index.js:339-346 | only a server with a ready handler counts; when the count reaches the broker count, `ready` is emitted and `firstTime` is cleared |
| `Supervisor.IOCluster.OnServerExit` | index.js:352-355 | an error naming the socket path, then a relaunch at the same index that replaces `_dataServers[i]` |
| `Supervisor.IOCluster.OnServerError` | index.js:348-350 | the error is re-emitted and nothing else changes |
| `Supervisor.IOCluster.OnBrokerMessage` | index.js:357-359 | the message is re-emitted with its broker id and nothing else changes |
| `Supervisor.IOCluster.SendToBroker` | index.js:368-377 | a known id sends to that broker's current server; an unknown id emits an error carrying the pid and sends nothing |
| `Scenarios.Room1Hash` | index.js:416-442 | the key "room1" goes to broker 2 of 3 |
| `Scenarios.NullKeyHash` | index.js:425-434 | a null key is hashed as the text "null", to broker 2 of 3, not to 0 |
| `Scenarios.ArrayStarBroadcasts` | index.js:459-463 | a query whose hint is `['*']` goes to every broker |
| `Scenarios.InheritedNameBroadcasts` | index.js:444-455 | an operation named `toString` with a null key goes to every broker |
| `Scenarios.ExchangeSubscribeTwice` | index.js:191-212 | two subscribes make one cluster call and the channel ends SUBSCRIBED |
| `Scenarios.ExchangeLateAck` | index.js:203-226 | a subscribe acknowledged after an unsubscribe leaves the channel SUBSCRIBED |
| `Scenarios.TwoSocketsOneChannel` | index.js:809-826 | two sockets joining one channel make two broker subscribes; only the last one to leave causes a broker unsubscribe |
| `Scenarios.LimitRejects` | index.js:777-779 | with a limit of 1, the second channel is rejected, the count stays 1 and there is no broker call |
| `Scenarios.UnsubscribeUnknownChannel` | index.js:822-826 | leaving a channel never joined drives the count to -1 and issues a broker unsubscribe |
| `Scenarios.ClientLateAck` | index.js:680-697 | an acknowledgement after an unsubscribe marks the channel subscribed, although the broker was last asked to unsubscribe |
| `Scenarios.ResubscribeRollback` | index.js:788-801 | a refused re-subscribe removes the mark and drops the count to 0, but the socket still receives the channel's messages |
| `Scenarios.ReadyTwice` | index.js:339-355 | with two brokers, an exit before the second is ready leads to two `ready` events |

## Left out

- The `AbstractDataClient` pass-throughs and the argument handling of `run` (index.js:12-104). They only delegate to the nData client, which is not part of this model.
- `publish`, `send`, `setMapper`, `getMapper` and `map` of the exchange and of the client: they delegate to the client cluster, which is not part of this model.
- `ndata.createServer`, `ndata.createClient`, the launch options and the debug-port arithmetic. These are process and socket I/O; a launch is modelled as a record of the broker index, socket path and handlers.
- The `domain` error boundary, which is a runtime exception mechanism.
- `watch`, `unwatch`, `watchers` and the emitter internals. Emitted events are recorded in a log instead.
- `bind`, `unbind`, `_validateSocket` and the `destroy` methods: socket wiring and teardown.
- `SCChannel` is not part of this model, so a channel is reduced to its name and state.
- `Exchange.DestroyChannel`: only the registry removal is modelled. The channel's own `unwatch` and `unsubscribe` are not, and the channel must exist.
- The Exchange and the subscription manager are separate objects. The calls the Exchange makes on the client are recorded, not executed.
- Hashing of non-integer numeric keys (`Math.abs` on fractions) is not modelled; numbers are integers.
- `JSON.stringify` is a parameter of the model, which can fail. An object key is reduced to its `mapIndex` property.
- `OtherMethod` is taken to carry a name other than the eight operations named in `Method`.
- Sockets that were never decorated, and the code's checks for a missing count or mark table, are not modelled. Every socket is decorated.
- The concurrent scheduling of `async.parallel` is not modelled; `UnsubscribeAll` runs its tasks as a sequential loop.
- The deferral between the tasks of `async.waterfall` is not modelled. A task that needs no broker round-trip is followed at once by the next.
- `async.waterfall` passes a task's callback results to the next task before its callback. The model assumes a broker's unsubscribe answer carries at most an error, so every task receives its callback.
- The client-facing `#subscribe`, `#unsubscribe` and `subscribe`/`unsubscribe` socket events, and the `message` event after a fan-out, are not recorded.
- `SubscriptionManager.Socket.IsSubscribed`: a channel named after a property every object inherits, such as `toString`, is treated like any other name. In the source, looking one up in the mark table finds a truthy inherited value.
- `SubscriptionManager.ClusterClient.IsSubscribed`: the same holds for the exchange table when pending entries are included.
- Names that a plain object inherits from `Object.prototype` (such as `toString` or `__proto__`) are treated like any other channel name in `_channels`, `_exchangeSubscriptions`, `_clientSubscribers` and `channelSubscriptions`. In the source, looking one up finds a truthy inherited value, which changes these members:
  - `ExchangeModel.Exchange.IsSubscribed` answers true for such a name on an empty registry.
  - `ExchangeModel.Exchange.Channel` and `ExchangeModel.Exchange.Subscribe` create no channel for it, and the subscribe then throws.
  - `ExchangeModel.Exchange.HandleChannelMessage` delivers the message.
  - `SubscriptionManager.ClusterClient.Subscribe` records nothing and makes no broker call.
  - `SubscriptionManager.ClusterClient.DropUnused` never issues a broker unsubscribe for it.
  - `SubscriptionManager.ClusterClient.SubscribeSingle` sets no mark and does not count it.
  - `SubscriptionManager.ClusterClient.AckSocketSubscribe` for `__proto__` writes the socket into `Object.prototype`.
- `Supervisor.IOCluster.SendToBroker`: the error's message text is not modelled, only the broker id and the pid it carries.
