# A verified model of the Foxglove bridge server

The repository is a bridge: a sender (`dora/`) serializes sensor messages, a receiver
(`examples/src/`) reads them and publishes them through a WebSocket server (`foxglove-websocket/`)
to viewer clients. This project models, in Dafny, what the server keeps and tells its clients over
whole runs, the work queue its handlers run on, and the codecs on both sides.

**The server.** `Session.dfy` holds the state of the server (clients with their subscriptions,
advertised ids and graph flag; channels; services; client publications; parameter subscriptions; the
connection graph with its counter) and one step function for each call of its interface and each
client message. Beside the state it keeps observers: the calls made to the application's handlers and
what each client was sent. The steps follow the locks where that matters: a subscribe message is one
step per subscription it lists, and `removeChannels` is one step per lock, so other connections and
the owner of the server come in between. Messages of one server are handled one after the other, as
its queue has a single worker, and may be handled after their client has gone. What the environment
decides is part of each step's label: whether a handler throws, in which order an unordered container
is walked, whether a debounced warning goes out, how far a send queue has drained. `Runs` says that a
sequence of such steps leads from one state to another; the theorems quantify over all of them.

`WebsocketServer.dfy` is the server as the object it is, with methods that update its tables in
place, loops over message batches and the 13-byte frame header; each method is proved to do the
session step of its name. The `*Proofs.dfy` and `Subscription*.dfy` files prove what runs of the
server keep, and `UnsubscribeBound.dfy` when a bound one would expect fails. What one message achieves
is in `MessageEffects.dfy`; what is said about it, call by call and status by status, in
`MessageReplies.dfy` and `PublicationReplies.dfy`, which give every item of a message one reply and
prove that the message is answered by these; `SubscriptionCauses.dfy` draws from them when the handlers
are called, and `OwnerEffects.dfy` has the calls of the owner and the coming and going of clients.
`Numbering.dfy` is the 32-bit numbering of channels and services, `Scenarios.dfy` has runs of a new
server that end where one would not expect, and `SessionFrames.dfy` says what each step leaves alone.

**The queue.** `CallbackQueue.dfy` is a transition system of workers, adding threads, one mutex and
one condition variable, and the object whose critical sections do its steps.

**The codecs.** `Base64.dfy`, `ParameterJson.dfy`, and `Wire.dfy`, `Messages.dfy`,
`MessageCodec.dfy`, `ServiceMessage.dfy` for the binary messages. A binary reader is a partial
function that is undefined where the program would read past the buffer; its law says that it yields
a value if and only if that value's bytes stand there. `Base64Digits.dfy` and `Layouts.dfy` say what the
encodings are, character by character and byte by byte.

Some statements one would expect are false of the code, and the model keeps the code:

- The counter of graph subscribers is not the number of flagged clients, because only the first
  subscriber is flagged. `GraphProofs.InterestOverRuns` has the exact relation.
- A graph subscriber's topic maps can keep entries of a topic that left one map and stayed in the
  other; `ConnectionGraph.ViewExactStep` says exactly when.
- A subscribe message that repeats an id can give two channels one id:
  `MessageEffects.SubscribeKeepsIdsDistinctExactly` says exactly which messages do, and
  `Scenarios.RepeatedIdReachable` is a run of a new server that ends so.
- Unsubscribe calls can outnumber subscribe calls when a handler throws or a message lists an id twice:
  `UnsubscribeBound.FutileExactly` says exactly which messages add such a call, `Scenarios` has a run for
  each, and `SubscriptionAccounting.CallsBalance` is the law that always holds.
- A graph subscriber that comes while another is there is never sent an update:
  `GraphProofs.LateSubscriberGetsSnapshotsOnly`.
- A batch of services that fails part-way leaves services no client was told of:
  `CatalogueProofs.PartialBatch` says exactly when.
- A removal in flight can withdraw a channel added meanwhile, and a wrapped-around counter can announce
  a channel that is not stored: `CatalogueProofs.AddMirrorsExactly` says exactly when.
- `stop` can miss a worker that is about to wait, which then waits until it wakes up spuriously.
  `CallbackQueue.StopReachesAllExactly` says exactly when, `StopEndsEveryWorker` what holds otherwise.
- Nested byte arrays come back from JSON as strings: `ParameterJson.RoundTripIsExact`.

`dafny verify dfyconfig.toml` checks the whole project.

## Model

| member | source | states |
|---|---|---|
| `WebsocketServer.Server.constructor` | foxglove-websocket/include/foxglove/websocket/websocket_server.hpp:183-207 | a new server has no clients, channels, services, publications or subscriptions, and counters at zero |
| `WebsocketServer.Server.HandleConnectionOpened` | foxglove-websocket/include/foxglove/websocket/websocket_server.hpp:301-345 | in place: the client is entered and sent every channel and every service there is, each once |
| `WebsocketServer.Server.HandleConnectionClosed` | foxglove-websocket/include/foxglove/websocket/websocket_server.hpp:348-433 | in place: the client goes; the application hears of each advertised id, each subscription, the parameters nobody else wants, and the end of graph interest if it was the last |
| `WebsocketServer.Server.HandleSubscribe` | foxglove-websocket/include/foxglove/websocket/websocket_server.hpp:1236-1274 | the loop over a subscribe message does what its turns do one after the other; it stops where a turn throws |
| `WebsocketServer.Server.SubscribeTurn` | foxglove-websocket/include/foxglove/websocket/websocket_server.hpp:1252-1273 | one turn of the loop is one step of the session: malformed, id in the snapshot, unknown channel, handler throws, client gone, channel already subscribed, or subscribed |
| `WebsocketServer.RunBatchRuns` | foxglove-websocket/include/foxglove/websocket/websocket_server.hpp:1252-1273 | an uninterrupted message is a run of the session made of turns only |
| `WebsocketServer.Server.HandleUnsubscribe` | foxglove-websocket/include/foxglove/websocket/websocket_server.hpp:1277-1308 | in place: ids are looked up in a snapshot, the handler is called, the subscription goes; a malformed id or a throw ends the message with the turns before it kept |
| `WebsocketServer.Server.UnsubscribeOne` | foxglove-websocket/include/foxglove/websocket/websocket_server.hpp:1293-1307 | one turn of that loop, with its calls, statuses and effect on the table |
| `WebsocketServer.FindSubscriptionBySubId` | foxglove-websocket/include/foxglove/websocket/websocket_server.hpp:1284-1295 | the first channel in walking order with the id, or none |
| `WebsocketServer.Server.HandleAdvertise` | foxglove-websocket/include/foxglove/websocket/websocket_server.hpp:1311-1344 | in place: the duplicate test is skipped in a first message, and both tables follow each accepted channel |
| `WebsocketServer.Server.AdvertiseOne` | foxglove-websocket/include/foxglove/websocket/websocket_server.hpp:1318-1343 | one turn of that loop: malformed, duplicate, not whitelisted, handler throws, client gone, or stored |
| `WebsocketServer.Server.HandleUnadvertise` | foxglove-websocket/include/foxglove/websocket/websocket_server.hpp:1347-1373 | in place: unknown ids are skipped silently; a throw or a vanished client ends the message |
| `WebsocketServer.Server.UnadvertiseOne` | foxglove-websocket/include/foxglove/websocket/websocket_server.hpp:1357-1372 | one turn of that loop |
| `WebsocketServer.Server.HandleClientMessage` | foxglove-websocket/include/foxglove/websocket/websocket_server.hpp:732-777 | the application gets the message with the stored advertisement of that client and id, or the client an error |
| `WebsocketServer.Server.IsParameterSubscribed` | foxglove-websocket/include/foxglove/websocket/websocket_server.hpp:1164-1170 | the search finds the name exactly if some client is subscribed to it |
| `WebsocketServer.Server.UnsubscribeParamsWithoutSubscriptions` | foxglove-websocket/include/foxglove/websocket/websocket_server.hpp:1173-1199 | exactly the names nobody is subscribed to are withdrawn, in one call, or none is made |
| `WebsocketServer.Server.HandleSubscribeParameterUpdates` | foxglove-websocket/include/foxglove/websocket/websocket_server.hpp:1396-1418 | in place: the names nobody had are asked for upstream; the client has all of them |
| `WebsocketServer.Server.HandleUnsubscribeParameterUpdates` | foxglove-websocket/include/foxglove/websocket/websocket_server.hpp:1420-1432 | in place: the client has none of the names; those left without a subscriber are withdrawn |
| `WebsocketServer.Server.UpdateParameterValues` | foxglove-websocket/include/foxglove/websocket/websocket_server.hpp:879-914 | the loop over the subscribers sends each what the session step says, in the order of the update |
| `WebsocketServer.Server.HandleSubscribeConnectionGraph` | foxglove-websocket/include/foxglove/websocket/websocket_server.hpp:1435-1475 | in place: the counter, the flag and the call for the first subscriber only, the snapshot for all |
| `WebsocketServer.Server.HandleUnsubscribeConnectionGraph` | foxglove-websocket/include/foxglove/websocket/websocket_server.hpp:1478-1504 | in place: only a flagged client lowers the counter; zero is reported to the application |
| `WebsocketServer.Server.UpdateConnectionGraph` | foxglove-websocket/include/foxglove/websocket/websocket_server.hpp:1078-1154 | in place: the graph is replaced and a diff that is not empty goes to the flagged clients |
| `WebsocketServer.ComputeDiff` | foxglove-websocket/include/foxglove/websocket/websocket_server.hpp:1086-1134 | the loops compute the changed entries and the removed names of both kinds |
| `WebsocketServer.Server.AddChannels` | foxglove-websocket/include/foxglove/websocket/websocket_server.hpp:820-849 | in place: ids by pre-increment with 32-bit wrap-around, an id in the table keeps its entry, every client is told; returns the ids in order |
| `WebsocketServer.Server.RemoveChannelsBegin` | foxglove-websocket/include/foxglove/websocket/websocket_server.hpp:852-863 | the first lock: the channels go from the table |
| `WebsocketServer.Server.RemoveChannelsEnd` | foxglove-websocket/include/foxglove/websocket/websocket_server.hpp:864-876 | the second lock: the subscriptions go, client by client, and every client is told |
| `WebsocketServer.Server.AddServices` | foxglove-websocket/include/foxglove/websocket/websocket_server.hpp:917-950 | in place: an invalid definition throws after those before it were stored and before anybody is told |
| `WebsocketServer.Server.RemoveServices` | foxglove-websocket/include/foxglove/websocket/websocket_server.hpp:953-972 | in place: the ids that were present are announced, each once, or nothing is sent |
| `WebsocketServer.Server.SendMessage` | foxglove-websocket/include/foxglove/websocket/websocket_server.hpp:986-1033 | the buffer test comes first, then the lookup; the frame sent is the 13-byte header and the payload |
| `WebsocketServer.MessageHeader` | foxglove-websocket/include/foxglove/websocket/websocket_server.hpp:1021-1024 | the three writes into the 13-byte array make opcode, subscription id and time |
| `WebsocketServer.Server.BroadcastMessage` | foxglove-websocket/include/foxglove/websocket/websocket_server.hpp:975-983 | the loop over the clients is a send to each in turn |
| `SessionFrames.StepFrame` | foxglove-websocket/include/foxglove/websocket/websocket_server.hpp:820-1504 | which tables, observers and kinds of mail each step can change at all |
| `SubscriptionProofs.SubscriptionIdsAreDistinct` | foxglove-websocket/include/foxglove/websocket/websocket_server.hpp:1236-1308 | if no subscribe message repeats an id, every client's channel-to-id map is injective in every reachable state, also between two turns of a loop |
| `MessageEffects.SubscribeKeepsIdsDistinctExactly` | foxglove-websocket/include/foxglove/websocket/websocket_server.hpp:1236-1274 | a message, whatever is in it, keeps a client's ids distinct if and only if it grants no id to two new channels; the condition is on the message, the snapshot and the channels |
| `MessageEffects.TurnKeepsIdsDistinctExactly` | foxglove-websocket/include/foxglove/websocket/websocket_server.hpp:1252-1273 | the same turn by turn, whatever came in between: if and only if the turn does not subscribe a channel under an id another has by now |
| `Scenarios.RepeatedIdReachable` | foxglove-websocket/include/foxglove/websocket/websocket_server.hpp:1236-1274 | a run of a new server, of any options and channels, that ends with one id for two channels |
| `SubscriptionProofs.RepeatedIdCollides` | foxglove-websocket/include/foxglove/websocket/websocket_server.hpp:1252-1272 | the assumption is needed: one message listing a new id twice subscribes two channels under it, since the test uses the snapshot |
| `SubscriptionProofs.SubscriptionsAreLive` | foxglove-websocket/include/foxglove/websocket/websocket_server.hpp:852-876 | with any number of removals between their locks, a subscribed channel exists or is in one of them; with none, it exists |
| `SubscriptionRoundTrip.SubscribeThenUnsubscribe` | foxglove-websocket/include/foxglove/websocket/websocket_server.hpp:1236-1308 | subscribing fresh distinct ids and unsubscribing the same ids restores the clients exactly, also when channels are missing, listed twice or subscribed before |
| `SubscriptionAccounting.CallsBalance` | foxglove-websocket/include/foxglove/websocket/websocket_server.hpp:1262-1308 | per client and channel, in every run: subscribe calls plus futile unsubscribe calls equal unsubscribe calls plus one if subscribed plus unanswered subscribe calls |
| `SubscriptionAccounting.BoundExactly` | foxglove-websocket/include/foxglove/websocket/websocket_server.hpp:1262-1308 | so in every run unsubscribe calls plus one if subscribed are at most the subscribe calls if and only if the futile calls are at most the unanswered ones |
| `UnsubscribeBound.FutileExactly` | foxglove-websocket/include/foxglove/websocket/websocket_server.hpp:1293-1307 | a message logs a futile call if and only if, before a malformed item or a throw ends it, an item names an id of the snapshot and throws or names it again |
| `UnsubscribeBound.CleanRunsExactly` | foxglove-websocket/include/foxglove/websocket/websocket_server.hpp:1277-1308 | a run logs no futile call if and only if none of its messages asks for one |
| `UnsubscribeBound.UnsubscribesNeverExceed` | foxglove-websocket/include/foxglove/websocket/websocket_server.hpp:1293-1307 | then the bound holds, with equality if and only if no subscribe call was left unanswered by a throw, a duplicate, a close or a removal |
| `UnsubscribeBound.ThrowingUnsubscribeGains` | foxglove-websocket/include/foxglove/websocket/websocket_server.hpp:1302-1306 | from any state, an unsubscribe handler that throws adds one call and leaves the subscription |
| `Scenarios.ThrowBreaksBound` | foxglove-websocket/include/foxglove/websocket/websocket_server.hpp:1302-1306 | a run of a new server that ends with the bound broken by a throw |
| `Scenarios.RepeatBreaksBound` | foxglove-websocket/include/foxglove/websocket/websocket_server.hpp:1293-1307 | and one that ends with it broken by an id listed twice |
| `SubscriptionCauses.SubscribeCalledExactly` | foxglove-websocket/include/foxglove/websocket/websocket_server.hpp:1252-1268 | in any step the subscribe handler is called for a client and a channel if and only if it is a turn of that client whose item asks for the channel, the channel exists and the id was not in use when the message came; then once |
| `SubscriptionCauses.UnsubscribeCalledOnly` | foxglove-websocket/include/foxglove/websocket/websocket_server.hpp:348-415 | the unsubscribe handler is called only for a subscription there is: once when its client closes, or by a message of that client that names its id |
| `SubscriptionCauses.CausesAreTrue` | foxglove-websocket/include/foxglove/websocket/websocket_server.hpp:852-1308 | what a step logs as the reason why calls do not pair up is true at that moment: a throw, a client gone, a channel subscribed already or being removed, an id named twice |
| `MessageReplies.TurnSays` | foxglove-websocket/include/foxglove/websocket/websocket_server.hpp:1252-1273 | one turn, whatever came before it, makes the call, reports the status, logs the cause, ends the message or subscribes the channel, as its item, the snapshot and the channels have it, and nothing else to anybody |
| `MessageReplies.SubscribeSays` | foxglove-websocket/include/foxglove/websocket/websocket_server.hpp:1236-1274 | a whole subscribe message, malformed or throwing included, makes exactly the calls and sends exactly the statuses its items ask for, in order, up to and including the first that ends it |
| `MessageReplies.FindFirst` | foxglove-websocket/include/foxglove/websocket/websocket_server.hpp:1284-1295 | the channel looked up is the first in walking order with the id; none only if no channel has it |
| `MessageReplies.UnsubscribeSays` | foxglove-websocket/include/foxglove/websocket/websocket_server.hpp:1277-1308 | the same for an unsubscribe message; it ends exactly the subscriptions its items find before one ends it, also where two channels have one id |
| `MessageReplies.GoneAreIgnored` | foxglove-websocket/include/foxglove/websocket/websocket_server.hpp:1236-1308 | subscribe and unsubscribe messages of a client that is gone change nothing at all |
| `MessageEffects.SubscribeExact` | foxglove-websocket/include/foxglove/websocket/websocket_server.hpp:1252-1273 | any message keeps the subscriptions there were and gives every other channel the id of the first item it gets to for it whose id was not in use, if the channel exists |
| `MessageEffects.UnsubscribeExact` | foxglove-websocket/include/foxglove/websocket/websocket_server.hpp:1293-1307 | any message ends exactly the subscriptions whose ids it gets to before a malformed item or a throw |
| `MessageEffects.AdvertiseExact` | foxglove-websocket/include/foxglove/websocket/websocket_server.hpp:1318-1343 | a message without throws keeps what was filed and files, for every other id, its first whitelisted channel with it |
| `MessageEffects.UnadvertiseExact` | foxglove-websocket/include/foxglove/websocket/websocket_server.hpp:1357-1372 | a message without throws withdraws exactly the ids it lists |
| `MessageEffects.CloseLeavesNothing` | foxglove-websocket/include/foxglove/websocket/websocket_server.hpp:348-415 | nothing of a closed client stays in any table; each of its advertised ids and subscriptions ends with exactly one call |
| `PublicationReplies.AdvertiseSays` | foxglove-websocket/include/foxglove/websocket/websocket_server.hpp:1311-1344 | an advertise message, malformed or throwing included, makes exactly the calls and sends exactly the statuses its items ask for; every new id is filed with the first channel the handler took for it, nobody else's publications change |
| `PublicationReplies.UnadvertiseSays` | foxglove-websocket/include/foxglove/websocket/websocket_server.hpp:1347-1373 | the same for an unadvertise message: known ids are called for, up to a throw, and exactly the ids of the calls that returned are gone |
| `PublicationReplies.MessageSays` | foxglove-websocket/include/foxglove/websocket/websocket_server.hpp:732-777 | a message on a filed id makes one call with what is filed, and on any other none; one error exactly if it was not filed or the handler throws |
| `PublicationReplies.MessageIsDelivered` | foxglove-websocket/include/foxglove/websocket/websocket_server.hpp:732-777 | from any state: once a client advertised a channel under a new id, after any run in which it neither closes nor withdraws the id, a message on it is handed over exactly once, with what it advertised |
| `PublicationReplies.MessageAfterWithdrawal` | foxglove-websocket/include/foxglove/websocket/websocket_server.hpp:732-777 | after the id was withdrawn, and any run in which it is not advertised again, a message makes no call and gets the client one error |
| `PublicationReplies.MessageAfterClose` | foxglove-websocket/include/foxglove/websocket/websocket_server.hpp:732-777 | after a close, and any run in which the id is not advertised again, the same |
| `PublicationProofs.PublicationsOrderly` | foxglove-websocket/include/foxglove/websocket/websocket_server.hpp:732-777 | in every run: publications have the keys of the client's advertised ids, none for a closed handle, own id, whitelisted topic; each message call uses an advertisement of that client made earlier and not withdrawn since |
| `ParameterProofs.UpstreamIsUnion` | foxglove-websocket/include/foxglove/websocket/websocket_server.hpp:1396-1432 | in every run, late messages of closed handles included, replaying the calls upstream gives exactly the names in some client's entry; no call asks for what is subscribed |
| `ParameterProofs.UpstreamAfter` | foxglove-websocket/include/foxglove/websocket/websocket_server.hpp:1396-1432 | after any run: subscribing adds the names upstream; unsubscribing and disconnecting withdraw, of the names given up, exactly those no other client wants |
| `ParameterProofs.UpdateReaches` | foxglove-websocket/include/foxglove/websocket/websocket_server.hpp:879-914 | exactly the connected subscribers of an updated name get one message: exactly the entries of the update that are set and that they are subscribed to, in order and multiplicity |
| `ParameterProofs.SubscribeCallsExactly` | foxglove-websocket/include/foxglove/websocket/websocket_server.hpp:1396-1418 | after any run a subscribe message makes one call, for exactly the names not yet subscribed upstream, or none; the client's entry grows by all of them; an error exactly if the call was made and threw |
| `ParameterProofs.UnsubscribeCallsExactly` | foxglove-websocket/include/foxglove/websocket/websocket_server.hpp:1420-1432 | an unsubscribe message makes one call, for exactly the names no other client wants, subscribed before or not, or none; an error exactly if the call was made and threw |
| `ParameterProofs.CloseCallsExactly` | foxglove-websocket/include/foxglove/websocket/websocket_server.hpp:408-415 | a disconnect makes one for exactly the names of its client that no other wants |
| `ConnectionGraph.ApplyDiff` | foxglove-websocket/include/foxglove/websocket/websocket_server.hpp:1086-1134 | a view in step with the server stays in step under a diff; which stale entries it then has, exactly |
| `ConnectionGraph.EmptyDiff` | foxglove-websocket/include/foxglove/websocket/websocket_server.hpp:1136-1139 | not sending an empty diff loses nothing |
| `ConnectionGraph.FirstSnapshot` | foxglove-websocket/include/foxglove/websocket/websocket_server.hpp:1451-1474 | the snapshot gives a new client the server's graph |
| `ConnectionGraph.ApplySnapshot` | foxglove-websocket/include/foxglove/websocket/websocket_server.hpp:1451-1474 | a further snapshot changes nothing in a view that is in step |
| `ConnectionGraph.ViewInStep` | foxglove-websocket/include/foxglove/websocket/websocket_server.hpp:1078-1154 | over any sequence of updates: services and topic names exact, topic maps contain the server's, and the extra entries are exactly those left by half-dropped topics |
| `ConnectionGraph.ViewExactly` | foxglove-websocket/include/foxglove/websocket/websocket_server.hpp:1078-1154 | so the whole view is exact if and only if no entry is left over |
| `ConnectionGraph.ViewExact` | foxglove-websocket/include/foxglove/websocket/websocket_server.hpp:1078-1154 | the whole view is exact if no update takes a topic from one map and has it in the other |
| `ConnectionGraph.ViewExactStep` | foxglove-websocket/include/foxglove/websocket/websocket_server.hpp:1086-1134 | and one update keeps an exact view exact if and only if it half-drops no topic |
| `ConnectionGraph.DiffExactly` | foxglove-websocket/include/foxglove/websocket/websocket_server.hpp:1086-1134 | a diff has an entry for exactly the names whose entry is new or different, as it is now, and removes exactly the names that were there and are gone, a topic being gone when it is in neither map |
| `ConnectionGraph.DiffIsLeast` | foxglove-websocket/include/foxglove/websocket/websocket_server.hpp:1086-1134 | no update that takes the old graph to the same result says less |
| `ConnectionGraph.SilentExactly` | foxglove-websocket/include/foxglove/websocket/websocket_server.hpp:1136-1139 | a diff is empty if and only if nothing is new or different and no topic name or service is gone |
| `GraphProofs.UpdateExact` | foxglove-websocket/include/foxglove/websocket/websocket_server.hpp:1078-1154 | an update of the graph goes as one diff to exactly the flagged clients unless that is so, and changes nobody else's mail |
| `GraphProofs.SameGraphSendsNothing` | foxglove-websocket/include/foxglove/websocket/websocket_server.hpp:1136-1139 | storing the graph that is there again sends nobody anything |
| `GraphProofs.InterestOverRuns` | foxglove-websocket/include/foxglove/websocket/websocket_server.hpp:1435-1504 | counter = flagged clients + subscribe calls that flagged nobody; at most one client flagged; calls alternate from true, the last true exactly while the counter is positive |
| `GraphProofs.InterestNeverWithdrawn` | foxglove-websocket/include/foxglove/websocket/websocket_server.hpp:1435-1449 | once a subscribe call raised the counter without a flag, no further call is made and the counter stays positive |
| `GraphProofs.FlaggedClientInStep` | foxglove-websocket/include/foxglove/websocket/websocket_server.hpp:1078-1154 | in every run of the server the flagged client is in step from its mail alone |
| `GraphProofs.FlaggedClientMirrors` | foxglove-websocket/include/foxglove/websocket/websocket_server.hpp:1078-1154 | and exact if no update half-drops a topic |
| `GraphProofs.SubscribeFlagsExactly` | foxglove-websocket/include/foxglove/websocket/websocket_server.hpp:1435-1449 | a subscribe call flags its client if and only if the counter was zero, the handler does not throw and the client is connected |
| `GraphProofs.FirstSubscriberComesAndGoes` | foxglove-websocket/include/foxglove/websocket/websocket_server.hpp:1435-1504 | the first subscriber is flagged, sent the snapshot and reported; when it leaves that is reported and nothing else is left of its visit |
| `GraphProofs.LaterSubscriberMissesUpdates` | foxglove-websocket/include/foxglove/websocket/websocket_server.hpp:1442-1449 | a client that subscribes while the counter is positive gets the snapshot, no flag, and not the next update |
| `GraphProofs.LateSubscriberGetsSnapshotsOnly` | foxglove-websocket/include/foxglove/websocket/websocket_server.hpp:1435-1504 | over any run after that, as long as it stays connected, it is never flagged and its graph mail is the snapshots it asks for and nothing else |
| `GraphProofs.SubscribeGraphExact` | foxglove-websocket/include/foxglove/websocket/websocket_server.hpp:1435-1475 | what a subscribe call does to everybody: counter, flag, call and log, and either the whole graph with no removals, or the error, or nothing, in the mail of each client |
| `GraphProofs.UnsubscribeGraphExact` | foxglove-websocket/include/foxglove/websocket/websocket_server.hpp:1478-1504 | what an unsubscribe call does to everybody, flagged or not, connected or not, throwing or not |
| `GraphProofs.CloseGraphExact` | foxglove-websocket/include/foxglove/websocket/websocket_server.hpp:417-431 | a disconnect lowers the counter only of a flagged client, and reports zero |
| `Numbering.AddAllNumbers` | foxglove-websocket/include/foxglove/websocket/websocket_server.hpp:829-840 | every entry is announced under the id that follows the counter, modulo 2^32, and stored unless that id is taken |
| `Numbering.StoredAsAnnounced` | foxglove-websocket/include/foxglove/websocket/websocket_server.hpp:829-840 | a batch is stored as it is announced if and only if no new id is taken by another entry |
| `Numbering.AddThenErase` | foxglove-websocket/include/foxglove/websocket/websocket_server.hpp:829-863 | under free ids each entry is stored under its own, in order, beside the others; erasing the returned ids restores the table |
| `Numbering.WelcomeIsComplete` | foxglove-websocket/include/foxglove/websocket/websocket_server.hpp:321-344 | the listing sent on connecting is the whole table, in whatever order it is walked |
| `OwnerEffects.OpenExact` | foxglove-websocket/include/foxglove/websocket/websocket_server.hpp:301-345 | a new client has nothing, an empty queue and exactly two messages: each channel and each service once, with its contents; no other client is affected |
| `OwnerEffects.CloseExact` | foxglove-websocket/include/foxglove/websocket/websocket_server.hpp:348-415 | a disconnect makes one call for each advertised id and each subscription, in walking order, and no others, and sends nothing |
| `OwnerEffects.AddChannelsExact` | foxglove-websocket/include/foxglove/websocket/websocket_server.hpp:820-849 | adding channels tells each connected client all of them, as numbered, in one message, and an empty batch nobody; the counter ends at the last id |
| `OwnerEffects.RemovalBeginsExactly` | foxglove-websocket/include/foxglove/websocket/websocket_server.hpp:852-863 | the first lock of a removal takes out exactly the channels named, and nothing else anywhere |
| `OwnerEffects.RemovalEndsExactly` | foxglove-websocket/include/foxglove/websocket/websocket_server.hpp:864-876 | the second lock drops exactly the subscriptions to them, makes no call, logs each once, and tells each connected client the ids in one message |
| `OwnerEffects.AddServicesExact` | foxglove-websocket/include/foxglove/websocket/websocket_server.hpp:917-950 | services are stored up to the first definition that lacks a request or a response, counted by its four optional parts, and announced in one message only if there is none such |
| `OwnerEffects.RemoveServicesExact` | foxglove-websocket/include/foxglove/websocket/websocket_server.hpp:953-972 | the ids leave the table, and each connected client is told those that named a service, once each and in order, or nobody anything |
| `CatalogueProofs.ClientsKnowTheChannels` | foxglove-websocket/include/foxglove/websocket/websocket_server.hpp:820-876 | in every run in which no new id is taken or named by a removal in flight: a client that replays its mail has the channels, ids and contents, but for ids of removals in flight; exactly the channels when none is |
| `CatalogueProofs.AddMirrorsExactly` | foxglove-websocket/include/foxglove/websocket/websocket_server.hpp:820-849 | adding channels keeps the clients in step if and only if no new id is taken by another channel or named by a removal in flight |
| `CatalogueProofs.RemovedBeforeIssued` | foxglove-websocket/include/foxglove/websocket/websocket_server.hpp:852-876 | without that: a removal in flight that names the id issued next withdraws a channel the server keeps |
| `CatalogueProofs.WrappedIdCollides` | foxglove-websocket/include/foxglove/websocket/websocket_server.hpp:833-838 | and after a wrap-around a taken id keeps its channel while the clients are told the new one |
| `CatalogueProofs.ClientsKnowTheServices` | foxglove-websocket/include/foxglove/websocket/websocket_server.hpp:917-972 | in every run in which no announced id is taken the replayed services are among the server's, and all of them if no failing batch stored anything new |
| `CatalogueProofs.PartialBatch` | foxglove-websocket/include/foxglove/websocket/websocket_server.hpp:917-950 | a client that knew every service still does after a batch if and only if every definition has a request and a response, in full or as a schema, and no id is taken by another, or the ones before the first that lacks one are stored under no new id |
| `CatalogueProofs.ClientsKnowBeforeWrapAround` | foxglove-websocket/include/foxglove/websocket/websocket_server.hpp:820-972 | both hold in particular while fewer than 2^32 of each were added |
| `BroadcastProofs.FrameRoundTrip` | foxglove-websocket/include/foxglove/websocket/websocket_server.hpp:1021-1032 | bytes read as a frame with this id, time and payload if and only if they are that frame |
| `BroadcastProofs.FrameLayout` | foxglove-websocket/include/foxglove/websocket/websocket_server.hpp:1021-1024 | opcode 1, four bytes of the client's own subscription id, eight of time, the payload, byte by byte |
| `BroadcastProofs.BroadcastReachesEach` | foxglove-websocket/include/foxglove/websocket/websocket_server.hpp:975-983 | a broadcast does to each client what sending to it alone would do |
| `BroadcastProofs.BroadcastExact` | foxglove-websocket/include/foxglove/websocket/websocket_server.hpp:975-1033 | exactly the subscribed clients with room get one frame under their own id, their queues grow by 13 and the payload; nobody else gets data |
| `BroadcastProofs.SendExact` | foxglove-websocket/include/foxglove/websocket/websocket_server.hpp:986-1033 | one send does so for its client and nobody else; room is that the bytes waiting, of data and all else, and the payload are below the limit |
| `BroadcastProofs.ChannelRecoverable` | foxglove-websocket/include/foxglove/websocket/websocket_server.hpp:975-1033 | in runs without repeated ids the frame identifies its channel for the client |
| `BroadcastProofs.QueuedDataIsBounded` | foxglove-websocket/include/foxglove/websocket/websocket_server.hpp:986-1033 | over any run of sends and drains the data waiting for a client is below the limit plus 13 |
| `Scenarios.WaitingDataReachesBound` | foxglove-websocket/include/foxglove/websocket/websocket_server.hpp:995-1032 | and the bound is tight: for every positive limit a run leaves exactly the limit plus 12 bytes of data waiting |
| `CallbackQueue.Conservation` | foxglove-websocket/include/foxglove/websocket/callback_queue.hpp:37-71 | any number of workers, every run: what was accepted is in order what was dequeued and then what is queued |
| `CallbackQueue.NothingIsLost` | foxglove-websocket/include/foxglove/websocket/callback_queue.hpp:37-71 | any number of workers, every run: the callbacks on their way in, queued or dequeued are, with multiplicity, those of the addCallback calls before the first stop, read off the events alone |
| `CallbackQueue.PushGoesLast` | foxglove-websocket/include/foxglove/websocket/callback_queue.hpp:41-43 | a push completes one call and puts its callback behind all that are queued |
| `CallbackQueue.EveryCallbackRuns` | foxglove-websocket/include/foxglove/websocket/callback_queue.hpp:53-70 | the callbacks dequeued are started once each, in that order, and a worker finishes one before it starts another |
| `CallbackQueue.NoStrandedWork` | foxglove-websocket/include/foxglove/websocket/callback_queue.hpp:41-58 | with k callbacks queued, at least k workers, or all of them, are not waiting |
| `CallbackQueue.WorkCanStart` | foxglove-websocket/include/foxglove/websocket/callback_queue.hpp:47-71 | unless quitting, some worker takes the front callback within five turns of its own |
| `CallbackQueue.SingleWorkerOrder` | foxglove-websocket/include/foxglove/websocket/callback_queue.hpp:47-71 | with one worker callbacks run in order of acceptance, one at a time; those started are a prefix of those accepted, also after quitting |
| `CallbackQueue.StopReachesAllExactly` | foxglove-websocket/include/foxglove/websocket/callback_queue.hpp:29-31 | from any state of any number of workers, no worker ever waits after the notification if and only if none stood between its test of the wait condition and its wait |
| `CallbackQueue.StopEndsEveryWorker` | foxglove-websocket/include/foxglove/websocket/callback_queue.hpp:29-35 | then every worker is done after at most three turns of its own, a number fixed by where it stood, and until all are done some worker can take one |
| `CallbackQueue.StopCanMissAWorker` | foxglove-websocket/include/foxglove/websocket/callback_queue.hpp:29-35 | the exception is reached: a run in which the notification falls between a worker's test and its wait, with nothing left to be added |
| `CallbackQueue.MissedWorkerStays` | foxglove-websocket/include/foxglove/websocket/callback_queue.hpp:29-58 | such a worker stays waiting in every run without a spurious wake-up of it or another notification |
| `CallbackQueue.Queue.constructor` | foxglove-websocket/include/foxglove/websocket/callback_queue.hpp:17-23 | all workers start at the top of their loop, with an empty queue |
| `CallbackQueue.Queue.StartAdding` | foxglove-websocket/include/foxglove/websocket/callback_queue.hpp:37-40 | the unlocked test of the flag |
| `CallbackQueue.Queue.PushBack` | foxglove-websocket/include/foxglove/websocket/callback_queue.hpp:41-43 | the callback goes to the back and one waiting worker, if any, is woken |
| `CallbackQueue.Queue.TestTop` | foxglove-websocket/include/foxglove/websocket/callback_queue.hpp:48 | the loop condition |
| `CallbackQueue.Queue.TestWait` | foxglove-websocket/include/foxglove/websocket/callback_queue.hpp:50-52 | the wait condition |
| `CallbackQueue.Queue.Take` | foxglove-websocket/include/foxglove/websocket/callback_queue.hpp:53-58 | a woken worker stops, or takes the front callback and releases the mutex |
| `CallbackQueue.Queue.SetQuit` | foxglove-websocket/include/foxglove/websocket/callback_queue.hpp:30 | the flag is set, without the mutex |
| `CallbackQueue.Queue.NotifyAll` | foxglove-websocket/include/foxglove/websocket/callback_queue.hpp:31 | every waiting worker is woken, without the mutex |
| `Base64.Encode` | foxglove-websocket/src/base64.cpp:10-43 | the loop over three bytes and the two endings build the encoding of section 4 of RFC 4648 |
| `Base64.Decode` | foxglove-websocket/src/base64.cpp:47-104 | the loop with its never-reset accumulator gives the bytes, or the error, of decoding group by group |
| `Base64.StaleBitsNeverShow` | foxglove-websocket/src/base64.cpp:64-101 | bits of earlier groups in the 32-bit accumulator reach no output byte, for full groups and before a pad |
| `Base64.AccumulatedBytes` | foxglove-websocket/src/base64.cpp:68-100 | the bytes taken after two, three and four characters are those of the characters alone |
| `Base64.EncodedLength` | foxglove-websocket/src/base64.cpp:14-41 | four characters for every three bytes, rounded up |
| `Base64.DecodeEncode` | foxglove-websocket/src/base64.cpp:10-104 | decoding undoes encoding, for every byte string |
| `Base64.DecodeSucceedsExactly` | foxglove-websocket/src/base64.cpp:48-95 | success exactly on multiples of four in the alphabet, with = allowed last, or second to last whatever follows |
| `Base64.DecodeBlamesFirst` | foxglove-websocket/src/base64.cpp:70-93 | the error is that of the first character outside the alphabet |
| `Base64.DecodedSize` | foxglove-websocket/src/base64.cpp:54-62 | the output never exceeds the reservation and meets it exactly on proper padding |
| `Base64.EncodeDecode` | foxglove-websocket/src/base64.cpp:10-104 | re-encoding returns the input exactly if its padding is proper and its discarded bits are zero (section 3.5 of RFC 4648) |
| `Base64Digits.SymbolsAreTheAlphabet` | foxglove-websocket/src/base64.cpp:11-12 | the encoder's characters are the entries of the 64-character alphabet of section 4 of RFC 4648, written out |
| `Base64Digits.ValuesAreTheAlphabet` | foxglove-websocket/src/base64.cpp:70-79 | a character is in the decoder's ranges if and only if it is in that alphabet, and its value is its place |
| `Base64Digits.EncodedAt` | foxglove-websocket/src/base64.cpp:14-41 | the four characters of each group are the base-64 digits of its three bytes as one number, with = for those that stand for no byte |
| `Base64Digits.DecodedAt` | foxglove-websocket/src/base64.cpp:64-101 | each decoded byte is the byte at its place in the number its four characters are the digits of |
| `Base64Digits.BadLength` | foxglove-websocket/src/base64.cpp:48-51 | a length that is no multiple of four is reported as such, whatever the characters |
| `ParameterJson.ValueRoundTrip` | foxglove-websocket/src/serialization.cpp:30-72 | a value of any nesting comes back with its byte arrays as their base64 strings |
| `ParameterJson.FlattenedIsIdentity` | foxglove-websocket/src/serialization.cpp:40-44 | that changes a value exactly if it holds a byte array |
| `ParameterJson.RoundTrip` | foxglove-websocket/src/serialization.cpp:74-99 | a parameter comes back in its normal form; a top-level byte array and an unset value come back as they were |
| `ParameterJson.RoundTripIsExact` | foxglove-websocket/src/serialization.cpp:74-99 | exactly itself if and only if no byte array lies below the top level |
| `ParameterJson.RoundTripSettles` | foxglove-websocket/src/serialization.cpp:74-99 | a second trip is exact |
| `ParameterJson.FlattenedHasNone` | foxglove-websocket/src/serialization.cpp:40-44 | no byte array survives below the top level |
| `ParameterJson.ReparsedReadsTheSame` | foxglove-websocket/src/serialization.cpp:61-64 | reading does not depend on a parser calling an integer signed or unsigned |
| `ParameterJson.RoundTripThroughParser` | foxglove-websocket/src/serialization.cpp:54-99 | so the round trip does not depend on how a parser classifies integers |
| `ParameterJson.ValueIsSaid` | foxglove-websocket/src/serialization.cpp:30-52 | the document of a value says its kind and contents, part by part; a byte array is a string that decodes to it |
| `ParameterJson.DocumentExactly` | foxglove-websocket/src/serialization.cpp:74-80 | a parameter's document has its name, its value and, for a byte array only, the type byte_array, and no other key |
| `ParameterJson.ValueIsRead` | foxglove-websocket/src/serialization.cpp:54-72 | any document is read as the value it says, an unsigned number as the signed one with its bits |
| `ParameterJson.ReadingExactly` | foxglove-websocket/src/serialization.cpp:82-99 | reading any document fails if and only if it has no name that is a string, or is tagged and not base64; else name and value are what it says |
| `Messages.HeaderLaw` | examples/src/Header.h:26-43 | reading a header yields this value and end if and only if the sender's bytes of it stand there and it fits |
| `Messages.FieldLaw` | examples/src/PointCloud.h:40-61 | the same for a point field |
| `Messages.FieldsLaw` | examples/src/PointCloud.h:122-129 | the same for the counted list of fields |
| `Messages.CloudLaw` | examples/src/PointCloud.h:111-152 | the same for a whole cloud |
| `Messages.ReadingsLaw` | examples/src/LaserScan.h:75-86 | the same for the two arrays of a scan |
| `Messages.ScanLaw` | examples/src/LaserScan.h:48-89 | the same for a whole scan |
| `Messages.PoseLaw` | examples/src/Path.h:53-66 | the same for a pose of seven words |
| `Messages.PosesLaw` | examples/src/Path.h:51-67 | the same for the list of poses |
| `Messages.PathLaw` | examples/src/Path.h:44-69 | the same for a whole path |
| `Messages.CloudRoundTrip` | dora/PointCloud.h:86-110 | embedded between any bytes, a cloud is read back with the offset moved by its length, if and only if its sizes fit |
| `Messages.CloudPrefixFree` | dora/PointCloud.h:86-110 | no cloud's bytes are a proper prefix of another's |
| `Messages.ScanPrefixFree` | dora/LaserScan.h:27-47 | nor any scan's |
| `Messages.PathPrefixFree` | dora/Path.h:30-44 | nor any path's |
| `Messages.ScanRoundTrip` | dora/LaserScan.h:27-47 | a scan is read back from the start of a buffer if and only if its sizes fit, with its exact length |
| `Messages.PathRoundTrip` | dora/Path.h:30-44 | the same for a path, with its exact length |
| `Layouts.HeaderLayout` | dora/Header.h:14-24 | where each part of a header stands, and its length: numbers of 4, 8 and 4 bytes, then the name |
| `Layouts.FieldLayout` | dora/PointCloud.h:27-39 | the same for a point field |
| `Layouts.CloudLayout` | dora/PointCloud.h:86-110 | the same for a cloud: each field stands where those before it end, the data behind them |
| `Layouts.ScanLayout` | dora/LaserScan.h:27-47 | the same for a scan, down to each range and intensity |
| `Layouts.PoseLayout` | dora/Path.h:30-44 | the same for the seven words of a pose |
| `Layouts.PathLayout` | dora/Path.h:30-44 | the same for a path, each pose at its multiple of 56 |
| `MessageCodec.SerializeHeader` | dora/Header.h:14-24 | the successive inserts append the header's bytes |
| `MessageCodec.SerializeField` | dora/PointCloud.h:27-39 | the successive inserts append the field's bytes |
| `MessageCodec.SerializeCloud` | dora/PointCloud.h:86-110 | the inserts and the loop over the fields append the cloud's bytes |
| `MessageCodec.SerializeScan` | dora/LaserScan.h:27-47 | the inserts append the scan's bytes |
| `MessageCodec.SerializePath` | dora/Path.h:30-44 | the loop over the points appends the path's bytes |
| `MessageCodec.DeserializeHeader` | examples/src/Header.h:26-43 | the advancing offset reads the header and ends where it ends |
| `MessageCodec.DeserializeField` | examples/src/PointCloud.h:40-61 | the advancing offset reads the field |
| `MessageCodec.DeserializeCloud` | examples/src/PointCloud.h:111-152 | the advancing offset and the loop over the fields read the cloud |
| `MessageCodec.DeserializeScan` | examples/src/LaserScan.h:48-89 | the advancing offset reads the scan |
| `MessageCodec.CopyFloats` | examples/src/LaserScan.h:78-80 | one array of words is read whole |
| `MessageCodec.DeserializePath` | examples/src/Path.h:44-69 | the loop reads each pose in place |
| `MessageCodec.CloudCrosses` | examples/src/PointCloud.h:111-152 | what the sender's method serializes the receiver's method returns, anywhere in a buffer |
| `MessageCodec.ScanCrosses` | examples/src/LaserScan.h:48-89 | the same for a scan |
| `MessageCodec.PathCrosses` | examples/src/Path.h:44-69 | the same for a path |
| `ServiceMessage.WriteUint32LE` | foxglove-websocket/include/foxglove/websocket/serialization.hpp:27-36 | four bytes of the buffer become the value, the rest is untouched |
| `ServiceMessage.WriteUint64LE` | foxglove-websocket/include/foxglove/websocket/serialization.hpp:12-25 | eight bytes of the buffer become the value, the rest is untouched |
| `Bytes.FourBytes` | foxglove-websocket/include/foxglove/websocket/serialization.hpp:27-36 | such a value is its four bytes, least significant first |
| `Bytes.EightBytes` | foxglove-websocket/include/foxglove/websocket/serialization.hpp:12-25 | and of eight bytes the four low ones come first |
| `ServiceMessage.WriteResponse` | foxglove-websocket/src/serialization.cpp:175-186 | exactly size() bytes are written at the place given, the rest of the buffer is untouched |
| `ServiceMessage.ReadPayload` | foxglove-websocket/src/serialization.cpp:160-173 | the advancing offset reads the whole payload |
| `ServiceMessage.ResponseLaw` | foxglove-websocket/src/serialization.cpp:160-186 | a payload reads as this response if and only if it is what the response is written as |
| `ServiceMessage.ResponseReadable` | foxglove-websocket/src/serialization.cpp:160-173 | a payload can be read if and only if it has 12 bytes and the encoding they announce |
| `Layouts.ResponseLayout` | foxglove-websocket/src/serialization.cpp:175-186 | where each part of a written response stands: three numbers of 4 bytes, the encoding, the data |
| `ServiceMessage.ResponseRoundTrip` | foxglove-websocket/src/serialization.cpp:160-186 | writing into a fresh buffer and reading gives the response back |

## Left out

- WebSocket transport, TLS, logging, `start` and `stop` of the server: a send appends to the client's mail, and the clock is a parameter of a message.
- The join in `stop` of the callback queue: it waits for the workers, which end as `CallbackQueue.StopEndsEveryWorker` says if the scheduler lets each of them go on; that a callback returns is the application's business.
- JSON text: parsing and dumping are not modelled; handlers start from decoded fields, a missing or ill-typed field being `None`. A list that is missing as a whole is the case of a first item that is malformed.
- Regular expressions of the topic whitelist: a set of whitelisted topics.
- Dispatch on the hash of an operation's name, and the tests for a capability or a handler before it: an operation whose handler is absent is rejected before any table is touched.
- `serverInfo`, `broadcastTime`, get and set of parameters, fetch-asset, service requests and failures: they change none of the tables; the service message codec is modelled.
- `Channel` and `Service` JSON: their fields go over unchanged.
- Texts of status messages: only their level is recorded.
- Handlers interleaved more finely than by the steps above: upstream agreement is not promised there, since a disconnect can come between a lock's release and a handler's call.
- Order between messages of different kinds to one client, and between calls of different handlers: each kind has a record of its own.
- The connection table of the transport is taken to agree with the server's own table of clients.
- Reuse of a handle by a later connection is allowed; its mail and queue then start afresh, its calls do not.
- Overflow of the `int` subscriber counter: the counter is unbounded.
- Floats and doubles: opaque words of 4 and 8 bytes; only the layout matters.
- The big-endian branches of the integer helpers: the reading branch names a variable that does not exist.
- FlatBuffers schemas, the demo programs and the socket code around the codecs.
- MessageCodec.DeserializeHeader: requires the bytes it reads to be in the buffer, because the code does not test this and is undefined otherwise; likewise the other binary readers.
- ServiceMessage.ReadPayload: requires a payload that can be read, for the same reason; `ServiceMessage.ResponseReadable` says which can.
- WebsocketServer.Server.HandleSubscribe: handles a message with nothing in between; what may come in between is the business of `SubscribeTurn` and of the runs of the session.
- WebsocketServer.Server.RemoveChannelsBegin: the two locks of one call are two methods, so that a run can put other calls between them.
- CatalogueProofs.AddMirrorsExactly: speaks of batches of at most 2^32 channels; a longer one repeats ids within itself. The same holds of the batches of services.
- ParameterJson.RoundTripThroughParser: covers a parser that reads an integer as signed or unsigned, and not text itself, in which a double that is not a number is written as null.
- CallbackQueue.Queue.PushBack: the threads' positions and the mutex are ghost; one method is the code of one thread up to the next point where another may run. The two halves of `stop` are two methods for the same reason.
