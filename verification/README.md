# QTT broker: a verified model

This project models the QTT broker of crabmq-core: its session store, subscription registry, rate
limiter, persistent offline queue, message tables, router and connection handler, the access rules and
topic matching they use, the bridge of the HTTP API that is a client of the broker, and the small MQTT
front end in Rust with its codec.

Verify everything with `dafny verify dfyconfig.toml`.

## How it is built

`StateMachine.dfy` is the centre. A state holds the limiter's windows, the sessions, the registry, the
connections, the two database tables, and a trace of the sends, queue operations and counters. An event
is the arrival of a connection, the replay of the queue to it, a packet on it, or its loss. Whatever
the code does not decide (parsed claims, clocks, fresh ids, failing sends and statements, map iteration
order, the order of rows with equal times) is part of the event. An event that cannot happen leaves the
state unchanged, so every sequence of events is a run, and theorems over `Run` hold for all runs.

`Server.dfy` is the broker as the object it is: mutable stores, loops and early returns. Each method is
proved to do exactly what the state machine says, in steps that are possible where they are taken, so
the theorems about runs are about that code.
`Routing.dfy`, `Subscriptions.dfy`, `Sessions.dfy`, `Storage.dfy` and `Limiter.dfy` hold the classes it
uses and the functions that specify them. `Steps.dfy` and `Invariants.dfy` say what one step does,
`Observed.dfy` says it again from outside, field by field, without the functions that compute it;
`Durability.dfy`, `ReplayOrder.dfy`, `History.dfy`, `SessionTheorems.dfy`, `Conservation.dfy`,
`RateTheorem.dfy`, `Provenance.dfy` and `Delivery.dfy` hold the theorems over runs, `Restart.dfy` those
over several runs on one database. `DualStore.dfy` is a finer machine in which the two store calls of a
SUBSCRIBE are separate steps. `Bridge.dfy` puts the bridge and the broker together, `TelemetryPath.dfy`
follows telemetry from a device to the hub. `Witnesses.dfy` holds concrete runs. `Framing.dfy` is the
Rust side.

## Where the code does less than its documentation says

- The protocol document, under "Offline Delivery", says that QoS 1 messages for offline subscribers
  are stored. The queue has one row per packet id and ignores an insert that finds the id taken, so of
  several offline subscribers one gets a row (`OneRowForTwoSubscribers`). Publishers choose packet ids,
  so a reused id leaves an earlier message in the row (`ReusedIdIsLost`).
  `EveryOfflineSubscriberQueuedExactly` says exactly when every subscriber is served.
- The same section says that entries are removed only after PUBACK. That holds (`RowLifetime`),
  but the PUBACK may come from any client (`AnyClientsPubAckRemoves`, `StrangersPubAckEmptiesQueue`).
- A session is taken offline by client id. The end of an older handler therefore takes a newer
  connection's session offline, and a CONNACK that cannot be sent leaves a session online that no
  handler will end. `OnlineExactly` says what the flag means in general, `ServedExactly` when it means
  that the client is served.
- The two copies of a client's subscriptions can disagree for good when SUBSCRIBE packets of one client
  id on two connections overtake each other between the stores (`OvertakingDisagrees`);
  `ListsAgreeExactly` says when they do not.
- The bridge treats any packet before SUBACK as a failure, and the broker replays the queue before it
  reads SUBSCRIBE. A bridge with a queued row therefore fails to connect for as long as the row is
  there and each replay reads the queue and gets its first packet out (`EveryRetryStalls`). The broker
  goes on after a failed replay, so a failed read lets the bridge through (`FailedReadReachesConsume`).
- Queued rows survive a restart of the broker and subscriptions do not: until a client subscribes
  again nothing is queued for it (`RowOutlivesRestarts`, `ForgottenAfterRestart`).
- The time to live of the persistent queue (internal/queue/persistent/store.go:14) is stored and never
  read; the model has no expiry either.
- The Rust front end reads the remaining length as one byte. It cuts packets where section 2.2.3 of
  MQTT 3.1.1 does exactly when that byte is below 128 (`OneByteLengthExactly`); the encoder and decoder
  agree with each other up to 255 (`DecodeEncode`).

## Model

| member | source | states |
|---|---|---|
| `Durability.AcknowledgedMeansDurable` | internal/broker/server/server.go:246-270 | In any state that keeps the invariant, when a PUBLISH is answered with PUBACK, the message table holds its id (with its sender, topic, QoS and payload, if the id was new), and every registered subscription whose filter accepts the topic belongs to a client with a session that was sent the packet, or has effective QoS of at most 0, or the queue holds the id |
| `Durability.PubAckExactly` | internal/broker/server/server.go:231-270 | A step puts PUBACK on the wire if and only if it is a PUBLISH that passed the access check, was saved, was routed without queue error and has positive QoS |
| `Durability.WhoOwnsTheRow` | internal/broker/router/router.go:60-78 | If clients needed the queue, the id is queued afterwards: under its old, unchanged row if it was there, otherwise under one new row made for one of those clients |
| `Observed.NeedingExactly` | internal/broker/router/router.go:51-78 | A client needs the queue for a saved PUBLISH if and only if one of its subscriptions accepts the topic, both QoS values are positive, and the client is offline or the send to it fails |
| `Observed.NewRowIsCopy` | internal/broker/router/router.go:51-78 | Every row that appears in the queue carries the id, topic and payload of the PUBLISH of the step, for a client with a subscription that accepts the topic, at the lower of the two QoS values, which is positive, with the time of the enqueue |
| `Observed.QosZeroIsNeverQueued` | internal/broker/router/router.go:52-54 | Over every run a client that never asks for a positive QoS has no row but those an earlier broker left |
| `Durability.EveryOfflineSubscriberQueuedExactly` | api/db/store.go:260-287 | Every client that needed the queue has the acknowledged message queued (its own row, with the published topic and payload and the QoS of one of its matches) if and only if the id was free and at most one client needed it, or the id was already queued with this very message for the only client that needed it, if any |
| `Witnesses.OneRowForTwoSubscribers` | api/db/store.go:105-113 | From any initial state with an empty queue there is a run in which two offline QoS 1 subscribers both need the queue for an acknowledged PUBLISH and one of them has no row |
| `Witnesses.ReusedIdIsLost` | api/db/store.go:265-269 | From any initial state with an empty queue there is a run in which a publisher reuses the id of a message still queued for the only offline subscriber: it gets PUBACK and the queue holds the new message for nobody |
| `Durability.RowKept` | internal/broker/server/server.go:134-142 | One step removes a queued row if and only if it is an admitted PUBACK for its id whose delete succeeds; otherwise the row is unchanged |
| `Durability.RowLifetime` | api/db/store.go:260-332 | Over every run a queued row stays queued throughout if and only if no admitted PUBACK deletes its id, and while it stays no column of it changes |
| `Durability.AnyClientsPubAckRemoves` | api/db/store.go:325-332 | An admitted PUBACK takes the row of its id from its owner, whoever sends it, and no row from any other client |
| `Witnesses.StrangersPubAckEmptiesQueue` | internal/broker/server/server.go:134-142 | From any initial state with an empty queue there is a run in which the PUBACK of one client takes the only row of another |
| `Durability.AcknowledgedIsReplayed` | internal/broker/server/server.go:275-289 | From PUBACK to replay over any run: if exactly one client needed the queue for a fresh id and no PUBACK deletes it, every later replay to that client lists the row and a complete replay sends a PUBLISH with the published id, topic and payload ("{}" for none) and the lower of the QoS published and the QoS a subscription of the client asked for |
| `Durability.ReplayContains` | internal/queue/persistent/store.go:37-56 | A replay lists every row of its client, and a complete one sends them all as PUBLISH packets with the id, topic, QoS, payload and enqueue time of the row |
| `ReplayOrder.ReplayInOrder` | internal/queue/persistent/store.go:37-56 | Over every run, from whatever rows an earlier broker left, with enqueue times strictly increasing through the older and the inserted rows, a replay lists exactly the surviving rows of the client in enqueue order and tries them in that order up to the first send that fails, each as a PUBLISH with the id, topic, QoS, payload and enqueue time of its row |
| `ReplayOrder.RunRecords` | internal/queue/persistent/store.go:24-35 | Over every run, every queued row was queued before the run or inserted by a logged enqueue, with the same contents |
| `History.MessageHistory` | api/db/store.go:189-227 | The first accepted PUBLISH with an id fixes the row's client, topic, QoS, payload and time forever, and the row is acknowledged if and only if its QoS is 0 or a PUBACK with the id was processed after the insertion |
| `History.StoredForever` | api/db/store.go:220-227 | Over every run a stored message never leaves and never changes, except that acknowledged turns true, for good, exactly when an admitted PUBACK is processed |
| `SessionTheorems.PersistentSessions` | internal/broker/session/store.go:35-76 | In every reachable state the session's and the registry's subscriptions both equal the fold of all accepted SUBSCRIBE packets of the client across reconnects: one entry per topic, in first-request order, each the last request for its topic |
| `SessionTheorems.RegistryIsFold` | internal/broker/server/server.go:203-214 | Over every run the registry's list of a client is the fold of last-write-wins upserts over its accepted SUBSCRIBE packets |
| `SessionTheorems.SessionPresentExactly` | internal/broker/server/server.go:177-191 | CONNACK says the session is present if and only if the client id connected earlier in the run |
| `SessionTheorems.SessionsAreThoseBound` | internal/broker/session/store.go:39-50 | A client has a session in a reachable state if and only if it connected in the run |
| `SessionTheorems.OnlineExactly` | internal/broker/session/store.go:87-96 | In every reachable state a client is online on connection k if and only if binding it to k was the last connect or handler end for that id |
| `SessionTheorems.ServedExactly` | internal/broker/server/server.go:83-93 | Online sessions and running handlers correspond, connection by connection and client by client, in every state of a run if and only if all along the run CONNACK sends succeed and no id connects while a handler of it runs |
| `SessionTheorems.OnlineMeansServed` | internal/broker/server/server.go:83-93 | In such runs a client is online on k if and only if a handler for that very connection runs for that client, and the ActiveSessions gauge is the number of running handlers |
| `SessionTheorems.FailedConnackStaysOnline` | internal/broker/server/server.go:83-93 | A CONNACK that cannot be sent leaves the session online with no handler running |
| `SessionTheorems.StaleHandlerTakesSessionOffline` | internal/broker/session/store.go:91-94 | The end of an older handler of an id takes the newer connection's session offline while its handler keeps running |
| `SessionTheorems.StaleHandlerIsReachable` | internal/broker/server/server.go:90-93 | From every initial state a run leads to a running handler whose client is marked offline |
| `Invariants.RunInv` | internal/broker/session/store.go:35-124 | Every reachable state keeps: sessions under their own id, online if and only if there is a connection, bound to that client; devices bound under their own id only; registry and session lists equal; table keys equal to the packet ids of the rows |
| `DualStore.TopicsAgree` | internal/broker/server/server.go:213-214 | With the two store calls as separate steps, under every interleaving the registry's topics of a client are the session's plus those of its requests between the two calls |
| `DualStore.ListsAgree` | internal/broker/server/server.go:213-214 | If the requests of client c finish in the order they began (in particular with at most one in flight or one handler running for c), whatever other clients do, the registry list of c is the session list with the pending requests merged in; with none pending the lists are equal, order and QoS included |
| `DualStore.ListsAgreeExactly` | internal/broker/server/server.go:213-214 | At any point of any interleaving the two lists are equal if and only if the requests that reached the stores agree on the last request per topic and on the order of first requests |
| `DualStore.OvertakingDisagrees` | internal/broker/server/server.go:213-214 | For every client and topic, connected twice, two requests on the two connections that overtake each other between the stores leave different QoS values with nothing in flight |
| `Upserts.Merge` | internal/broker/subscription/registry.go:31-46 | The nested replace-or-append loop computes the fold of upserts |
| `Upserts.UpsertAllMeaning` | internal/broker/session/store.go:63-75 | That fold from the empty list has no topic twice, lists topics in first-request order, and each entry is the last request for its topic |
| `Upserts.MergesAgreeExactly` | internal/broker/subscription/registry.go:31-46 | Two request sequences merge to the same list if and only if they have the same last request for every topic and the same order of first requests |
| `Upserts.UpsertAllTopics` | internal/broker/subscription/registry.go:31-46 | Merging adds exactly the topics of the new subscriptions and removes none |
| `Routing.Router.Route` | internal/broker/router/router.go:41-82 | The loop over the matches, with its early return, has the effect of routing them one after another on the queue, the sends, the counters and the returned count |
| `Routing.Router.Deliver` | internal/broker/router/router.go:46-78 | One turn of that loop: unknown client, QoS downgrade, send, failed send, queue, queue error |
| `Routing.FanoutOrderIndependent` | internal/broker/router/router.go:41-82 | For any two iteration orders of the registry with the same outcomes per match: same error, and without error the same delivered count, multiset of sends, counters and set of queued ids |
| `Routing.FanoutError` | internal/broker/router/router.go:60-78 | Route fails if and only if some match that needs the queue finds it failing |
| `Routing.FanoutSends` | internal/broker/router/router.go:56-71 | Without error the sends are exactly the attempts of the matches of online clients, in match order |
| `Routing.FanoutCounts` | internal/broker/router/router.go:43-81 | Without error the result and the three counters are the numbers of matches sent, failed and handed to the queue |
| `Routing.OneEndPerMatch` | internal/broker/router/router.go:45-79 | Without error the delivered count, the calls on the queue and the matches dropped at effective QoS of at most 0 add up to the number of matches whose client has a session; the others are skipped |
| `Routing.FanoutQueue` | internal/broker/router/router.go:60-78 | With or without error the queue is unchanged, or the id was free and exactly one row was added, for a match that needed it |
| `Routing.NeededIsQueued` | internal/broker/router/router.go:60-78 | Without error, if any match needed the queue the queue holds the id |
| `Routing.RouteStops` | internal/broker/router/router.go:61-63 | After a queue error the remaining matches change nothing |
| `Observed.RoutedIsCopy` | internal/broker/router/router.go:51-57 | Everything routed is a copy of the packet, under its id and from its sender, for a registered subscription that accepts the topic, on the connection its client is online on, at the lower of the QoS published and the QoS asked for |
| `Observed.EverySubscriberIsTried` | internal/broker/router/router.go:45-57 | Unless the queue fails, every registered subscription that accepts the topic and whose client is online gets that copy tried on its connection |
| `Observed.CommandReachesDevice` | internal/auth/acl/service.go:18-20 | Over every run an administrator's PUBLISH of positive QoS on device/d/command, once admitted and without database failures, is answered with PUBACK, and if d is subscribed at a positive QoS it is sent on its connection or the queue holds its id |
| `Subscriptions.Registry.Add` | internal/broker/subscription/registry.go:27-47 | The registry after Add is the old one with the client's list merged with the new subscriptions |
| `Subscriptions.Registry.Match` | internal/broker/subscription/registry.go:57-75 | The result lists the matches of all clients, block by block, for some order of the keys |
| `Subscriptions.MatchMeaning` | internal/broker/subscription/registry.go:57-75 | Whatever the order, the result contains a match if and only if that client has that subscription and its filter accepts the topic |
| `Subscriptions.MatchesPermute` | internal/broker/subscription/registry.go:62-72 | Two results for different iteration orders are permutations of each other |
| `Sessions.SessionStore.UpsertConnected` | internal/broker/session/store.go:35-52 | The session is replaced, online, with the old subscriptions kept; tells whether one existed |
| `Sessions.SessionStore.AddSubscriptions` | internal/broker/session/store.go:54-76 | Merges into an existing session; does nothing for an unknown client |
| `Sessions.SessionStore.Disconnect` | internal/broker/session/store.go:87-96 | Marks the session offline and drops its connection, keeping its subscriptions |
| `Sessions.SessionStore.OnlineCount` | internal/broker/session/store.go:112-124 | The number of sessions marked online |
| `Server.Server.constructor` | internal/broker/server/server.go:42-62 | A new server starts in an initial state of the state machine, whatever the database holds |
| `Server.Server.HandleConnection` | internal/broker/server/server.go:78-149 | The handler of one connection is the run of the state machine that accepts the connection and, if and only if that succeeds, replays the queue as far as reads and sends allow and receives the inputs in order, each event possible in the state before it, until an input ends the handler or all are read and the connection is lost |
| `Server.Server.Serve` | internal/broker/server/server.go:102-148 | The receive loop with its deferred clean-up is the run that receives the given inputs one by one, each event possible in the state before it, serving until the input that ends the handler, or the loss of the connection after the last input |
| `Server.Server.HandlePacket` | internal/broker/server/server.go:111-147 | One turn of the receive loop is the step of the state machine that receives this packet, and that step is possible: for a PUBLISH the matches are those of the registry |
| `Server.Server.ServeClient` | internal/broker/server/server.go:90-148 | After CONNACK the handler is the run that replays the queue and then serves |
| `Server.Server.Open` | internal/broker/server/server.go:83-89 | Accepting a connection is one step of the state machine |
| `Server.Server.Authenticate` | internal/broker/server/server.go:151-194 | Checks, session, gauge and CONNACK; succeeds if and only if the client is acceptable and CONNACK was sent |
| `Server.Server.ReplayQueue` | internal/broker/server/server.go:95-97 | The replay before the receive loop is one step of the state machine: no listing exactly when the read fails, else the sends up to the first that fails |
| `Server.Server.DeliverOffline` | internal/broker/server/server.go:275-289 | Sends the pending packets in order until a send fails, counts the successful ones; there is no listing exactly when the queue cannot be read |
| `Server.Server.MaySubscribe` | internal/broker/server/server.go:203-211 | The loop accepts if and only if the list is not empty and every topic is allowed |
| `Server.Server.HandleSubscribe` | internal/broker/server/server.go:196-222 | Registry, session, counter and SUBACK, or ERROR, exactly as the state machine says |
| `Server.Server.HandlePublish` | internal/broker/server/server.go:224-273 | Check, save, route, PUBACK or ERROR, exactly as the state machine says for the matches the registry returned |
| `Server.Server.HandlePubAck` | internal/broker/server/server.go:134-142 | Marks and deletes independently; the gauge falls whenever the delete reports no error |
| `Server.Server.EndConnection` | internal/broker/server/server.go:90-93 | The session of the id goes offline and the gauge is read again |
| `Observed.ConnectBindsExactly` | internal/broker/server/server.go:156-185 | A connection puts client c online if and only if its first packet is a CONNECT whose token parses, c is the id in that packet or else the id in the token, c is not empty, and a device is c itself |
| `Observed.SubscribeGrantedExactly` | internal/broker/server/server.go:203-214 | An admitted SUBSCRIBE is merged into the registry, all of it, if and only if it is not empty and comes from an administrator, or from a device asking for its own command topic only; otherwise nothing changes |
| `Observed.PublishSavedExactly` | internal/broker/server/server.go:231-258 | An admitted PUBLISH under a new id is stored if and only if it has a topic and comes from an administrator, or from a device whose id it lies below without a last level "command" |
| `Observed.StoredUnder` | internal/broker/server/server.go:238-240 | A PUBLISH with an id is stored and acknowledged under it, one without under the new id |
| `Observed.AnswersExactly` | internal/broker/server/server.go:114-147 | Every packet gets exactly its answers, with id and code: RATE_LIMITED, SUBACK or SUBSCRIBE_FAILED, PUBACK or PUBLISH_FAILED or nothing, PONG, UNSUPPORTED_PACKET; only a saved PUBLISH sends anything besides |
| `Observed.ConnectAnswersExactly` | internal/broker/server/server.go:83-89 | A new connection gets CONNACK with the session flag, or AUTH_FAILED, also after a CONNACK that cannot be sent |
| `Observed.HandlerEndsExactly` | internal/broker/server/server.go:121-148 | A serving handler ends if and only if its connection is lost, it admits DISCONNECT, or it admits PING and cannot answer; then the session goes offline |
| `Steps.StepSends` | internal/broker/server/server.go:78-289 | The log of sends after any step is the log before, then what was routed or replayed, then the replies |
| `Steps.SendsExplained` | internal/broker/server/server.go:78-289 | Every send of every step is a reply to the connection of the step, a replayed row of its client, or the attempt of a match of the packet just saved; PUBACK, SUBACK and CONNACK carry the id or flag of their request |
| `Steps.StepQueue` | internal/broker/server/server.go:134-142 | Over one step the queue is unchanged, loses the row of an admitted PUBACK, or gains one row for a packet just published under a free id |
| `Conservation.MetricsConserved` | internal/broker/router/router.go:56-78 | Over every run PacketsOut is the number of successful sends other than ERROR, FailedDeliveries the number of failed routed sends, and the OfflineQueue gauge is the growth of the queue plus enqueues that found the id taken minus acks that found no row |
| `Conservation.EventsCounted` | internal/broker/server/server.go:83-143 | Over every run the other counters are the numbers of received, saved, rejected and rate-limited events and of granted subscriptions, and the ActiveSessions gauge is the number of sessions marked online |
| `Storage.Database.SaveMessage` | api/db/store.go:189-218 | Inserts the row, with an empty payload filled in, unless the id is taken |
| `Storage.Database.MarkMessageAcknowledged` | api/db/store.go:220-227 | Sets acknowledged on the row of the id, if there is one |
| `Storage.Database.EnqueueOfflineMessage` | api/db/store.go:260-287 | Inserts the row, with an empty payload filled in, unless the id is taken |
| `Storage.Database.GetOfflineMessages` | api/db/store.go:289-323 | Lists exactly the rows of the client, each once, sorted by availability time |
| `Storage.Database.DeleteOfflineMessage` | api/db/store.go:325-332 | Removes the row of the id, whoever owns it |
| `Storage.PersistentQueue.Enqueue` | internal/queue/persistent/store.go:24-35 | Queues a row with the packet's id, topic, QoS and payload under the client, unless the id is taken |
| `Storage.PersistentQueue.Pending` | internal/queue/persistent/store.go:37-56 | One PUBLISH per listed row, in listing order, with the id, topic, QoS, payload and enqueue time of the row and nothing else |
| `Storage.PersistentQueue.Ack` | internal/queue/persistent/store.go:58-60 | Deletes by id |
| `Limiter.RateLimiter.Allow` | internal/broker/server/limiter.go:28-48 | The verdict and the new window table of one call |
| `Limiter.RateBound` | internal/broker/server/limiter.go:28-48 | With a non-decreasing clock and positive window W, any closed interval of length L holds at most (ceil(L/W)+1)*max(1,limit) admitted calls of a client |
| `Limiter.RefusedExactly` | internal/broker/server/limiter.go:33-44 | A call is refused if and only if the window opened by the client's call j is still open and has admitted the limit; no window ever admits more than max(1,limit) |
| `Limiter.WindowHistory` | internal/broker/server/limiter.go:33-47 | A client's window entry is its history: opened by one of its calls, expiring one window later, counting the calls admitted since |
| `Limiter.ClientsIndependent` | internal/broker/server/limiter.go:33-47 | Dropping all other clients' calls changes neither the window nor the verdict of a client |
| `RateTheorem.BrokerRateBound` | internal/broker/server/server.go:111-118 | The same bound for the packets the broker admits from a client over all its connections, over every run |
| `RateTheorem.GateIsReplay` | internal/broker/server/server.go:114-118 | Over every run the limiter's state is the replay of one call per received packet |
| `Topics.MatchTopic` | pkg/qtt/utils/helpers.go:40-62 | The early-exit loop decides the declarative meaning: levels up to the first "#" agree up to "+", and the topic has at least that many levels with a "#", exactly that many without |
| `Topics.JoinSplit` | pkg/qtt/utils/helpers.go:41-42 | Joining the levels of any string gives the string back, and levels contain no slash |
| `Topics.SplitJoin` | pkg/qtt/utils/helpers.go:41-42 | Splitting the join of any non-empty list of slash-free levels gives the levels back |
| `Topics.HashCutsFilter` | pkg/qtt/utils/helpers.go:49-51 | Levels after the first "#" of a filter are irrelevant |
| `Topics.PlainFilterIsExact` | pkg/qtt/utils/helpers.go:40-62 | A filter without wildcard levels accepts itself and nothing else |
| `Acl.DevicePublishMissesCommand` | internal/auth/acl/service.go:26-33 | What a device may publish matches no command filter of an id without a "#" level |
| `Acl.MayPublishExactly` | internal/auth/acl/service.go:17-36 | A topic may be published if and only if the role is admin, or it is device and the topic lies below device/{id}/ with a last level other than "command" |
| `Acl.MaySubscribeExactly` | internal/auth/acl/service.go:38-53 | A topic may be subscribed to if and only if the role is admin, or it is device and the levels are "device", those of its id, and "command" |
| `Acl.DeviceIsolationExact` | internal/auth/acl/service.go:26-50 | Some device may publish into the command filter of an id if and only if the id has a "#" level |
| `Acl.CommandFilterIsExact` | internal/auth/acl/service.go:47-50 | The command filter of an id without wildcard levels accepts exactly its own command topic |
| `Acl.TopicOwnerExact` | pkg/qtt/utils/helpers.go:28-38 | The owner of a topic a device may publish is that device if and only if its id has no slash |
| `Delivery.DevicePublishMissesDeviceFilters` | internal/broker/server/server.go:207-235 | Over every run a PUBLISH accepted from a device connection matches no filter granted to a device connection whose id has no "#" level, at whatever points of the run |
| `Provenance.ReceivedWasPublished` | internal/broker/router/router.go:41-82 | Over every run each PUBLISH put on a connection of a client, live or replayed, carries the id, topic and payload of a PUBLISH accepted earlier in the run, at the lower of the QoS published and the QoS that a subscription of the client accepting the topic then asked for, or replays a row an earlier broker left for the client |
| `Delivery.ExactDeviceDelivery` | internal/broker/router/router.go:42-57 | Over every run in which c connects with device claims only and has no wildcard level, every PUBLISH put on a connection of c has topic exactly device/c/command, if the rows left for c by an earlier broker have |
| `Delivery.CommandsComeFromAdmins` | internal/auth/acl/service.go:26-50 | Over every run in which c connects with device claims only and has no "#" level, every PUBLISH put on a connection of c stems from a PUBLISH accepted from an administrator, or from a row left by an earlier broker |
| `Framing.Handle` | src/server/connection.rs:9-55 | The read loop over any chunks has the frames, written bytes and final status of one pass over the concatenated stream; by header byte, 0x10 to 0x1F is answered with 0x20 0x02 0x00 0x00, in order and as long as writing succeeds, 0xE0 to 0xEF closes, and every other header writes nothing and goes on |
| `Framing.ZeroReadEnds` | src/server/connection.rs:13-15 | What is received is the concatenation of the reads before the first read of length zero, whatever would follow |
| `Framing.TakeFrames` | src/server/connection.rs:18-52 | The inner loop terminates, empties the buffer of whole frames and does what one pass does |
| `Framing.DrainAppend` | src/server/connection.rs:15-28 | Bytes that arrive after some frames were taken out are treated as if they had been there from the start |
| `Framing.HandleAccounts` | src/server/connection.rs:18-53 | The frames followed by the rest of the buffer are the bytes received, each CONNECT is answered by one CONNACK in order, and the connection closes at the first DISCONNECT and only there |
| `Framing.HandledByHeader` | src/server/connection.rs:33-51 | The same by header byte for one pass over any received stream, with exactly the writes that succeed |
| `Framing.EncodePacket` | src/protocol/encoder.rs:6-16 | Header byte 0x30, payload length modulo 256, payload, and nothing else |
| `Framing.DecodePacket` | src/protocol/decoder.rs:6-14 | The payload the length byte announces, under the fixed topic, or nothing if bytes are missing |
| `Framing.DecodeEncode` | src/protocol/decoder.rs:6-14 | Decoding an encoding gives the first (length mod 256) payload bytes; it gives the packet back if and only if the payload has at most 255 bytes and the topic is the fixed one |
| `Framing.CodecFramingRoundTrip` | src/server/connection.rs:18-31 | For any packets and any chunks, framing the concatenated encodings gives back exactly their payloads in order if and only if every payload has at most 255 bytes |
| `Framing.OneByteLengthExactly` | src/server/connection.rs:17-21 | For every buffer, the front end cuts the packet where the base-128 Remaining Length of section 2.2.3 of MQTT 3.1.1 does if and only if the length byte is below 128 |
| `Framing.LengthOf128` | src/server/connection.rs:20-28 | For every payload of 128 bytes in the standard's encoding, the second length digit is taken for payload and the last payload byte for the next packet |
| `Framing.EncodedIsStandardExactly` | src/protocol/encoder.rs:10-12 | The encoder writes one whole packet of the standard if and only if the payload has at most 127 bytes |
| `Bridge.Bridge.Start` | api/services/bridge.go:44-117 | The retry loop broadcasts and acknowledges, over all attempts, exactly what each attempt that got CONNACK then SUBACK consumed, and leaves no client set |
| `Bridge.Bridge.Try` | api/services/bridge.go:53-107 | One attempt: it reaches consume only after CONNACK and SUBACK as the first two packets |
| `Bridge.Bridge.Consume` | api/services/bridge.go:142-169 | What it adds to the hub and to the acknowledged ids is what ConsumedExactly says of the packets read |
| `Bridge.ConsumedExactly` | api/services/bridge.go:149-167 | Up to and including the first PUBLISH of positive QoS whose PUBACK fails, every PUBLISH is broadcast once and in order, with its id, topic, QoS, time and payload and the level below "device" as the device; those of positive QoS before it are acknowledged once and in order; nothing else is |
| `Bridge.OutcomeExactly` | api/services/bridge.go:67-106 | An attempt whose calls go through and that reads CONNACK and then SUBACK consumes the packets after these; every other attempt broadcasts and acknowledges nothing |
| `Bridge.AcknowledgedWasBroadcast` | api/services/bridge.go:150-164 | Over any attempts no id is acknowledged whose message was not broadcast |
| `Bridge.Bridge.ClearClient` | api/services/bridge.go:183-189 | The client is cleared if and only if it is still this one |
| `TelemetryPath.TelemetryFilterMeaning` | api/services/bridge.go:76-76 | The bridge's filter accepts a topic if and only if it is the telemetry topic of its own one-level owner |
| `TelemetryPath.TelemetrySenders` | internal/auth/acl/service.go:17-36 | The telemetry topic of a one-level id may be published by administrators and by that very device, and by nobody else |
| `TelemetryPath.BridgeReceivesTelemetry` | api/services/bridge.go:76-76 | Over every run in which a client asks for the bridge's filter only, every PUBLISH on its connections is telemetry of a device published earlier in the run by that device or an administrator, or replays a row left by an earlier broker |
| `TelemetryPath.BroadcastsAreAuthentic` | api/services/bridge.go:150-158 | Over every such run every event the retry loop broadcasts names a device d, has topic device/d/telemetry and carries the id and payload of a PUBLISH accepted from d or an administrator, or stems from a row left by an earlier broker |
| `Bridge.HandshakeStream` | internal/broker/server/server.go:83-109 | What arrives on the bridge's connection up to the answer to SUBSCRIBE, whatever other connections do and however the replay ends: CONNACK, live packets, what was replayed, live packets, and SUBACK or ERROR |
| `Bridge.ReachesConsumeExactly` | api/services/bridge.go:67-105 | Once its SUBSCRIBE is received, whatever follows and however much the bridge reads, it reaches consume if and only if its own calls succeed, it reads two packets, the SUBSCRIBE is granted, no live PUBLISH arrived before SUBACK and the replay got nothing out; a bridge that got no answer does not subscribe again |
| `Bridge.ReplaysNothingExactly` | internal/broker/server/server.go:275-289 | A replay gets nothing out if and only if the queue cannot be read, or its first send fails, or no queued row belongs to the client |
| `Bridge.EveryRetryStalls` | api/services/bridge.go:85-101 | While a row of the bridge's id is queued and no PUBACK for it is processed, every retry on any new connection whose replay reads the queue and gets its first packet out gives up before consume, broadcasts and acknowledges nothing, and the row stays |
| `Witnesses.FailedReadReachesConsume` | internal/broker/server/server.go:95-97 | From any initial state with an empty queue there is a run in which a client with a queued row reconnects, the broker fails to read the queue, and the client reaches consume with the row still queued |
| `Restart.EveryLifeStartsAfresh` | internal/broker/server/server.go:42-62 | Over any sequence of restarts on one database, every life of the broker starts in an initial state |
| `Restart.RowOutlivesRestarts` | api/db/store.go:260-332 | Over any sequence of lives a queued row is queued throughout if and only if no admitted PUBACK in any life deletes it, and then it is unchanged |
| `Restart.MessageOutlivesRestarts` | api/db/store.go:189-227 | Over any sequence of lives a stored message stays unchanged, except that acknowledged turns true, for good, if and only if some life processes a PUBACK with its id |
| `Provenance.MatchedExactly` | internal/broker/subscription/registry.go:57-75 | Over every run an accepted PUBLISH is matched to a client if and only if the client asked in this run for a filter that accepts the topic |
| `Restart.NewRowWasAskedFor` | internal/broker/subscription/registry.go:21-25 | Whenever a row appears in the queue its owner asked for the topic in this life of the broker |
| `Restart.ForgottenAfterRestart` | internal/broker/server/server.go:42-62 | After a restart, over every run in which a client does not subscribe again, every row of that client was queued before the restart, unchanged |

## Left out

- QUIC, TLS, deadlines and the listener: a send succeeds or fails, and a connection delivers packets until it is lost.
- Token signing and parsing: the parsed claims, or the failure to parse them, are part of the event.
- JSON encoding and JSONB normalisation: payloads are opaque text, where the empty text stands for no payload.
- PostgreSQL beyond five statements: device registration, telemetry queries and summaries. A failing statement changes nothing, and a row that cannot be scanned counts as a failing statement.
- The columns packet_type and direction, which the broker always writes with the same values, and the session fields ConnectedAt and LastSeenAt (with `Touch`), which nothing reads.
- Texts of ERROR packets: an ERROR carries its code.
- Interleaving inside a handler: outside `DualStore.dfy` each handler of a packet is one atomic step, and accepting a connection (session, CONNACK, failure report) is one step. Connections interleave freely between these steps.
- Sequence order of equal availability times: the database may list them in any order, and the model allows every one.
- `PublishCommand`, the WebSocket hub, the HTTP handlers, the command line tools, the simulator, configuration and logging: no property of theirs is stated.
- The registry's `List`, which nothing in the repository calls.
- The in-memory queue, the packet builders and `Packet.Clone`: packets are values here.
- Reading and writing in the Rust front end: a read error ends the stream like its end does, and a CONNACK is written whole or not at all.
- The unused `flags` nibble of the MQTT fixed header and any validation of it, which the code does not do.
- Bridge.Bridge.Start: the number of attempts is the length of the given sequence, because the source loops until its context ends; backoff times and the token it issues are not modelled.
- Server.Server.HandleConnection: states the handler running alone; handlers of several connections are covered by the interleaved runs of the state machine and not by one method.
