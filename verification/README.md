# Vein broker, verified

A model of the Vein event broker and of the code around it, with proofs. A server passes every event along a chain
of event systems (validator, introspection, storage, network, TCP) until one of them accepts it; clients subscribe
to entities over TCP and keep a mirror of them. The project follows an event all the way:

- `Events`, `EventSystems`, `EventHandler`: events, what one system does with one event, and chains of systems.
- `ComponentTables`, `DatabaseHash`: the entity/component database as a heap of shared objects, some of them
  handed out before the store knows their key.
- `StorageSystem`, `IntrospectionSystem`, `NetworkSystem`, `SystemModule`, `ClientStorage`, `TcpSystem`: the event
  systems, each as a class with mutable fields proved equal to a specification over values.
- `StorageHistory`, `ClientHistory`: what server and client hold, as functions of the events they were handed.
- `SystemModuleRuns`, `SystemPublishing`: sessions, pausing and the configured X session over whole runs of the
  validator, and what becomes of its requests and announcements in the chain behind it.
- `Server`, `Publishing`, `Quiescence`: the composed chain and the event loop, agreement between store and
  published notifications, termination by a weighted measure.
- `Protocol`, `Ordering`, `Upward`, `Mirror`, `Replica`, `Agreement`, `Settling`, `Requests`: server, clients and
  connections as one transition system; message order over every run in both directions; replica agreement; the
  whole system comes to rest; a client's request from its queue to the mirror it asks for.
- `Framing`, `FragmentSender`: length-prefixed messages under any fragmentation and the windowed sender.
- `SafeDelete`, `Dispatch`, `TwoLevelDispatch`, `ListenerHistory`: iteration over listeners while callbacks remove
  listeners, at each dispatch level and through both, and who is served over any history of the listeners.
- `Rpc`, `Entity`, `EntityPublishing`: pending calls on both sides, the module entity that takes transactions, and
  what the server makes of its notifications.
- `QmlClient`, `EntityDictionary`: reference counts, resolved entities and the two indexes of a QML client.
- `Recorder`, `RecorderInterpolation`: triggered recording and windowed averages.
- `LxdmConfig`, `Signature`: configuration rewriting and RPC signatures.
- `Codec`, `PayloadObjects`, `PayloadBytes`: payload formats, the receiving filter, and their agreement with the
  structured payloads of the event model.
- `Options`, `OrderedKeys`, `Sequences`, `Sums`, `Texts`, `Division`: small shared vocabulary.

`dafny verify dfyconfig.toml` checks everything.

## How the replica theorem is put together

A subscription makes the introspection system post a snapshot and one FETCH per component. Changes queued ahead of
the snapshot reach the client before the mirror exists and are lost there, so the snapshot is stale; the FETCHes
repair it, because storage puts the current value into each of them when it is handled. `Ordering` shows that two
queues on each side do not reorder or duplicate messages, so what a client will have is its store with everything
in flight folded into it. `Agreement` keeps one relation between that view, the server's entity and the server's
queue: either nothing is mirrored yet and an introspection followed by a FETCH of every snapshot component both
sides know is queued, or every common component agrees or has its FETCH queued.

A run is steady for a client and an entity when, as they are handled, no event removes the entity or ends a
subscription to it, SET, ADD and REMOVE notifications are visible to subscribers, FETCHes are answerable (see
below), the client stays connected and its own queue holds no local notification about the entity. These are
conditions on the next event only. What happens without them is stated as well: see the lemmas of `Agreement`
after `ReplicaAgreesIff`. That the system settles need not be assumed when nothing more comes in: `Settling` weighs
everything queued and on the wires, and every turn, download and upload makes it lighter.

## What the code does not promise

- The mirror is not right when the client started from a mirror with other component names, or when a component
  was added or removed between SUBSCRIBE and its introspection (`ReplicaAgreesIff`, `LateStructureIsNeverRepaired`).
- Any peer's UNSUBSCRIBE drops the mirror of all subscribers (`OthersUnsubscribeDropsMirror`), and an introspection
  still queued when a peer unsubscribes leaves it a mirror nobody updates (`LateIntroductionMakesZombie`).
- A FETCH answer writes into the request, and invalid values are never written, so the FETCH of a component without
  a value can publish the requester's value (`FetchCanEcho`; exact condition in `ApplyBeforePublish`).
- Foreign or local-only notifications change the store but are not forwarded (`SecretSetIsNotMirrored`).
- A module RPC remembers its caller only after the function returned, so an answer sent inside the call is lost
  (`AnswerInsideCallIsLost`), and a non-blocking function that answers only there never answers (`CallIsAccountable`).
- A received null array ends a read loop early, so what is emitted depends on how the stream is cut
  (`AllEmittedIffNullsLast`, `IndependentIffNullsLast`).
- A SET to an invalid value, which a client may send, changes the module's component but neither the store nor any
  subscriber (`ModuleAndStoreAgreeIff`, `InvalidSetSplitsModuleAndStore`).
- An X session request that is written without the service restarting is answered as a failure, but the file names
  the new session (`ConfiguredIsLastConfirmedIff`, `WrittenRequestMisleadsIff`).
- A session file with an equals sign in its name can be set but not read back (`SetRoundTrip`).
- An error about an error, or one without a description, is dropped by every receiver (`RejectedPayloadArrivesIff`);
  an error about an error that stays local is unwrapped as an empty component
  (`LocalErrorAboutErrorIsEmptyComponent`).

## Model

| member | source | states |
|---|---|---|
| `Agreement.ReplicaAgreesIff` | network/vf-net2/lib/vn_introspectionsystem.cpp:38-78 | After a SUBSCRIBE, a steady run without added or removed components and everything settled, the client's mirror equals the server's entity if and only if, when the SUBSCRIBE was handled, the client had no mirror (nor one on its way) or one with the entity's component names |
| `Agreement.ReplicaAgreesThroughChanges` | network/vf-net2/lib/vn_introspectionsystem.cpp:41-78 | A client that subscribes with nothing of the entity, or with its component names, has a mirror equal to the entity after every steady run that settles, also when components were added and removed once the introspection was on its way |
| `Agreement.SteadyRunsAgree` | framework/vf-storage/lib/vs_storageeventsystem.cpp:102-163 | Over every steady run the mirror with all messages in flight applied has the server's component names and values, except where a FETCH is still queued; before that an introspection is still queued |
| `Agreement.StepKeepsMirroring` | framework/vf-storage/lib/vs_clientstorageeventsystem.cpp:85-154 | The inductive invariant over every move of server, clients and connections; adding or removing a component does no harm exactly when the mirror exists or is in flight |
| `Agreement.SubscribeStartsMirroring` | network/vf-net2/lib/vn_introspectionsystem.cpp:41-78 | Handling a SUBSCRIBE establishes the invariant whatever the client's view was, and says exactly when the names agree |
| `Agreement.SettledCalmRun` | network/vf-net2/lib/vn_introspectionsystem.cpp:64-78 | A steady run without added or removed components that settles ends with equality exactly when the names agreed at its start |
| `Agreement.SettledMirror` | framework/vf-storage/lib/vs_clientstorageeventsystem.cpp:33-76 | With nothing queued at the server and nothing in flight the mirror is the entity exactly when the names agree |
| `Agreement.LateStructureIsNeverRepaired` | framework/vf-storage/lib/vs_storageeventsystem.cpp:113-129 | A component added or removed while the introspection is queued leaves a mirror that no calm run repairs |
| `Agreement.OthersUnsubscribeDropsMirror` | network/vf-net2/lib/vn_networksystem.cpp:136-149 | Any other peer's UNSUBSCRIBE makes every subscriber drop its mirror although it stays subscribed |
| `Agreement.LateIntroductionMakesZombie` | network/vf-net2/lib/vn_networksystem.cpp:131-142 | A queued introspection creates a mirror at a peer that is no longer subscribed |
| `Agreement.SecretSetIsNotMirrored` | network/vf-net2/lib/vn_networksystem.cpp:121-123 | A SET notification that is not local or not for all changes the server's value and no subscriber hears of it |
| `Replica.ChangeEffect` | framework/vf-storage/lib/vs_storageeventsystem.cpp:111-142 | SET, ADD and REMOVE of a visible event are made on the server and in a subscriber's view, or on neither |
| `Replica.FetchEffect` | framework/vf-storage/lib/vs_storageeventsystem.cpp:143-162 | The answer to a FETCH brings every subscriber the value the server has when it is handled |
| `Replica.IntrospectionEffect` | network/vf-net2/lib/vn_networksystem.cpp:131-142 | An introspection reaches the peer it names and only fills a missing mirror |
| `Replica.BothSides` | network/vf-net2/lib/vn_networksystem.cpp:121-155 | Server entity and subscriber view after one dispatch, in terms of the event storage hands on |
| `Mirror.StoreFollowsMessages` | framework/vf-storage/lib/vs_clientstorageeventsystem.cpp:33-76 | The client's store changes by a message exactly as the abstract view of the entity does |
| `Ordering.EveryRunIsOrdered` | network/vf-net2/lib/vn_tcpsystem.cpp:90-149 | Over every run of the whole system a client has handled a prefix of the deliverable messages addressed to it, in order and once; while connected, the rest is in flight |
| `Ordering.Flow` | network/vf-net2/lib/vn_networksystem.cpp:34-102 | One move: messages enter the line at its end as they are addressed and leave at its front as they are handled, through two queues on each side |
| `Ordering.MoveKeepsConsistent` | network/vf-net2/lib/vn_networksystem.cpp:138-142 | No protocol event with an empty receiver list, which would be a broadcast, is ever queued at the server; departures are queued only for peers that are gone |
| `Ordering.ReachableIsConsistent` | network/vf-net2/lib/vn_networksystem.cpp:138-142 | Every state a server without clients gets into is consistent, which is all that the theorems about order, replicas and settling ask of a state |
| `Ordering.CutFlow` | network/vf-net2/lib/vn_tcpsystem.cpp:77-88 | A lost connection cuts the line at its end only |
| `Upward.EveryRunIsHeard` | network/vf-net2/lib/vn_networksystem.cpp:103-119 | Over every run of the whole system the server has made commands of a beginning of what a connected client said for everybody, in order and once, and the rest is on its way: in the client's queue, on the wire or in the server's queue |
| `Upward.MoveRises` | network/vf-net2/lib/vn_tcpsystem.cpp:90-149 | One move while the client stays connected: what it says enters that line at its end, the server takes from its front what it makes commands of |
| `Upward.CommandLeavesAs` | network/vf-net2/lib/vn_networksystem.cpp:111-119 | Of its own command a client makes one message for the server exactly when the command is local, for all and names nobody or the server |
| `Requests.PostedIsHandled` | network/vf-net2/lib/vn_networksystem.cpp:34-119 | A shared event that a client posts is handled by the server, as that client's transaction or notification, in every run that comes to rest with the client connected |
| `Requests.SubscribeArrives` | network/vf-net2/lib/vn_networksystem.cpp:34-119 | A client's SUBSCRIBE becomes the head of the server's queue in every such run, and there is the request the replica theorems start from exactly when the entity is stored with components by then |
| `Requests.RequestedReplicaAgreesIff` | network/vf-net2/lib/vn_introspectionsystem.cpp:38-78 | From the client's request to the client's mirror: at rest, when the run was calm since the request was handled, the mirror equals the entity if and only if the names agreed there |
| `Protocol.CopiesAreCounted` | network/vf-net2/lib/vn_tcpsystem.cpp:120-149 | A peer gets one copy of a broadcast, and otherwise one for each time it is named |
| `Protocol.DecodedViews` | network/vf-net2/lib/vn_networksystem.cpp:45-99 | An envelope becomes exactly the command events of its valid payloads, in order |
| `Publishing.ApplyBeforePublish` | framework/vf-storage/lib/vs_storageeventsystem.cpp:26-163 | A notification that leaves for the subscribers agrees with the store after the same dispatch, if and only if a FETCH among them was answerable |
| `Publishing.FetchCanEcho` | framework/vf-component/lib/vcmp_componentdata.cpp:59-64 | Counterexample: the FETCH of a component without a value publishes the requester's own value |
| `Publishing.RejectedIsSilent` | framework/vf-component/lib/vcmp_errordatasender.cpp:9-28 | A rejected command yields exactly one error, is published to nobody and leaves store and subscriptions alone |
| `Publishing.PublishedPassedStorage` | framework/vf-event/ve_eventhandler.cpp:61-70 | Whatever is published went through the whole chain without being accepted before the network system |
| `Server.DispatchIsChain` | framework/vf-event/ve_eventhandler.cpp:61-70 | Validator, introspection, storage, network and TCP system in a row do what the composed dispatch says |
| `Quiescence.HandleDecreases` | framework/vf-event/ve_eventhandler.cpp:61-70 | Every turn of the server's event loop makes the weighted remaining work strictly smaller and never raises the component bound |
| `Quiescence.RunUntilIdle` | framework/vf-event/ve_eventhandler.cpp:61-70 | Without new input the server's queue runs dry, within the computed number of turns |
| `Settling.QuietRunsAreBounded` | framework/vf-event/ve_eventhandler.cpp:61-70 | Without input from outside every run of server turns, client turns and messages on the wires is at most as long as the work there is at its start |
| `Settling.QuietMoveSettles` | network/vf-net2/lib/vn_tcpsystem.cpp:120-149 | Each such move leaves less work, weighed over server queue, wires and client queues, and keeps the bound on components, subscriptions and receivers |
| `Settling.StopsIffAllHandled` | framework/vf-event/ve_eventhandler.cpp:61-70 | No such move is possible exactly when every queue and every connected wire is empty |
| `Settling.EveryScheduleSettles` | framework/vf-event/ve_eventhandler.cpp:61-70 | Whoever is chosen to move next, the system comes to rest with everything handled, within its work bound |
| `Settling.LeftAloneReplicaAgreesIff` | network/vf-net2/lib/vn_introspectionsystem.cpp:38-78 | The replica theorem without the hypothesis that the system settles: after a SUBSCRIBE and no more input every run ends, and when it was calm it ends with the mirror equal to the entity if and only if the names agreed |
| `Settling.SomeBoundFits` | network/vf-net2/lib/vn_networksystem.cpp:167-187 | Every state has a bound on components, subscriptions and receivers, so the work bound always exists |
| `Quiescence.AnswerWeight` | network/vf-net2/lib/vn_introspectionsystem.cpp:44-78 | A subscription costs one introspection and one FETCH per stored component, which add no components |
| `Quiescence.StorageGrowth` | framework/vf-storage/lib/vs_storageeventsystem.cpp:113-120 | Only a queued ADD can make a component, and one at most |
| `EventHandler.ModuleEventHandler.CustomEvent` | server-libs/modman-base/lib/moduleeventhandler.cpp:34-43 | Module systems first and core systems after them is the same as one list of both, with at most one accept signal |
| `EventHandler.ChainOfConcatenation` | server-libs/modman-base/lib/moduleeventhandler.cpp:34-43 | A chain of two lists is the chain of the first followed by the chain of the second on its outcome |
| `EventHandler.OneAcceptSignal` | framework/vf-event/ve_eventhandler.cpp:61-70 | One accept signal exactly when the dispatch made the event accepted |
| `NetworkSystem.TableRefinesHistory` | network/vf-net2/lib/vn_networksystem.cpp:124-153 | A peer is listed for an entity if and only if some SUBSCRIBE came in with no later UNSUBSCRIBE, entity removal or disconnect |
| `NetworkSystem.EntryRefinesHistory` | network/vf-net2/lib/vn_networksystem.cpp:167-187 | An entity has an entry in the table, possibly an empty one, if and only if some SUBSCRIBE came in with no later removal of the entity |
| `NetworkSystem.ListsAreDuplicateFree` | network/vf-net2/lib/vn_networksystem.cpp:167-187 | No subscriber list ever holds a peer twice |
| `NetworkSystem.CountIsSubscribers` | network/vf-net2/lib/vn_networksystem.cpp:160-165 | The subscriber count is the number of peers with a live subscription |
| `NetworkSystem.DeliveryPrecision` | network/vf-net2/lib/vn_networksystem.cpp:121-153 | What is forwarded goes once to exactly the live subscribers, introspection and RPC data to exactly the named peer, never to an empty list; and exactly when it is publishable, no SUBSCRIBE, and somebody is subscribed or, for introspection and RPC data, somebody subscribed since the entity was last removed |
| `NetworkSystem.NetworkSystem.ProcessCmdEvents` | network/vf-net2/lib/vn_networksystem.cpp:103-158 | The routing method: subscription table and posted event as specified, in both modes |
| `NetworkSystem.NetworkSystem.TryAddSubscription` | network/vf-net2/lib/vn_networksystem.cpp:167-187 | Enters the peer once and reports whether it was a SUBSCRIBE |
| `NetworkSystem.NetworkSystem.HandleDisconnected` | network/vf-net2/lib/vn_networksystem.cpp:189-204 | Takes the peer out of every list, whatever the order of the keys |
| `NetworkSystem.NetworkSystem.DeserializeIncoming` | network/vf-net2/lib/vn_networksystem.cpp:34-102 | Posts one command event for each valid payload of an envelope, with the sender's id |
| `NetworkSystem.NetworkSystem.ProcessEvent` | network/vf-net2/lib/vn_networksystem.cpp:290-303 | All kinds of events of the network system against the table specification |
| `StorageSystem.RejectedIffUnfit` | framework/vf-storage/lib/vs_storageeventsystem.cpp:71-167 | An entity or component command is rejected exactly when storage looks at it and something is missing or in the way |
| `StorageSystem.RejectionReason` | framework/vf-storage/lib/vs_storageeventsystem.cpp:71-167 | The one error of a rejection: an existing or unknown entity first, then an existing or unknown component |
| `StorageSystem.OnlyTheNamedChanges` | framework/vf-storage/lib/vs_storageeventsystem.cpp:26-167 | No event changes a stored value or a future of a key it does not name |
| `StorageHistory.EntitiesRefineHistory` | framework/vf-storage/lib/vs_storageeventsystem.cpp:71-100 | Over every history of events from the empty store an entity is stored if and only if some ADD of it came in with no later REMOVE |
| `StorageHistory.ComponentsRefineHistory` | framework/vf-storage/lib/vs_storageeventsystem.cpp:102-142 | Over every history a component is stored if and only if some ADD of it came in while its entity was there, with no later REMOVE of either |
| `StorageHistory.ValuesRefineHistory` | framework/vf-storage/lib/vs_storageeventsystem.cpp:102-142 | Over every history a component's value is the one written last, by the ADD that made it or by a valid SET since |
| `StorageHistory.ProceduresRefineHistory` | framework/vf-storage/lib/vs_storageeventsystem.cpp:169-181 | Over every history an entity's procedures are the names registered since they were last forgotten, each where it was registered first |
| `StorageHistory.ProcedureIsStoredIff` | framework/vf-storage/lib/vs_storageeventsystem.cpp:169-181 | A name is stored, once, if and only if some local REGISTER of it came in with no later local ADD or REMOVE of the entity, and registering it is rejected exactly then |
| `StorageHistory.ProceduresRegister` | server-libs/vf-cpp/lib/vf-cpp-rpc.cpp:29-38 | What a module's procedure posts when it is made is such a REGISTER |
| `StorageHistory.FirstsKeepOrder` | framework/vf-storage/lib/vs_storageeventsystem.cpp:169-181 | The stored names are in the order in which they were registered first |
| `ClientHistory.MirrorsRefineHistory` | framework/vf-storage/lib/vs_clientstorageeventsystem.cpp:85-154 | Over every history of a client an entity is mirrored if and only if it was introduced with no later removal or UNSUBSCRIBE, and otherwise no procedure of it is known |
| `ClientHistory.CallPassesIff` | framework/vf-storage/lib/vs_clientstorageeventsystem.cpp:156-172 | Over every history a call passes the client if and only if the introduction that made the mirror listed the procedure and the entity was not given up since |
| `ClientHistory.RegisteredCallsPass` | network/vf-net2/lib/vn_introspectionsystem.cpp:44-62 | A client without a mirror that handles the answer to a subscription lets exactly the calls pass whose procedures are registered at the server then |
| `StorageSystem.StorageEventSystem.ProcessEvent` | framework/vf-storage/lib/vs_storageeventsystem.cpp:26-59 | The stateful storage system does exactly what the specification over values says, and keeps every handle whose key is not removed |
| `StorageSystem.StorageEventSystem.ProcessComponentData` | framework/vf-storage/lib/vs_storageeventsystem.cpp:102-167 | ADD, REMOVE, SET and FETCH with all rejections on the heap database |
| `StorageSystem.StorageEventSystem.ProcessEntityData` | framework/vf-storage/lib/vs_storageeventsystem.cpp:71-100 | Entity ADD and REMOVE, and which registered procedures are forgotten |
| `StorageSystem.StorageEventSystem.ProcessRpcData` | framework/vf-storage/lib/vs_storageeventsystem.cpp:169-181 | Registers a procedure name once per entity |
| `ClientStorage.ClientStorageEventSystem.ProcessEvent` | framework/vf-storage/lib/vs_clientstorageeventsystem.cpp:33-76 | The stateful client storage does exactly what the specification over values says |
| `ClientStorage.ClientStorageEventSystem.InsertValues` | framework/vf-storage/lib/vs_clientstorageeventsystem.cpp:95-100 | The insertion loop stores every introspected value |
| `ClientStorage.IntrospectionMirrors` | framework/vf-storage/lib/vs_clientstorageeventsystem.cpp:85-105 | After its first introspection an entity is mirrored exactly as introspected and no other entity changes |
| `ClientStorage.RejectedIffUnfit` | framework/vf-storage/lib/vs_clientstorageeventsystem.cpp:107-154 | A client rejects a component notification, with one error and nothing changed, exactly when it lacks the entity or component or has it already |
| `ClientStorage.CallsAreChecked` | framework/vf-storage/lib/vs_clientstorageeventsystem.cpp:156-172 | A call passes the client's storage exactly when its procedure is known; otherwise one error, or two for an unknown entity |
| `IntrospectionSystem.IntrospectionSystem.ProcessEvent` | network/vf-net2/lib/vn_introspectionsystem.cpp:24-94 | Snapshot and FETCHes posted for a known non-empty entity, a rejection otherwise, the store unchanged |
| `IntrospectionSystem.AnswerStart` | network/vf-net2/lib/vn_introspectionsystem.cpp:44-62 | The answer begins with the snapshot and has one item more per stored component |
| `IntrospectionSystem.AnsweredIff` | network/vf-net2/lib/vn_introspectionsystem.cpp:24-94 | A SUBSCRIBE is answered exactly when the entity is stored with components, otherwise rejected with one error about it |
| `IntrospectionSystem.AnswerFetches` | network/vf-net2/lib/vn_introspectionsystem.cpp:64-78 | Every stored component is fetched after the snapshot |
| `IntrospectionSystem.AnswerRest` | network/vf-net2/lib/vn_introspectionsystem.cpp:64-78 | Everything after the snapshot fetches a stored component with its value, for the subscriber |
| `ComponentTables.ApplyKeepsShape` | framework/vf-storage/lib/vs_databasehash.cpp:89-167 | Every call keeps stored and future keys disjoint, leaves no empty future map and lets no two keys share an object |
| `ComponentTables.HandleSurvivesRun` | framework/vf-storage/lib/vs_databasehash.cpp:89-167 | Over any run that does not drop the key, the handle taken first is the key's object at the end, and it is stored once some ADD inserted it |
| `ComponentTables.HandleKeptIffNotDropped` | framework/vf-storage/lib/vs_databasehash.cpp:120-167 | One call keeps a handle if and only if it does not drop the stored entry |
| `DatabaseHash.Database.GetFutureComponent` | framework/vf-storage/lib/vs_databasehash.cpp:89-100 | Returns the object of the key, creating a future with the invalid value only for an unknown key |
| `DatabaseHash.Database.InsertComponentValue` | framework/vf-storage/lib/vs_databasehash.cpp:140-149 | The announced object itself is stored with the added value, or a new one; no other key changes |
| `DatabaseHash.Database.TakeFutureComponent` | framework/vf-storage/lib/vs_databasehash.cpp:156-167 | Hands out the announced object and removes the entry together with an emptied map |
| `DatabaseHash.Database.SetComponentValue` | framework/vf-storage/lib/vs_storagecomponent.cpp:26-33 | Writing through the shared object changes the value of that key only |
| `DatabaseHash.Database.RemoveComponentValue` | framework/vf-storage/lib/vs_databasehash.cpp:151-154 | Removes one stored component and nothing else |
| `DatabaseHash.Database.ListWithFuturesIsExact` | framework/vf-storage/lib/vs_databasehash.cpp:102-110 | Stored and future names together list every known key once |
| `DatabaseHash.StorageComponent.SetValue` | framework/vf-storage/lib/vs_storagecomponent.cpp:26-33 | Takes the value over and reports a change exactly when it differs |
| `SystemModule.SystemModuleEventSystem.ProcessEvent` | server-libs/modman-base/lib/systemmoduleeventsystem.cpp:42-96 | The validator's state, the rewritten event, acceptance and posted events as specified |
| `SystemModule.SystemModuleEventSystem.HandleVeinSessionSet` | server-libs/modman-base/lib/systemmoduleeventsystem.cpp:108-125 | A known other session is taken over only when none is being loaded, and is handled either way |
| `SystemModule.SystemModuleEventSystem.HandleXSessionSet` | server-libs/modman-base/lib/systemmoduleeventsystem.cpp:127-136 | True when the session was configured already, or could be written and the service restarted |
| `SystemModule.SessionChangesIff` | server-libs/modman-base/lib/systemmoduleeventsystem.cpp:108-125 | The session changes if and only if a known other one is requested while ready; then the request stops there, one empty session is sent, and the module is not ready any more |
| `SystemModule.HandsOnIff` | server-libs/modman-base/lib/systemmoduleeventsystem.cpp:42-96 | Any event goes on as the server's own notification if and only if it is a transaction that is an introspection, SUBSCRIBE, UNSUBSCRIBE or FETCH, a SET of ModulesPaused or DevMode, or a SET of the X session that is configured or could be written; otherwise it goes on as it is; it is accepted exactly when it names a known other session or an X session that is refused |
| `SystemModule.PostsIff` | server-libs/modman-base/lib/systemmoduleeventsystem.cpp:42-106 | What the module posts, with its content: the empty session when it enters one, the old X session when it refuses one, what the SCPI side needs on a FETCH of one of the two, and nothing else |
| `SystemModule.SessionNameIs` | server-libs/modman-base/lib/systemmoduleeventsystem.cpp:108-114 | A session is requested by a name ending in .json or by what such names are made of |
| `SystemModuleRuns.PausedIffAskedLast` | server-libs/modman-base/lib/systemmoduleeventsystem.cpp:80-83 | Over every run the modules are paused if and only if the last ModulesPaused request said so |
| `SystemPublishing.SystemSetIsPublishedIff` | server-libs/modman-base/lib/systemmoduleeventsystem.cpp:80-94 | Through the whole chain: a SET of ModulesPaused, DevMode or a confirmed X session is in the store and published if and only if its value is valid and the component stored, for publishing also subscribed to |
| `SystemPublishing.InitializationIsTold` | server-libs/modman-base/lib/systemmoduleeventsystem.cpp:153-197 | After an initialization whose announcements are dispatched each stored system component has the value it was initialized with, and the subscribers of the system entity have been told |
| `SystemModule.SystemModuleEventSystem.InitializeEntity` | server-libs/modman-base/lib/systemmoduleeventsystem.cpp:153-197 | Enters the loaded session, takes over the list of sessions, becomes ready and announces the six system components; does nothing without a storage |
| `SystemModuleRuns.SessionChangesAreSerialized` | server-libs/modman-base/lib/systemmoduleeventsystem.cpp:98-125 | Over every run of events and initializations clients are told the empty session once per session change, and there are never more changes than initializations, fewer while a session is ready |
| `SystemModuleRuns.ChangesAreSeparated` | server-libs/modman-base/lib/systemmoduleeventsystem.cpp:115-122 | Between any two session changes of a run there is an initialization |
| `SystemModuleRuns.EnteredWasOffered` | server-libs/modman-base/lib/systemmoduleeventsystem.cpp:153-158 | Every session entered was in the list of the last initialization before |
| `SystemModuleRuns.ConfiguredIsLastConfirmedIff` | server-libs/modman-base/lib/systemmoduleeventsystem.cpp:71-79 | Over every run the file names the X session confirmed last, at every moment, if and only if no request was written that left the file naming something else than clients are told |
| `SystemModuleRuns.WrittenRequestMisleadsIff` | server-libs/modman-base/lib/systemmoduleeventsystem.cpp:127-136 | With the configuration file behind it, a written request misleads exactly when the service restarts and the file name has an equals sign, or when it does not restart and the file names something else now |
| `Publishing.ValidatorKeepsHeader` | server-libs/modman-base/lib/systemmoduleeventsystem.cpp:89-94 | The validator either leaves an event alone or turns a transaction into the server's own notification with the same content |
| `Events.ErrorFor` | framework/vf-component/lib/vcmp_errordatasender.cpp:13-25 | The error posted for a rejected event is a local notification carrying its payload and reason, with its entity, target and peer |
| `TcpSystem.TcpSystem.OnMessageReceived` | network/vf-net2/lib/vn_tcpsystem.cpp:90-109 | The first message gives a connection a fresh id, which it keeps; every message is posted with the id of its connection |
| `TcpSystem.TcpSystem.OnConnected` | network/vf-net2/lib/vn_tcpsystem.cpp:51-66 | A new connection waits without an id and is greeted |
| `TcpSystem.TcpSystem.OnDisconnected` | network/vf-net2/lib/vn_tcpsystem.cpp:77-88 | The departure is posted and the connection leaves both lists, without an id when it never had one |
| `TcpSystem.TcpSystem.ProcessEvent` | network/vf-net2/lib/vn_tcpsystem.cpp:120-149 | Every listed connection gets exactly the copies addressed to its id, or one copy of a broadcast |
| `SafeDelete.VisitedUnlessRemoved` | convenient-code/lib/container_safe_delete_while_loop.h:21-51 | In any order and with any removing callbacks an item is visited if and only if its removal was not requested before it was reached |
| `SafeDelete.WalkIsDistinct` | convenient-code/lib/container_safe_delete_while_loop.h:30-41 | No item is visited twice and only initial items are visited |
| `SafeDelete.SafeDeleteSet.GetFirst` | convenient-code/lib/container_safe_delete_while_loop.h:21-29 | Starts a pass in some order of the items |
| `SafeDelete.SafeDeleteSet.GetNext` | convenient-code/lib/container_safe_delete_while_loop.h:30-41 | Goes on to the next item not marked, or ends the pass by removing the marked ones |
| `SafeDelete.SafeDeleteSet.RemoveItem` | convenient-code/lib/container_safe_delete_while_loop.h:14-19 | Removes at once outside a pass and marks inside one |
| `SafeDelete.SafeDeleteSet.DoDeletions` | convenient-code/lib/container_safe_delete_while_loop.h:52-56 | Removes exactly the marked items and empties the marks |
| `Dispatch.ItemTable.Deliver` | convenient-code/lib/command-event-handler/vf_cmd_event_handler.cpp:35-51 | A pass over a key, while other containers may be in passes of their own, visits the walk over the key's items; afterwards everything requested is gone, or marked in the containers still being iterated |
| `Dispatch.ItemTable.RemoveItems` | convenient-code/lib/command-event-handler/vf_cmd_event_handler.cpp:23-27 | Removals requested by a callback take effect at once, or are deferred in the container being iterated |
| `Dispatch.ItemTable.AddItem` | convenient-code/lib/command-event-handler/vf_cmd_event_handler.cpp:17-21 | Adds to the container of the item's key only, whatever passes are going on over other keys |
| `Dispatch.VfCmdEventHandler.ProcessCommandEvent` | convenient-code/lib/command-event-handler/vf_cmd_event_handler.cpp:35-94 | First level: events of the filtered subtype and errors, with their original payload, reach the items of their entity; a local error about an error reaches them as an empty component |
| `Dispatch.VfEntityComponentEventItem.ProcessDelivery` | convenient-code/lib/command-event-handler/vf_entity_component_event_item.cpp:27-50 | Second level: component data reaches the items of its component |
| `TwoLevelDispatch.ServedIff` | convenient-code/lib/command-event-handler/vf_entity_component_event_item.cpp:27-50 | A component item is served, once, exactly when no earlier callback, at whichever entity item, asked for its removal and none before the turn of its entity item asked for that of the entity item |
| `TwoLevelDispatch.ComponentEventHandler.ProcessCommandEvent` | convenient-code/lib/command-event-handler/vf_cmd_event_handler.cpp:35-51 | An event through both levels serves exactly that; afterwards both tables have lost what the callbacks asked for, or have it marked where passes go on |
| `TwoLevelDispatch.ComponentEventHandler.ServeInOrder` | convenient-code/lib/command-event-handler/vf_entity_component_event_item.cpp:27-38 | The second level's pass goes on from what earlier entity items' callbacks have done to its container |
| `TwoLevelDispatch.WalkOfKept` | convenient-code/lib/container_safe_delete_while_loop.h:43-51 | Items erased before a pass and items marked during it are skipped alike |
| `Dispatch.PassGoesOn` | convenient-code/lib/container_safe_delete_while_loop.h:30-51 | From one item of a pass to the next one nobody asked to remove, or to its end, where exactly the requested items are gone |
| `ListenerHistory.MembersListen` | convenient-code/lib/command-event-handler/vf_cmd_event_handler.cpp:17-27 | Over any history of additions, removals and passes an item is in the container of its key, and in no other, if and only if it was added and its removal not asked for since |
| `ListenerHistory.ListenersAreServed` | convenient-code/lib/command-event-handler/vf_entity_component_event_item.cpp:17-50 | Through both levels an item is served by an event if and only if it was added for the event's component at an entity item added for the event's entity, neither has been removed since, and no callback before its turn asks for that |
| `ListenerHistory.ServedIffListening` | convenient-code/lib/command-event-handler/vf_entity_component_event_item.cpp:17-50 | Whoever listens for the event's entity and component and is not asked to leave is served, whoever does not is not |
| `ListenerHistory.ConcernsIff` | convenient-code/lib/command-event-handler/vf_cmd_event_handler.cpp:35-94 | An event passes both levels for a component exactly when it has the filter's subtype and is component data, or an error about component data, of that name |
| `Framing.FragmentationDoesNotMatter` | network/vf-tcp/lib/vtcp_peerworker.cpp:83-113 | However the stream is cut, the same complete messages are emitted and the same proper beginning of the next one is held |
| `Framing.FrameIsLengthAndBytes` | network/vf-tcp/lib/vtcp_peerworker.cpp:102-113 | On the wire a message is its length in four bytes, most significant first, and its bytes |
| `Framing.AfterChunks` | network/vf-tcp/lib/vtcp_peerworker.cpp:126-133 | After every chunk exactly the maximal prefix of complete messages has been emitted |
| `Framing.AllEmittedIffNullsLast` | network/vf-tcp/lib/vtcp_peerworker.cpp:126-133 | With null arrays among the sent ones, everything is emitted from one delivery exactly when no message follows a null array |
| `Framing.IndependentIffNullsLast` | network/vf-tcp/lib/vtcp_peerworker.cpp:126-133 | With null arrays among the sent ones, the emitted messages are the same however the stream is cut if and only if no message follows a null array |
| `Framing.ParseMessages` | network/vf-tcp/lib/vtcp_peerworker.cpp:102-113 | Parsing written messages and a beginning yields the messages and leaves the beginning |
| `Framing.TcpPeerWorker.ReadArray` | network/vf-tcp/lib/vtcp_peerworker.cpp:83-100 | One read transaction: a message, null, or nothing consumed |
| `Framing.TcpPeerWorker.OnReadyRead` | network/vf-tcp/lib/vtcp_peerworker.cpp:126-133 | Emits messages until one is incomplete or null |
| `FragmentSender.RunConserves` | network/vf-tcp/testlib/testfragmentednetpeerworker.cpp:38-74 | Over every run written and waiting bytes are everything sent, the window is respected, and waiting bytes imply outstanding ones |
| `FragmentSender.OneMessageTakes` | network/vf-tcp/testlib/testfragmentednetpeerworker.cpp:38-53 | One message of T bytes takes ceil(T / window) writes when everything is acknowledged |
| `FragmentSender.DrainWritesAll` | network/vf-tcp/testlib/testfragmentednetpeerworker.cpp:86-91 | Full acknowledgements always empty the backlog, one write per window |
| `FragmentSender.SentIsReceived` | network/vf-tcp/testlib/testfragmentednetpeerworker.cpp:55-74 | Sender and framing reader together: whatever arrives in whatever chunks yields the complete messages sent, all of them in the end |
| `FragmentSender.TestFragmentedNetPeerWorker.SendFraction` | network/vf-tcp/testlib/testfragmentednetpeerworker.cpp:38-53 | Writes at most the free part of the window from the front of the backlog |
| `FragmentSender.TestFragmentedNetPeerWorker.SendArray` | network/vf-tcp/testlib/testfragmentednetpeerworker.cpp:55-74 | Drops when disconnected, writes at once without a window, otherwise queues and sends a fraction |
| `FragmentSender.TestFragmentedNetPeerWorker.OnBytesWritten` | network/vf-tcp/testlib/testfragmentednetpeerworker.cpp:86-91 | Takes the acknowledged bytes off and goes on when nothing is outstanding |
| `Rpc.CallsFinishOnce` | convenient-code/lib/command-event-actors/vf_rpc_invoker.cpp:17-51 | Over every run with fresh call ids every call is pending or finished, never both, finished once, and only at the invoker that made it |
| `Rpc.ResultFinishesItsCall` | convenient-code/lib/command-event-actors/vf_rpc_invoker.cpp:26-39 | A result finishes the call it answers at the waiting invoker and changes no other |
| `Rpc.RejectionFinishesItsCall` | convenient-code/lib/command-event-actors/vf_rpc_invoker.cpp:41-51 | A call rejected on its way finishes badly at the invoker that made it, once, and changes no other |
| `Rpc.VfRPCInvoker.InvokeRpc` | convenient-code/lib/command-event-actors/vf_rpc_invoker.cpp:17-24 | The fresh id becomes pending and goes out with the call |
| `Rpc.VfRPCInvoker.ProcessCommandEvent` | convenient-code/lib/command-event-actors/vf_rpc_invoker.cpp:26-39 | Only results of pending calls finish them |
| `Rpc.VfRPCInvoker.ProcessErrorCommandEventData` | convenient-code/lib/command-event-actors/vf_rpc_invoker.cpp:41-51 | A rejected call of its own finishes badly, others are ignored |
| `Rpc.EveryRunIsAccountable` | server-libs/vf-cpp/lib/vf-cpp-rpc.cpp:55-127 | Over every run with fresh ids at most one result is sent per accepted call, to the peer that called |
| `Rpc.CallIsAccountable` | server-libs/vf-cpp/lib/vf-cpp-rpc.cpp:55-104 | A call is answered when the function returns exactly when it blocks or could not be run |
| `Rpc.EverySentAnswerWasGiven` | server-libs/vf-cpp/lib/vf-cpp-rpc.cpp:55-127 | Over every run of calls and answers each event sent carries, field by field, an answer that some move gave: its code, its message if and only if that is not empty, its value if and only if that is valid |
| `Rpc.EveryCallEnds` | server-libs/vf-cpp/lib/vf-cpp-rpc.cpp:55-104 | A call ends open for its caller, or with an event to its caller that carries the returned value, the missing parameters or that the function is not implemented, whichever applies |
| `Rpc.AnswerOneSends` | server-libs/vf-cpp/lib/vf-cpp-rpc.cpp:106-127 | An answer to an open call is one event to the caller with exactly its fields and closes the call; any other answer does nothing |
| `Rpc.AnswerInsideCallIsLost` | server-libs/vf-cpp/lib/vf-cpp-rpc.cpp:92-96 | An answer a function gives to its own call before it returns has no effect |
| `Rpc.AnswerKeepsAccountable` | server-libs/vf-cpp/lib/vf-cpp-rpc-simplified.cpp:52-60 | An answer goes to the remembered caller once and is dropped for unknown ids |
| `Rpc.VeinModuleRpc.CallFunctionPrivate` | server-libs/vf-cpp/lib/vf-cpp-rpc.cpp:55-104 | The unthreaded call: parameters checked, function run, caller remembered, and the call left open or answered with exactly what applies |
| `Rpc.VeinModuleRpc.SendRpcResult` | server-libs/vf-cpp/lib/vf-cpp-rpc.cpp:106-127 | Sends exactly the given code, message and value to the caller of a pending call and forgets it |
| `Rpc.VfCppRpcSimplified.SendRpcResult` | server-libs/vf-cpp/lib/vf-cpp-rpc-simplified.cpp:30-39 | One successful answer to the caller, with the value if and only if it is valid and no message |
| `Rpc.VfCppRpcSimplified.SendRpcError` | server-libs/vf-cpp/lib/vf-cpp-rpc-simplified.cpp:41-50 | One failed answer to the caller, with the message if and only if it is not empty and no value |
| `Rpc.VfCppRpcSimplified.CallFunction` | server-libs/vf-cpp/lib/vf-cpp-rpc-simplified.cpp:23-28 | Remembers who called |
| `Entity.CallIsHandedOrRejected` | server-libs/vf-cpp/lib/vf-cpp-entity.cpp:110-136 | A call is handed to the first matching procedure in the order of names, with its call id and caller, if and only if there is one; otherwise one error everybody may see |
| `Entity.ContainsIff` | server-libs/vf-cpp/lib/vf-cpp-entity.cpp:116-122 | A name matches exactly when the wanted text stands somewhere in it |
| `Entity.SetIsTakenOverIffItChanges` | server-libs/vf-cpp/lib/vf-cpp-component.cpp:38-45 | A SET transaction is accepted by the entity; it is taken over, and a notification posted, exactly when it changes a writable component |
| `EntityPublishing.SetReachesSubscribersIff` | server-libs/vf-cpp/lib/vf-cpp-component.cpp:32-45 | From the entity to the subscribers: a SET is forwarded if and only if it changes a writable component, carries a valid value, and the component is stored and subscribed to |
| `EntityPublishing.OwnSetIsForwardedIff` | framework/vf-storage/lib/vs_storageeventsystem.cpp:36-44 | What the store and the subscribers make of any SET notification of the server's own: exactly the one message, exactly the one value |
| `EntityPublishing.NotificationIsForwardedIff` | framework/vf-storage/lib/vs_storageeventsystem.cpp:36-44 | What the store and the subscribers make of a module's notification |
| `EntityPublishing.ModuleAndStoreAgreeIff` | framework/vf-storage/lib/vs_storageeventsystem.cpp:36-44 | If module and store agreed before a SET, they agree afterwards exactly unless the module took over an invalid value |
| `EntityPublishing.InvalidSetSplitsModuleAndStore` | framework/vf-storage/lib/vs_storageeventsystem.cpp:36-44 | A SET to an invalid value by a client: the module has it, the store keeps the old value and nobody is told |
| `Entity.VfCppEntity.HandleRpcs` | server-libs/vf-cpp/lib/vf-cpp-entity.cpp:110-136 | Searches the procedures in the order of names and accepts or rejects the call |
| `Entity.VfCppEntity.HandleComponents` | server-libs/vf-cpp/lib/vf-cpp-entity.cpp:96-108 | Accepts SET transactions of known components only |
| `QmlClient.StepKeepsValid` | client-libs/vf-qml/lib/veinqml.cpp:71-212 | Counts stay at least one, resolved entities are subscribed and known, and LOADED is signalled only when all subscribed entities are resolved |
| `QmlClient.LoadedIffLastResolves` | client-libs/vf-qml/lib/veinqml.cpp:168-182 | LOADED is signalled exactly by the introspection that resolves the last subscribed entity |
| `QmlClient.OutputsIff` | client-libs/vf-qml/lib/veinqml.cpp:71-208 | What any call sends and signals: SUBSCRIBE for an unknown entity, UNSUBSCRIBE for the last reference, the system entity when it is introduced to a subscriber, and IDLE exactly on a notification of an empty system session while not idle |
| `QmlClient.StateFollowsSignals` | client-libs/vf-qml/lib/veinqml.cpp:168-208 | The state is the one signalled last, and an entity is resolved by its introduction to a subscriber until it is dropped |
| `QmlClient.IntroducedIsFound` | client-libs/vf-qml/lib/veinqml.cpp:130-151 | A newly introduced entity is found by its id and, if its name is new and not empty, by its name |
| `QmlClient.CountsAreReferences` | client-libs/vf-qml/lib/veinqml.cpp:71-95 | The table counts exactly the references taken and not given back |
| `QmlClient.LastReferenceUnsubscribes` | client-libs/vf-qml/lib/veinqml.cpp:81-95 | Giving back the last reference sends one UNSUBSCRIBE and clears all three structures; any other changes only the count |
| `QmlClient.KnownBeforeSubscribedIsNeverResolved` | client-libs/vf-qml/lib/veinqml.cpp:71-79 | An entity introduced before it was subscribed stays unresolved and keeps LOADED from being signalled until it is dropped |
| `QmlClient.VeinQml.EntitySubscribeById` | client-libs/vf-qml/lib/veinqml.cpp:71-79 | Counts the reference and asks the server only for an unknown entity |
| `QmlClient.VeinQml.EntityUnsubscribeById` | client-libs/vf-qml/lib/veinqml.cpp:81-95 | Gives a reference back |
| `QmlClient.VeinQml.OnEntityLoaded` | client-libs/vf-qml/lib/veinqml.cpp:168-182 | Resolves a subscribed entity and signals LOADED when it was the last |
| `QmlClient.VeinQml.RemoveEntity` | client-libs/vf-qml/lib/veinqml.cpp:184-193 | Forgets the entity in all three structures |
| `QmlClient.VeinQml.ProcessEvent` | client-libs/vf-qml/lib/veinqml.cpp:97-166 | Notifications: session leave, removal and introspection as specified |
| `EntityDictionary.IndexesAgree` | client-libs/vf-qml/lib/entitydictionary.cpp:56-79 | An entity is found by name if and only if some id has it under that name |
| `EntityDictionary.NamedIffFree` | client-libs/vf-qml/lib/entitydictionary.cpp:23-49 | A name is taken if and only if it is not empty, the entity is known, and it has that name already or has none and nobody has it; then the entity is found under it and all others as before |
| `EntityDictionary.FoundUntilRemoved` | client-libs/vf-qml/lib/entitydictionary.cpp:12-21 | An inserted entity is found by its id until it is removed, and a removed one by neither index |
| `EntityDictionary.SetNameKeepsValid` | client-libs/vf-qml/lib/entitydictionary.cpp:23-49 | Naming keeps names unique and the two indexes consistent |
| `EntityDictionary.RemoveKeepsValid` | client-libs/vf-qml/lib/entitydictionary.cpp:81-86 | Removal takes the entity out of both indexes |
| `EntityDictionary.EntityDictionary.SetEntityName` | client-libs/vf-qml/lib/entitydictionary.cpp:23-49 | Names an entity once, refuses empty, taken and changed names |
| `EntityDictionary.EntityDictionary.Remove` | client-libs/vf-qml/lib/entitydictionary.cpp:81-86 | Removes by id and hands the entity back |
| `RecorderInterpolation.AveragesAreWindowed` | framework/vf-storage/lib/recorder/storagerecorderinterpolation.cpp:18-47 | After any run there are floor(n / factor) averages and the k-th is that of raw records k * factor up to (k + 1) * factor |
| `RecorderInterpolation.AverageIsWithinWindow` | framework/vf-storage/lib/recorder/storagerecorderinterpolation.cpp:49-73 | An average lies between the smallest and the largest value of its window, in time and in every component |
| `RecorderInterpolation.AveragedTimesAreOrdered` | framework/vf-storage/lib/recorder/storagerecorderinterpolation.cpp:49-55 | Averaged times do not decrease when the raw times do not |
| `RecorderInterpolation.StorageRecorderInterpolation.OnNewValueRecorded` | framework/vf-storage/lib/recorder/storagerecorderinterpolation.cpp:18-32 | Resets, ignores, or appends the average of the completed window |
| `RecorderInterpolation.StorageRecorderInterpolation.TimeDiffAverage` | framework/vf-storage/lib/recorder/storagerecorderinterpolation.cpp:49-55 | The accumulating loop computes the truncated average time |
| `RecorderInterpolation.StorageRecorderInterpolation.ValuesAverage` | framework/vf-storage/lib/recorder/storagerecorderinterpolation.cpp:57-73 | The nested loops compute the average of every component |
| `Recorder.RecordsAreHits` | framework/vf-storage/lib/recorder/vs_storagerecorder.cpp:25-41 | There is one record per change into the trigger value while logging since the last start, with the values then and the time since the first, however often logging was started |
| `Recorder.CountsAreSignalled` | framework/vf-storage/lib/recorder/vs_storagerecorder.cpp:25-74 | Over every run each hit signals the number of hits, a start after hits signals zero, and nothing else signals |
| `Recorder.StorageRecorder.StartLogging` | framework/vf-storage/lib/recorder/vs_storagerecorder.cpp:25-35 | One connection, and a reset signalled only when there were records |
| `Recorder.StorageRecorder.OnTrigger` | framework/vf-storage/lib/recorder/vs_storagerecorder.cpp:65-74 | Records the time since the first record and signals the count |
| `LxdmConfig.SetThenGet` | xsession-change/lib/lxdmconfigfile.cpp:86-119 | After a successful set the file has exactly one session line and all other non-empty lines in order, and get yields the session of that file, or nothing when the file name contains an equals sign |
| `LxdmConfig.SetRoundTrip` | xsession-change/lib/lxdmconfigfile.cpp:28-41 | With distinct session files get returns the name that was set if and only if the file name has no equals sign |
| `LxdmConfig.SetTwice` | xsession-change/lib/lxdmconfigfile.cpp:86-119 | Setting a and then b leaves the same file as setting b |
| `LxdmConfig.SetSucceedsIff` | xsession-change/lib/lxdmconfigfile.cpp:51-58 | A set succeeds if and only if the first session of that name has a file that exists and the configuration can be written; otherwise nothing changes |
| `LxdmConfig.ExistingAreOffered` | xsession-change/lib/lxdmconfigfile.cpp:7-26 | Exactly the sessions whose files exist are offered |
| `LxdmConfig.OneSessionLine` | xsession-change/lib/lxdmconfigfile.cpp:93-109 | A rewrite leaves one session line and keeps every other non-empty line in its order |
| `LxdmConfig.LineKeepsItsPlace` | xsession-change/lib/lxdmconfigfile.cpp:96-107 | The session line is replaced where the first one stood |
| `LxdmConfig.LxdmConfigFile.WriteConfig` | xsession-change/lib/lxdmconfigfile.cpp:86-119 | The write loop produces the specified content or leaves the file alone |
| `LxdmConfig.LxdmConfigFile.GetConfiguredXSessionName` | xsession-change/lib/lxdmconfigfile.cpp:28-41 | The first session line with one equals sign decides |
| `LxdmConfig.LxdmConfigFile.SetCurrentXSession` | xsession-change/lib/lxdmconfigfile.cpp:51-58 | Sets the file of the first session of that name |
| `LxdmConfig.LxdmConfigFile.constructor` | xsession-change/lib/lxdmconfigfile.cpp:7-26 | Offers the sessions whose files exist, none without a configuration file |
| `Signature.SignatureRoundTrip` | server-libs/vf-cpp/lib/vf-cpp-rpc-helper.cpp:4-50 | From a printed signature of word names and types the parser recovers name, parameter names and types in key order |
| `Signature.CreateRpcSignature` | server-libs/vf-cpp/lib/vf-cpp-rpc-signature.cpp:3-19 | The appending printer yields the common signature for every parameter map |
| `Signature.ParseRpcParams` | convenient-code/lib/command-event-actors/vf_rpc_params_parser.cpp:3-12 | The joining printer yields the same signature for every parameter map |
| `Signature.GetRpcParamNamesList` | server-libs/vf-cpp/lib/vf-cpp-rpc-helper.cpp:26-44 | The loop collects the second words of the parameters |
| `Signature.GetRpcTypesListFromSignature` | server-libs/vf-cpp/lib/vf-cpp-rpc-helper.cpp:4-24 | The loop strips the last word of every parameter and splits again |
| `Codec.RoundTrip` | framework/vf-component/lib/vcmp_componentdata.cpp:94-133 | Every payload that the setters can make is restored by deserializing into a new object of its type |
| `Codec.RoundTripInto` | framework/vf-component/lib/vcmp_remoteproceduredata.cpp:54-91 | Into an object in use everything is restored, except that an id that was never set does not replace one that was |
| `Codec.SerializedIsLaidOut` | framework/vf-component/lib/vcmp_errordata.cpp:41-56 | Where each field of the five payload types lies in its bytes, with lengths and integers in four bytes, most significant first |
| `Codec.IntIsBigEndian` | framework/vf-component/lib/vcmp_entitydata.cpp:41-54 | Integers are written in two's complement, most significant byte first |
| `Codec.RejectedPayloadArrivesIff` | framework/vf-component/lib/vcmp_errordata.cpp:21-80 | An error about a payload that crosses the wire becomes an event if and only if the payload is no error and the description is not empty, and then the items get the payload as it was |
| `Codec.ArrivesIffValid` | network/vf-net2/lib/vn_networksystem.cpp:45-99 | Sending and receiving is the identity on valid payloads of all five types and drops the others |
| `Codec.LocalErrorAboutErrorIsEmptyComponent` | convenient-code/lib/command-event-handler/vf_cmd_event_handler.cpp:53-94 | An error about an error that stays local is unwrapped as an empty component of entity 0 |
| `PayloadBytes.DeliverableIffArrives` | network/vf-net2/lib/vn_networksystem.cpp:85-99 | The structured payloads of the event model pass the receiving filter on their bytes exactly when the event model calls them deliverable, unchanged |
| `PayloadBytes.UnwrappingAgrees` | convenient-code/lib/command-event-handler/vf_cmd_event_handler.cpp:53-94 | Unwrapping the bytes of an error yields what the dispatch model delivers |
| `Codec.BytesBack` | framework/vf-component/lib/vcmp_errordata.cpp:41-75 | Byte arrays, null or not, are read back as written |
| `PayloadObjects.ComponentData.Serialize` | framework/vf-component/lib/vcmp_componentdata.cpp:94-111 | Fields written to the stream one after the other |
| `PayloadObjects.ComponentData.Deserialize` | framework/vf-component/lib/vcmp_componentdata.cpp:113-133 | Fields read back one after the other, the id only if it is not negative |
| `PayloadObjects.ComponentData.SetNewValue` | framework/vf-component/lib/vcmp_componentdata.cpp:59-64 | Invalid values are not taken |
| `PayloadObjects.ComponentData.SetCommand` | framework/vf-component/lib/vcmp_componentdata.cpp:35-41 | The first command stays |
| `PayloadObjects.ErrorData.SetOriginalData` | framework/vf-component/lib/vcmp_errordata.cpp:21-29 | Takes type and bytes of the payload unless it is an error itself |
| `PayloadObjects.ErrorData.Serialize` | framework/vf-component/lib/vcmp_errordata.cpp:41-56 | Fields written to the stream one after the other |
| `PayloadObjects.ErrorData.Deserialize` | framework/vf-component/lib/vcmp_errordata.cpp:58-75 | Fields read back one after the other |
| `PayloadObjects.RemoteProcedureData.Deserialize` | framework/vf-component/lib/vcmp_remoteproceduredata.cpp:72-91 | Fields read back one after the other |
| `PayloadObjects.RemoteProcedureData.Serialize` | framework/vf-component/lib/vcmp_remoteproceduredata.cpp:54-70 | Fields written to the stream one after the other |
| `PayloadObjects.IntrospectionData.Serialize` | framework/vf-component/lib/vcmp_introspectiondata.cpp:38-53 | Fields written to the stream one after the other |
| `PayloadObjects.IntrospectionData.Deserialize` | framework/vf-component/lib/vcmp_introspectiondata.cpp:55-71 | Fields read back one after the other |
| `PayloadObjects.EntityData.Serialize` | framework/vf-component/lib/vcmp_entitydata.cpp:41-54 | Fields written to the stream one after the other |
| `PayloadObjects.EntityData.Deserialize` | framework/vf-component/lib/vcmp_entitydata.cpp:56-73 | Fields read back one after the other |

## Left out

- Qt itself: event posting is a FIFO queue, signals are results or log entries, uuids are fresh numbers, TCP is a
  lossless ordered stream that may be cut, timers and clocks are parameters.
- FlatBuffers: an envelope keeps its messages as they are; greetings fail verification and are dropped. The
  envelopes modelled hold structured payloads; their byte format is `Codec`.
- QVariant conversions and equality across types: values are compared for identity, conversions are parameters.
- Codec.RoundTrip: the stream operators of QString, QVariant, QVariantMap and QStringList are parameters assumed to
  read back what they wrote; integers and byte arrays are modelled byte by byte.
- Agreement.ReplicaAgreesIff: runs hold no direct writes through component handles and no getter customizers.
- Rpc.VeinModuleRpc.CallFunctionPrivate: calls without a thread only, not those through `QtConcurrent`.
- Hash iteration order: QMap order is modelled; QHash and unordered_set orders are arbitrary parameters, or fixed
  to key order where only the order of posted events depends on it (snapshot names, component lists).
- Dispatch.ItemTable.Deliver: no items are added to a container during a pass over it, where the hash might grow under
  the iterator; passes on one container do not nest, which its single iterator does not allow; there are no null items.
- TwoLevelDispatch.ComponentEventHandler.ProcessCommandEvent: entity items are names of tables, not objects; erasing
  from a hash container keeps the order of the rest, as the C++ standard demands since C++14.
- SystemModule.Initialize: the four values it publishes besides the sessions are parameters, `initOnce` and the signal
  to the module loader are left out.
- Module entities and command handlers are not part of the server's chain in `Server`; `Entity` models one alone.
  What modules post enters `Protocol` as arbitrary posted events.
- Clients connecting before the server knows them: in `Protocol` a connection is listed and has its ids at once;
  the waiting list is modelled in `TcpSystem`.
- Socket errors, license checking, OpenSSL, systemd sockets, QML registration, JSON dumps, SCPI metadata, log output
  and the texts of errors.
- The state DISCONNECTED and ERROR of the QML client, which its code never enters, and the entity's property map.
- LxdmConfig.SetThenGet: texts are not re-encoded; non-ASCII files are read and written in different encodings.
- RecorderInterpolation.AveragesAreWindowed: averages are over reals, without floating-point rounding, and 32-bit
  overflow of summed times is not modelled.
- `findAllComponents` is a filter over lookups that are modelled; mock workers and spies are test doubles; event
  generators build the one event that is written out where it is used; parameter validators test a type or a range of
  one QVariant, which values here do not have.
