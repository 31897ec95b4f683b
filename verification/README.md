# ProctorNet protocols, modelled and proved

This project models the parts of ProctorNet whose correctness depends on more than one function: the
SFU manager with its signalling authoriser, the room subscription protocol between browser and server,
the sliding-window rate limiter, signed requests, and the two delivery protocols for telemetry and for
answers. Each is a set of Dafny modules, checked together by `dafny verify dfyconfig.toml`.

Where the code changes an object step by step, a class has the same fields and methods, loops included,
and each method is proved equal to a function on values (`View()`); the results are lemmas about those
functions, about every run of them, and about state machines in which every `await` is a step boundary.
Calls into mediasoup, Redis, PostgreSQL and the browser are parameters that say what the call answered.

- **SFU manager** (`session_hash`, `sfu_*`, `map_count`): registries, generations, caps, crash recovery
  and teardown; `sfu_fencing*` interleaves the calls at their awaits with worker deaths,
  `sfu_uninterrupted` shows that the whole operations are runs of that, and `sfu_service` says who is
  served.
- **Signalling** (`media_signaling`, `signaling_interleaved`): who may send and who may receive, over whole
  requests and over interleaved ones.
- **Rooms** (`channel_registry`, `channel_manager`, `realtime_client`, `subscription_protocol`): the
  server's indexes, the client's reference counts, and the two joined by FIFO links.
- **Rate limiter** (`sliding_window`, `rate_limiter`): the script, the list in memory, and a reference
  that forgets nothing.
- **Signed requests** (`texts`, `json_text`, `canonical_json`, `sanitizer*`, `signed_body`, `hex`,
  `signature_header`, `signed_request`): strings are sequences of UTF-16 code units, numbers their
  printed tokens, hash and message authentication code are parameters. Texts have the grammar of
  sections 2 to 7 of RFC 8259 without insignificant white space; number tokens stand for those that
  `JSON.stringify` prints, so that their own grammar (section 6) is not spelled out.
- **Delivery** (`telemetry`, `attempt_states`, `answer_store`, `autosave`, `autosave_hook`).

## Where the code does not do what one might expect

Each item is a proved lemma that names the exact condition or a concrete history.

- A cap of one connection per user loses count of sockets (`ChannelRegistry.CapOneLosesCount`).
- An unsubscription can overtake the authorisation of its subscription and leave the socket in the room
  (`SubscriptionProtocol.OvertakingLeavesRoom`).
- A router that a dead worker process still delivers is recorded at the new generation and passes the
  fence (`SfuFencingTheorems.LateRouterPassesGuard`): an interleaving that nothing in the manager rules
  out, not one shown of mediasoup. Caps, slots and gauges hold between whole operations only
  (`SfuFencingTheorems.StepKeepsCapExactly`, `StepKeepsSlotsExactly`, `TeardownGaugeExactly`).
- With a limit of zero the list in memory computes a retry time that is not a number
  (`SlidingWindow.InMemoryStep`).
- `{}` and bodies with array-index keys out of textual order are hashed differently by the load
  generator and the server; a query string in the path is stripped by the server only
  (`SignedRequest.GeneratorAcceptedExactly`).
- The browser signs with the bytes of the hex key, the server verifies with its text, so short of a
  collision no browser request is accepted (`SignedRequest.BrowserAlwaysRefused`).
- The answer service replies with `revision` while the autosave hook reads `revision_id`, so every
  differing edit after the first conflicts (`Autosave.SoleWriterExactly`).
- The exam page mounts the hook before the saved answers arrive and the hook never reads them, so the
  first edit over a stored answer after a reload conflicts, unless it repeats a first answer
  (`Autosave.MountedEarlyEditExactly`).
- A first save may name revision 0 or 1, so its retry is not always recognised
  (`AnswerStore.RetryExactly`); a clear restarts revisions, and only so can an update be lost
  (`AnswerStore.LostUpdateExactly`); a late submission still stores answers (`AnswerStore.DeadlineBindsExactly`).

## Model

| member | source | states |
|---|---|---|
| SessionHash.DeterministicHash | backend/src/infrastructure/media/sfuManager.js:55-63 | the shift-subtract-wrap loop returns the absolute value of the base-31 polynomial reduced to signed 32 bits, at most 2^31 |
| SessionHash.RoundIsExact | backend/src/infrastructure/media/sfuManager.js:57-61 | one round, which wraps twice, equals one exact polynomial step wrapped once |
| SessionHash.HashConcat | backend/src/infrastructure/media/sfuManager.js:55-62 | before the absolute value, hash(s+t) is hash(s)·31^length(t) + hash(t) modulo 2^32 |
| SessionHash.HashConcatModulo | backend/src/infrastructure/media/sfuManager.js:55-62 | the same on the unreduced polynomial, as a congruence modulo 2^32 |
| SessionHash.HashIsDistance | backend/src/infrastructure/media/sfuManager.js:55-63 | said without wrapping, the hash is the distance from the base-31 polynomial to the nearest multiple of 2^32 |
| SessionHash.EveryWorkerReachable | backend/src/infrastructure/media/sfuManager.js:377-382 | every worker of a pool no larger than the code-unit range is the pin of some session |
| SfuManagers.SfuManager.Init | backend/src/infrastructure/media/sfuManager.js:167-197 | the pool has the processes that started before the first failure, each active at generation 1, or none if media are disabled; all registries are sound and the answer says whether all started |
| SfuManagers.SfuManager.GetWorkerIndexForSession | backend/src/infrastructure/media/sfuManager.js:377-382 | the index is the hash modulo the pool size; an empty pool is an error |
| SfuManagers.SfuManager.AssertWorkerAndSession | backend/src/infrastructure/media/sfuManager.js:390-432 | the guard's refusals, in the code's order, depend only on worker status, session status, claimed worker and claimed generation |
| SfuManagers.SfuManager.GetOrCreateRouter | backend/src/infrastructure/media/sfuManager.js:439-485 | reuse, refusal at 250 transports, or a new session object at the worker's present generation |
| SfuManagers.SfuManager.CreateTransport | backend/src/infrastructure/media/sfuManager.js:490-541 | the transport goes into the registry, its session, its connection's set and the gauge together, or nothing does |
| SfuManagers.SfuManager.ConnectTransport | backend/src/infrastructure/media/sfuManager.js:546-558 | the answer is the guard's under the transport's recorded worker and generation; nothing changes |
| SfuManagers.SfuManager.CloseTransport | backend/src/infrastructure/media/sfuManager.js:565-586 | only the transport, its gauge and its session entry go |
| SfuManagers.SfuManager.Produce | backend/src/infrastructure/media/sfuManager.js:592-696 | guards, the closing of the user's same-type track even when the call is then refused, and the registration |
| SfuManagers.SfuManager.Consume | backend/src/infrastructure/media/sfuManager.js:701-783 | guards in the code's order, the viewer cap, and the registration in registry, session and gauge |
| SfuManagers.SfuManager.ConsumeBatch | backend/src/infrastructure/media/sfuManager.js:789-818 | the batch equals consuming the distinct ids in order of first occurrence, one result each |
| SfuManagers.SfuManager.CloseProducer | backend/src/infrastructure/media/sfuManager.js:884-920 | the producer leaves the registry and its session, an unknown id changes nothing |
| SfuManagers.SfuManager.HandleWorkerDied | backend/src/infrastructure/media/sfuManager.js:222-355 | marking, the three scrubbing loops, recreation of routers and the final status add up to one crash step on the registries |
| SfuManagers.SfuManager.CloseTransportsForConnection | backend/src/infrastructure/media/sfuManager.js:927-1007 | the nested loops over transports, producers and consumers add up to one removal of everything on the connection's registered transports |
| SfuService.GuardAnswers | backend/src/infrastructure/media/sfuManager.js:390-432 | which of its answers the guard gives, over worker status, session status and the two claims |
| SfuService.ConnectExactly | backend/src/infrastructure/media/sfuManager.js:546-558 | in every interleaving connecting succeeds exactly for a registered, open transport recorded at its running worker's present generation whose session is in service; each refusal has its exact cause |
| SfuService.ProduceExactly | backend/src/infrastructure/media/sfuManager.js:592-642 | in every interleaving produce passes its guards exactly so, for a send transport and fewer than three other tracks; it has then closed exactly the user's tracks of the same type |
| SfuService.ConsumeExactly | backend/src/infrastructure/media/sfuManager.js:701-749 | the same for consume, with a registered open producer, mediasoup's consent and fewer than five viewers; each refusal has its exact cause |
| SfuService.NeverServedAgain | backend/src/infrastructure/media/sfuManager.js:390-432 | a transport recorded before a death of its worker is never connected, published on or watched through again, in any interleaving |
| SfuService.RouterExactly | backend/src/infrastructure/media/sfuManager.js:439-485 | on a sound state a router is given exactly to a session in service that keeps its router, or gets one on a worker with room, always at the present generation |
| SfuService.CreateTransportExactly | backend/src/infrastructure/media/sfuManager.js:490-541 | when a transport is created, the whole record that is registered, and that it can be connected at once |
| SfuService.ProduceServes | backend/src/infrastructure/media/sfuManager.js:592-690 | on a usable send transport produce succeeds, and the user's track of that type is the new one and no other |
| SfuService.ConsumeServes | backend/src/infrastructure/media/sfuManager.js:701-783 | on a usable receive transport consume succeeds exactly below the viewer cap, and what it registers |
| SfuService.PublishAndWatch | backend/src/infrastructure/media/sfuManager.js:490-783 | on every sound state with the worker in service and room: transport, connection, produce, second transport, connection, consume all succeed in turn |
| SfuService.CloseUndoesProduce | backend/src/infrastructure/media/sfuManager.js:884-920 | closing a producer restores the registries from before it was registered, and nobody consumes it afterwards |
| SfuService.CloseUndoesTransport | backend/src/infrastructure/media/sfuManager.js:565-586 | closing a transport restores all but its entry under its connection, which no teardown sees, and nobody connects it afterwards |
| SfuRegistry.SlotsUniqueInsert | backend/src/infrastructure/media/sfuManager.js:608-648 | a new producer keeps one producer per session, user and track type exactly when no registered one holds that slot |
| SfuRegistry.ViewersCappedInsert | backend/src/infrastructure/media/sfuManager.js:737-749 | a new consumer keeps the viewer cap exactly when its producer has fewer than five |
| SfuRegistry.SoundCreateTransport | backend/src/infrastructure/media/sfuManager.js:490-541 | creating a transport keeps all registry invariants |
| SfuRegistry.SoundProduce | backend/src/infrastructure/media/sfuManager.js:592-696 | producing keeps all registry invariants, refused or not |
| SfuRegistry.SoundConsume | backend/src/infrastructure/media/sfuManager.js:701-783 | consuming keeps all registry invariants, the cap and the gauges included |
| SfuRegistry.SoundWorkerDied | backend/src/infrastructure/media/sfuManager.js:222-355 | a crash and its recovery keep all registry invariants |
| SfuRegistry.SoundTeardown | backend/src/infrastructure/media/sfuManager.js:927-1007 | a connection teardown keeps all registry invariants |
| SfuTheorems.RouterKeepsMirror | backend/src/infrastructure/media/sfuManager.js:439-485 | asking for a router keeps each active session's own maps equal to the registries exactly when it does not orphan objects of a closed router |
| SfuTheorems.TrackLimitUnreachable | backend/src/infrastructure/media/sfuManager.js:608-630 | with the three schema track types the guard on three producers never refuses a call that passed the others |
| SfuTheorems.CrashIsolation | backend/src/infrastructure/media/sfuManager.js:222-355 | after a crash answered by a new process the worker is active, nothing of it is registered, each session whose router came back is empty, at the new epoch and served again, each other one waits; without a new process none of its sessions is served; everything of another worker is as before |
| SfuTheorems.TeardownExact | backend/src/infrastructure/media/sfuManager.js:927-1007 | teardown removes exactly the connection's transports and what sits on them, and changes nothing else in the registries |
| SfuTheorems.TeardownSessions | backend/src/infrastructure/media/sfuManager.js:927-1007 | teardown takes from each session's own maps exactly the removed objects |
| SfuTheorems.TeardownIdempotent | backend/src/infrastructure/media/sfuManager.js:922-932 | a second teardown of the same connection changes nothing |
| SfuRuns.EveryRunSound | backend/src/infrastructure/media/sfuManager.js:141-150 | from a started pool every run of whole operations is sound: assigned sessions are those that hash to the worker, every object is on its session's pinned worker at its present generation, gauges equal the registries; and session maps mirror the registries if no router closes under its objects |
| SfuRuns.EveryRunCapped | backend/src/infrastructure/media/sfuManager.js:608-630 | in every such run at most one producer per slot, three per user, five viewers per producer |
| SfuRuns.GenerationCountsCrashes | backend/src/infrastructure/media/sfuManager.js:233-236 | a worker's generation is its first one plus the number of its own crashes |
| SfuRuns.BatchResults | backend/src/infrastructure/media/sfuManager.js:789-818 | one result per distinct id, in order |
| SfuRuns.DistinctInOrder | backend/src/infrastructure/media/sfuManager.js:789-795 | the distinct ids of a batch stand in the order in which they first occur |
| SfuRuns.BatchIsItsFulfilledPart | backend/src/infrastructure/media/sfuManager.js:789-818 | a batch leaves the state that its fulfilled ids alone would leave: refused ids change nothing |
| SfuFencing.StepWellFormed | backend/src/infrastructure/media/sfuManager.js:222-355 | with every await a step boundary and a worker death possible at any of them, each step keeps every registered or suspended object on its pinned worker, no newer than the worker |
| SfuFencing.EveryCallGoesOn | backend/src/infrastructure/media/sfuManager.js:222-355 | no suspended call is stuck in a well-formed world, so the side conditions of a step exclude nothing the code can do |
| SfuUninterrupted.EveryRunInterleaves | backend/src/infrastructure/media/sfuManager.js:222-1007 | every run of whole operations, recovery and teardown included, is a run of the interleaving: the steps between awaits add up to the operations |
| SfuFencingTheorems.GenerationCountsDeaths | backend/src/infrastructure/media/sfuManager.js:233-236 | in every interleaving a worker's generation grows by one per own death and by nothing else |
| SfuFencingTheorems.FenceHolds | backend/src/infrastructure/media/sfuManager.js:390-432 | whenever connect, produce or consume passes its guard, the transport's recorded generation is its worker's present one |
| SfuFencingTheorems.FencedForever | backend/src/infrastructure/media/sfuManager.js:390-432 | a transport recorded before a death of its worker never passes a guard again, in any interleaving |
| SfuFencingTheorems.HonestExactly | backend/src/infrastructure/media/sfuManager.js:459-482 | recorded generations stay those of the process the object was made on exactly as long as no dead process answers a router request |
| SfuFencingTheorems.GuardMeansAlive | backend/src/infrastructure/media/sfuManager.js:390-432 | with prompt answers a transport that passes a guard lives on the process that is running now |
| SfuFencingTheorems.GuardMeansRunning | backend/src/infrastructure/media/sfuManager.js:222-432 | if, besides, processes start in the order of the deaths they answer, it was made by the very process its worker runs on |
| SfuFencingTheorems.LateRouterPassesGuard | backend/src/infrastructure/media/sfuManager.js:459-482 | a six-step interleaving in which a dead process's late router makes a transport that passes the guard |
| SfuFencingTheorems.StraddledProducesShareSlot | backend/src/infrastructure/media/sfuManager.js:608-690 | two produce calls of one user and track type, both past their guards before either resumes: the four steps are enabled and end with two producers in one slot |
| SfuFencingTheorems.StraddledConsumesExceedCap | backend/src/infrastructure/media/sfuManager.js:737-775 | two consume calls that both count four viewers before either resumes: the four steps are enabled and end with six viewers |
| SfuFencingTheorems.StepKeepsSlotsExactly | backend/src/infrastructure/media/sfuManager.js:608-690 | of all interleaved steps exactly the registration of a producer whose slot was taken since its call emptied it puts two in one slot |
| SfuFencingTheorems.StepKeepsCapExactly | backend/src/infrastructure/media/sfuManager.js:737-775 | of all interleaved steps exactly the registration of a consumer whose producer filled up since its call counted breaks the viewer cap |
| SfuFencingTheorems.TeardownGaugeExactly | backend/src/infrastructure/media/sfuManager.js:934-1003 | an interleaved teardown keeps the transport gauge right exactly when the transport is still registered after the await |
| SfuReconcile.ReconcileSession | backend/src/infrastructure/media/sfuManager.js:1023-1034 | the loop keeps exactly the entries that name a registered producer not older than the entry says |
| SfuReconcile.ReconcileWithRedis | backend/src/infrastructure/media/sfuManager.js:1012-1040 | only active sessions of this manager are reconciled, every other entry stays |
| SfuReconcile.ReconciledTwice | backend/src/infrastructure/media/sfuManager.js:1012-1040 | reconciliation is idempotent |
| SfuReconcile.WrittenEntryStaysExactly | backend/src/infrastructure/media/sfuManager.js:1012-1034 | the entry that a registration wrote is kept by the session's own manager exactly while the producer is registered at no older generation, and by others always |
| SfuReconcile.ReconciledAfterCrash | backend/src/infrastructure/media/sfuManager.js:1012-1040 | after a worker's recovery a reconciliation empties the shared entries of every session that came back |
| MediaSignaling.AuthorizedExactly | backend/src/infrastructure/media/mediaSignaling.js:36-111 | a request is authorised for a direction exactly when it is the one the role set permits and the role's database rows support it, and then carries the active attempt exactly for sending |
| MediaSignaling.NeverBothDirections | backend/src/infrastructure/media/mediaSignaling.js:36-111 | no role set is authorised for both directions, whatever the rows at the two moments |
| MediaSignaling.DispatchedExactly | backend/src/infrastructure/media/mediaSignaling.js:165-364 | which messages reach the SFU, and as which operation: in the transport's own session and for the connection that asked |
| MediaSignaling.DirectionsSeparated | backend/src/infrastructure/media/mediaSignaling.js:165-364 | over every run of whole signalling requests a connection's transports share one direction and no connection has both a producer and a consumer |
| SignalingInterleaved.StepSeparatedExactly | backend/src/infrastructure/media/mediaSignaling.js:165-364 | with authorisation, guards and registration at different moments, a step keeps every registered and every suspended object in its connection's direction exactly when it does not suspend a call against it |
| SignalingInterleaved.AdmittedCrossesExactly | backend/src/infrastructure/media/mediaSignaling.js:36-111 | a request that the authoriser lets through does so exactly when its guards pass and the connection's roles by then permit another direction than its first ones |
| SignalingInterleaved.InterleavedSeparated | backend/src/infrastructure/media/mediaSignaling.js:165-364 | in every interleaving of admitted requests, worker deaths, recoveries and teardowns in which roles keep their direction, a connection's transports share one direction and nobody both publishes and watches |
| ChannelRegistry.RegisterKeepsExactly | backend/src/infrastructure/realtime/channelManager.js:37-82 | registering a fresh socket keeps the four indexes mutually inverse and the cap exactly when the cap is at least two, or is one and the user has no socket |
| ChannelRegistry.UnregisterKeeps | backend/src/infrastructure/realtime/channelManager.js:88-123 | unregistering keeps the indexes inverse, without empty sets, under the cap |
| ChannelRegistry.SubscribeKeeps | backend/src/infrastructure/realtime/channelManager.js:131-149 | subscribing keeps the same, and an unregistered socket joins nothing |
| ChannelRegistry.UnsubscribeKeeps | backend/src/infrastructure/realtime/channelManager.js:157-172 | unsubscribing keeps the same |
| ChannelRegistry.EvictedHearsNothing | backend/src/infrastructure/realtime/channelManager.js:49-62 | the evicted socket has no owner and is in no room's subscribers |
| ChannelRegistry.HearersExactly | backend/src/infrastructure/realtime/channelManager.js:37-172 | who hears a room, and who is registered, after each of the four operations |
| ChannelRegistry.SocketsExactly | backend/src/infrastructure/realtime/channelManager.js:37-123 | a user's sockets in order after each operation |
| ChannelRegistry.RunAgrees | backend/src/infrastructure/realtime/channelManager.js:25-251 | with a cap of at least two and fresh sockets every run keeps the indexes in agreement |
| ChannelRegistry.SurvivorsAreTheLatest | backend/src/infrastructure/realtime/channelManager.js:41-64 | a user who never disconnects keeps exactly the last cap sockets that connected, in order, whatever the other users do |
| ChannelRegistry.CapOneLosesCount | backend/src/infrastructure/realtime/channelManager.js:41-64 | with a cap of one three registrations leave two open sockets, one of them not filed under its user |
| ChannelManagers.ChannelManager.RegisterConnection | backend/src/infrastructure/realtime/channelManager.js:37-82 | the method over shared set objects, where an eviction may drop the set it still holds, does what the index function says |
| ChannelManagers.ChannelManager.UnregisterConnection | backend/src/infrastructure/realtime/channelManager.js:88-123 | the loop over the socket's rooms leaves them all and forgets emptied rooms and users |
| ChannelManagers.ChannelManager.Subscribe | backend/src/infrastructure/realtime/channelManager.js:131-149 | both room indexes change together; the result says whether the socket is registered |
| ChannelManagers.ChannelManager.Unsubscribe | backend/src/infrastructure/realtime/channelManager.js:157-172 | both room indexes change together, an emptied room goes |
| RealtimeClients.RealtimeClient.Connect | frontend/src/services/realtimeClient.js:57-82 | when a new socket is made, which status it starts in, and that a failing constructor leaves the client disconnected |
| RealtimeClients.RealtimeClient.OnOpen | frontend/src/services/realtimeClient.js:85-96 | one subscribe frame per counted room goes out on the current socket |
| RealtimeClients.RealtimeClient.OnClose | frontend/src/services/realtimeClient.js:130-155 | the socket is dropped, and a reconnection after the jittered delay is scheduled unless the client is disconnected or has no token |
| RealtimeClients.RealtimeClient.Subscribe | frontend/src/services/realtimeClient.js:175-196 | the count goes up by one; a frame is sent exactly on the first use over an open, connected socket |
| RealtimeClients.RealtimeClient.Unsubscribe | frontend/src/services/realtimeClient.js:205-226 | the count goes down; the last use removes the entry and sends a frame over an open, connected socket |
| RealtimeClients.RealtimeClient.Disconnect | frontend/src/services/realtimeClient.js:355-375 | everything is cleared and the current socket closed |
| RealtimeClients.ConnectExactly | frontend/src/services/realtimeClient.js:57-82 | when a socket is made, that no reconnection is pending then, and how the status tells a first attempt, a repeated one and a failure |
| RealtimeClients.BackoffDoubles | frontend/src/services/realtimeClient.js:143-151 | the delay before jitter doubles per failed attempt and is at its bound exactly from the fifth on |
| RealtimeClients.DelayBounds | frontend/src/services/realtimeClient.js:143-151 | with jitter the delay is within a fifth of the doubled one, rounded: never under 0.8 nor over 36 seconds |
| RealtimeClients.DelayReachesExactly | frontend/src/services/realtimeClient.js:143-151 | the delays that some draw gives are exactly the whole milliseconds within a fifth of the doubled delay |
| SubscriptionProtocol.CountsAreUses | frontend/src/services/realtimeClient.js:175-226 | in every run the client's count of a room is the number of uses asked for, from the event history alone: one more per subscription, one less per unsubscription while positive, none after a disconnection |
| SubscriptionProtocol.AttemptsAreFailures | frontend/src/services/realtimeClient.js:85-155 | the attempt counter is the number of closings to be made good since the last opening or disconnection, and each leaves a pending reconnection |
| SubscriptionProtocol.StepAgreesExactly | backend/src/infrastructure/realtime/websocketServer.js:670-702 | between live worlds, what the server will hear of a room stays what the client counts exactly when the step is none of: an unsubscription that overtakes a pending authorisation, a rejected frame that mattered, a denial, a revocation, each with no later frame for the room under way |
| SubscriptionProtocol.OpenAgrees | frontend/src/services/realtimeClient.js:85-96 | a socket that just opened agrees on every room, whatever happened on earlier sockets |
| SubscriptionProtocol.SubscriptionsConverge | frontend/src/services/realtimeClient.js:85-226 | in every run without such a break, through any drops and reconnections, the frames under way applied to the server's rooms give exactly the rooms with a use outstanding in the event history |
| SubscriptionProtocol.QuietSubscribers | backend/src/infrastructure/realtime/channelManager.js:131-181 | with nothing under way, the live socket is a subscriber of a room exactly if the event history has a use of it outstanding |
| SubscriptionProtocol.GoneHearsNothing | backend/src/infrastructure/realtime/channelManager.js:88-123 | a socket that is gone is in no room and has no owner in every continuation in which it is not accepted again |
| SubscriptionProtocol.OvertakingLeavesRoom | backend/src/infrastructure/realtime/websocketServer.js:670-702 | an eight-step run after which the socket is in a room that nobody counts |
| SlidingWindow.InMemoryStep | backend/src/middleware/rateLimiter.js:66-81 | the list in memory answers as the unpruned reference exactly when the limit is positive or a stamp is live |
| SlidingWindow.ScriptStep | backend/src/middleware/rateLimiter.js:19-44 | the sorted-set script always answers as the reference, with keys expiring when their time is up |
| SlidingWindow.LimitersAgreeExactly | backend/src/middleware/rateLimiter.js:19-81 | after any run with a clock that never goes back, script and list give the same answers as the reference, under the same exact condition |
| SlidingWindow.PruneHarmlessExactly | backend/src/middleware/rateLimiter.js:50-61 | pruning for a caller's window is harmless to another key exactly when that key's window is at most twice the caller's |
| SlidingWindow.PruneExactly | backend/src/middleware/rateLimiter.js:50-61 | above 5000 keys exactly the keys with a stamp inside twice the window stay, with exactly those stamps; below, all stays |
| SlidingWindow.ExpiredIsStale | backend/src/middleware/rateLimiter.js:30-32 | when a key's expiry is reached none of its stamps is live |
| SlidingWindow.WindowBound | backend/src/middleware/rateLimiter.js:66-81 | every half-open interval as long as the window holds at most the limit of admitted calls |
| SlidingWindow.DeniedUntilOldestLeaves | backend/src/middleware/rateLimiter.js:71-74 | at the limit, a call is admitted exactly from the oldest live stamp's leaving on |
| SlidingWindow.RetryIsExact | backend/src/middleware/rateLimiter.js:71-74 | a denied call's retry time admits, and no moment a second or more earlier does |
| SlidingWindow.RemainingIsExact | backend/src/middleware/rateLimiter.js:76-80 | an admitted call is followed at the same moment by exactly as many admitted calls as it was told remain |
| RateLimiters.RateLimiter.PruneStaleEntries | backend/src/middleware/rateLimiter.js:50-61 | the loop filters every key's stamps and deletes the keys left without any, only above 5000 keys |
| RateLimiters.RateLimiter.CheckInMemoryFallback | backend/src/middleware/rateLimiter.js:66-81 | the method's answer and new map are those of the list model |
| Texts.LessExactly | scripts/load/k6/k6-helpers.js:39-40 | keys are ordered by code unit at the first place where they part |
| JsonText.RoundTrip | scripts/load/k6/k6-helpers.js:32-44 | parsing a printed value gives it back, with every escape and lone surrogate |
| JsonText.PrintInjective | scripts/load/k6/k6-helpers.js:32-44 | different values print different texts |
| JsonText.BodyParses | scripts/load/k6/k6-helpers.js:34-34 | the inside of a printed string literal parses back to the string |
| JsonText.LiteralEncodable | scripts/load/k6/k6-helpers.js:34-34 | a printed string literal has no lone surrogate and no control character, whatever the string |
| CanonicalJson.CanonicalPrintsNorm | scripts/load/k6/k6-helpers.js:32-44 | the canonical printer's text is the plain text of the value with keys sorted and undefined fields dropped, at every depth |
| CanonicalJson.NormExactly | scripts/load/k6/k6-helpers.js:39-43 | two values have the same normal form exactly when they are the same up to key order and undefined fields |
| CanonicalJson.CanonicalExactly | scripts/load/k6/k6-helpers.js:32-44 | two values have the same canonical text exactly when they are the same up to key order and undefined fields |
| CanonicalJson.HoleIsInvisible | scripts/load/k6/k6-helpers.js:36-38 | an undefined array item is the exception: it does not show in the text |
| Sanitizer.CleanExactly | backend/src/middleware/sanitizeInput.js:22-58 | the result has no forbidden key and no forbidden character at any depth, and equals the input exactly if the input had none |
| Sanitizer.CleanTextKeeps | backend/src/middleware/sanitizeInput.js:22-36 | a cleaned text is the units that stay, all of them and in order |
| Sanitizer.CleanFieldsKeeps | backend/src/middleware/sanitizeInput.js:46-57 | an object is cleaned field by field, in order: a forbidden field goes, any other stays under its key |
| Sanitizer.ControlsExactly | backend/src/middleware/sanitizeInput.js:11-11 | of the units below the space exactly tab, line feed and carriage return are no hazard |
| Sanitizer.CleanIdempotent | backend/src/middleware/sanitizeInput.js:22-58 | cleaning twice is cleaning once |
| SanitizerHeap.Heap.CleanStructuralHazards | backend/src/middleware/sanitizeInput.js:22-58 | the recursive procedure overwrites a tree of objects in place to the cleaned tree, keeps the references, touches no other object, and ends |
| SanitizerHeap.Heap.CleanArray | backend/src/middleware/sanitizeInput.js:38-43 | the loop over an array leaves each item cleaned |
| SanitizerHeap.Heap.CleanObject | backend/src/middleware/sanitizeInput.js:46-57 | the loop over a snapshot of the keys deletes the forbidden ones and cleans the others |
| SanitizerHeap.CleanedValue | backend/src/middleware/sanitizeInput.js:22-58 | the tree left in place stands for the cleaned value |
| SignedBody.LastOneWins | backend/src/utils/antiTamper.js:35-50 | an object read from a text has under each key what the text says last |
| SignedBody.ReadBackExactly | backend/src/utils/antiTamper.js:35-50 | parsing into objects and sanitising changes a value exactly if some object's keys are out of their own order or there is a hazard |
| SignedBody.ServerAgreesExactly | backend/src/utils/antiTamper.js:35-61 | the server hashes the very text that was sent exactly for an array or non-empty object with keys in own order and no hazards |
| SignedBody.CanonicalAgreesExactly | scripts/load/k6/k6-helpers.js:56-68 | the same for the canonical printer's text |
| SignedBody.PlainBodiesAgree | scripts/load/k6/k6-helpers.js:56-68 | a body with a field, without array-index keys and without hazards is hashed as it was sent |
| SignedBody.IndexKeysPart | scripts/load/k6/k6-helpers.js:39-43 | two array-index keys whose numeric and textual orders differ part the two texts |
| Hex.HexToBytes | frontend/src/utils/antiTamperClient.js:12-21 | the loop fills the byte array with what parseInt makes of each pair; odd length is an error |
| Hex.BytesToHex | frontend/src/utils/antiTamperClient.js:28-35 | the loop builds the two-digit lower-case text of every byte |
| Hex.BytesRoundTrip | frontend/src/utils/antiTamperClient.js:12-35 | bytes come back from their hex text |
| Hex.HexRoundTripExactly | frontend/src/utils/antiTamperClient.js:12-35 | an even-length text comes back from its bytes, in lower case, exactly when it is all hex digits |
| SignatureHeader.ParseSignatureHeader | backend/src/utils/antiTamper.js:91-129 | the loop over the parts keeps the last valid value of each of the three keys |
| SignatureHeader.ParsedNonce | backend/src/utils/antiTamper.js:113-116 | any nonce the parser returns is trimmed, comma-free and of 8 to 128 characters |
| SignatureHeader.ParsedValues | backend/src/utils/antiTamper.js:104-126 | any timestamp it returns is positive, any signature 64 hex digits in lower case |
| SignatureHeader.LaterPartWins | backend/src/utils/antiTamper.js:91-129 | a part that follows a header overrides exactly what it has a valid value for |
| SignatureHeader.HeaderRoundTripExactly | backend/src/utils/antiTamper.js:91-129 | a printed header with a positive timestamp and a hex signature parses back, signature in lower case, exactly when the nonce is trimmed, comma-free and of 8 to 128 characters |
| SignedRequest.StringDeterminesRequest | backend/src/utils/antiTamper.js:75-82 | with nonces and methods free of dots the signed string determines timestamp, nonce, method, path and hash |
| SignedRequest.DottedNonceCollides | backend/src/utils/antiTamper.js:75-82 | a dot in the nonce makes two requests share a signed string |
| SignedRequest.UpperExactly | backend/src/utils/antiTamper.js:75-82 | methods are signed alike exactly when they differ in the case of ASCII letters only |
| SignedRequest.GeneratorAcceptedExactly | scripts/load/k6/k6-helpers.js:56-68 | the server accepts a request of the load generator, short of collisions, exactly when the path has no query and the body is signable |
| SignedRequest.KeysDiffer | frontend/src/utils/antiTamperClient.js:12-21 | the bytes that a non-empty hex key stands for are never the units of its text |
| SignedRequest.BrowserComparesCodes | frontend/src/utils/antiTamperClient.js:99-141 | for any body and path, verifying a browser request compares a code under the decoded key over the sent text with a code under the key's text over the text the server reads |
| SignedRequest.BrowserAlwaysRefused | frontend/src/utils/antiTamperClient.js:99-141 | short of a collision of those two codes the server refuses every browser request, whatever its method, path and body |
| SignedRequest.BrowserStringsAgreeExactly | frontend/src/utils/antiTamperClient.js:99-141 | short of a collision of the two hashes, browser and server sign the same string exactly when the body is signable: the keys alone part them there |
| Telemetry.TelemetryBuffer.EnqueueEvent | frontend/src/hooks/useProctoringEvents.js:87-104 | an event is appended only while active, and a full batch starts a flush |
| Telemetry.TelemetryBuffer.StartFlush | frontend/src/hooks/useProctoringEvents.js:50-56 | at most one request is under way, with the first fifty events |
| Telemetry.TelemetryBuffer.FinishFlush | frontend/src/hooks/useProctoringEvents.js:58-81 | acknowledged ids leave the buffer, a final refusal empties it, any other failure keeps the last hundred |
| Telemetry.RemovalDropsPrefix | frontend/src/hooks/useProctoringEvents.js:59-62 | removal by id is removal of the sent prefix |
| Telemetry.InsertStores | backend/src/modules/proctoring/proctoring.repository.js:64-104 | the insert adds exactly the new pairs of attempt and event, none twice |
| Telemetry.EveryEventAccounted | frontend/src/hooks/useProctoringEvents.js:50-104 | in every run, with requests lost, delayed and repeated, the events enqueued are those with a fate followed by the buffer, and every event stored by an acknowledgement has exactly one row |
| Telemetry.LossOnlyOnFailure | frontend/src/hooks/useProctoringEvents.js:64-78 | events are dropped exactly when a flush fails with more than a hundred buffered, oldest first; they are discarded only on a final refusal |
| Telemetry.RequestMadeExactly | frontend/src/hooks/useProctoringEvents.js:50-104 | a request is made exactly when the timer fires or the batch fills while none is under way, the hook is active for an attempt and something is buffered; it carries the first fifty events, or all |
| Telemetry.AllStoredExactly | frontend/src/hooks/useProctoringEvents.js:50-104 | with nothing but deliveries and acknowledgements, all n buffered events are stored, each once, after one request per fifty of them and not before |
| AttemptStates.TransitionExactly | backend/src/domain/attempt/attemptStateMachine.js:29-65 | the throwing function and the predicate agree on all pairs of texts |
| AttemptStates.TerminalExactly | backend/src/domain/attempt/attemptStates.js:31-63 | the terminal list is exactly the statuses the table lets nothing out of |
| AttemptStates.EntryExactly | backend/src/domain/attempt/attemptStates.js:47-63 | from which statuses each status may be entered |
| AttemptStates.LawfulEnds | backend/src/domain/attempt/attemptStates.js:47-63 | a lawful history has nothing after a terminal status, never returns to ready, and returns only to active and paused |
| AnswerStore.SaveBatch | backend/src/modules/answers/answers.service.js:430-505 | the loop, which looks only at answers fetched before its first write, equals saving one after the other |
| AnswerStore.PayloadEqualExactly | backend/src/modules/answers/answers.service.js:27-36 | two values count as a repetition exactly when they say the same: the option, or else the number, or else the text |
| AnswerStore.ItemsExactly | backend/src/modules/answers/answers.service.js:430-505 | items for distinct questions are saved exactly when each would be taken as things stand; each question then holds its own value and no other row changes |
| AnswerStore.SaveExactly | backend/src/modules/answers/answers.service.js:214-262 | when a save is accepted, what it leaves, and that a refused one changes nothing but an expired status |
| AnswerStore.ClearExactly | backend/src/modules/answers/answers.service.js:301-341 | a clear is accepted exactly in time and for the stored revision, or zero without an answer, and removes that answer alone |
| AnswerStore.BatchExactly | backend/src/modules/answers/answers.service.js:430-505 | when a batch is accepted and what it leaves |
| AnswerStore.WriteNamesPredecessor | backend/src/modules/answers/answers.service.js:214-262 | an accepted write makes the revision after the one it names, exactly unless it is a first save that expects revision one |
| AnswerStore.RetryExactly | backend/src/modules/answers/answers.service.js:246-250 | repeating an accepted save changes nothing and returns the same row, with the same exception |
| AnswerStore.BatchIsSinglesExactly | backend/src/modules/answers/answers.service.js:437-505 | a batch is accepted exactly when its saves would be one by one and none is a first save expecting one, and then leaves the same rows |
| AnswerStore.ChangesOnlyWhileActive | backend/src/modules/answers/answers.service.js:122-128 | answers change only while the attempt is active, also through the submission of an expired attempt |
| AnswerStore.StatusMovesLawfully | backend/src/modules/submissions/submissions.service.js:116-125 | every operation moves the status as the table allows or not at all |
| AnswerStore.EndedForGood | backend/src/modules/submissions/submissions.service.js:215-441 | after a terminal status no run of operations changes answers or status |
| AnswerStore.DeadlineBindsExactly | backend/src/modules/submissions/submissions.service.js:308-390 | from the deadline on saves, clears and batches change no answer, and they or a look at the answers expire the attempt; a submission still stores its answers and expires it |
| AnswerStore.SubmitExactly | backend/src/modules/submissions/submissions.service.js:215-441 | a submission not on record is carried out exactly for an active attempt all of whose finals are taken; it ends submitted exactly in time and by the candidate, expired otherwise, stores each final, leaves every other answer, and goes on record; any other changes nothing |
| AnswerStore.InterveneExactly | backend/src/modules/interventions/interventions.repository.js:90-145 | start, pause, resume and terminate change the status exactly where allowed; only a resumption moves the deadline |
| AnswerStore.PauseCostsNoTime | backend/src/modules/interventions/interventions.repository.js:94-129 | whatever is tried during a pause, a resumed attempt has the time left that it had when it was paused, plus the extension, and the same answers |
| AnswerStore.NoLostUpdate | backend/src/modules/answers/answers.service.js:228-245 | a save accepted over a revision read before any run without a clear overwrites the very row that was read |
| AnswerStore.ClearRestartsRevisions | backend/src/modules/answers/answers.service.js:319-331 | for every stored revision r of at least one, an accepted clear followed by r saves by another client brings the row back to r, and the first client's save is then accepted over an answer it never read |
| AnswerStore.ClearPossibleExactly | backend/src/modules/answers/answers.service.js:301-331 | some run has an accepted clear of a stored answer exactly when the attempt is ready, active or paused and the question is still on the paper |
| AnswerStore.LostUpdateExactly | backend/src/modules/answers/answers.service.js:228-331 | some run lets a stale save overwrite an answer its client never read exactly when a clear may be accepted in between, the save's value suits, and some other value does |
| AnswerStore.RevisionCountsWrites | backend/src/modules/answers/answers.service.js:214-262 | the stored revision is the number of accepted writes since the last clear |
| AutosaveHooks.AutosaveHook.SetAnswer | frontend/src/hooks/useAutosave.js:131-165 | the page, the dirty queue, its stored copy and the timer change together |
| AutosaveHooks.AutosaveHook.SettleSave | frontend/src/hooks/useAutosave.js:67-128 | what each outcome does to the page and the queue |
| AutosaveHooks.AutosaveHook.BeginFlush | frontend/src/hooks/useAutosave.js:168-187 | the payload holds each dirty question exactly once, timers are cleared |
| AutosaveHooks.AutosaveHook.SettleFlush | frontend/src/hooks/useAutosave.js:189-205 | the queue empties on acknowledgement and on expiry, not on failure |
| AutosaveHooks.AutosaveHook.RecoverQueue | frontend/src/hooks/useAutosave.js:51-64 | the loop restores every stored edit |
| Autosave.ReloadKeepsQueue | frontend/src/hooks/useAutosave.js:35-64 | after any number of page lives, each recovering what the last one stored, a page reloaded at any moment has the same unsaved answers |
| Autosave.EditKeptExactly | frontend/src/hooks/useAutosave.js:67-205 | an unsaved edit leaves the queue exactly when its save or a flush is settled for good; every failure keeps it |
| Autosave.QueueIsUnsettled | frontend/src/hooks/useAutosave.js:67-205 | over any course of events the queue holds each question's last typed value unless that was settled since |
| Autosave.PageShows | frontend/src/hooks/useAutosave.js:67-165 | over any course of events the page shows the last value typed or acknowledged, or the server's answers after a conflict |
| Autosave.RecoveredExactly | frontend/src/hooks/useAutosave.js:51-64 | a reloaded page shows exactly the stored edits, at the revision each named, but one in place of zero |
| Autosave.RecoveredEditExactly | frontend/src/hooks/useAutosave.js:51-64 | the value typed after a recovery is accepted exactly when the server takes it under that revision |
| Autosave.SoleWriterExactly | frontend/src/hooks/useAutosave.js:79-91 | a sole writer who waits never conflicts exactly when replies carry the revision under the name the hook reads or every value is the first again; otherwise the first value stays |
| Autosave.FlushLeavesRevisionBehind | frontend/src/hooks/useAutosave.js:168-205 | after an acknowledged flush the next value is accepted exactly if it is the same answer again |
| Autosave.ReloadedEditExactly | frontend/src/hooks/useAutosave.js:15-24 | if the page mounts the hook with the server's list, the first edit after a reload is accepted exactly when the list carried the revision, or the stored revision is one, or it is two and the same answer is typed again |
| Autosave.MountedEarlyEditExactly | frontend/src/hooks/useAutosave.js:133-147 | a hook that was mounted before the list arrived, as the exam page does, has its first edit over a stored answer accepted exactly when that is the first answer again |

## Left out

- SFU: the producer gauge and `session.producers`, which the same-type replacement leaves behind; `session.producers` is in the model as the code keeps it, without a claim.
- SFU: the limit of 250 transports as an invariant; it is checked only when a router is made.
- SFU: the STARTING status, `isShuttingDown`, `close()`, announced addresses, consumer layers, pausing, ICE restart, piping between routers, codecs and mediasoup options.
- SFU: publishing to Redis; its answers only place step boundaries, and the producer hash is modelled for reconciliation alone.
- SfuReconcile.ReconciledAfterCrash: assumes that every shared entry that names a registered producer stands under that producer's session, because other managers may write there too.
- Signalling: `parseClientCommand` (backend/src/infrastructure/realtime/realtime.schemas.js:93-97) knows no `media:` command, so the handler is not reached through it; the model starts at the handler.
- MediaSignaling.DirectionsSeparated: authorisation and SFU call are one step, roles are fixed, router requests and batches are left out; `SignalingInterleaved.InterleavedSeparated` drops the first two restrictions, and a batch there is its consume calls one by one.
- SignalingInterleaved.InterleavedSeparated: the revocation sweep may change roles; a change of direction is outside, and `AdmittedCrossesExactly` says what it breaks.
- SfuManagers.SfuManager.Init: `isInitialized` and the choice of the worker count are not in the contract.
- SfuManagers.SfuManager.Produce: the producer gauge and the Redis hash are not in the contract.
- SfuManagers.SfuManager.CloseProducer: the producer gauge and the removal from Redis are not in the contract.
- SfuManagers.SfuManager.HandleWorkerDied: the Redis writes and broadcasts per session and the check for a shutdown are not in the contract.
- SfuReconcile.ReconcileWithRedis: Redis answers throughout; a failure in the middle of the loop, which ends the reconciliation there, is left out.
- Rooms: message handlers and event listeners, heartbeats, inbound rate limits beyond the closing of the socket, connection metrics, `clear()` and the plain getters.
- SfuFencingTheorems.GuardMeansRunning: assumes that a worker process dies only after it was started, which puts the answers of `createWorker` in the order of the deaths.
- SubscriptionProtocol.SubscriptionsConverge: assumes that no `open` event of an older socket fires, because the client's handlers are not tied to a socket.
- SlidingWindow.LimitersAgreeExactly: one window per key and one limiter kind per run; calls that change from Redis to memory in between are counted by each on its own.
- SlidingWindow.ScriptStep: Redis and the application share one clock, and members are new to their set.
- Signed requests: clock drift and nonce storage, key derivation, UTF-8 encoding, and `Number` on texts that are not decimals, which is a parameter.
- JsonText.RoundTrip: white space between tokens is not parsed, because neither printer makes any.
- SignedRequest.GeneratorAcceptedExactly: that the two hashes and the two codes at hand do not collide is assumed, not proved of SHA-256 and HMAC.
- Telemetry: risk scores, event types and severities; the server's other refusals count as failures.
- Answers: authorisation, question types and options (a parameter says which values suit), idempotency keys beyond one record per attempt, audit and outbox rows.
- Answers: the lazy expiry on reads checks and updates in two statements; the model does both at once.
- Autosave: edits made while a save of the same question is under way.
- Autosave.ReloadKeepsQueue: failures of the browser's storage are left out.
- Exam, user, evaluation and document transition tables, screen inference, pages, load and chaos orchestration: small case splits, floating point or I/O.
