# A verified model of the hzchat server's stateful core

hzchat is an anonymous chat server written in Go. This project models the parts of it in which goroutines share state,
and proves what they guarantee together: the chat room with its event loop and its connections, the registry of rooms,
the per-address rate limiter, the proof-of-work store, the refreshing of room tokens, and the small codecs and checks
the others rest on (file types and storage keys, room codes and guest IDs, asset URLs).

## How it is built

A component that several goroutines touch appears twice.

* As a **machine**: a datatype for the state, an `Event` for each step, `Enabled` for when the step is possible and
  `Next` for what it does. A run is any sequence of enabled events, so a statement about every run is a statement about
  every interleaving of these steps. What a step is differs:
  * `ProofOfWork` and `LimiterCalls` take each call apart at the points where the code holds no lock, and `Registry`
    takes a room's end apart from its notification and the receiving of a message from the deleting.
  * `RoomMachine` takes each handler of the loop as one step, save for a rejection, which is two. Its states are those
    in which the loop stands at its select, or between the halves of a rejection.
  * `IpLimiter` takes a request as one step, from finding its bucket to asking it. `LimiterCalls` shows exactly when
    that makes no difference.
* As **classes** with the server's own fields, whose methods update them in place (`ChatRoom`, `ChatManager`, and the
  classes at the end of `IpLimiter` and `ProofOfWork`). Each method is proved to take the abstract `State()` of its object
  exactly where the machine's step, or sequence of steps, takes it. Loops over Go maps pick the next key arbitrarily.

The room's theorems need history: which messages entered a send channel, what was dispatched to whom, who registered
when. `RoomHistory` reads such a record off the states before and after each step and never feeds it back.

| file | content |
|---|---|
| `ChatTypes` | users, messages, send channels |
| `RoomMachine` | the room's handlers and its connections' steps as functions; events |
| `RoomSafety` | the safety invariant: map, capacity, timer, channels |
| `RoomHistory` | the record of a run; each step summed up as its observable changes (`Moved`) |
| `RoomDelivery`, `RoomOrder` | exact delivery, dispatch order, acknowledgements |
| `RoomPresence` | what a client knows of the membership, and its convergence |
| `RoomGreeting` | the snapshot comes first and once |
| `RoomSessions`, `RoomParting` | session replay and inactivity; what departing costs a channel |
| `RoomTheorems` | one invariant for all of this, and the theorems for every run |
| `ChatRoom`, `ChatManager` | `Client`, `Room`, `CleanupChannel` and `Manager` as objects |
| `Registry` | creation, ending loops, cleanup messages and shutdown, in any interleaving |
| `IpLimiter`, `LimiterCalls` | token buckets with eviction; the same with requests taken apart |
| `ProofOfWork`, `TokenRefresh` | nonces and tokens; token continuity |
| `FileRules`, `Identifiers`, `Assets` | attachment checks and keys; codes and IDs; asset keys and URLs |

## Assumptions

* Messages, nonces and tokens carry random UUIDs; fresh ones are taken to be new. Message IDs are drawn from a counter,
  nonces and tokens are parameters that must not have been used before.
* Timers have the semantics Go has had since version 1.23: once `Stop` has returned, no stale tick is received.
* A connection is handed to the loop at most once, before its read pump starts. Handing over may fail because the loop
  is busy; then the connection is never offered, and gets an error message (event `Refusing`).
* Only the loop receives from the unregister channel, which has no buffer, so the loop's own non-blocking send to it
  while dispatching is never accepted: dispatching changes no membership. The loop's own blocking send to it, for a
  newcomer whose channel is full, hangs the loop for good (status `Hung`); the model has this state, and the theorems
  hold in it.
* The token library compares whole seconds and accepts a token through the second of its expiry; golang-jwt v3.2.2 itself
  is not part of this model.
* Strings are sequences of bytes, one `char` each.

## Where the code and its description part

* A comment in `handleBroadcast` says that a member whose channel is full or closed is scheduled to be unregistered.
  It never is, as just explained; its messages are dropped, and it stays a member.
* A departing connection's channel is not always closed: if it holds a message, the close idiom takes that message
  instead. `RoomTheorems.ChannelDiscipline` states exactly one of the two happens.
* A cleanup pass deletes a full bucket as inactive, but a request may just have found it. Then one request more than the
  burst size can pass at a single moment: `LimiterCalls.SweepCanBeSeen` is such a run, and
  `LimiterCalls.BoundHeldExactly` shows that the bound is safe exactly as long as no pass overtakes a request.
* The cleaning up of expired nonces can be noticed. A pass can overtake a `ValidateProof` call
  between its check and its consuming, and then makes it fail: `ProofOfWork.PruningCanBeSeen` is such a run,
  `ProofOfWork.NonceCleanupIsInvisible` shows that a run is free of this exactly when no pass overtakes a call, and
  `ProofOfWork.PromptProofCounts` gives what a caller can rely on.
* A key and its URL are inverse only under `Assets.Survives`. A stored key that starts with a slash does not survive, nor
  does one that is a URL under the base, which a profile update can store (`Assets.StoredUrlIsLost`); sending the
  server's own URL back then deletes the avatar (`Assets.EchoLosesAvatar`).
* The refresh window of two minutes is enough for token continuity (`TokenRefresh.WindowSuffices`);
  `TokenRefresh.TokenContinuity` gives the exact condition, a second tick no later than the second of expiry.

## Model

| member | source | states |
|---|---|---|
| RoomTheorems.PresenceConverges | internal/app/chat/room.go:163-203 | In every reachable state, for every member of a room whose loop runs and for every user ID: if the latest change of that ID was announced, and the latest event about it did not miss the member, then the member's INIT_DATA snapshot, the USER_JOINED/USER_LEFT it was sent and those still to be dispatched tell exactly whether and as whom the ID is in the room, although events older than the snapshot reach it too, and whatever was lost about other users or before |
| RoomTheorems.PresenceConvergesWholly | internal/app/chat/room.go:163-203 | A member for whom that holds of every ID has exactly the room's map of users |
| RoomTheorems.PresenceSettles | internal/app/chat/room.go:271-314 | When both channels are empty, what the member's client was written tells the same of every such ID |
| RoomTheorems.LostOnlyWhenFull | internal/app/chat/room.go:197-203 | An announcement is lost only when the broadcast channel holds 1024 messages, or with a newcomer for whose snapshot there was no room |
| RoomTheorems.SnapshotFirst | internal/app/chat/room.go:169-189 | In every reachable state a connection was sent at most one INIT_DATA, naming its own user among those online and the room's capacity, before every broadcast message; every member was sent one, unless the loop is stuck or over |
| RoomTheorems.ExactDelivery | internal/app/chat/room.go:269-314 | The broadcast messages that entered a connection's channel are exactly the non-error messages dispatched while it was a member and its channel held fewer than 256 messages, not its own user's, each once, in dispatch order; all are written or queued, save at most one that its departure discarded |
| RoomTheorems.DeliveredOrDropped | internal/app/chat/room.go:294-312 | In every run, the broadcast messages that entered a channel and those dropped at it while it held 256 messages make up, in dispatch order, what was due to the connection; no message is due twice, and none that was dropped ever entered |
| RoomTheorems.PumpWrites | internal/app/chat/client.go:121-126 | Each turn of the write pump passes on the oldest queued message, which is then gone from the channel |
| RoomTheorems.PumpDrains | internal/app/chat/client.go:121-126 | From whatever state, the write pump by itself can pass on all that is queued, each message once and in order |
| RoomTheorems.DispatchOrder | internal/app/chat/room.go:95-96 | Messages are dispatched in the order in which they entered the broadcast channel, and none twice |
| RoomTheorems.OrderAgreed | internal/app/chat/room.go:294-299 | Any two connections received the broadcast messages both have received in the same order, whatever the order of map iteration |
| RoomTheorems.AckPrecedes | internal/app/chat/client.go:184-185 | If the confirmation of a dispatched message entered a channel, it stands there before every message dispatched after that one |
| RoomTheorems.AcceptedIsAcknowledged | internal/app/chat/client.go:413-444 | A message accepted with a temporary ID while the channel holds fewer than 256 messages is confirmed under that ID, and in every continuation of the run the confirmation precedes whatever is dispatched after the message |
| RoomTheorems.AttachmentsConfined | internal/app/chat/client.go:188-232 | Since only what the handlers' checks accept is ever pushed, every ATTACHMENTS message that reaches any connection carries this room's code, one to three files under the room's own prefix with matching types, no metadata, and a description within the limit |
| RoomTheorems.ChannelDiscipline | internal/app/chat/room.go:341-350 | No send channel is closed twice, sent on by the loop while closed, or overfull; each connection the room has let go of had its channel closed or lost one queued message, never both and never neither, and nothing else does either |
| RoomTheorems.SessionsReplay | internal/app/chat/room.go:211-266 | An ID belongs to the connection last admitted for it unless that very connection was unregistered since; the unregistering of a replaced connection removes nothing |
| RoomTheorems.CapacityHolds | internal/app/chat/room.go:143-163 | However long ago the earlier test was made, a room never holds more users than its limit, and every key is the user ID of its connection |
| RoomTheorems.AdmitsWhenNotFull | internal/app/chat/room.go:380-397 | Registration admits exactly when IsFull is false in that state; the two differ exactly for the empty ID already present in a full room |
| RoomTheorems.TimerArmedWhenEmpty | internal/app/chat/room.go:133-141 | While the loop runs, the inactivity timer is armed exactly when the room is empty, also after rejections and stale unregisterings |
| RoomTheorems.TimeoutMeansEmpty | internal/app/chat/room.go:98-100 | With the loop at its select, the timer can fire if and only if the room is at least five minutes old and every state of the run that lasted into the last five minutes had no member |
| RoomTheorems.StopReaches | internal/app/chat/room.go:102-118 | Once a room has been told to stop, its loop can end whenever it stands at its select, however the run went on |
| RoomTheorems.GoodStep | internal/app/chat/room.go:82-107 | Every step of the loop or of a connection keeps the invariant from which all the theorems on runs follow |
| RoomSafety.StepKeepsSafe | internal/app/chat/room.go:82-107 | Every step keeps channels sound and open where the loop sends, keys linked to their users, and capacities |
| RoomSafety.RegisterKeeps | internal/app/chat/room.go:121-204 | So does registering, in all its branches |
| RoomSafety.UnregisterKeeps | internal/app/chat/room.go:207-267 | So does unregistering |
| RoomHistory.StepMoved | internal/app/chat/room.go:82-107 | A step changes a send channel only by appending what the step adds for that connection or by taking its oldest message, and the broadcast channel only at its two ends |
| RoomDelivery.DeliveredKept | internal/app/chat/room.go:294-299 | Each step keeps what entered a channel equal to what was dispatched for it |
| RoomDelivery.IdsKept | internal/app/chat/message.go:125-136 | No two messages pushed or waiting to be pushed share an ID, at every step |
| RoomOrder.SameOrder | internal/app/chat/room.go:294-299 | Two connections that both were given two messages were given them in the same order |
| RoomOrder.AckFirstKept | internal/app/chat/client.go:230-231 | Each step keeps confirmations ahead of whatever is dispatched after the confirmed message |
| RoomPresence.SettledAbsorbs | internal/app/chat/room.go:191-203 | Replaying queued events leaves what a snapshot says of a user as it is, when the last one about that user agrees with it |
| RoomPresence.SettledKept | internal/app/chat/room.go:197-239 | Each step keeps the last queued event about a user in agreement with the room, for every user whose latest change was announced |
| RoomPresence.ListedSnapshot | internal/app/chat/room.go:169-179 | The list of online users, in whatever order the map was ranged over, rebuilds the map |
| RoomPresence.ConvergedOnJoin | internal/app/chat/room.go:183-203 | A newcomer's snapshot, with the events still queued, tells the membership of every user whose latest change was announced |
| RoomPresence.ConvergedOnDispatch | internal/app/chat/room.go:271-314 | Dispatching moves an event from what a member has yet to be told to what it was told, and an event that reaches a member makes up for earlier ones about the same user that missed it |
| RoomGreeting.GreetedKept | internal/app/chat/room.go:183-204 | Each step keeps the snapshot the one and first of its kind, ahead of every broadcast message |
| RoomSessions.ReplaysKept | internal/app/chat/room.go:211-211 | Each step keeps the membership map equal to the replay of registrations and unregistrations |
| RoomSessions.TimerCoversKept | internal/app/chat/room.go:241-253 | Each step keeps an empty room's deadline at five minutes after it last had a member, or else after its creation |
| RoomParting.StepParts | internal/app/chat/client.go:465-469 | A step closes a channel or discards a message of it exactly when it makes the connection a departed one |
| ChatRoom.CleanupChannel.Notify | internal/app/chat/room.go:325-339 | A full or closed cleanup channel takes nothing; otherwise the code is appended |
| ChatRoom.Client.constructor | internal/app/chat/client.go:62-77 | A new client has an open, empty channel and the expiry of the token it came with |
| ChatTypes.TrySendExactly | internal/app/chat/client.go:346-352 | An open channel takes a message exactly when it holds fewer than 256; a send on a closed one is a fault |
| ChatRoom.Client.TrySend | internal/app/chat/client.go:338-353 | The message is appended unless the channel holds 256, and the result says which |
| ChatRoom.Client.DrainOrClose | internal/app/chat/client.go:465-469 | A non-empty channel loses its oldest message, an empty open one is closed, a closed one is left alone |
| ChatRoom.Client.AcceptMessage | internal/app/chat/client.go:178-185 | An accepted message gets a fresh ID, is confirmed if the client gave it a temporary one, and only then waits for the broadcast channel |
| ChatRoom.Client.HandleText | internal/app/chat/client.go:165-186 | Text over the limit is answered with an error and nothing else happens; other text is accepted |
| ChatRoom.Client.CheckAttachments | internal/app/chat/client.go:196-222 | The loop's verdict is the first problem in order, or the same attachments with all metadata cleared |
| ChatRoom.Client.HandleAttachments | internal/app/chat/client.go:188-232 | Refused attachments are answered with the error of the first problem; others are accepted |
| ChatRoom.Client.Push | internal/app/chat/client.go:185-185 | The waiting message, and nothing else, enters the broadcast channel |
| ChatRoom.Client.TakeQueued | internal/app/chat/client.go:121-126 | The write pump takes the oldest queued message out of the channel |
| ChatRoom.Client.CheckAndRefreshToken | internal/app/chat/client.go:273-311 | A token is renewed only within the window before its recorded expiry, and the record moves only if the new token entered the client's channel |
| ChatRoom.Room.constructor | internal/app/chat/room.go:59-78 | A new room is empty, open and running, with its inactivity timer armed |
| ChatRoom.Room.SendTo | internal/app/chat/client.go:391-411 | A message built for one connection enters that connection's channel and no other |
| ChatRoom.Room.Kick | internal/app/chat/client.go:446-470 | Ending a session touches the channel of that connection only |
| ChatRoom.Room.Post | internal/app/chat/room.go:197-203 | A presence event enters the broadcast channel unless that is full |
| ChatRoom.Room.OnlineUsers | internal/app/chat/room.go:169-173 | Ranging over the map in any order lists every member's user once and nobody else |
| ChatRoom.Room.RejectClient | internal/app/chat/room.go:143-150 | A full room queues an error for the newcomer and changes no membership |
| ChatRoom.Room.FinishRejecting | internal/app/chat/room.go:152-159 | Then its channel is closed up and the loop goes on |
| ChatRoom.Room.ReplaceSession | internal/app/chat/room.go:124-141 | An existing session of the ID is ended, and the timer stopped |
| ChatRoom.Room.AdmitClient | internal/app/chat/room.go:162-163 | The newcomer becomes the connection of its ID |
| ChatRoom.Room.GreetClient | internal/app/chat/room.go:183-203 | The newcomer gets its snapshot and then is announced; with a full channel it is not announced and the loop hangs |
| ChatRoom.Room.FullnessSeen | internal/app/chat/room.go:380-397 | The two capacity tests on the object are those of the machine |
| ChatRoom.Room.HandleRegister | internal/app/chat/room.go:120-204 | Registering takes the room exactly where the machine's step takes it, with a snapshot that lists the members after admission |
| ChatRoom.RegisteringIsAStep | internal/app/chat/room.go:120-204 | What the handler does is an enabled step of the machine |
| ChatRoom.TextIsAStep | internal/app/chat/client.go:173-185 | Whatever the text, what the text handler does is an enabled step of the machine, either the refusal or the acceptance |
| ChatRoom.AttachmentsAreAStep | internal/app/chat/client.go:196-231 | Whatever the attachments, what their handler does is an enabled step of the machine, with the verdict of its own checks |
| ChatRoom.Room.Leave | internal/app/chat/room.go:211-239 | A member is taken off the map, its channel closed up, its going announced |
| ChatRoom.Room.HandleUnregister | internal/app/chat/room.go:206-267 | Unregistering takes the room exactly where the machine's step takes it; a stale or unknown connection changes nothing |
| ChatRoom.Room.Distribute | internal/app/chat/room.go:294-313 | Ranging over the members in any order offers the message once to each but the sender |
| ChatRoom.Room.HandleBroadcast | internal/app/chat/room.go:269-314 | Dispatching takes the room exactly where the machine's step takes it; an error message reaches nobody |
| ChatRoom.Room.CloseAll | internal/app/chat/room.go:341-350 | Every member's channel is closed up once, in any order |
| ChatRoom.Room.CleanupOnExit | internal/app/chat/room.go:316-368 | The ending loop stops the timer, tells the manager if it can, closes up the members' channels and the broadcast channel |
| ChatRoom.Room.Stop | internal/app/chat/room.go:109-118 | The stop channel is closed, and only the first time |
| Registry.StepKeeps | internal/app/chat/manager.go:60-132 | Each step of rooms, cleanup loop and shutdown keeps the registry's invariant |
| Registry.CleanupIsNeverStale | internal/app/chat/manager.go:65-81 | Before shutdown each cleanup message on its way names a code that is still mapped to the finished room that sent it, no two name one code, and every unfinished room is mapped under its code |
| Registry.DeleteSparesRunning | internal/app/chat/manager.go:72-81 | Deleting by code alone never removes a room whose loop runs |
| Registry.FinishedRoomsAreFreed | internal/app/chat/manager.go:65-81 | Before shutdown a finished room is still mapped exactly as long as its message is on its way, or if the channel took no message of it |
| Registry.SkippedWhenFull | internal/app/chat/room.go:333-338 | The channel takes no message of a room only when it is closed or holds ten messages |
| Registry.ShutdownReachesAll | internal/app/chat/manager.go:114-126 | After shutdown every room ever created has finished or has had its stop channel closed; none is closed twice |
| Registry.LoopTerminates | internal/app/chat/manager.go:60-70 | In every continuation after the cleanup channel is closed, however the others step in, the loop's own steps are exactly as many as the work they do, its next step is possible until it is over, and once it is over every message has been consumed |
| Registry.DrainedByLoop | internal/app/chat/manager.go:65-67 | Draining the channel is what the cleanup loop's own steps do |
| Registry.DrainedFrees | internal/app/chat/manager.go:65-81 | Draining unmaps the codes of all messages on their way and no other |
| ChatManager.Manager.constructor | internal/app/chat/manager.go:40-56 | A new manager has no rooms and an open, empty cleanup channel |
| ChatManager.Manager.CreateRoom | internal/app/chat/manager.go:83-100 | A code in use is refused and nothing changes; otherwise a new empty running room is mapped under it, as in the machine's step |
| ChatManager.Manager.GetRoom | internal/app/chat/manager.go:102-112 | Looks up the room mapped under the code, which has that code, or reports that there is none |
| ChatManager.Manager.RoomReturns | internal/app/chat/room.go:316-339 | A returning loop is the machine's two steps of ending and notifying, whatever the state of the cleanup channel |
| ChatManager.Manager.DeleteNext | internal/app/chat/manager.go:65-81 | One turn of the cleanup loop takes the oldest message and unmaps the code it names, as the machine's receiving and deleting do |
| ChatManager.Manager.RunCleanupLoop | internal/app/chat/manager.go:58-70 | The loop unmaps exactly the codes of all messages there are; with the channel closed it then ends, with the channel open it waits |
| ChatManager.Manager.StopRooms | internal/app/chat/manager.go:121-123 | Every mapped room is stopped exactly once, in whatever order |
| ChatManager.Manager.Shutdown | internal/app/chat/manager.go:114-132 | Shutdown is the machine's stopping, closing, draining and ending, one after another |
| IpLimiter.AllowsExactly | internal/pkg/limiter/ip_limiter.go:106-112 | With requests in one step each: after any run of requests and evictions, a request is allowed if and only if letting it through keeps every window that ends now within burst plus rate times length |
| IpLimiter.WindowBound | internal/pkg/limiter/ip_limiter.go:55-91 | With requests in one step each: in every window of every run at most burst plus rate times length requests of an address are allowed, across evictions |
| IpLimiter.EvictionIsInvisible | internal/pkg/limiter/ip_limiter.go:80-90 | With requests in one step each: the limiter allows exactly the requests that one which never deletes allows |
| LimiterCalls.CallsAreRequests | internal/pkg/limiter/ip_limiter.go:55-112 | With requests taken apart, in every ordered run in which no pass deletes a bucket that a request has found and not yet asked: what is allowed is what a limiter that never deletes allows, asked in the same order |
| LimiterCalls.BoundedUnlessOvertaken | internal/pkg/limiter/ip_limiter.go:55-112 | And every window of such a run is within its bound |
| LimiterCalls.OvertakenBreaks | internal/pkg/limiter/ip_limiter.go:80-112 | From any state in which a pass overtakes a request, that request and as many more as the burst size can be allowed at the same moment |
| LimiterCalls.BoundHeldExactly | internal/pkg/limiter/ip_limiter.go:55-112 | For every ordered run: at each moment of it every continuation by requests keeps every window within its bound, if and only if no pass of the run overtakes a request |
| LimiterCalls.SweepCanBeSeen | internal/pkg/limiter/ip_limiter.go:83-88 | A run in which two requests pass where the bound is one |
| IpLimiter.LevelAfter | internal/pkg/limiter/ip_limiter.go:82-87 | Deleting a full bucket leaves every address's level as it is |
| IpLimiter.RateLimiter.Allow | internal/pkg/limiter/ip_limiter.go:108-108 | A request spends one token if one is there, and otherwise leaves the bucket alone |
| IpLimiter.IPRateLimiter.GetLimiter | internal/pkg/limiter/ip_limiter.go:52-71 | The address's own bucket, or a new full one that is then stored |
| IpLimiter.IPRateLimiter.Serve | internal/pkg/limiter/ip_limiter.go:93-115 | The middleware's decision is the machine's, under a stand-in name for an empty address |
| IpLimiter.SweptExactly | internal/pkg/limiter/ip_limiter.go:83-88 | A pass deletes an address's bucket exactly if the bucket is full when the pass looks at it |
| IpLimiter.IPRateLimiter.CleanUpVisitors | internal/pkg/limiter/ip_limiter.go:80-90 | A cleanup pass visits every address once, in any order and with a clock reading for each, and deletes exactly those whose bucket is full then |
| ProofOfWork.NoncesAreConserved | internal/pkg/pow/pow.go:65-108 | Under every interleaving of calls, generation and cleanup, each nonce yields at most one token, and the nonces generated are the live ones, the tokens issued and those cleaned up, added together |
| ProofOfWork.TokensAreEarned | internal/pkg/pow/pow.go:78-108 | For every token of every run, the run holds a check of its nonce by a proof that meets the difficulty, made no later than five minutes after the nonce was generated |
| ProofOfWork.ChecksPassExactly | internal/pkg/pow/pow.go:79-94 | Over whole runs, a check passes exactly for a proof that meets the difficulty, made within five minutes of the nonce's generation, of a nonce not used up |
| ProofOfWork.TokensLastExactly | internal/pkg/pow/pow.go:105-131 | Over whole runs, a token is accepted at any later moment exactly until thirty seconds after it was issued |
| ProofOfWork.OnlyIssuedAccepted | internal/pkg/pow/pow.go:122-130 | No token is ever accepted that was not issued |
| ProofOfWork.TokenCleanupIsInvisible | internal/pkg/pow/pow.go:112-131 | Token checks answer at every moment as if tokens were never pruned |
| ProofOfWork.PruningSeenByConsume | internal/pkg/pow/pow.go:96-101 | One cleanup pass changes whether a call succeeds exactly when it prunes the nonce the call has checked and not yet consumed |
| ProofOfWork.PruningCanBeSeen | internal/pkg/pow/pow.go:143-147 | A run in which that happens |
| ProofOfWork.NonceCleanupIsInvisible | internal/pkg/pow/pow.go:139-147 | Over whole runs, every call fares at every moment as without the pruning of nonces if and only if no pass overtakes a call; and then the same tokens are issued for the same nonces |
| ProofOfWork.ChecksNeverNotice | internal/pkg/pow/pow.go:79-94 | In every run, overtaken calls or not, checking a proof answers as if nonces were never pruned |
| ProofOfWork.PromptProofCounts | internal/pkg/pow/pow.go:63-108 | In every run, a checked call that consumes within five minutes of its nonce's generation fails only if the nonce has already become a token |
| ProofOfWork.PoWManager.GenerateNonce | internal/pkg/pow/pow.go:63-72 | The new nonce is stored with its expiry |
| ProofOfWork.PoWManager.CheckNonce | internal/pkg/pow/pow.go:79-94 | The check passes exactly for a stored, unexpired nonce and a hash that starts with as many zeros as the difficulty |
| ProofOfWork.PoWManager.ConsumeNonce | internal/pkg/pow/pow.go:96-107 | A nonce still there is traded for a token; one that is gone yields none |
| ProofOfWork.PoWManager.ValidateProof | internal/pkg/pow/pow.go:74-108 | Uninterrupted, a stored, unexpired nonce with a hash of enough zeros, and nothing else, gets a token; then the nonce is gone and the token stored for thirty seconds; otherwise nothing changes |
| ProofOfWork.PoWManager.CheckProofToken | internal/pkg/pow/pow.go:110-131 | The header's token counts, or else the query's; it must be stored and unexpired |
| ProofOfWork.PoWManager.CleanupExpiredEntries | internal/pkg/pow/pow.go:139-154 | A pass keeps exactly the unexpired entries of both maps |
| TokenRefresh.TokenContinuity | internal/app/chat/client.go:273-311 | If no two refresh attempts in a row fail, the latest token is unexpired at every tick, counting the truncation to whole seconds, exactly if the second tick of the connection falls in or before the second in which its first token expires |
| TokenRefresh.WindowSuffices | internal/app/chat/client.go:48-49 | A token with the refresh window left at the start is enough for that |
| TokenRefresh.DueInWindow | internal/app/chat/client.go:275-275 | An attempt is made exactly within two minutes of the recorded expiry |
| TokenRefresh.RenewalRecorded | internal/app/chat/client.go:292-309 | A renewal is recorded as lasting fifteen minutes, and the token itself ends at the last whole second of them |
| TokenRefresh.RenewedLasts | internal/app/chat/client.go:273-311 | A renewed token is renewed again at none of the ticks of the next thirteen minutes |
| FileRules.TypeCheckIsExact | internal/app/chat/attachment.go:61-84 | The check accepts exactly the files whose name ends, in any letter case, with an image extension that goes with the MIME type |
| FileRules.LowerIsPlain | internal/app/chat/attachment.go:63-69 | For ASCII, letter case is all that lower-casing removes |
| FileRules.NoProblemMeans | internal/app/chat/client.go:208-222 | The loop finds no problem exactly when every file lies under the room's prefix and has a matching type |
| FileRules.TextRefusedExactly | internal/app/chat/client.go:173-176 | Text is refused exactly when it is over the limit, with the error that says so, and otherwise accepted as it is |
| FileRules.RefusalsExactly | internal/app/chat/client.go:196-219 | Which refusal is sent, in the order in which the reasons are tried: the count, the description, and then of the first file with a problem its key before its type |
| FileRules.JudgedIsConfined | internal/app/chat/client.go:196-222 | Attachments are accepted exactly when, metadata cleared, they may be broadcast in the room, and nothing but metadata changes |
| FileRules.JudgedMeansConfined | internal/app/chat/client.go:165-232 | A payload can come out of the handlers' checks in a room if and only if it may be broadcast there |
| FileRules.PresignedForOneRoom | internal/handler/file_handler.go:47-59 | A file with a presigned key is accepted in its own room and in no other |
| FileRules.PresignedExactly | internal/handler/file_handler.go:47-55 | An upload is presigned exactly for a size above zero and up to five megabytes and a matching type; a size above that is refused as too large, all else as invalid |
| FileRules.PresignedApart | internal/handler/file_handler.go:57-59 | Different uploads get different keys |
| FileRules.PresignedKeyMatches | internal/handler/file_handler.go:57-59 | A presigned key carries the extension of its file, and still matches the type |
| Identifiers.IsValidRoomCode | internal/pkg/randx/randx.go:58-72 | Exactly the six-character strings of the alphabet are valid |
| Identifiers.IsValidGuestID | internal/pkg/randx/randx.go:74-93 | Exactly the prefix followed by six characters of the alphabet is valid |
| Identifiers.RoomCode | internal/pkg/randx/randx.go:34-51 | Every code generated is valid and spells the numbers drawn |
| Identifiers.CodesMatchDraws | internal/pkg/randx/randx.go:36-51 | Every valid code comes from exactly one draw |
| Identifiers.NobodyIsSystem | internal/handler/room_handler.go:90-128 | No ID the server lets into a room is the system user's |
| Identifiers.PrefixNamesRoom | internal/handler/file_handler.go:154-159 | A storage key starts with the prefix of its own room and of no other |
| Assets.AssetRoundTrip | internal/handler/deps.go:20-51 | A key is taken back from its own URL exactly when it survives: under an http base, every key that is no URL and starts with no slash |
| Assets.InputTaken | internal/handler/deps.go:35-51 | What is taken for a key: an input that is no URL as it stands, the rest of a URL under the base, and nothing else |
| Assets.AcceptedUrls | internal/handler/deps.go:20-51 | A URL is accepted exactly when it is the base followed by some path, and the accepted ones whose path starts with no slash are exactly the URLs the server makes of keys |
| Assets.EchoLosesAvatar | internal/handler/user_handler.go:40-72 | For every base and stored key, sending back the server's own avatar URL deletes the avatar exactly when the key is a URL properly under the base, or under an http base starts with a slash and is more than slashes, or under any other base does not survive |
| Assets.StoredUrlIsLost | internal/handler/user_handler.go:66-72 | An input that stores such a URL as a key, so that echoing it deletes the avatar |

## Left out

- WebSocket, HTTP, CORS, routing, logging, object storage and the database: a connection is its user, its channel and the message it waits to push.
- JSON: messages are datatypes and marshalling never fails; malformed input, which the server ignores, has no event.
- Signing, hashing and random sources: a signed token, a digest and a draw are inputs; a failed signing is an input too, a failed draw is not.
- Timestamps of messages and the texts of errors; error codes are kept.
- The write pump's network errors: a connection whose pump has ended is one whose `Writing` events no longer come.
- RoomTheorems.ChannelDiscipline: is about the loop's sends; a connection's own goroutines may send on its channel after the loop has closed it, which panics and ends the process. `Accepting` with a temporary ID, `Refusing` and `Refreshing` are enabled only while the channel is open.
- The room after its loop has returned: its register and unregister channels are closed up then, and sends on them panic. Messages that connections push before the broadcast channel is closed stay in it.
- Liveness: a disconnected client's unregister notification is non-blocking and may be lost, so that it may stay a member; only the loop's part in it is an event.
- RoomTheorems.PresenceConverges: says nothing about an ID whose latest event was dropped at a full channel, once the loop has returned or hangs, or for a member with the ID of the system user, which Identifiers.NobodyIsSystem rules out.
- The room between two statements of a handler: a newcomer's own messages may in the code be pushed before its announcement, or another connection's step come between two offers of one dispatch; in the model a handler is one step.
- Room.Run: has no method of its own, because which ready channel the select takes is the machine's choice of the next event.
- ChatRoom.Room.HandleRegister: covers a rejection up to the queued error; FinishRejecting is the rest, because the newcomer's write pump may step in between.
- Room.GetInitDataPayload and RegisterClient: the first is not called by the modelled code; the second's two outcomes are the events `Registering` and `Refusing`.
- CreateRoom after Shutdown, and a second Shutdown: both panic.
- Rooms whose cleanup notification was skipped at a full channel stay mapped although finished; Registry.CleanupIsNeverStale allows for them.
- IpLimiter.IPRateLimiter.Serve: is a request with nothing between finding the bucket and asking it, and has real tokens where the library rounds to float64 and nanoseconds; a negative rate is excluded from the theorems.
- ProofOfWork.PoWManager.ValidateProof: is the two halves with nothing between them; interleaved calls are the machine's `Check` and `Consume`.
- TokenRefresh.TokenContinuity: ticks come exactly every ping period, and signing and bookkeeping take no time.
- FileRules.TypeCheckIsExact: lower-cases non-ASCII letters only where the result is ASCII, which is all the tables can tell apart.
- Nicknames, configuration, authentication handlers and response helpers: branches without state.
