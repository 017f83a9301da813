# Gopherbot: brain cache, brain loop and runtime algorithms in Dafny

This project models the stateful core of the Gopherbot robot and proves what its
parts promise each other.

* **The write-back brain cache and its instance lock** (`BrainModel.dfy`,
  `BrainCache.dfy`, `BrainProtocol.dfy`, `BrainTheorems.dfy`, `BrainLimits.dfy`,
  `BrainLatePush.dfy`, `BrainFailedStart.dfy`).
  `BrainModel` gives the values (control record, metadata, payloads, outbox,
  remote records, lock record) and what each locked operation does to them.
  `BrainCache` is the cache as a class, method by method, with loops for
  hydration, sorting and flushing; every method is tied to the value-level
  operations. `BrainProtocol` lets any number of robots, each with its own cache
  directory, share one remote: starts (open and acquire, granted, refused, or failing
  at the lock write), stores, deletes, picks of the next outbox entry, background syncs
  and flushes that may fail, releases that may fail, the flush after a release, and
  crashes, in any order. `BrainTheorems` states what every run keeps. Three steps of the
  code can break that: a flush step out of order (`BrainLimits`), a push by a robot that
  has been replaced (`BrainLatePush`), and a failed lock write of a copy that has failed
  too often (`BrainFailedStart`). Each of these modules has the exact condition, and
  shows that the breaking case is reachable.
* **The brain event loop** (`BrainLoop.dfy`): leases with random tokens, waiters
  and ticks, as a function per key with a history, and as a class over all keys.
* **The kill / API-call handshake** (`KillHandshake.dfy`): any number of threads
  interleaved step by step.
* **Reply waiters** (`ReplyWaiters.dfy`): prompts, replies, timeouts, interrupts and
  shutdown over shared waiter lists and one-slot channels.
* **Algorithms that refine a simple form**: banded edit distance, help-token
  matching and greedy literal matching (`HelpMatching.dfy`), the circular log
  (`LogRing.dfy`), the pruned dedupe table (`QueueDedupe.dfy`), joined memory keys
  (`MemoryKeys.dfy`) and configuration layering (`ConfigMerge.dfy`).

## What the proofs turned up

* `Flush` picks an entry, releases the mutex and then syncs the key's *current*
  entry. A store to that key in the gap can make it push the newest local version
  past older pending ones. `BrainLimits.FlushStepSafeExactly` says that exactly then a
  later robot can start on a stale copy, and `BrainLimits.RacyFlushAdmitsStaleStart`
  gives a run that gets there. All other flush steps of replaced entries are events
  of the runs, and the background sync compares versions and is safe.
* A release with writes still pending is safe for the lock and for the caches, and so
  is the flush in `brainQuit` that follows it, until another robot takes over. That one
  does not see the writes (`BrainTheorems.TakeoverReadsExactly`). A push of them then
  puts the remote at odds with it, may take an older version back, and bars it from
  starting again if its checkpoint or last cloud write has the key
  (`BrainLatePush.LatePushExactly`).
* A start whose lock write fails has used up a version, and the next one passes again
  (`BrainFailedStart.FailedStartRestarts`). A copy that fails often enough knows a newer
  version than the next holder's first writes, so that the check of the released database
  version no longer sees that it is stale (`BrainFailedStart.FailedStartSafeExactly`,
  `BrainFailedStart.FailuresLeft`, `BrainFailedStart.FailedStartsAdmitStaleStart`).
* A failed start of the last owner has replaced its lock ID, so that a lock it still
  holds can no longer be reclaimed (`BrainTheorems.OwnRestart`, `BrainTheorems.EventKeepsId`).
* The recorded database version is one below the version of the releasing lock
  write, so a copy that starts next writes a different lock record under the same
  version (`BrainTheorems.LockVersionRepeatsExactly`).
* When a prompt other than the head of its list times out first, the head waits
  for a reply that never comes (`ReplyWaiters.TimeoutAbandonsExactly`,
  `ReplyWaiters.MixedTimeoutsStrandTheHead`).
* One ephemeral memory with `{|}` in a field makes the whole restore fail
  (`MemoryKeys.RoundTrip`).
* A word of three or more letters that ends in `e` is not equivalent to its plural:
  `names` becomes `nam` (`HelpTokens.PluralsExactly`). From four letters on the edit
  distance makes up for it (`HelpTokens.PluralMatchesExactly`).
* `boundedLevenshtein` accepts equal strings under a negative bound
  (`EditDistance.AcceptsExactly`). No caller reaches this: the bound passed is 1, and
  equal tokens are sorted out before.
* `time.Now()` is read before the dedupe lock is taken, so calls can come with
  decreasing times, and the table can forget a trigger too early
  (`QueueDedupe.AgreesOnEveryKeyExactly`, `QueueDedupe.BackwardTimeForgets`).
* A map with both `X` and `AppendX` can merge differently depending on map order
  (`ConfigMerge.OrderMattersExactly`, `ConfigMerge.OrderMatters`, `ConfigMerge.NestedAppend`).

Random identifiers (cache nonces, lock IDs, lock tokens) are taken to be fresh
when drawn, and checksums to be collision-free.

## Model

| member | source | states |
|---|---|---|
| BrainTheorems.OneBrain | bot/brain_cache.go:352-784 | through every run of many robots with crashes, handovers and failed pushes, starts and releases, whoever runs reads one plain map with all stores and deletes applied in order, as long as no robot takes over from one that still had data to push, and so does the remote whenever the last owner has no data pending |
| BrainTheorems.TakeoverReadsExactly | bot/brain_lock.go:51-89 | a robot taking over holds every data record of the last owner if and only if that one had no data pending |
| BrainTheorems.ReleaseAgreesExactly | bot/bot_process.go:524-531 | right after a release remote and cache agree on every key if and only if nothing was pending and the lock write succeeded |
| BrainTheorems.CleanReleasesSuffice | bot/bot_process.go:524-531 | when every release comes after a complete flush, no takeover of the run loses a write |
| BrainTheorems.NoStaleStart | bot/brain_lock.go:51-89 | in every reachable world a successful start leaves every key outside the starter's outbox with the same version, checksum, payload and deleted flag locally and remotely |
| BrainTheorems.StarterIsUpToDate | bot/brain_cache.go:230-234 | the agreement on data keys held before the lock write, and only a returning owner has data pending |
| BrainTheorems.MutualExclusion | bot/brain_lock.go:180-187 | at most one robot runs, and the remote lock record is held with its lock ID and nonce hash |
| BrainTheorems.OwnRestart | bot/brain_lock.go:57-83 | with no other holder since, the same cache passes the checkpoint and cloud-write checks, and starts if and only if the lock is released or it still has its lock ID |
| BrainTheorems.EventKeepsId | bot/brain_lock.go:120-126 | no event but a failed start of the last owner itself takes the lock ID from it |
| BrainTheorems.StartSucceedsExactly | bot/brain_lock.go:51-89 | if and only if characterisation of the starts that pass every check: the last owner's own, unless the lock is held under an ID it has lost, or, under a released lock, a new directory or a complete copy that knows at least the released database version and, if it watches the lock, has this lock |
| BrainTheorems.FirstStartSucceedsExactly | bot/brain_lock.go:51-89 | before any robot has run, a start passes every check if and only if every remote record can be copied, the directory is new or a whole copy, and the lock record is missing, deleted, or readable and released at a version the remote still knows; an unreadable one refuses everyone |
| BrainTheorems.LockVersionRepeatsExactly | bot/brain_lock.go:128 | a start writes a lock record that differs from the last one and is not older; its version is the same if and only if the starter is an old copy at exactly the released database version |
| BrainTheorems.CheckpointTracksRemote | bot/brain_cache.go:752-758 | the owner's checkpoint names the newest remote record with its version and checksum, and its last cloud write is still in place |
| BrainTheorems.LastCloudWriteFollowsData | bot/brain_cache.go:740-751 | the last-cloud-write record moves exactly when a data record of the remote changes, and names that record |
| BrainTheorems.OutboxAgreement | bot/brain_cache.go:352-387 | a key is pending at its metadata version, above the remote's, or remote and cache agree on it |
| BrainTheorems.EverythingCanBePushed | bot/brain_cache.go:541-578 | from every reachable world, a robot that runs, or has released the lock and still flushes, can push everything it has pending; then remote and cache agree on every key, and a release that was pending is in place |
| BrainTheorems.ReservedVersionsAscend | bot/brain_cache.go:616-625 | a write takes a version above all in cache and remote, never taken before |
| BrainTheorems.RemoteNeverDecreases | bot/brain_cache.go:717-732 | over any run no remote key is lost, no version decreases, and data changes only with a greater version |
| BrainTheorems.DeletedDataIsGone | bot/brain_cache.go:717-732 | over any run, a remote whose tombstones are empty stays so: no pushed deletion leaves a payload behind |
| BrainTheorems.EventSimulates | bot/brain_cache.go:352-387 | one event of any robot acts on the shared contents as on a plain map, and start, sync, flush, release and exit leave them alone, unless a robot takes over from one with data to push |
| BrainProtocol.EventKeepsInv | bot/brain_cache.go:684-771 | every event keeps the owner sound and every other cache up to date or sure to be refused, with flushes of replaced entries, failed releases, the flush after a release and failed starts included |
| BrainProtocol.OutsiderStarts | bot/brain_lock.go:189-195 | a start by a cache that is not the owner passes exactly when it is a copy of a released brain at the database version or past it, and that copy is up to date |
| BrainProtocol.LockWriteKeepsOutsider | bot/brain_lock.go:120-143 | once a lock is written under a fresh ID, every other cache is refused from then on or up to date, if none knew more than the lock's version |
| BrainProtocol.HydratedWhileHeld | bot/brain_cache.go:238-325 | a copy hydrated while the lock is held is refused and will be recognised as stale if the owner writes on |
| BrainProtocol.PushKeepsPendingAbove | bot/brain_cache.go:773-826 | a push keeps the remote below the newest local version while anything is pending if and only if it does not push that version past another entry |
| BrainProtocol.SyncIsPushOfNext | bot/brain_cache.go:646-671 | a sync of an entry picked earlier pushes nothing or the entry that is lowest now |
| BrainProtocol.ReleaseKeepsOwner | bot/brain_lock.go:278-288 | a release, with or without pending entries, records the database version and leaves the cache able to start again |
| BrainProtocol.FailedReleaseKeepsOwner | bot/brain_lock.go:278-288 | a release whose lock write fails leaves the released record pending as the newest version of all, and the owner sound |
| BrainProtocol.LatePushOfLock | bot/brain.go:259-271 | the last flush then pushes that record and so releases the lock at the right database version |
| BrainProtocol.FailedStartKeepsInv | bot/brain_lock.go:84-87 | a start that fails at its lock write, by the last owner, a new directory or a copy with room to fail, before or after the first acquisition, keeps the invariant |
| BrainLimits.FlushStepSafeExactly | bot/brain_cache.go:541-578 | in every reachable world, a flush step leaves every later start of every continuation up to date if and only if it does not push the newest local version while something else is pending |
| BrainLimits.RacyFlushAdmitsStaleStart | bot/brain_cache.go:552-564 | a run from an initial world in which a store between pick and sync of a flush makes the flush step such an unsafe one |
| BrainLatePush.LatePushExactly | bot/bot_process.go:524-532 | in every reachable world, a push of data by another robot than the last owner leaves the owner up to date if and only if it has a write of its own pending for the key, leaves its next start passing if and only if neither its checkpoint nor its last cloud write names the key, and keeps the remote's versions from falling if and only if the record it replaces was older |
| BrainLatePush.LatePushHappens | bot/bot_process.go:524-532 | from every reachable world in which a robot runs with data pending, some run leads to such a push that puts a new owner at odds with the remote, and some run to one that leaves it up to date but bars it from starting |
| BrainLatePush.OwnLatePush | bot/brain.go:259-271 | a push by the last owner itself leaves it up to date |
| BrainFailedStart.FailedStartSafeExactly | bot/brain_lock.go:84-87 | in every reachable world, a start that passes every check and fails to write the lock leaves every later start of every continuation up to date if and only if the robot owned the lock last, or the last owner's shutdown has nothing more to push and the version used up is not above the one with which any other robot could take the lock, or the cache watches the lock |
| BrainFailedStart.FailuresLeft | bot/brain_lock.go:189-195 | for a copy of a released brain that is: it knows at most one version past the released one, and no other such copy knows less |
| BrainFailedStart.FailedStartsAdmitStaleStart | bot/brain_cache.go:616-625 | a reachable world in which a copy has failed until its next failure makes a stale start possible |
| BrainFailedStart.FailUntilUnsafe | bot/brain_cache.go:616-625 | every copy that a released lock lets in and that does not watch the lock gets there by failing again and again |
| BrainFailedStart.FailedStartRestarts | bot/brain_lock.go:120-136 | after a failed lock write the same start passes again if and only if it is not that of the last owner under a lock still held |
| BrainModel.Newest | bot/brain_cache.go:268-273 | the record last in version-then-key order exists and is the one every other precedes |
| BrainModel.NewestUnique | bot/brain_cache.go:268-273 | there is only one such record |
| BrainModel.NewestExactly | bot/brain_cache.go:268-273 | it is the one with the greatest version and, among those of that version, the alphabetically last key |
| BrainModel.CloudWriteDetects | bot/brain_cache.go:922-933 | after a push, the check of the last cloud write passes on any remote if and only if that remote has the pushed record: format, version, checksum and deleted flag, and so the payload |
| BrainModel.CheckpointDetects | bot/brain_cache.go:230-234 | the checkpoint check passes if and only if a record of the pushed format, version and checksum is there |
| BrainModel.LockAllowsExactly | bot/brain_lock.go:51-83 | for any cache and remote, the lock check passes if and only if there is no lock record, or a readable one that was released at a version the cache knows, or one not released (an empty state included) under its own lock ID and nonce |
| KeyOrder.LeqExactly | bot/brain_cache.go:509 | the key order is alphabetical: a key comes first if and only if it is a prefix or has the smaller character at the first difference |
| BrainModel.LockWriteShape | bot/brain_lock.go:120-143 | a lock write reserves the next version, records the version before it, moves the checkpoint to the lock and leaves the rest of the outbox alone |
| BrainModel.HydratedWellFormed | bot/brain_cache.go:238-325 | a hydrated directory is well-formed: versions below the counter, payloads matching checksums, nothing pending |
| VersionSort.SortKeys | bot/brain_cache.go:796-826 | every key once, ordered by version and then key |
| BrainCache.CachedBrain.Retrieve | bot/brain_cache.go:470-486 | the live payload of a valid key, not-found for a missing or deleted one, an error for an invalid key |
| BrainCache.WordCharactersExactly | bot/brain.go:273-274 | which characters a key may have besides colons and dashes |
| BrainCache.JoinedKeyExactly | bot/brain.go:273-274 | parts joined by a separator are a key if and only if the parts are and the separator has only such characters |
| BrainCache.CachedBrain.List | bot/brain_cache.go:488-511 | exactly the live keys, each once, in alphabetical order |
| BrainCache.CachedBrain.ReserveVersion | bot/brain_cache.go:616-625 | hands out the version after the latest one, which is the latest from then on |
| BrainCache.CachedBrain.Store | bot/brain_cache.go:352-387 | payload, metadata and outbox under a fresh version; the lock key is synced at once; refused when stopped |
| BrainCache.CachedBrain.Delete | bot/brain_cache.go:513-539 | tombstone under a fresh version, queued like a store |
| BrainCache.CachedBrain.NextOutboxEntry | bot/brain_cache.go:773-779 | a pending entry with the lowest version, or none exactly when nothing is pending |
| BrainCache.CachedBrain.SyncOutboxEntry | bot/brain_cache.go:684-771 | pushes the entry unless it was replaced, vanished or the write fails, then moves last cloud write and checkpoint |
| BrainCache.CachedBrain.SyncKeyNow | bot/brain_cache.go:673-682 | syncs whatever is pending for the key now |
| BrainCache.CachedBrain.Flush | bot/brain_cache.go:541-578 | terminates with an empty outbox under finitely many failed writes, the remote holding every pending record, and keeps a sound owner sound |
| BrainCache.CachedBrain.Shutdown | bot/brain_cache.go:580-599 | flushes everything, then refuses stores |
| BrainCache.CachedBrain.VerifyRemoteRecord | bot/brain_cache.go:935-968 | true exactly when the remote has a v3 record with this version, checksum and, when asked, deleted flag |
| BrainCache.CachedBrain.HydrateFromRemote | bot/brain_cache.go:238-325 | copies the whole remote, counter above every version and checkpoint at the newest record; fails exactly on an unusable record and then stays incomplete |
| BrainCache.CachedBrain.CopyRecord | bot/brain_cache.go:274-320 | one record with its payload, counter and checkpoint, or a checksum mismatch |
| BrainCache.CachedBrain.OpenRemote | bot/brain_cache.go:213-236 | hydrates a new directory, otherwise opens exactly when complete and the checkpoint holds |
| BrainCache.CachedBrain.VerifyLastCloudWrite | bot/brain_cache.go:922-933 | true exactly when no write is recorded or the remote still holds it |
| BrainCache.CachedBrain.ReadBrainLockForStartup | bot/brain_lock.go:145-161 | the lock in the remote, none when missing or deleted, an error when unreadable |
| BrainCache.CachedBrain.WriteBrainLock | bot/brain_lock.go:120-143 | a held lock under a new ID or a released one under the current ID, stored and synced at once |
| BrainCache.CachedBrain.AcquireBrainLock | bot/brain_lock.go:51-89 | fails without effect exactly when a check forbids it; on success replays the outbox and makes a ready cache a sound owner |
| BrainCache.CachedBrain.ReleaseBrainLock | bot/brain_lock.go:275-288 | writes the released lock with the database version; a sound owner stays one |
| BrainCache.RemoteStore.Delete | brains/dynamodb/dynamobrain.go:294-298 | a delete stores a tombstone that is read back |
| BrainLoopTheorems.LostUpdateFreedom | bot/brain.go:190-206 | every stored datum used the token of the latest grant, the only one with that token, nothing was granted or stored since, and the grant read the value being replaced |
| BrainLoopTheorems.TokenStoresOnce | bot/brain.go:190-206 | a token stores at most once |
| BrainLoopTheorems.ProviderHoldsLastStored | bot/brain.go:190-206 | the provider holds what the last accepted update stored |
| BrainLoopTheorems.FirstComeFirstServed | bot/brain.go:139-175 | arrivals are exactly the answers in order followed by the waiters; an available key has no waiters |
| BrainLoopTheorems.LeaseHolds | bot/brain.go:243-253 | a holder keeps its token until its own checkin or update, or the second tick |
| BrainLoopTheorems.GrantOpensLease | bot/brain.go:93-100 | every grant starts such a lease with its own token and the current value |
| BrainLoopTheorems.BoundedWaiting | bot/brain.go:243-253 | position p is reached within 2p+2 ticks, whatever else happens |
| BrainLoopTheorems.WaiterIsAnswered | bot/brain.go:243-253 | the very request at position p is answered, at its place in the order, within 2p+2 ticks |
| BrainLoopTheorems.CheckinHandsOver | bot/brain.go:175-189 | in every reachable state, a checkin with the current token answers exactly the first waiter, or frees the key when there is none; with another token it changes nothing |
| BrainLoopTheorems.UpdateHandsOver | bot/brain.go:190-206 | an update with the current token stores, if the provider can, and then hands over the same way; with another token it changes nothing and is told that the datum is not checked out or that its lock has expired |
| BrainLoopTheorems.CheckoutAnswered | bot/brain.go:139-174 | a read-only request gets the last datum stored and changes nothing; a read-write one is answered at once with that datum and a lease when the key is open, and becomes the last waiter otherwise |
| BrainLoopTheorems.TwoTicksOpen | bot/brain.go:243-253 | two ticks open a key nobody waits for |
| BrainLoopTheorems.SpentTokenStoresNothing | bot/brain.go:175-206 | in no continuation is anything stored with a token that has been checked in or used for an update |
| BrainLoopTheorems.OvertakenTokenStoresNothing | bot/brain.go:190-206 | nor with a token after a later grant of the key |
| BrainLoop.BrainLoop.GetDatum | bot/brain.go:572-635 | a token only for a successful read-write read, and the provider's value |
| BrainLoop.BrainLoop.ReplyToWaiter | bot/brain.go:93-100 | the first waiter gets the key, and no other key is touched |
| BrainLoop.BrainLoop.Checkout | bot/brain.go:139-175 | the checkout case of the loop, on this key alone |
| BrainLoop.BrainLoop.Checkin | bot/brain.go:175-189 | the checkin case of the loop, on this key alone |
| BrainLoop.BrainLoop.Update | bot/brain.go:190-206 | the update case of the loop, on this key alone |
| BrainLoop.BrainLoop.Tick | bot/brain.go:243-253 | one tick advances every key once, in whatever order they are visited |
| KillHandshake.NoKillDuringCall | bot/external_api_serialization.go:63-85 | in every interleaving no process is killed while a serialized API call is in progress |
| KillHandshake.FlagsBoundedByRequests | bot/external_api_serialization.go:87-131 | pending, ready and in-flight never outnumber the undecided requests, and kills never outnumber requests |
| KillHandshake.NothingLeftToRefuse | bot/external_api_serialization.go:63-77 | once every request has been decided no flag is left and the next call is let in |
| KillHandshake.RequestSeesKill | bot/external_api_serialization.go:87-114 | a request returns only after a kill was published or carried out since it was made |
| KillHandshake.RequestGetsKillOutcome | bot/external_api_serialization.go:87-131 | in every interleaving, the result a request is handed is the outcome of a kill whose result was published after the request was made, and of the last kill before that |
| KillHandshake.ReadyResultIsLastKill | bot/external_api_serialization.go:127-130 | whenever a result is ready it is the one published last, the outcome of the last kill before that, and no request was made since |
| KillHandshake.KillIsLogged | bot/external_api_serialization.go:106-126 | the log those two speak of gains a kill, with its outcome, exactly at the steps that kill |
| KillHandshake.CallLetInExactly | bot/external_api_serialization.go:63-77 | a call is let in if and only if no kill is pending; a refused one goes on to carry it out |
| KillHandshake.CallEndServesKill | bot/external_api_serialization.go:116-131 | a kill pending while a call is in progress is carried out and its result published within four steps of the caller, whatever others do |
| KillHandshake.NoDeadlock | bot/external_api_serialization.go:63-131 | from every reachable state every thread can get back to idle: no call and no request is stuck |
| KillHandshake.Worker.RequestKill | bot/external_api_serialization.go:91-94 | the first section of a request is the asking step of its thread and keeps the invariant |
| KillHandshake.Worker.DecideKill | bot/external_api_serialization.go:99-112 | the deciding step: the report is the one logged, the thread must kill exactly when told so, and whoever need not kill has a kill behind its request |
| KillHandshake.Worker.TakePending | bot/external_api_serialization.go:116-124 | the clearing step: the thread goes on to kill exactly when the flag was taken |
| KillHandshake.Worker.PublishResult | bot/external_api_serialization.go:127-130 | the publishing step of the thread that killed |
| KillHandshake.Worker.ReadPending | bot/external_api_serialization.go:63-77 | the checking step of a call: it is let in exactly when no kill is pending |
| ReplyWaiters.NoSendBlocks | bot/replyprompt.go:386-449 | when a reply is to be sent, the waiter's one-slot channel is empty |
| ReplyWaiters.AnsweredOnce | bot/replyprompt.go:89-124 | a waiter is never sent a second reply |
| ReplyWaiters.OnlyHeadGetsText | bot/dispatch.go:300-326 | the user's text reaches only the waiter that headed the list it answered |
| ReplyWaiters.RepliesExactly | bot/replyprompt.go:89-124 | in every reachable state, a waiter has been sent a reply if and only if a message, a timeout or an interrupt in the history owes it exactly that one |
| ReplyWaiters.TextReachesHead | bot/dispatch.go:300-326 | every text taken for a list has been sent to its head, and a retry to everybody else in it |
| ReplyWaiters.MessageComesThrough | bot/dispatch.go:300-326 | from every reachable state, a message to a list can make its head return with what the user wrote and any other waiter with a retry |
| ReplyWaiters.MessageAnswers | bot/dispatch.go:300-326 | a message takes its list away and sends to everybody in it and to nobody else |
| ReplyWaiters.PromptJoins | bot/replyprompt.go:386-414 | a waiter is admitted if and only if there is no shutdown and there is a list or its prompt goes out; it is then last in the list, and the user is prompted exactly when it is also first |
| ReplyWaiters.TimeoutTakesList | bot/replyprompt.go:417-434 | a timeout that finds a list takes it away, returns, and sends a retry to everybody in it but the head |
| ReplyWaiters.InterruptReachesTask | bot/replyprompt.go:107-119 | every interrupt has sent `Interrupted` to the task's own waiters and a retry to their neighbours |
| ReplyWaiters.InterruptTakesExactly | bot/replyprompt.go:95-121 | an interrupt takes away exactly the lists with a waiter of the task and answers everybody in them |
| ReplyWaiters.InterruptComesThrough | bot/replyprompt.go:89-124 | from every reachable state, an interrupt can make a waiter of the task return interrupted |
| ReplyWaiters.ReplyComesThrough | bot/replyprompt.go:450-466 | whoever has been sent a reply can return with its outcome |
| ReplyWaiters.ShutdownReleases | bot/replyprompt.go:441-447 | a shutdown lets every prompt that waits for a reply return interrupted |
| ReplyWaiters.OkIsTheUsersText | bot/replyprompt.go:450-466 | a prompt returns at most once, and with `Ok` only with a matching text the user sent while it headed the list |
| ReplyWaiters.OutcomesExactly | bot/replyprompt.go:450-466 | which replies give which outcome, each if and only if: an unmatched `=` asks for the default, an unmatched `-` is an interrupt |
| ReplyWaiters.ReplyTable.TakeReply | bot/replyprompt.go:448-466 | the receive event: the prompt returns with the outcome of its reply |
| ReplyWaiters.OnePromptPerList | bot/replyprompt.go:389-414 | exactly the head of a list has prompted the user |
| ReplyWaiters.TimeoutAbandonsExactly | bot/replyprompt.go:417-434 | a timeout that removes a list leaves exactly its head unanswered, if and only if another waiter timed out and there is no shutdown |
| ReplyWaiters.HopelessForever | bot/replyprompt.go:436-440 | a waiter draining with no reply coming never returns |
| ReplyWaiters.NobodyAbandoned | bot/replyprompt.go:415-449 | over any run, shutdown included, every waiter can return at every moment if and only if, before a shutdown, each list is timed out by its own head and, after one, a timeout that finds no list has a reply coming |
| ReplyWaiters.MixedTimeoutsStrandTheHead | bot/replyprompt.go:198-207 | two prompts, the second timing out first, strand the first |
| ReplyWaiters.StepKeepsInv | bot/replyprompt.go:386-449 | a waiter is in its list, being answered or answered, at most one of the three |
| ReplyWaiters.ReplyTable.AddWaiter | bot/replyprompt.go:347-414 | the prompt event: refused in a shutdown, joining the list, prompting and opening one, or a failed prompt |
| ReplyWaiters.ReplyTable.HandleMessage | bot/dispatch.go:300-326 | the message event: takes the list away and has the text sent to its head and retries to the rest, by a loop |
| ReplyWaiters.ReplyTable.PromptTimeout | bot/replyprompt.go:417-440 | the timeout event: takes the list away with retries to all but the head, or goes on to wait for a reply |
| ReplyWaiters.ReplyTable.InterruptReplyWaitersForTask | bot/replyprompt.go:89-124 | the interrupt event: takes away exactly the lists with a waiter of the task and fills their empty channels, list by list in any order |
| ReplyWaiters.ReplyTable.Deliver | bot/dispatch.go:317-323 | a send that has been decided on finds room in the channel and is the send event |
| ReplyWaiters.ReplyTable.QuitWaiting | bot/replyprompt.go:441-447 | the quit event: a waiter that sees the shutdown signal takes the list away |
| EditDistance.LevenshteinIsLeastCost | bot/builtins.go:686-750 | the recursive distance is the least cost of any edit script |
| EditDistance.BoundedLevenshtein | bot/builtins.go:686-750 | returns the distance exactly when the texts are equal or it is within the bound, by a banded table with two swapped rows and early exit |
| EditDistance.FillRow | bot/builtins.go:715-743 | a banded row stands for the exact row up to the bound, and its minimum justifies the early exit |
| EditDistance.RowsStayAbove | bot/builtins.go:740-742 | once a whole row is above the bound every later row is |
| EditDistance.AcceptsExactly | bot/builtins.go:686-692 | acceptance means distance within the bound if and only if the bound is not negative or the texts differ; with the failing input, which no caller passes |
| EditDistance.DistanceSymmetric | bot/builtins.go:686-750 | the distance does not depend on which text comes first |
| HelpTokens.FuzzyMatch | bot/builtins.go:667-684 | single words of four bytes or more, not equivalent, within the distance |
| HelpTokens.TokenMatches | bot/builtins.go:870-875 | equivalent or nearly equal |
| HelpTokens.MatchesSymmetric | bot/builtins.go:870-875 | token matching is reflexive and symmetric |
| HelpTokens.EquivalentFormsOfOne | bot/builtins.go:270-281 | equivalent tokens are forms of one word: it, or it with `s`, `es` or `ies` for `y` |
| HelpTokens.PluralsExactly | bot/builtins.go:270-281 | which words are equivalent to their plurals in `s`, `es` and `ies`, each if and only if, for every word |
| HelpTokens.PluralMatchesExactly | bot/builtins.go:870-875 | a single lower-case word matches its plural in `s` if and only if it has four letters or more, two, or three and does not end in `e` or `s` |
| HelpTokens.NormalizeExactly | bot/builtins.go:667-669 | a term is compared in lower case without the spaces around it |
| HelpTokens.LowerOfExactly | bot/builtins.go:668-669 | lower case turns each capital into its small letter and leaves every other character |
| SequenceScore.CountHits | bot/builtins.go:882-902 | the loop counts what greedy matching matches, which is the longest prefix of the literals occurring in order, and finds where the first one first matches |
| SequenceScore.GreedyIsLongest | bot/builtins.go:885-902 | for any token relation, greedy matching matches the longest prefix that occurs in order |
| SequenceScore.LiteralSequenceScore | bot/builtins.go:877-924 | the score is that of the longest occurring prefix and its first match, between 0 and 96 |
| SequenceScore.ScoreIsUnique | bot/builtins.go:877-924 | query and sequence have one such score |
| SequenceScore.ScoreOrder | bot/builtins.go:903-923 | more hits score more and an earlier first match never less, up to 96; only no hit scores zero |
| SequenceScore.LongerMatchScoresMore | bot/builtins.go:877-924 | of two sequences of one length with one first literal, the one of which the query contains more scores more, unless both have the greatest score |
| SequenceScore.FullMatchOutscores | bot/builtins.go:908-910 | a sequence the query contains outscores every longer one that begins with it and is not contained further, unless both have the greatest score |
| SequenceScore.NoScoreExactly | bot/builtins.go:903-905 | the score is zero if and only if no token of the query matches the first literal |
| LogRing.BotLogger.Append | bot/logging.go:255-259 | the ring holds the last 500 of all lines ever logged |
| LogRing.BotLogger.LogPage | bot/logging.go:143-184 | the page of the window, larger page numbers reduced modulo the page count |
| LogRing.PagesCoverWindow | bot/logging.go:143-184 | for any page size the pages from oldest to newest concatenate to exactly the window |
| LogRing.PageSizes | bot/logging.go:160-175 | no page is empty and all but the oldest are full |
| LogRing.PageNumbersWrap | bot/logging.go:160-166 | number 0 is the newest page, and numbers past the oldest page start again from there |
| LogRing.WindowSlides | bot/logging.go:255-259 | a new line pushes the oldest one out if and only if 500 are held |
| LogRing.BotLogger.SetLogPageLines | bot/logging.go:187-200 | the page size is kept between 1 and 50 |
| QueueDedupe.DuplicateExactly | bot/queue_runtime.go:320-334 | whatever the clock does, a call is a duplicate if and only if an earlier one for its key was accepted and no call since, this one included, came after its retention |
| QueueDedupe.AgreesExactly | bot/queue_runtime.go:320-334 | the pruned table answers all calls as a full history would if and only if the clock never passes the retention of a key's last accepted call and is back within it at a later call for that key |
| QueueDedupe.AgreesOnEveryKeyExactly | bot/queue_runtime.go:324-328 | for given clock readings, the table is right for every choice of keys if and only if the clock never passes some call's retention and then falls back into it |
| QueueDedupe.PrunedEqualsFull | bot/queue_runtime.go:320-334 | in particular for nondecreasing times: a trigger is a duplicate exactly when accepted less than 140 seconds before, though the table is pruned on every call |
| QueueDedupe.BackwardTimeForgets | bot/queue_runtime.go:365 | two callers that read the clock before the lock and enter out of order make the table forget a trigger too early |
| QueueDedupe.Dedupe.RecordQueueDedupe | bot/queue_runtime.go:320-334 | prunes expired entries, then reports or records the trigger |
| QueueDedupe.KeysDiffer | bot/queue_runtime.go:321 | no two triggers share a key |
| MemoryKeys.RoundTrip | bot/ephemeral.go:36-76 | saving and restoring gives back exactly the memories other than last messages if no field contains the separator, and fails otherwise |
| MemoryKeys.ContextRoundTrip | bot/ephemeral.go:43-72 | a context survives encoding if and only if no field contains the separator |
| MemoryKeys.NoCollisions | bot/ephemeral.go:43 | no two clean contexts share a key |
| MemoryKeys.LegacyKey | bot/ephemeral.go:58-65 | four-part keys decode with an empty protocol |
| MemoryKeys.SplitJoined | bot/ephemeral.go:58 | splitting a joined string gives the parts of both sides: the separator cannot overlap itself |
| MemoryKeys.Marshal | bot/ephemeral.go:36-47 | every memory but last messages under its joined key, and nothing else |
| MemoryKeys.Unmarshal | bot/ephemeral.go:50-76 | every key's context with its value, or failure on a malformed key |
| ConfigMerge.MergeMap | bot/config_load.go:24-62 | on every map, the loop gives the result of some walk over its entries in which each is merged once |
| ConfigMerge.OrderMattersExactly | bot/config_load.go:25-30 | over a given target, every walk gives the same result if and only if wherever the map, or a submap that meets a map of the target, has both `X` and `AppendX`, the two agree: an empty appended list, maps that commute key by key, equal values, or a nil |
| ConfigMerge.DeterminedNeeds | bot/config_load.go:25-30 | for every map: if all walks agree, then so does every pair of entries for one key, maps with appending keys inside aside |
| ConfigMerge.NestedAppend | bot/config_load.go:25-40 | two maps under `X` and `AppendX`, one appending to a list that the other sets, share no key and still merge differently in the two orders, over every target |
| ConfigMerge.TwoLists | bot/config_load.go:38-45 | for two lists under `X` and `AppendX` the walks give the plain list, or that list extended, whatever the target has; they agree if and only if the appended list is empty |
| ConfigMerge.CollidingKeys | bot/config_load.go:27-30 | two keys of a map merged under one target are always a plain `X` and `AppendX` |
| ConfigMerge.WalkSettlesKeys | bot/config_load.go:25-30 | a walk settles every target key on its own, by the entries merged under it in some order |
| ConfigMerge.KeysMakeWalk | bot/config_load.go:25-30 | any choice of such outcomes, key by key, is that of some walk |
| ConfigMerge.CommuteExactly | bot/config_load.go:33-54 | two values merge over anything to the same in either order if and only if they commute key by key |
| ConfigMerge.AppendFreeMerges | bot/config_load.go:24-62 | without appending keys the walks have exactly one result, the recursive merge |
| ConfigMerge.LeavesOverride | bot/config_load.go:455 | every non-nil leaf of the overriding tree is at its path in the merge, at any depth |
| ConfigMerge.LeavesLand | bot/config_load.go:24-62 | for any two trees and any walk, a non-nil leaf without a rival on its path is in the result at the path that the keys append to, extended by what the target had there if it is a list marked for appending |
| ConfigMerge.AppendedItemsLand | bot/config_load.go:38-59 | every item of such a list, appending or not, at any depth, is an item of the result at that path |
| ConfigMerge.UnmentionedSurvives | bot/config_load.go:24-62 | for any two trees and any walk, what the target has at a path the overriding tree does not mention is unchanged |
| ConfigMerge.LeavesHaveASource | bot/config_load.go:24-62 | no leaf appears that neither tree has there |
| ConfigMerge.MergeIdempotent | bot/config_load.go:24-62 | merging the same tree again changes nothing more |
| ConfigMerge.AppendExtends | bot/config_load.go:38-59 | in every walk, an appending list without a rival gives exactly the target's list extended by it, and exactly itself when the target has no list there |
| ConfigMerge.EntryDecides | bot/config_load.go:24-62 | a non-nil entry without a rival decides its target key in every walk, whatever the other entries are |
| ConfigMerge.OrderMatters | bot/config_load.go:25-30 | two walks of one map over one target with different results |

## Left out

- Interleaving inside one start: reading the remote lock, listing and fetching records, and writing the lock are taken as one event; a hydration that interleaves with the holder's pushes could mix old and new records.
- A write to the remote either takes effect and is reported so, or fails without effect; a timeout after which the record is there all the same is not modelled.
- Stores after a release, which only `brainQuit` puts an end to.
- BrainProtocol.EventKeepsInv: three steps are not events, because the theorems on starts cannot hold with them: a flush step that pushes the newest local version of all past another pending one (`BrainLimits.FlushStepSafeExactly`), a push after another robot has taken over (`BrainLatePush.LatePushExactly`), and a failed lock write of a copy that has no room left to fail (`BrainFailedStart.FailedStartSafeExactly`).
- BrainTheorems.NoStaleStart: the same three steps are not part of its runs.
- BrainTheorems.OneBrain: the same three steps are not part of its runs.
- BrainTheorems.OwnRestart: the same three steps are not part of its runs.
- BrainCache.CachedBrain.Flush: no store comes between a pick and its sync inside the method; `BrainProtocol` has these as separate events.
- Two processes on one cache directory: a start is an event only when that directory's robot is not running.
- Crashes inside a locked operation, which would split its file writes, and the contents of an interrupted hydration, which are never read.
- File, JSON, clock and network mechanics, remote retries and stale reads (`CheckpointVerifyRetries`), write budgets (a push refused by the budget is a failed push) and time stamps.
- The local-only brain (`Brain: file`), which has no outbox and no remote lock.
- The command-line import, export and repair paths, which write metadata without the outbox.
- 64-bit wrap-around of versions: they are unbounded.
- A cache whose control record has no nonce or counter is normalised on load; only the counter is modelled.
- Encryption, SHA-256 and the encoding of keys as file names, taken as injective; the re-encryption of a datum that fails to decrypt in `getDatum`.
- The brain loop's pause and quit events, the expiry work done on a tick, and deletion of a datum outside the loop.
- The worker's missing-process and nil cases in the kill handshake: the outcome of a kill is a parameter.
- HelpTokens.FuzzyMatch: lower-casing and trimming are modelled on the ASCII range only.
- HelpTokens.TokenMatches: the same ASCII-only normalisation.
- ConfigMerge.MergeMap: trees are values, so sharing of submaps between the merged trees is not modelled.
- ConfigMerge.OrderMattersExactly: where `X` and `AppendX` both hold maps, these are taken to have no appending keys of their own. `ConfigMerge.NestedAppend` shows that the condition is not enough there; the exact one depends on what the target holds at each nested key.
- MemoryKeys.Unmarshal: when two stored keys decode to one context, either value may win, as in the source.
- ReplyWaiters.ReplyTable.AddWaiter: the shutdown signal is read together with the list, not before.
- LogRing.BotLogger.Append: only the ring write of `Log`; levels, terminals and log files are not modelled.
- `parseQueueBody`, exclusive queues, connectors, HTTP, child processes, help rendering and plugin handlers.
