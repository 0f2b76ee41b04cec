# Verification of the avatar lifecycle

GophProfile stores avatars in three places that share no transaction: the `avatars` table, the
object bucket and the broker's queues. Server requests (upload, read, delete) and worker handlers
(thumbnails, cleanup, failure report) change them one call at a time, calls fail or lose their
answers, deliveries repeat, and workers crash. This project models those requests and handlers and
proves what every interleaving of them keeps, and exactly where a tempting claim stops being true.

`dafny verify dfyconfig.toml` checks everything.

## How the model is laid out

* **Calls with a fate.** Every call to a store or the broker has an outcome: `Success`, `LostReply`
  (it took effect, its caller sees an error) or `Failure` (it did not). A `Calls.Network` decides
  the outcomes in advance, one per call in order, so a method's contract can say what it does under
  each pattern of failures and cannot satisfy it by failing at will.
* **Statements as functions, stores as classes.** `Postgres` and `S3` give each operation as a
  function of the table or bucket and the call's fate, and as a method of a mutable class proved
  equal to it.
* **Requests and handlers, twice.** `Service` and `Processor` give each one as a machine that makes
  one call per step, and as an imperative method, in the source's order of effects, that is proved
  to take exactly the machine's path and to make exactly the calls it reports.
* **All of them at once.** `Protocol` interleaves the same machines: any number of requests and
  workers, one call, publish or broker move per step, with retries, cancellation, lost
  settlements, crashes and redeliveries. `Invariant` and `Preservation` hold the inductive
  invariant; `Lifecycle` and `Cleanup` say what it means. `Futures` builds runs that can be made
  from any state; with it `Finality` and `Orphans` show that the conditions under which a status or
  a cleanup is final, or an object leaks, are exact, `Progress` that no avatar in flight is beyond
  help, and `Regressions` gives the runs that break the tempting claims.
* **Pieces with their own state.** `Consumer` (retry cycle and loop, for any handler),
  `UploadWorker` (the same loop driven by the real upload handler over the stores), `Topology` and
  `Conservation` (declaring, routing, message accounting), `Shutdown` (the goroutines of `Run`),
  `Convergence` (repeated attempts), `Requests` and `Handlers` (one request, one handler call under
  every failure, told without the machines), `Delivery` (from the wire to the loop that handles an
  event), `Listing` and `Accounting` (queries), `KeyLayout` (keys as text).

S3 keys are the datatype `Key`; `KeyLayout.NameInjective` shows that the rendered text identifies
it, for all ids and sizes, so a bucket indexed by `Key` is the bucket indexed by text.

The thumbnail sizes and the retry schedule are arbitrary sequences, the image library and content
sniffing arbitrary deterministic functions.

## Assumptions

* Upload ids are fresh (`uuid.NewString`), and the object store is strongly consistent.
* A crashed or disconnected worker's handlers take no further effect.
* A call whose caller saw an error has taken effect by then or never will. A timed-out object write
  that lands later would break `Cleanup.GoneForeverIff` and `Cleanup.CleanupIsComplete`.
* Event bodies decode to what was encoded (in `Consumer` and `UploadWorker` they may also fail to
  decode).
* A statement is atomic; created_at and updated_at are logical clocks.
* The error of a cancelled context is `context.Canceled`.

## Where the code and its documentation disagree

The model follows the code.

* The repository's `README.md:15` says that processing is idempotent and a repeated delivery breaks
  nothing. A redelivery whose row read fails until the schedule is used up is reported, and the
  report overwrites `completed` (`Regressions.CompletedCanBecomeFailed`); a replay on a live avatar that
  did not decode takes it from `failed` back to `processing` (`Regressions.FailedCanBeReopened`).
  `Finality.CompletedIsFinalIff` and `Convergence.ReplaysAreInertIff` have the exact conditions.
  What does hold is that full thumbnails are never lost (`Lifecycle.FullThumbnailsStay`).
* `internal/worker/processor/processor.go:95-96` tests for status `deleted`; no row a handler can
  read ever shows it (`Lifecycle.DeletedStatusIsHidden`).
* The status `deleted` is not final either: an upload handler past its guard overwrites it, and can
  store an object after the cleanup (`Regressions.CleanupCanBeUndone`). `Finality.DeletedIsFinalIff`
  says when the status is final, `Cleanup.GoneForeverIff` when the objects are gone for good, and
  `Orphans.CleanupIsCompleteIff` at which deletes the cleanup misses nothing.

## Model

| member | source | states |
|---|---|---|
| KeyLayout.DecimalRoundTrip | internal/avatar/avatar.go:88-90 | reading a `%d` rendering back gives the number, so no two sizes share one |
| KeyLayout.SizeNameInjective | internal/avatar/avatar.go:88-90 | different pixel sizes have different labels |
| KeyLayout.OriginalKeyInjective | internal/avatar/avatar.go:77-79 | different ids have different original keys |
| KeyLayout.ThumbnailKeyInjective | internal/avatar/avatar.go:83-85 | a thumbnail key determines its id and size, even for ids that contain slashes |
| KeyLayout.NameInjective | internal/avatar/avatar.go:77-90 | no two objects share a key; the two key families are disjoint |
| KeyLayout.KeyExamples | internal/avatar/avatar.go:29-90 | the labels and keys of the two configured sizes, spelled out: clients ask for `100x100` and `300x300` |
| Avatars.ThumbnailMapEntries | internal/worker/processor/processor.go:119-138 | the keys map has exactly one entry per size, under that size's label, for any list of sizes |
| Postgres.Repository.Insert | internal/storage/postgres/postgres.go:46-57 | adds the row with the column defaults, refuses a second row with the id, answers the row as stored |
| Postgres.Repository.ByID | internal/storage/postgres/postgres.go:60-64 | answers the row exactly when it is live |
| Postgres.Repository.Latest | internal/storage/postgres/postgres.go:67-73 | answers a newest live row of the user, not found exactly when there is none |
| Postgres.Repository.ListByUser | internal/storage/postgres/postgres.go:76-99 | answers the user's live rows, each once, newest first |
| Postgres.Repository.SetUpload | internal/storage/postgres/postgres.go:102-105 | changes that status of that row only, not found when no row is touched |
| Postgres.Repository.SetProcessing | internal/storage/postgres/postgres.go:108-111 | the same for the processing status, also on deleted rows |
| Postgres.Repository.StoreThumbnails | internal/storage/postgres/postgres.go:114-118 | stores the map and marks completed in one statement, also on deleted rows |
| Postgres.Repository.Hide | internal/storage/postgres/postgres.go:122-126 | hides a live row; on any other answers not found and changes nothing |
| Postgres.Repository.SumGroup | internal/storage/postgres/postgres.go:131-154 | sums the sizes of exactly the user's live rows |
| Postgres.Repository.StorageByUser | internal/storage/postgres/postgres.go:131-154 | maps every user with a live row to that sum, and no other user |
| Postgres.SumBytesSplit | internal/storage/postgres/postgres.go:133-135 | the sum does not depend on the order of the rows |
| S3.Store.Write | internal/storage/s3/s3.go:107-117 | stores the object under the key and touches no other |
| S3.Store.Read | internal/storage/s3/s3.go:123-144 | answers the stored bytes; only a missing object is not found |
| S3.Store.Remove | internal/storage/s3/s3.go:148-160 | removes the object; a missing one is success |
| Processor.Processor.HandleUpload | internal/worker/processor/processor.go:72-146 | follows the upload machine under exactly the calls it makes, none after its end, ends as it ends, observes once with the right status |
| Processor.Processor.Handle | internal/worker/processor/processor.go:83-107 | the guard and the first status write of that path |
| Processor.Processor.Process | internal/worker/processor/processor.go:109-145 | download, thumbnail loop and last write of that path |
| Processor.Processor.MakeThumbnails | internal/worker/processor/processor.go:119-145 | the thumbnail loop and the write of its keys |
| Processor.Processor.HandleDelete | internal/worker/processor/processor.go:151-176 | follows the cleanup machine, tolerates a missing row, observes once |
| Processor.Processor.ReportUploadFailed | internal/worker/processor/processor.go:181-186 | one unguarded status write |
| Handlers.HandleUploadConcludes | internal/worker/processor/processor.go:83-145 | under every failure pattern: the first call that does not succeed is the last and the error; without one, the calls of the plan, returned as skipped, ok or error, or an error for a missing original; and exactly what the calls that took effect leave, write by write |
| Handlers.NilMeansNoFault | internal/worker/processor/processor.go:83-145 | HandleUpload returns nil only if every call it made succeeded |
| Handlers.HandleDeleteConcludes | internal/worker/processor/processor.go:162-176 | under every failure pattern: nil iff every removal and the status write succeeded; the keys removed so far, in order, and the mark |
| Service.Service.Upload | internal/server/service/service.go:87-149 | follows the upload request's machine to its answer, stores and events |
| Service.Service.StoreOriginal | internal/server/service/service.go:123-148 | the part after the insert: store, compensate or confirm, publish |
| Service.Service.GetFile | internal/server/service/service.go:162-168 | an error iff a call failed, not found iff the row is not live or its object missing, else the object under the row's type and size |
| Service.Service.LatestFile | internal/server/service/service.go:171-177 | the same for a newest live row, not found iff there is none or its object is missing |
| Service.Service.OpenOriginal | internal/server/service/service.go:259-270 | a missing object reads as not found, other errors stay errors |
| Service.Service.ThumbnailFile | internal/server/service/service.go:182-196 | an error iff a call failed; a size without an entry is not found and makes no second call |
| Service.Service.Delete | internal/server/service/service.go:200-215 | hides iff the row read succeeds on a live row of the requester; somebody else's is ErrNotOwner, no live row ErrNotFound, a failed call ErrInternal; refused before the hide, it changes nothing |
| Service.Service.DeleteLatest | internal/server/service/service.go:219-233 | a foreign requester is refused before any call; ErrNotFound iff the user has no live row; else as deleteAvatar on a newest row |
| Service.Service.DeleteAvatar | internal/server/service/service.go:238-257 | captures the keys in some map order before hiding the row, then publishes |
| Service.Publisher.PublishUpload | internal/broker/publisher.go:53-55 | a publish that took effect adds to the wire the event, persistent, to our exchange under the upload queue's key, with the avatar's id as message id |
| Service.Publisher.PublishDelete | internal/broker/publisher.go:58-60 | the same under the delete queue's key |
| Service.Publisher.Send | internal/broker/publisher.go:62-97 | one publish; whatever its caller saw, the message is out iff the call took effect |
| Delivery.WireReachesItsLoop | internal/broker/topology.go:12-20 | on every broker declared without foreign bindings, each message on the wire is routed to exactly the queue whose loop handles its event, upload events to the upload queue and delete events to the delete queue, and when rejected to the dead queue |
| Requests.UploadConcludes | internal/server/service/service.go:84-149 | under every failure pattern: answered iff created, stored and confirmed, with that row, object and event; otherwise nothing published and no object without a row, and exactly what is left in the stores; marked failed iff the store failed and the compensation took effect |
| Requests.CreatedConcludes | internal/server/service/service.go:123-148 | the same from the point where the row exists |
| Requests.AnsweredRowDescribes | internal/server/service/service.go:95-118 | the answered row field by field: sniffed type and dimensions, length, cut file name, the insert's time, no thumbnails, pending |
| Requests.DeleteConcludes | internal/server/service/service.go:238-257 | succeeds iff it hid a live row and learnt of it; writes that row's deletion time only; publishes the captured keys only after hiding |
| Requests.DeleteAnswers | internal/server/service/service.go:207-256 | Delete from the request on, whatever happens between its calls: exactly when it is internal, not found, not owner, or won, and what it hides |
| Requests.DeleteLatestAnswers | internal/server/service/service.go:225-256 | the same for DeleteLatest |
| Requests.ReadAnswers | internal/server/service/service.go:162-196 | GetFile, LatestFile and ThumbnailFile over two states: an error iff a call made failed, not found iff no row, size or object, else those bytes |
| Requests.CaptureIsExact | internal/server/service/service.go:239-243 | in any map order, the captured keys are the original and each thumbnail once |
| Consumer.Consumer.WithRetry | internal/broker/consumer.go:208-227 | the loop does what the recursive specification does, for every stream of results and cancellations |
| Consumer.Consumer.Process | internal/broker/consumer.go:162-205 | attempts, then ack, requeue, or dead callback and dead-letter |
| Consumer.Consumer.Loop | internal/broker/consumer.go:143-160 | processes the taken deliveries in order; nil only for a channel closed under a cancelled context, its own error only under a live one |
| Consumer.LoopReturns | internal/broker/consumer.go:146-158 | which select outcome gives which end, both ways |
| Consumer.RetryStops | internal/broker/consumer.go:208-227 | the attempts stop at the first success, end of schedule or interruption, with the waits in between |
| Consumer.ProcessSettlesOnce | internal/broker/consumer.go:177-204 | exactly one settlement, last, decided by the last attempt and the context; dead called once, right before a dead-letter and never otherwise |
| Consumer.BuriedIff | internal/broker/consumer.go:185-204 | a message is buried iff the whole schedule failed and the context is still live |
| Consumer.ProcessWithoutCancellation | internal/broker/consumer.go:208-227 | min(first success, schedule length)+1 attempts and the sum of the waits before it |
| Consumer.CancellationEnds | internal/broker/consumer.go:213-225 | a cancelled context ends the attempts where it is seen, and a failed delivery goes back to its queue |
| Consumer.LoopSettles | internal/broker/consumer.go:146-158 | n deliveries give n settlements, the i-th being that of the i-th delivery |
| Consumer.LoopAttempts | internal/broker/consumer.go:146-158 | between n and n*(schedule+1) handler calls |
| UploadWorker.UploadLoop.Attempt | internal/broker/consumer.go:99-104 | an undecodable body is an error and makes no call; any other attempt is one HandleUpload on the network, whose end is its result and whose status is observed once |
| UploadWorker.UploadLoop.WithRetry | internal/broker/consumer.go:208-227 | around the real HandleUpload: the calls made are those of the attempts, each attempt starts from the stores the ones before it left and ends as the handler's machine, the last is the one that stops the schedule; after a success the stores are what a single clean attempt leaves |
| UploadWorker.UploadLoop.Next | internal/broker/consumer.go:211-212 | one more attempt, noted in the journal, continues the story so far |
| UploadWorker.UploadLoop.Pause | internal/broker/consumer.go:221-225 | the wait between two attempts touches nothing but the journal, and the story goes on through it |
| UploadWorker.UploadLoop.Process | internal/broker/consumer.go:162-205 | the attempts and, exactly when a decodable delivery is buried, the report's call are what the network served; stores and observations are where they lead; an ack means the event's work is done |
| UploadWorker.UploadLoop.Conclude | internal/broker/consumer.go:177-204 | ack, requeue, or UploadFailed's one write and then the dead-letter |
| UploadWorker.EarlierAttemptsFailed | internal/broker/consumer.go:211-215 | every attempt of a delivery but the last ended in an error and was observed as one |
| UploadWorker.AckIffReturned | internal/broker/consumer.go:177-183 | a delivery is acked iff the handler's last run returned nil |
| UploadWorker.AckedStatusTells | internal/worker/processor/processor.go:79-145 | the last observation of an acked delivery tells what its last attempt found: skipped, all sizes made, or not decodable |
| UploadWorker.UploadLoop.Loop | internal/broker/consumer.go:143-160 | each delivery is processed from what the ones before it left, all calls are the network's, in order; the journal, the stores and the observations are where that leads |
| UploadWorker.ServedAccounts | internal/broker/consumer.go:146-158 | when all bodies decode, the observations grow by one per handler call, and n deliveries take between n and n*(schedule+1) calls |
| UploadWorker.StatusesAreObservations | internal/worker/processor/processor.go:79-81 | the recorded statuses are the observations of the journal, status by status |
| Preservation.InvStep | internal/server/service/service.go:109-144 | every step of every request, worker and broker keeps the invariant |
| Preservation.InvUploadStep | internal/server/service/service.go:109-144 | ... each call of an upload request |
| Preservation.InvAnnounced | internal/server/service/service.go:140-147 | ... its publish, which is the first of its avatar |
| Preservation.InvDeleteFind | internal/server/service/service.go:207-233 | ... the row read and ownership check of a delete |
| Preservation.InvDeleteStep | internal/server/service/service.go:245-252 | ... hiding the row and publishing the cleanup |
| Preservation.InvHidden | internal/storage/postgres/postgres.go:122-126 | ... hiding a live row makes its first winner |
| Preservation.InvReadLookup | internal/server/service/service.go:163-193 | ... the row read of a read |
| Preservation.InvReadOpen | internal/server/service/service.go:259-270 | ... its object read |
| Preservation.InvWork | internal/worker/processor/processor.go:72-176 | ... each call of a handler |
| Preservation.UploadWorkNext | internal/worker/processor/processor.go:105-142 | an upload handler past its guard only stores and saves what the original generates |
| Preservation.InvReport | internal/worker/processor/processor.go:181-186 | ... the failure report |
| Preservation.InvMove | internal/broker/consumer.go:162-227 | ... delivery, retry and settlement moves |
| Preservation.InvCrash | internal/broker/consumer.go:127-132 | ... a closed or lost connection, which requeues what a worker held |
| Preservation.InvReachable | internal/server/service/service.go:109-144 | the invariant holds in every reachable state |
| Lifecycle.RunEvolves | internal/storage/postgres/postgres.go:101-126 | over any run rows keep their identity; deletion, a finished upload and full thumbnails are for good |
| Lifecycle.UploadedIsStored | internal/server/service/service.go:109-135 | a live uploaded row has its original, byte for byte, and its size |
| Lifecycle.UploadIsServed | internal/server/service/service.go:109-135 | after an answered upload, GetFile returns those bytes in every later state until the avatar is deleted, then not found |
| Lifecycle.ThumbnailsAllOrNothing | internal/worker/processor/processor.go:119-142 | the thumbnail column is empty or full; completed means full; each entry of a live row is generated from the original |
| Lifecycle.FullThumbnailsStay | internal/worker/processor/processor.go:140-142 | full thumbnails never change, under any redelivery or status regression |
| Lifecycle.ThumbnailsAreServed | internal/server/service/service.go:182-196 | then exactly the configured sizes are served |
| Lifecycle.NoLiveAvatarStuck | internal/worker/processor/processor.go:83-145 | a live pending or processing avatar has its event in flight, or buried after an unanswered report |
| Lifecycle.DrainedMeansConcluded | internal/worker/processor/processor.go:179-186 | a drained queue with answered reports leaves every published live avatar completed or failed |
| Progress.EventCanConclude | internal/worker/processor/processor.go:83-145 | from every reachable state, a live avatar whose event is in flight can still be concluded: some run acks the event and leaves it completed, or failed iff its original does not decode |
| Progress.HandlerRuns | internal/worker/processor/processor.go:72-146 | in the protocol a handler that nobody disturbs does what it does alone |
| Progress.FileCanBeRead | internal/server/service/service.go:162-168 | from every reachable state a live uploaded avatar's file can be read back: some run serves exactly the uploaded bytes, their detected type and length |
| Progress.ShutdownRequeues | internal/broker/consumer.go:185-190 | a worker shut down while its handler fails can put the message back on its queue as new |
| Lifecycle.ReadsAreLinearizable | internal/server/service/service.go:162-196 | anything may happen between the two reads: the client is told an error iff the object read failed, content is the upload or the thumbnail made from it, and not found means deleted meanwhile |
| Lifecycle.MetadataIsFaithful | internal/server/service/service.go:95-118 | in every reachable state a row tells what was uploaded, field by field |
| Lifecycle.AtMostOneDeleteWins | internal/server/service/service.go:200-257 | one winner, the owner; one delete event per avatar |
| Lifecycle.DeletionIsPermanent | internal/storage/postgres/postgres.go:120-126 | a deleted avatar stays deleted, owned by the same user, and unread |
| Lifecycle.ExistenceOrdering | internal/server/service/service.go:109-144 | every object has its row; a queued upload event of a live row has its original; a queued delete event names a deleted row and its own keys |
| Lifecycle.DeletedStatusIsHidden | internal/worker/processor/processor.go:95-96 | status deleted occurs on deleted rows only, so the guard never sees it |
| Cleanup.GoneForeverIff | internal/worker/processor/processor.go:162-170 | a deleted avatar's objects are gone in all futures iff none is left and nobody is about to store one |
| Cleanup.WriteComesBack | internal/worker/processor/processor.go:133-134 | whoever is about to store one can bring it back |
| Cleanup.CaptureCovers | internal/server/service/service.go:239-243 | keys captured from a row with full thumbnails name every object the avatar can have |
| Cleanup.FullCaptureIsSafe | internal/server/service/service.go:238-245 | full thumbnails at the capture and no handler past its guard make a hide safe |
| Cleanup.HideCovers | internal/server/service/service.go:245-252 | a safe hide starts a cleanup that misses nothing |
| Cleanup.CoveredRun | internal/worker/processor/processor.go:83-91 | every later step, redeliveries included, keeps it so |
| Cleanup.CleanupIsComplete | internal/worker/processor/processor.go:162-170 | after a safe hide, a successful HandleDelete leaves no object, there and in every later state |
| Orphans.CleanupIsCompleteIff | internal/server/service/service.go:238-252 | ... and only then: if the captured keys miss an object, or the upload or a handler can still store one, some run cleans up successfully and leaves or brings back an object |
| Orphans.MissedStays | internal/worker/processor/processor.go:162-166 | an object the event does not name outlives the cleanup |
| Orphans.UploadStoresLater | internal/server/service/service.go:123 | an upload at its store call stores after the cleanup |
| Orphans.HandlerStoresLater | internal/worker/processor/processor.go:109-136 | a handler past its guard that can make the first thumbnail stores after the cleanup |
| Orphans.LeaksIff | internal/server/service/service.go:245-256 | a stored object of a deleted avatar stays in every future iff no delete event that names it is in flight or about to be published: a lost answer to the hide, a failed publish, a buried event or missing keys leak it, nothing else |
| Orphans.EventRemoves | internal/worker/processor/processor.go:162-166 | as long as such an event is unsettled, some run removes the object |
| Regressions.StatusWriters | internal/storage/postgres/postgres.go:108-118 | which steps write a processing status, and what they write |
| Finality.DeletedIsFinalIff | internal/worker/processor/processor.go:168-186 | in every future status deleted stays iff no upload event of the avatar is in flight or yet to be published |
| Finality.CompletedIsFinalIff | internal/worker/processor/processor.go:95-103 | in every future a live completed avatar stays completed while it is live, iff the same holds |
| Finality.NotQuietFails | internal/broker/consumer.go:198-204 | otherwise some run ends in UploadFailed's write, whatever the schedule |
| Regressions.CompletedCanBecomeFailed | internal/worker/processor/processor.go:181-186 | a run in which a lost ack and failing reads turn completed into failed |
| Regressions.FailedCanBeReopened | internal/worker/processor/processor.go:105-131 | a run in which a redelivery takes a live avatar that did not decode from failed back to processing and leaves it there |
| Regressions.CleanupCanBeUndone | internal/worker/processor/processor.go:133-142 | a run in which an object and another status appear after a successful cleanup |
| Convergence.RetriesConverge | internal/worker/processor/processor.go:72-146 | attempts stopped anywhere, then one that returns, equal a single one, apart from updated_at |
| Convergence.AttemptsReachTarget | internal/worker/processor/processor.go:72-146 | and that is the result computed from the start state alone |
| Convergence.ObservationTells | internal/worker/processor/processor.go:79-145 | a handler that returns nil observes skipped iff the guard skips, ok iff every size could be made, error iff the file does not decode |
| Convergence.FaultFreeReturns | internal/worker/processor/processor.go:72-146 | an attempt without faults returns |
| Convergence.ReplaysAreInertIff | internal/worker/processor/processor.go:83-131 | after an attempt that returned, replays change nothing iff at its start the guard skipped or the original decoded at every size |
| Convergence.DeletesConverge | internal/worker/processor/processor.go:151-176 | cleanup runs stopped anywhere, then one that returns, leave the objects minus the key set and status deleted |
| Convergence.KeyOrderIsIrrelevant | internal/server/service/service.go:239-243 | the order and repetition of the captured keys do not matter |
| Accounting.StorageIsListedBytes | internal/storage/postgres/postgres.go:131-154 | a user is reported iff the listing is not empty, with the sum of the listed sizes |
| Accounting.StatementMovesBytes | internal/storage/postgres/postgres.go:46-126 | only an effective insert and an effective soft delete move bytes, by the row's size |
| Accounting.StorageFollowsLedger | internal/storage/postgres/postgres.go:131-154 | over every statement sequence storage is the ledger's balance |
| Listing.ListingIsUnique | internal/storage/postgres/postgres.go:76-99 | with distinct times there is one listing |
| Listing.LatestIsHead | internal/storage/postgres/postgres.go:67-73 | LatestByUser answers its head, not found iff it is empty |
| Listing.InsertBecomesHead | internal/storage/postgres/postgres.go:46-57 | an insert at a later time heads its user's listing and leaves every other user's |
| Listing.DeleteLatestDropsHead | internal/server/service/service.go:219-257 | a DeleteLatest without faults, its calls at any times, turns the listing into its tail and touches no other user's rows |
| Listing.DrainsTheListing | internal/server/service/service.go:219-257 | k such calls drop the first k |
| Listing.DrainingIsPossible | internal/server/service/service.go:219-257 | up to the length of the listing such calls can be made and win |
| Listing.DrainedAnswersNotFound | internal/server/service/service.go:219-257 | as many calls as rows empty it, the next answers not found |
| Topology.Channel.Declare | internal/broker/topology.go:25-54 | succeeds iff its nine requests are answered and no exchange or queue of ours exists with other arguments; adds exactly our topology, or on failure a part of it |
| Topology.Channel.SendNext | internal/broker/topology.go:25-54 | each request fails only for those two reasons |
| Topology.DeclaresConverge | internal/broker/topology.go:22-24 | either binary first, any failures before: one and the same topology |
| Topology.DeclaredFromNothing | internal/broker/topology.go:25-54 | from an empty broker, exactly our exchanges, queues and bindings |
| Topology.RoutesAreSingleIff | internal/broker/topology.go:33-52 | on any broker once declared: an event reaches its own queue only and a rejected one the dead queue only, iff nobody else bound a queue under our keys |
| Topology.WorkQueuesDeadLetter | internal/broker/topology.go:33-38 | both work queues dead-letter into our direct exchange |
| Topology.OursAreDurable | internal/broker/topology.go:26-47 | exchanges are durable and direct, queues durable and shared, the dead queue passes nothing on |
| Conservation.MoveOk | internal/broker/topology.go:33-52 | every broker move keeps the accounting |
| Conservation.RejectOk | internal/broker/consumer.go:201-202 | a dead-letter nack from either work queue moves the message to the dead queue |
| Conservation.RedeclareOk | internal/broker/topology.go:22-24 | where it succeeded once, Declare changes nothing, wherever it stops |
| Conservation.EveryMessageIsInOnePlace | internal/broker/topology.go:25-54 | on any such broker every published message is in exactly one of ready, unacked, acked, dead, once, under its key |
| Conservation.BuriedForGood | internal/broker/consumer.go:201-204 | a rejected message is in the dead queue once, for ever |
| Shutdown.InvStep | internal/broker/consumer.go:96-138 | every step of the three goroutines, deciding and recording apart, keeps the shutdown invariant |
| Shutdown.CleanShutdownReturnsNil | internal/broker/consumer.go:127-138 | under every schedule, no early channel close and a nil or ErrClosed Close give nil |
| Shutdown.UncancelledRunReportsError | internal/broker/consumer.go:134-138 | without cancellation Run never returns nil |
| Shutdown.ErrorsHaveACause | internal/broker/consumer.go:134-138 | an error means an early channel close or a failed Close |
| Shutdown.RunCanFinish | internal/broker/consumer.go:96-138 | from every reachable state with a cancelled context or a closed channel the goroutines can all return by their own steps; a lost connection is then reported |
| Shutdown.DoneFinishes | internal/broker/consumer.go:127-134 | once the group's context is done nothing keeps them from returning |

## Left out

- Image decoding, resizing and JPEG encoding, content-type and dimension sniffing: library code, kept as arbitrary deterministic functions.
- JSON, AMQP framing, SQL text and the minio client: each call keeps its abstract effect and its outcome only.
- HTTP handlers, router, health checks, web pages: request plumbing with branch-level claims only.
- Tracing, logs and metrics, except the observation recorded once per handler call.
- Configuration, migrations (their column defaults are in the model), Helm and Compose files, start-up checks of the bucket and the connections.
- Metadata and List of the service: they pass one repository call through.
- Real time: waits are summed as numbers, clocks are logical.
- Postgres.Repository.StorageByUser: does not model 64-bit overflow of the sums, integers are unbounded; a row that fails to scan part-way counts as a failed call, here and in ListByUser.
- Service.Service.Upload: a file name is cut after 255 characters of the model's string, not after 255 decoded runes; the fresh id is a parameter.
- S3.Store.Read: an object is read at one moment; a stream that breaks later counts as a failed call.
- Processor.Processor.HandleUpload: the span and the duration of the observation are not modelled, only its status.
- Consumer.Consumer.WithRetry: the handler is a stream of results here; UploadWorker has the upload queue with its real handler, the delete queue has none of its own.
- UploadWorker.UploadLoop.Process: settlements are recorded, not performed on a broker; the protocol and Conservation model what they do.
- Service.Publisher.Send: headers and the JSON body are not modelled; a publish that the broker never received is a call with outcome Failure.
- Protocol: keeps one message per published event and its stage, with prefetch unlimited and no order among ready messages; routing and the dead queue are in Topology and Conservation.
- Conservation.EveryMessageIsInOnePlace: a lost connection is a series of requeues, one per delivery; broker restarts are not modelled.
- Shutdown.CleanShutdownReturnsNil: Run is modelled as the steps of its goroutines, not as one method, and starts after both consume calls succeeded.
