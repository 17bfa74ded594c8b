# Delivery, caching and migration, verified

A Dafny model of the parts of this repository whose correctness lies in how several functions and structures work
together: the webhook delivery scheduler, the file streaming connection, the splitting of source files, the cleanup of
the workdir, the database migration and the coordination of cache sessions. `dafny verify dfyconfig.toml` checks it.

Protocols are state machines: a datatype for the state, a function for every callback, and invariants over every run.
Where the source is an object that changes its fields, a class has the same fields and methods, and each method is proved
to move them as the state machine does. Loops and in-place algorithms are methods with loops.

| file | what it models |
|---|---|
| `WebhookSpec.dfy`, `WebhookSafety.dfy`, `WebhookDelivery.dfy`, `WebhookLoss.dfy`, `WebhookAnswers.dfy`, `WebhookLoading.dfy`, `WebhookProgress.dfy`, `WebhookActor.dfy` | the scheduler: state machine, invariant, what it means for delivery, how a queue gets lost, what answers do, what is loaded, how far it gets, the actor |
| `FileStreamSpec.dfy`, `FileStreamSafety.dfy`, `FileStreamResponse.dfy`, `FileStreamOutcome.dfy`, `FileStream.dfy` | the stream: state machine, invariant, what the client receives, what each report does, the actor and its cursor |
| `DisjointSet.dfy`, `SplitBalance.dfy`, `SplitSource.dfy`, `SplitOrder.dfy` | union-find, scheduling bounds, the split, what ties functions together and their order |
| `WorkdirCleanup.dfy`, `WorkdirCandidates.dfy`, `WorkdirReferences.dfy` | one round of cleanup, which files it may touch, the references of streams |
| `TableMigration.dfy`, `Publication.dfy` | keyset pagination, publication by renames |
| `SessionLocks.dfy`, `SessionAdmission.dfy`, `SessionLeases.dfy`, `SessionJoins.dfy`, `CacheBuild.dfy`, `Follower.dfy`, `BuildRun.dfy`, `DirectRelay.dfy` | locks and fence, who gets in, who holds what, which session serves a request, the build as a method, followers, the build and its followers over every run, the direct relay |
| `Common.dfy` | options, minimum and maximum, facts about sequences |

Surroundings are inputs: the clock (in whole nanoseconds), random delays and links, answers of peers, progress reports
of TDLib, results of opening, reading, writing, renaming and deleting, and which promise settles next.

## What turned out to depend on a condition

- A queue whose request headers come out too long is in neither place from then on, for good, and is never sent again;
  otherwise it is in exactly one (`WebhookLoss.LosesExactly`, `WebhookLoss.LostForGood`). Such a queue also ends a pass of
  send_updates early, which otherwise leaves no due queue behind an idle connection (`WebhookDelivery.NoDueQueueWaits`).
- Looking often enough loads every event as long as TQueue refuses no offset (`WebhookLoading.EveryEventIsLoaded`); after a
  refused one a load brings nothing new while the first events are loaded already (`WebhookLoading.RefusedLoadRepeats`).
- A chunk that was flushed well is refused when a completion was revoked in between (`FileStreamResponse.CommitIsRefused`).
- A retain that is still on its way does not protect (`WorkdirReferences.UndeliveredRetainDoesNotProtect`).
- A time to live of 18446744074 seconds or more is not what is applied (`WorkdirCleanup.TtlIsExact`).
- The deletion of a file is alone with it, and the fence keeps newcomers out, exactly for file ids that are not empty and
  do not contain ":v" (`SessionLocks.DeletionIsAlone`, `SessionLocks.NobodyEntersBehindTheFence`). An id with ":v" behind
  its first character is also turned away while another file is invalidated (`SessionAdmission.LetsInOthers`).
- A follower may be parked on a session that has failed, until the writer has removed its file and announces the failure
  (`Follower.ParkedOnlyWithoutWork`).
- A follower of a completed spool ends early when a read returns nothing (`Follower.EndsEarly`); one of a build does not.
- A build that is aborted while its file is measured or renamed ends both completed and failed
  (`BuildRun.CompletedAndFailed`).
- Publishing keeps its promise under every failure exactly if the backup path is free or there is nothing to back up;
  otherwise even a plain error may have lost what was there (`Publication.RoomIsNeeded`,
  `Publication.RoomForBothIsNeeded`).

One input is characterised although it cannot arrive: an answer on an idle connection. The connection reads only after a
request was written to it (`telegram-bot-api/td/tdnet/td/net/HttpConnectionBase.cpp:92-146` reads only in its state Read,
which write_ok enters), so the CHECK of handle is never at risk (`WebhookDelivery.UnsolicitedAnswer`).

## Model

| member | source | states |
|---|---|---|
| WebhookDelivery.EveryQueueInOnePlace | telegram-bot-api/telegram-bot-api/WebhookActor.cpp:525-583 | In every state of every run, no CHECK has fired, each loaded queue is non-empty and is either in queues_ exactly once, with the wakeup time of its front event, or has its front event on exactly one connection, never both; it is in neither place only if its request headers came out too long; of a queue that is not loaded nothing is left in queues_ |
| WebhookDelivery.PlaceOfQueue | telegram-bot-api/telegram-bot-api/WebhookActor.cpp:525-583 | The same for any state that satisfies the invariant, and the converse for a lost queue: once its headers were too long it is in neither place |
| WebhookDelivery.RunLosesNothing | telegram-bot-api/telegram-bot-api/WebhookActor.cpp:567-570 | As long as no request headers come out too long, no run loses a queue |
| WebhookLoss.LosesExactly | telegram-bot-api/telegram-bot-api/WebhookActor.cpp:533-570 | A step takes a queue out of both places if and only if it tries to send: a connection is idle, the queue is the first one due, and the headers of its front event come out too long |
| WebhookLoss.RunLosesExactly | telegram-bot-api/telegram-bot-api/WebhookActor.cpp:533-570 | A run that starts with every queue in its place ends with one in neither place if and only if one of its steps was such an attempt |
| WebhookLoss.LostForGood | telegram-bot-api/telegram-bot-api/WebhookActor.cpp:533-570 | A queue in neither place stays so in every continuation: it keeps its place among the loaded queues and all its events, later ones are appended, and nothing is ever sent, answered, retried or dropped for it again |
| WebhookLoss.QueueGetsLost | telegram-bot-api/telegram-bot-api/WebhookActor.cpp:533-570 | For every event with a queue id of its own a concrete run from the start that loses its queue: load, connect, try to send |
| WebhookDelivery.UpdatesAreTheQueues | telegram-bot-api/telegram-bot-api/WebhookActor.cpp:397-425 | update_map_ is the union of the queues, and every event in a queue knows that queue, so the queues are disjoint |
| WebhookDelivery.DeliveryOrder | telegram-bot-api/telegram-bot-api/WebhookActor.cpp:457-478 | If an event of a queue was sent, every event of that queue loaded with a smaller id had been answered with success or dropped as expired before, across retries, hangups and changes of connection |
| WebhookDelivery.NothingTwice | telegram-bot-api/telegram-bot-api/WebhookActor.cpp:399-404 | No event is loaded twice and no event is forgotten twice |
| WebhookDelivery.OutcomeFollowsRequest | telegram-bot-api/telegram-bot-api/WebhookActor.cpp:664-675 | Every answer, retry or drop is the outcome of a request for that very event, with nothing done about the queue in between |
| WebhookDelivery.RequestsAlternate | telegram-bot-api/telegram-bot-api/WebhookActor.cpp:541-543 | Between two requests of one queue lies an outcome: a queue never has two requests outstanding |
| WebhookDelivery.EveryRunConserves | telegram-bot-api/telegram-bot-api/WebhookActor.cpp:480-523 | In every state of every run the loaded events are exactly those in update_map_ and those forgotten, and nothing is in both; the history is legal, so the lemmas about histories apply to it |
| WebhookDelivery.CauseOfForgetting | telegram-bot-api/telegram-bot-api/WebhookActor.cpp:592-689 | What is recorded of an answer: a success as answered, an error as expired when the next attempt would come after the expiry and as retried otherwise; SuccessForgets and ErrorPostpones say when that is |
| WebhookAnswers.SuccessForgets | telegram-bot-api/telegram-bot-api/WebhookActor.cpp:480-491 | A response with a status from 200 to 299 forgets its event as answered, in update_map_ and in TQueue, and no other |
| WebhookAnswers.ErrorPostpones | telegram-bot-api/telegram-bot-api/WebhookActor.cpp:493-523 | Anything else is an error. With a Retry-After of at least one second the event is tried again exactly that much later, up to an hour; without one at once after the first failure and later after twice its delay or the backoff, whichever is less, which becomes its delay; it is dropped if and only if that is after it expires |
| WebhookAnswers.AnswerFreesConnection | telegram-bot-api/telegram-bot-api/WebhookActor.cpp:608-684 | After an answer the connection is idle again if and only if it was a response that keeps it alive, the address has not changed, and the webhook has not been answering 410 for more than 23 hours; otherwise it is gone; no other connection changes |
| WebhookAnswers.OldConnectionsClose | telegram-bot-api/telegram-bot-api/WebhookActor.cpp:617-684 | Once the address has changed, an answer on a connection opened before ends that connection |
| WebhookAnswers.SentWhenDue | telegram-bot-api/telegram-bot-api/WebhookActor.cpp:533-583 | A request carries the front event of the earliest scheduled queue, whose time has come, over the first idle connection |
| WebhookAnswers.NotSentBeforeItsTime | telegram-bot-api/telegram-bot-api/WebhookActor.cpp:493-545 | In every run, an event that waits is neither sent nor given another time before its time, whatever else happens |
| WebhookLoading.LoadTakes | telegram-bot-api/telegram-bot-api/WebhookActor.cpp:358-449 | A load takes the first events from its start on, where it starts anew at the head after a refused offset, as many as there is room for, at most a thousand; it finds TQueue empty if and only if there are none; without refused offsets all of them are new and the offset moves right behind them |
| WebhookLoading.LoadedIntoQueues | telegram-bot-api/telegram-bot-api/WebhookActor.cpp:397-425 | Every new event joins the queue it names, or one of its own with a larger number than any before; it is due at once, with its expiry, a delay of one second and no failure |
| WebhookLoading.FlagTurnsOn | telegram-bot-api/telegram-bot-api/WebhookActor.cpp:393-395 | tqueue_empty_ is turned on only by a load, and only when TQueue holds nothing at the offset or behind it |
| WebhookLoading.FlagMeansCaughtUp | telegram-bot-api/telegram-bot-api/WebhookActor.cpp:352-395 | In every run, while it is on, no update has been announced since the load that turned it on, and everything TQueue holds at the offset or behind it was pushed after that load |
| WebhookLoading.EveryEventIsLoaded | telegram-bot-api/telegram-bot-api/WebhookActor.cpp:358-449 | In every run without refused offsets, an event that does not expire has been loaded after as many loads with room as there are events up to it that had not been |
| WebhookLoading.RefusedLoadRepeats | telegram-bot-api/telegram-bot-api/WebhookActor.cpp:385-404 | A load after a refused offset brings nothing new if and only if as many of the first events of TQueue as there is room for are loaded already; TQueue is not taken to be empty then |
| WebhookProgress.EverythingCanBeDelivered | telegram-bot-api/telegram-bot-api/WebhookActor.cpp:326-690 | From every state with no lost queue and a connection of the present address, there is a run of loads, requests and successes after which TQueue is empty, nothing is loaded, and every event has been forgotten |
| WebhookProgress.PassIsARun | telegram-bot-api/telegram-bot-api/WebhookActor.cpp:326-350 | A pass of loop is a run of load_updates, create_new_connections and, unless that stopped the actor, one attempt to send more than requests are sent |
| WebhookProgress.PassServes | telegram-bot-api/telegram-bot-api/WebhookActor.cpp:326-350 | A pass that is not stopped leaves no due queue beside an idle connection, unless a queue got lost in it |
| WebhookProgress.ConnectsAsNeeded | telegram-bot-api/telegram-bot-api/WebhookActor.cpp:261-324 | When attempts succeed, connections and pending sockets come to the number of loaded queues within the limit, one until the webhook is verified, at most one after ten seconds without a success and else at least one; new ones are idle and of the present address, old ones stay |
| WebhookProgress.AttemptOutcomes | telegram-bot-api/telegram-bot-api/WebhookActor.cpp:144-222 | What the first attempt does when it opens no connection: flood control nothing, a failure stops an unverified webhook, a proxy socket is pending and verifies it |
| WebhookProgress.VerifiedIsKept | telegram-bot-api/telegram-bot-api/WebhookActor.cpp:789-796 | In every run, a verified webhook is never given up for a connection that cannot be opened |
| WebhookProgress.FirstFailureStops | telegram-bot-api/telegram-bot-api/WebhookActor.cpp:789-796 | The first failure before that gives it up |
| WebhookProgress.SocketReports | telegram-bot-api/telegram-bot-api/WebhookActor.cpp:248-259 | A proxy socket that reports is no longer pending and is ready if and only if it was opened |
| WebhookProgress.StartsCarefully | telegram-bot-api/telegram-bot-api/WebhookActor.cpp:691-699 | A new actor is verified only if it was restored, has read nothing, and opens one connection if it is new and none before it has something to send if it was restored |
| WebhookDelivery.OnlyHandleForgets | telegram-bot-api/telegram-bot-api/WebhookActor.cpp:457-478 | No other callback answers, retries or forgets anything: it loads events, sends a request or leaves the history alone |
| WebhookDelivery.NoDueQueueWaits | telegram-bot-api/telegram-bot-api/WebhookActor.cpp:585-590 | After send_updates no connection is idle or no queue is due at the last reading of the clock, which is one reading per request sent and one more; the one exception is a queue that just got lost because its headers were too long |
| WebhookDelivery.EveryRunIsBounded | telegram-bot-api/telegram-bot-api/WebhookActor.cpp:261-324 | In every state of every run connections, pending sockets and ready sockets together stay within max_connections_, loaded queues stay within twice that, and the idle connections are exactly those without an event |
| WebhookDelivery.UnsolicitedAnswer | telegram-bot-api/telegram-bot-api/WebhookActor.cpp:671-682 | What handle would do with an answer on an idle connection, an input the HTTP layer cannot produce: it is survived if and only if it is an error that closes the connection; a success fires the CHECK, and an error that keeps the connection puts it into the ready list twice |
| WebhookSafety.RunKeeps | telegram-bot-api/telegram-bot-api/WebhookActor.cpp:326-350 | Whatever callbacks come in whatever order, no CHECK fires and the invariant of the four structures holds |
| WebhookSafety.StepKeeps | telegram-bot-api/telegram-bot-api/WebhookActor.cpp:326-350 | The same for one callback in any state that satisfies the invariant |
| WebhookSafety.StartHolds | telegram-bot-api/telegram-bot-api/WebhookActor.cpp:691-699 | The invariant holds before the first callback, for a new webhook and for one restored from the database |
| WebhookSafety.LoadKeeps | telegram-bot-api/telegram-bot-api/WebhookActor.cpp:358-455 | load_updates fires no CHECK, in particular the one that a full actor holds exactly max_loaded_updates_ queues, and keeps the invariant |
| WebhookSafety.LoadOneKeeps | telegram-bot-api/telegram-bot-api/WebhookActor.cpp:397-425 | Loading the next event adds it to update_map_ and to exactly one queue, schedules the queue if it was empty, and adds at most one queue |
| WebhookSafety.BatchIsFresh | telegram-bot-api/telegram-bot-api/WebhookActor.cpp:358-395 | The batch holds at most limit of the events TQueue has at the offset or behind it, and the earliest ones: an event that is left out has a larger id than all of a full batch |
| WebhookSafety.SendUpdateKeeps | telegram-bot-api/telegram-bot-api/WebhookActor.cpp:525-583 | send_update fires no CHECK and keeps the invariant, whether the request goes out, nothing is due or the headers are too long |
| WebhookSafety.HandleKeeps | telegram-bot-api/telegram-bot-api/WebhookActor.cpp:592-689 | handle fires no CHECK for an answer to a request or a hangup, and keeps the invariant |
| WebhookSafety.ForgottenKeeps | telegram-bot-api/telegram-bot-api/WebhookActor.cpp:457-478 | drop_event removes the front of its queue and reschedules the queue under the next event, or removes the queue, and the history stays legal |
| WebhookSafety.RescheduledKeeps | telegram-bot-api/telegram-bot-api/WebhookActor.cpp:511-519 | A retried event stays the front of its queue and the queue is scheduled again at its new time |
| WebhookSafety.CreateConnectionsKeeps | telegram-bot-api/telegram-bot-api/WebhookActor.cpp:261-324 | create_new_connections never exceeds max_connections_, adds only idle connections and leaves what is delivered alone |
| WebhookSafety.SocketReadyKeeps | telegram-bot-api/telegram-bot-api/WebhookActor.cpp:248-259 | A proxy socket that reports moves from pending to ready, or is gone, within the limit |
| WebhookSafety.First410Keeps | telegram-bot-api/telegram-bot-api/WebhookActor.cpp:634-648 | The count of the time since the first 410 answer touches nothing of the delivery |
| WebhookSpec.FirstUnique | telegram-bot-api/telegram-bot-api/WebhookActor.cpp:533-533 | With at most one entry per queue, the first element of queues_ is unique |
| WebhookActor.WebhookActor.constructor | telegram-bot-api/telegram-bot-api/WebhookActor.cpp:691-699 | A new actor is in the start state and satisfies the invariant |
| WebhookActor.WebhookActor.LoadUpdates | telegram-bot-api/telegram-bot-api/WebhookActor.cpp:358-455 | The new state for every offset, batch and limit, with the CHECKs as assertions; the invariant is kept |
| WebhookActor.WebhookActor.LoadBatch | telegram-bot-api/telegram-bot-api/WebhookActor.cpp:397-425 | The loop over the returned events loads them one after the other |
| WebhookActor.WebhookActor.DropEvent | telegram-bot-api/telegram-bot-api/WebhookActor.cpp:457-478 | Update and queue change as the state machine says; the CHECKs hold whenever the state machine does not fail |
| WebhookActor.WebhookActor.OnUpdateOk | telegram-bot-api/telegram-bot-api/WebhookActor.cpp:480-491 | The event is dropped as answered |
| WebhookActor.WebhookActor.OnUpdateError | telegram-bot-api/telegram-bot-api/WebhookActor.cpp:493-523 | The event is retried with the delay and time of the state machine, or dropped as expired |
| WebhookActor.WebhookActor.FirstQueue | telegram-bot-api/telegram-bot-api/WebhookActor.cpp:533-533 | A search of the set finds its first element |
| WebhookActor.WebhookActor.SendUpdate | telegram-bot-api/telegram-bot-api/WebhookActor.cpp:525-583 | One attempt; the status is OK exactly when a request went out, and then an idle connection was used up |
| WebhookActor.WebhookActor.SendUpdates | telegram-bot-api/telegram-bot-api/WebhookActor.cpp:585-590 | The loop ends and repeats the attempt until it is not OK |
| WebhookActor.WebhookActor.ReadAnswer | telegram-bot-api/telegram-bot-api/WebhookActor.cpp:608-662 | What an answer means for the request, the retry delay, the 410 clock and the connection |
| WebhookActor.WebhookActor.Handle | telegram-bot-api/telegram-bot-api/WebhookActor.cpp:592-689 | The new state for every answer and hangup; the CHECK of an idle connection holds and the invariant is kept |
| WebhookActor.WebhookActor.CreateNewConnections | telegram-bot-api/telegram-bot-api/WebhookActor.cpp:261-324 | The new state after both loops and the clearing of ready sockets, for every outcome of the attempts; the invariant is kept |
| WebhookActor.WebhookActor.OpenConnections | telegram-bot-api/telegram-bot-api/WebhookActor.cpp:299-312 | The first loop opens connections until there are enough, flood control stops it or one does not come at once |
| WebhookActor.WebhookActor.UseReadySockets | telegram-bot-api/telegram-bot-api/WebhookActor.cpp:313-323 | The second loop turns ready sockets into connections until there are enough or one fails |
| WebhookActor.WebhookActor.OnSocketReadyAsync | telegram-bot-api/telegram-bot-api/WebhookActor.cpp:248-259 | The new state for a socket that is ready or failed; the invariant is kept |
| WebhookActor.WebhookActor.Loop | telegram-bot-api/telegram-bot-api/WebhookActor.cpp:326-350 | One pass loads, connects and sends unless the actor has been stopped in between, and keeps the invariant |
| WebhookActor.WebhookActor.OnNewUpdates | telegram-bot-api/telegram-bot-api/WebhookActor.cpp:352-356 | New updates make the actor look into TQueue again, and keep the invariant |
| FileStream.FileStreamCursor.UpdateProgress | telegram-bot-api/telegram-bot-api/FileStreamCursor.cpp:11-24 | A report is refused, changing nothing, exactly when it does not lie within the file; otherwise only a prefix from 0 on moves the downloaded end, upwards or to the size of a complete file |
| FileStream.FileStreamCursor.ReadSize | telegram-bot-api/telegram-bot-api/FileStreamCursor.cpp:26-31 | The result is 0 or can be committed, and it is the largest number up to a chunk that can be |
| FileStream.FileStreamCursor.Commit | telegram-bot-api/telegram-bot-api/FileStreamCursor.cpp:33-39 | Bytes are committed exactly when they continue what was committed and lie within what was downloaded and announced; otherwise nothing changes |
| FileStreamResponse.CursorIsOrdered | telegram-bot-api/telegram-bot-api/FileStreamCursor.cpp:11-39 | In every state of every run, once the file is announced, delivered <= downloaded <= announced, at most one chunk is outstanding, and a download reported complete is all there |
| FileStreamResponse.BodyIsTheFile | telegram-bot-api/telegram-bot-api/FileStream.cpp:241-294 | The body is at any time a prefix of the file, committed bytes are part of it, and it never exceeds the announced length; the response ends well after 200 headers if and only if the stream completed, and then the body is the whole file |
| FileStreamResponse.BodyIsPrefix | telegram-bot-api/telegram-bot-api/FileStream.cpp:241-268 | Chunks that each start where the last ended and were read faithfully make up a prefix of the file |
| FileStreamResponse.EndsOnce | telegram-bot-api/telegram-bot-api/FileStream.cpp:338-422 | A response is ended at most once, by its last output, and exactly when the stream has finished |
| FileStreamResponse.HeadersOrJson | telegram-bot-api/telegram-bot-api/FileStream.cpp:308-336 | The 200 headers come first, once, and announce the size; a JSON error carries a status from 400 to 599 and is sent only if those headers never were |
| FileStreamResponse.HoldsItsPath | telegram-bot-api/telegram-bot-api/FileStream.cpp:434-447 | At any time the stream holds a reference on exactly its local path, takes and releases in turn, and holds none once torn down |
| FileStreamResponse.CommitIsRefused | telegram-bot-api/telegram-bot-api/FileStream.cpp:278-283 | A flushed chunk is committed if and only if its bytes are still reported as downloaded; it is refused only when it is the first one, and then the response is cut |
| FileStreamResponse.OnlyRevocationForgets | telegram-bot-api/telegram-bot-api/FileStream.cpp:151-161 | The downloaded end moves down only when nothing has been delivered and a completed download is taken back |
| FileStreamResponse.RevokedInFlight | telegram-bot-api/telegram-bot-api/FileStream.cpp:123-132 | A concrete run, for a file of any size, in which completion is revoked while the only chunk is in flight: its commit is refused and the response is cut |
| FileStreamResponse.NeverParks | telegram-bot-api/telegram-bot-api/FileStream.cpp:171-239 | After any report of TDLib or flush, with a disk that works, no downloaded byte is left unsent while no chunk is in flight |
| FileStreamResponse.FlushDelivers | telegram-bot-api/telegram-bot-api/FileStream.cpp:270-294 | With the file complete on disk, each flush moves the stream on by the chunk in flight and either completes it or puts the next chunk on its way |
| FileStreamResponse.DeliversTheFile | telegram-bot-api/telegram-bot-api/FileStream.cpp:270-294 | With the file complete on disk, finitely many flushes complete the response with exactly the bytes of the file, for every size of file and chunk |
| FileStreamOutcome.AnnouncementOutcome | telegram-bot-api/telegram-bot-api/FileStream.cpp:54-102 | With a working disk an announcement is refused, with status 500, 413 or 502, exactly for senseless numbers, a size beyond either limit, progress outside the file, or a complete download that is not all there; otherwise its size and path are taken on and the response goes on |
| FileStreamOutcome.ReportOutcome | telegram-bot-api/telegram-bot-api/FileStream.cpp:104-169 | With a working disk a later report ends the response exactly for another size, progress outside the file, a download that stopped after delivery began, or a complete one that is not all there; a revoked completion asks for a new download if there is a client |
| FileStreamOutcome.ReadOutcome | telegram-bot-api/telegram-bot-api/FileStream.cpp:171-268 | What reading comes to on any disk: what goes out, as much as a chunk, the connection and the download allow, when the file is waited for, when it is downloaded again and when the response ends with 500 |
| FileStreamOutcome.CompleteOutcome | telegram-bot-api/telegram-bot-api/FileStream.cpp:338-356 | A delivered file ends the response well unless its headers have to go out now and cannot be built |
| FileStreamOutcome.ErrorOutcome | telegram-bot-api/telegram-bot-api/FileStream.cpp:358-432 | An error ends the response with its own status if that is an error status, with 502 otherwise, and a timeout with 504; once the headers are out it is cut |
| FileStreamOutcome.AnnouncesWhatIsAllowed | telegram-bot-api/telegram-bot-api/FileStream.cpp:54-102 | In no run does a 200 response announce more than the configured or the largest size |
| FileStreamSafety.RunKeeps | telegram-bot-api/telegram-bot-api/FileStream.cpp:54-432 | The invariant of the stream holds after every run |
| FileStreamSafety.StepKeeps | telegram-bot-api/telegram-bot-api/FileStream.cpp:54-432 | Every callback keeps it |
| FileStreamSafety.FailKeeps | telegram-bot-api/telegram-bot-api/FileStream.cpp:373-422 | fail and abort end the stream with one terminal action: a JSON error if no headers went out, a dropped connection if they did |
| FileStreamSafety.FinishKeeps | telegram-bot-api/telegram-bot-api/FileStream.cpp:338-356 | finish, reached with a complete file and nothing in flight, completes the stream unless the headers cannot be built; its own abort is never taken |
| FileStreamSafety.TryReadKeeps | telegram-bot-api/telegram-bot-api/FileStream.cpp:171-239 | try_read keeps the invariant, whatever the disk does |
| FileStreamSafety.OnFileDataKeeps | telegram-bot-api/telegram-bot-api/FileStream.cpp:241-268 | A chunk that is handed on continues the body exactly |
| FileStreamSafety.OnFileReadyKeeps | telegram-bot-api/telegram-bot-api/FileStream.cpp:54-102 | The announcement of the file keeps the invariant |
| FileStreamSafety.OnFileProgressKeeps | telegram-bot-api/telegram-bot-api/FileStream.cpp:104-149 | A later report keeps it, revoked completions included |
| FileStreamSafety.DropStaleKeeps | telegram-bot-api/telegram-bot-api/FileStream.cpp:151-161 | Dropping a stale state keeps it, also with a chunk in flight |
| FileStreamSafety.OnChunkFlushedKeeps | telegram-bot-api/telegram-bot-api/FileStream.cpp:270-294 | A flush keeps it, whether the commit is accepted or refused |
| FileStreamSafety.AdoptKeeps | telegram-bot-api/telegram-bot-api/FileStream.cpp:113-122 | Changing the path releases the old one before it retains the new one |
| FileStream.FileStreamConnection.Fail | telegram-bot-api/telegram-bot-api/FileStream.cpp:373-396 | At most one terminal action, by whether headers were sent; the mutual calls with abort end |
| FileStream.FileStreamConnection.Abort | telegram-bot-api/telegram-bot-api/FileStream.cpp:398-422 | The same with the status made an HTTP error; the mutual calls with fail end |
| FileStream.FileStreamConnection.OnFileError | telegram-bot-api/telegram-bot-api/FileStream.cpp:358-371 | Either way the error becomes one terminal action |
| FileStream.FileStreamConnection.SendHeaders | telegram-bot-api/telegram-bot-api/FileStream.cpp:308-336 | The headers go out once; false means that the stream was ended instead |
| FileStream.FileStreamConnection.Finish | telegram-bot-api/telegram-bot-api/FileStream.cpp:338-356 | The new state, messages and outputs: a complete file with nothing in flight gets its headers if it has none and is ended well; anything else is aborted |
| FileStream.FileStreamConnection.OnFileData | telegram-bot-api/telegram-bot-api/FileStream.cpp:241-268 | The new state and outputs: a chunk of exactly the expected size becomes the one outstanding write behind the headers; anything else is aborted |
| FileStream.FileStreamConnection.DropStaleDownloadState | telegram-bot-api/telegram-bot-api/FileStream.cpp:151-161 | The completion and the open file are forgotten, and the downloaded end only if nothing was delivered |
| FileStream.FileStreamConnection.TryRead | telegram-bot-api/telegram-bot-api/FileStream.cpp:171-239 | The new state and outputs for every result of opening and reading: finish, wait, ask for the file again, abort or hand on a chunk |
| FileStream.FileStreamConnection.OnFileReady | telegram-bot-api/telegram-bot-api/FileStream.cpp:54-102 | The new state, references and outputs for every announcement, accepted or refused with its status |
| FileStream.FileStreamConnection.OnFileProgress | telegram-bot-api/telegram-bot-api/FileStream.cpp:104-149 | The new state, references and outputs for every report: a changed size, a new path, a revoked completion, a stopped or incomplete download |
| FileStream.FileStreamConnection.OnChunkFlushed | telegram-bot-api/telegram-bot-api/FileStream.cpp:270-294 | The new state and outputs for a flush that failed, one whose commit is refused and one that is committed |
| FileStream.FileStreamConnection.TearDown | telegram-bot-api/telegram-bot-api/FileStream.cpp:434-447 | The file is closed and the path released |
| FileStream.FileStreamConnection.Receive | telegram-bot-api/telegram-bot-api/FileStream.cpp:54-432 | Whatever arrives, the object moves as the state machine and keeps the invariant |
| DisjointSet.Find | telegram-bot-api/td/SplitSource.php:3-8 | The recursion ends; it returns the root of the element and compresses the path, and the partition stays the same |
| DisjointSet.Union | telegram-bot-api/td/SplitSource.php:10-21 | Whichever way the link goes, two elements are together afterwards if and only if they were, or one was with each of the two joined |
| DisjointSet.RootsAreUnique | telegram-bot-api/td/SplitSource.php:3-8 | The parents alone determine the partition |
| DisjointSet.Compress | telegram-bot-api/td/SplitSource.php:3-8 | Pointing an element at its root keeps the forest and its partition |
| SplitSource.CollectDeps | telegram-bot-api/td/SplitSource.php:157-178 | The ids collected for a name are exactly those of the functions that mention it, parse and store counting as one name |
| SplitSource.LinkAll | telegram-bot-api/td/SplitSource.php:180-184 | After the loop over one name its functions are together, nothing is split, and nothing unconnected is joined |
| SplitSource.Group | telegram-bot-api/td/SplitSource.php:157-184 | For every outcome of the random links, two functions have the same root if and only if a chain of shared names connects them |
| SplitSource.ConnectedBothWays | telegram-bot-api/td/SplitSource.php:157-184 | Being connected by a chain of shared names is symmetric and transitive |
| SplitSource.BuildSets | telegram-bot-api/td/SplitSource.php:185-195 | There is one set per root, it holds the texts of exactly its functions in order, and the sizes add up to the length of all texts |
| SplitSource.Arsort | telegram-bot-api/td/SplitSource.php:196-196 | The sets are reordered by size, the largest first, and none is lost |
| SplitSource.Balance | telegram-bot-api/td/SplitSource.php:198-204 | Files and file sizes are those of the greedy assignment |
| SplitSource.Split | telegram-bot-api/td/SplitSource.php:152-204 | The whole: too few functions are refused, otherwise the files hold the sets of connected functions, assigned greedily in order of size |
| SplitSource.FunctionsStayTogether | telegram-bot-api/td/SplitSource.php:180-204 | Every function is a stretch of the text of its file, and connected functions are in the same file |
| SplitOrder.TiedByNames | telegram-bot-api/td/SplitSource.php:157-176 | A name ties two functions if and only if both mention it, or each mentions one of LogEvent, parse and store |
| SplitOrder.ConnectedKeepTheirOrder | telegram-bot-api/td/SplitSource.php:185-204 | Connected functions come in their new file in the order of the source, one behind the other |
| SplitSource.FilesAddUp | telegram-bot-api/td/SplitSource.php:185-204 | The new files are together exactly as long as the functions |
| SplitSource.FilesAreEven | telegram-bot-api/td/SplitSource.php:196-204 | m times a file is at most the total and (m - 1) times the largest set; two files differ by at most the largest set; a file is within 4/3 - 1/(3m) of the largest file of any other assignment of the sets |
| SplitBalance.LoadsAddUp | telegram-bot-api/td/SplitSource.php:198-204 | However sets are assigned, the file sizes add up to all of them |
| SplitBalance.LastSet | telegram-bot-api/td/SplitSource.php:200-204 | The last set of a file was put there when no file had less |
| SplitBalance.FairShare | telegram-bot-api/td/SplitSource.php:200-204 | The greedy bound against the fair share, for any order of the sets |
| SplitBalance.Spread | telegram-bot-api/td/SplitSource.php:200-204 | Two files differ by at most the largest set, for any order of the sets |
| SplitBalance.LargeSetsFit | telegram-bot-api/td/SplitSource.php:196-204 | When three sets of the size of the next exceed the best largest file, the greedy choice stays within that best |
| SplitBalance.NearlyBest | telegram-bot-api/td/SplitSource.php:196-204 | For sets in descending order, 3m times any file is at most (4m - 1) times the largest file of any assignment |
| SplitBalance.BoundIsReached | telegram-bot-api/td/SplitSource.php:196-204 | Two files and sets of 3, 3, 2, 2 and 2 reach that bound |
| WorkdirCleanup.AdmissionLeavesTheMinimum | telegram-bot-api/telegram-bot-api/WorkdirCleanupManager.cpp:75-101 | A download is admitted if and only if the free space is known and the minimum remains after it; the one exception is a disk that reports the largest 64-bit number |
| WorkdirCleanup.DeleteWithRetries | telegram-bot-api/telegram-bot-api/WorkdirCleanupManager.cpp:126-135 | True if and only if one of four attempts succeeds |
| WorkdirCleanup.Scan | telegram-bot-api/telegram-bot-api/WorkdirCleanupManager.cpp:145-161 | The scanned files are the candidates among those found, in the order found and with their byte count; those no stream holds are collected |
| WorkdirCleanup.SortByAccessTime | telegram-bot-api/telegram-bot-api/WorkdirCleanupManager.cpp:167-169 | The files in order of access time, none lost |
| WorkdirCleanup.DeleteDoomed | telegram-bot-api/telegram-bot-api/WorkdirCleanupManager.cpp:170-189 | The deleted files are a prefix of the sorted candidates; without a failure its length is the larger of the number of expired files and the least number that reaches the target, and a failure stops the round at that file |
| WorkdirCleanup.DoomedAt | telegram-bot-api/telegram-bot-api/WorkdirCleanupManager.cpp:172-177 | With the files before it gone, a candidate is within that length if and only if the target is still exceeded or it has expired |
| WorkdirCleanup.ExcessIsLeast | telegram-bot-api/telegram-bot-api/WorkdirCleanupManager.cpp:173-173 | Before that many files are deleted the target is exceeded, from then on it is not |
| WorkdirCleanup.RunWorkdirCleanup | telegram-bot-api/telegram-bot-api/WorkdirCleanupManager.cpp:137-193 | The whole round: the counts and bytes of the candidates found, what was deleted and in which order, its byte count, the failure count and the emergency flag |
| WorkdirCleanup.OldestUnusedGoFirst | telegram-bot-api/telegram-bot-api/WorkdirCleanupManager.cpp:166-189 | No deleted file is held by a stream, and no unused file that stays was used longer ago |
| WorkdirCleanup.EnoughAndNoMore | telegram-bot-api/telegram-bot-api/WorkdirCleanupManager.cpp:166-189 | Without failures nothing expired is left and the target is met or nothing is left to delete; and the last deleted file was needed for one of the two |
| WorkdirCleanup.TtlIsExact | telegram-bot-api/telegram-bot-api/WorkdirCleanupManager.cpp:171-171 | The 64-bit conversion of the time to live is exact if and only if it is below 18446744074 seconds |
| WorkdirCandidates.ScansExactly | telegram-bot-api/telegram-bot-api/WorkdirCleanupManager.cpp:55-124 | Of the regular files found, exactly those are scanned whose path is that of the workdir, a slash and a non-empty rest without two dots in a row, and does not end in .binlog, .binlog.new, .sqlite, .sqlite-wal, .sqlite-shm or .sqlite-journal |
| WorkdirCandidates.OffersExactly | telegram-bot-api/telegram-bot-api/WorkdirCleanupManager.cpp:145-161 | Of those, exactly the ones may be deleted whose counter is missing or not above zero |
| WorkdirCandidates.DeletesNothingElse | telegram-bot-api/telegram-bot-api/WorkdirCleanupManager.cpp:55-193 | Every deleted file was found, lies in the workdir, and is none of TDLib's own files in any directory |
| WorkdirCandidates.AgeDecides | telegram-bot-api/telegram-bot-api/WorkdirCleanupManager.cpp:170-189 | Below the threshold and without failures exactly those unused files are deleted that were last used a time to live ago or longer |
| WorkdirCandidates.SizesAddUp | telegram-bot-api/telegram-bot-api/WorkdirCleanupManager.cpp:145-156 | A file counts for its size, and one of negative size for nothing |
| WorkdirReferences.ProtectedWhileHeld | telegram-bot-api/telegram-bot-api/WorkdirCleanupManager.cpp:196-210 | In every state of every run a candidate is protected if and only if a stream holds it whose retain has been delivered and whose release has not |
| WorkdirReferences.CleanupSparesHeldFiles | telegram-bot-api/telegram-bot-api/WorkdirCleanupManager.cpp:178-181 | No cleanup, whenever it runs, deletes a file that a stream is known to hold |
| WorkdirReferences.CounterAndMessages | telegram-bot-api/telegram-bot-api/WorkdirCleanupManager.cpp:196-210 | The counter of a path is the number of streams that hold it less undelivered retains plus undelivered releases |
| WorkdirReferences.DeliverKeeps | telegram-bot-api/telegram-bot-api/WorkdirCleanupManager.cpp:196-210 | Delivering one message keeps every counter equal to the number of known holders, and no counter at zero or below is kept |
| WorkdirReferences.RunKeeps | telegram-bot-api/telegram-bot-api/WorkdirCleanupManager.cpp:196-210 | The same over every run of streams, deliveries and cleanups |
| WorkdirReferences.StreamsSendLegally | telegram-bot-api/telegram-bot-api/FileStream.cpp:434-447 | What a file stream sends in any run is what the protocol asks of a stream |
| WorkdirReferences.UndeliveredRetainDoesNotProtect | telegram-bot-api/telegram-bot-api/FileStream.cpp:68-71 | Until its retain is delivered, a file a stream reads may be deleted |
| WorkdirReferences.WorkdirCleanupManager.RetainFile | telegram-bot-api/telegram-bot-api/WorkdirCleanupManager.cpp:196-200 | The counter of a candidate goes up by one; other paths are ignored |
| WorkdirReferences.WorkdirCleanupManager.ReleaseFile | telegram-bot-api/telegram-bot-api/WorkdirCleanupManager.cpp:202-210 | The counter goes down by one and disappears at zero |
| WorkdirReferences.WorkdirCleanupManager.RunCleanup | telegram-bot-api/telegram-bot-api/WorkdirCleanupManager.cpp:238-255 | A round over the files found and the counters at that time, its statistics and the request to shut down |
| TableMigration.LessIsStrict | backend/scripts/build-data-migrator.ts:157-159 | The comparison of composite keys is a strict total order on keys of one length |
| TableMigration.LessIsTransitive | backend/scripts/build-data-migrator.ts:157-159 | It is transitive |
| TableMigration.LessAtFirstDifference | backend/scripts/build-data-migrator.ts:157-159 | Keys compare as their first differing columns do |
| TableMigration.BehindTheLastKey | backend/scripts/build-data-migrator.ts:198-209 | The query behind the last key copied, up to the greatest key, selects exactly the rows not yet copied |
| TableMigration.NextBatch | backend/scripts/build-data-migrator.ts:206-209 | A batch is the next stretch of the table |
| TableMigration.FlattenThenRows | backend/scripts/build-data-migrator.ts:214-220 | The flat parameter list, taken row by row by the placeholders, gives the rows back |
| TableMigration.RowsPerInsert | backend/scripts/build-data-migrator.ts:211-211 | The largest number of rows whose parameters fit the limit, but at least one |
| TableMigration.ChunkValues | backend/scripts/build-data-migrator.ts:214-218 | The converted values of the chunk in order, or a refusal exactly when some value cannot be converted |
| TableMigration.InsertBatch | backend/scripts/build-data-migrator.ts:211-221 | The chunks concatenate to the batch; no statement binds more than allowed; on a bad value whole chunks before it are there |
| TableMigration.MigrateTable | backend/scripts/build-data-migrator.ts:184-234 | The loop ends for every batch size; every source row is inserted exactly once in key order and copied equals sourceCount; a table without a key is refused unless empty; a bad value leaves a converted prefix |
| TableMigration.ValidateData | backend/scripts/build-data-migrator.ts:349-360 | Passes if and only if for every table the target holds what was copied and what the snapshot counted |
| Publication.PublishMigratedFile | backend/scripts/data-migrator-utils.ts:240-264 | For every pattern of failures the files and the outcome are those of the step-by-step specification, which PublishOne characterises |
| Publication.PublishMigrationArtifacts | backend/scripts/data-migrator-utils.ts:269-293 | For every pattern of failures the files and the outcome are those of the step-by-step specification, which PublishIsSafe characterises |
| Publication.PublishOne | backend/scripts/data-migrator-utils.ts:240-264 | With room for the backup, for every pattern of failures: success publishes and backs up; a plain error changes nothing; an aggregate error leaves the old file as the backup and the new one where it was; no content is lost |
| Publication.PublishIsSafe | backend/scripts/data-migrator-utils.ts:269-293 | With room for the backups, for every pattern of failures: success publishes both; a plain error leaves the file system as before; an aggregate error loses no content, with each old artifact in its place or its backup; no other file is touched |
| Publication.TakenBackupIsLost | backend/scripts/data-migrator-utils.ts:246-247 | For every pattern of failures and every outcome, what is found only at a taken backup path survives if and only if there is no file to back up or moving it there fails; and the promise of PublishOne holds if and only if it survives |
| Publication.RoomIsNeeded | backend/scripts/data-migrator-utils.ts:240-264 | The promise of PublishOne holds under every pattern of failures if and only if the backup path is free or there is no file to replace |
| Publication.PlainErrorThatLoses | backend/scripts/data-migrator-utils.ts:249-263 | Without that room, when the second rename alone fails: the error is plain, the file is back in its place, and what was at the backup path is gone |
| Publication.TakenBackupsAreLost | backend/scripts/data-migrator-utils.ts:269-293 | Publishing both: under any one pattern of failures, what is found only at a backup path survives if and only if nothing is moved there |
| Publication.RoomForBothIsNeeded | backend/scripts/data-migrator-utils.ts:269-293 | The promise of PublishIsSafe holds under every pattern of failures if and only if the report has room for its backup and, when there is a new report, so has the database |
| Publication.DatabaseErrorThatLoses | backend/scripts/data-migrator-utils.ts:278-292 | Without room for the database, when its second rename alone fails: the error is plain, the report is taken back, and only what was at the backup path of the database is gone |
| Publication.PublishOutcome | backend/scripts/data-migrator-utils.ts:240-264 | Publishing succeeds if and only if there is a new file and no rename fails; the error is an aggregate if and only if the old file was moved away and could not be moved back |
| Publication.PlainIsUnchanged | backend/scripts/data-migrator-utils.ts:240-264 | With room for the backup the error is plain if and only if nothing has changed |
| Publication.PublishBothSucceeds | backend/scripts/data-migrator-utils.ts:269-293 | Publishing both succeeds if and only if there are both new files and no rename fails |
| Publication.BothPlainIsUnchanged | backend/scripts/data-migrator-utils.ts:269-293 | With room for both backups the error is plain if and only if nothing has changed |
| SessionLocks.KeysNameTheirFile | backend/src/file/cache-session-coordinator.ts:464-471 | The key of a spool names its file; the key of a build does if and only if the file id does not contain ":v" |
| SessionLocks.InOrderOfArrival | backend/src/file/cache-session-coordinator.ts:440-462 | In every state of every run, a job has entered only if all that came before it for its lock are done: mutual exclusion and arrival order |
| SessionLocks.DeletionIsAlone | backend/src/file/cache-session-coordinator.ts:464-505 | In every run, while the deletion callback of an invalidation of a file runs, every job under a key of that file, for any version or the spool, is done, if and only if the file id is not empty and does not contain ":v" |
| SessionLocks.NobodyEntersBehindTheFence | backend/src/file/cache-session-coordinator.ts:440-457 | In every run, from the start of an invalidation of a file to its end nobody enters under a key of that file and newcomers are refused, under the same condition and only then |
| SessionLocks.MarkedIdIsNotDrained | backend/src/file/cache-session-coordinator.ts:464-497 | For every file id with ":v" a run in which a build of the file runs beside the deletion of the same file |
| SessionLocks.EmptyIdIsNotFenced | backend/src/file/cache-session-coordinator.ts:446-447 | For the empty file id a run in which a session enters while its deletion runs |
| SessionLocks.MarkedIdExample | backend/src/file/cache-session-coordinator.ts:464-471 | The ids "a:vb" and "" are such ids |
| SessionAdmission.LetsInOthers | backend/src/file/cache-session-coordinator.ts:440-471 | In every run, as long as a file is not being invalidated its sessions are queued and entered, whatever other files are, if and only if its id does not contain ":v" or begins with it |
| SessionAdmission.RefusedExactlyWhileInvalidated | backend/src/file/cache-session-coordinator.ts:440-457 | In every run, for an id that is not empty and without ":v", a session is refused on arrival and turned away after its wait if and only if the file is being invalidated |
| SessionAdmission.MistakenFor | backend/src/file/cache-session-coordinator.ts:464-471 | For every other id a run in which its build is refused because another file is invalidated |
| SessionAdmission.WaitsForItsLockOnly | backend/src/file/cache-session-coordinator.ts:446-451 | In every run, a job can go on if and only if all that came before it for its lock are done |
| SessionAdmission.DrainsItsOwn | backend/src/file/cache-session-coordinator.ts:492-497 | After a successful tearing down an invalidation waits for the last job of every session lock of its file and for nothing else; after a failed one it is over |
| SessionAdmission.DeletesAfterClearing | backend/src/file/cache-session-coordinator.ts:492-498 | In every run, nothing is deleted before the sessions have been torn down |
| SessionAdmission.InvalidationsGoOn | backend/src/file/cache-session-coordinator.ts:478-505 | An invalidation is never refused: it is queued, clears when its turn comes and deletes when its drain is over |
| SessionLocks.NeverStuck | backend/src/file/cache-session-coordinator.ts:440-505 | As long as a job is left, some job can go on |
| SessionLocks.NextKeeps | backend/src/file/cache-session-coordinator.ts:440-505 | Every step of every job keeps the queues, the fence and what a draining invalidation waits for in agreement |
| SessionLocks.ClearedDrains | backend/src/file/cache-session-coordinator.ts:494-497 | The tails found once the fence is up cover every session job of the file |
| SessionLocks.DrainedDrains | backend/src/file/cache-session-coordinator.ts:497-498 | When the tails are done, every session job of the file is |
| SessionLocks.OneInvalidation | backend/src/file/cache-session-coordinator.ts:483-488 | Two invalidations of one file are never in progress at once |
| SessionLocks.CacheSessionLocks.WithSessionLock | backend/src/file/cache-session-coordinator.ts:440-450 | Refused behind the fence, queued otherwise |
| SessionLocks.CacheSessionLocks.WithFileInvalidation | backend/src/file/cache-session-coordinator.ts:483-488 | Queued behind earlier invalidations of the file |
| SessionLocks.CacheSessionLocks.EnterSession | backend/src/file/cache-session-coordinator.ts:450-456 | Enters exactly when no invalidation began while it waited |
| SessionLocks.CacheSessionLocks.RaiseFence | backend/src/file/cache-session-coordinator.ts:488-490 | The fence goes up |
| SessionLocks.CacheSessionLocks.CollectTails | backend/src/file/cache-session-coordinator.ts:493-496 | The tails of the queues of the file are what is awaited |
| SessionLocks.CacheSessionLocks.BeginDeletion | backend/src/file/cache-session-coordinator.ts:497-498 | The deletion starts with every session job of the file done |
| SessionLocks.CacheSessionLocks.Exit | backend/src/file/cache-session-coordinator.ts:457-461 | The queue moves on and an empty one is forgotten |
| SessionLeases.ReturnedExactlyOnce | backend/src/file/cache-session-coordinator.ts:367-419 | Over every interleaving of requests and sessions, each reservation and slot is returned at most once, and is out if and only if an undecided request or a running session holds it |
| SessionLeases.NothingLeaks | backend/src/file/cache-session-coordinator.ts:817-832 | When no request is in progress and no session runs, everything borrowed has been returned exactly once |
| SessionLeases.ConsumedIsWritten | backend/src/file/cache-session-coordinator.ts:775-777 | What a session consumed of its reservation is what it wrote, and never exceeds the expected size |
| SessionJoins.JoinsWhatItAskedFor | backend/src/file/cache-session-coordinator.ts:549-634 | In every run, a request is served by a session of its kind, file and size, and never by one whose content version is known to differ |
| SessionJoins.ActiveBuildDecides | backend/src/file/cache-session-coordinator.ts:588-611 | In every run, while a build of the file is active, a request of its size and no version known to differ joins it, one of another size fails, and one of a version known to differ aborts it |
| SessionJoins.OneActiveBuild | backend/src/file/cache-session-coordinator.ts:588-642 | In every run, at most one build of a file is active |
| SessionJoins.BuildDecision | backend/src/file/cache-session-coordinator.ts:588-642 | Which of joining, failing, aborting and starting a request for a build comes to, by the entry of its file, its version, its size, the fence and the shutdown |
| SessionJoins.SpoolDecision | backend/src/file/cache-session-coordinator.ts:884-906 | Which of joining, failing, tearing down and starting a request for a spool comes to |
| SessionJoins.ReplacedStarts | backend/src/file/cache-session-coordinator.ts:903-934 | After the tearing down the request starts its own spool, except during shutdown and behind the fence |
| SessionJoins.AskedOutsideTheFence | backend/src/file/cache-session-coordinator.ts:376-376 | A request is turned away at once exactly behind the fence |
| SessionJoins.FenceFollows | backend/src/file/cache-session-coordinator.ts:367-376 | A file is behind the fence exactly from the step that raises it to the one that takes it down, and shutdown lasts |
| SessionJoins.EndedBuildLeaves | backend/src/file/cache-session-coordinator.ts:826-831 | A build that has ended is forgotten, and no other entry changes |
| SessionJoins.TornSpoolLeaves | backend/src/file/cache-session-coordinator.ts:1243-1256 | A spool that is torn down fails and leaves the map |
| SessionJoins.SessionEnds | backend/src/file/cache-session-coordinator.ts:1041-1077 | How a session ends is recorded, and a failed spool leaves the map |
| SessionJoins.AbortMarks | backend/src/file/cache-session-coordinator.ts:629-635 | An abort marks a session that has not ended as failed; shutdown forgets every spool |
| SessionLeases.SlotDeniedKeeps | backend/src/file/cache-session-coordinator.ts:409-411 | When the slot cannot be had the reservation is returned |
| SessionLeases.DecideBuildKeeps | backend/src/file/cache-session-coordinator.ts:588-642 | Whatever a request for a build decides, leases and tokens stay accounted for; BuildDecision says what it decides |
| SessionLeases.DecideSpoolKeeps | backend/src/file/cache-session-coordinator.ts:884-934 | The same for a spool; SpoolDecision says what it decides |
| SessionLeases.CaughtAgain | backend/src/file/cache-session-coordinator.ts:873-879 | Releasing once more in the caller changes nothing |
| SessionLeases.FinishKeeps | backend/src/file/cache-session-coordinator.ts:1067-1076 | However a session ends, its lease is returned |
| SessionLeases.NextKeeps | backend/src/file/cache-session-coordinator.ts:367-419 | Every step keeps the account of who holds what |
| CacheBuild.AcquireSessionResources | backend/src/file/cache-session-coordinator.ts:367-419 | Both resources or none: what was borrowed on a failed way is returned |
| CacheBuild.SessionLease.Release | backend/src/file/cache-session-coordinator.ts:402-407 | However often it is called, each resource is returned once |
| CacheBuild.WriteChunks | backend/src/file/cache-session-coordinator.ts:760-780 | The loop ends well if and only if nothing was aborted, every write worked and there is not too much; consumed equals written, and the file is a prefix of what was sent |
| CacheBuild.RunBuildSession | backend/src/file/cache-session-coordinator.ts:695-832 | The file is published if and only if nothing went wrong, and then it is what the upstream sent, of the expected size; otherwise the session failed and no file is left; the lease is returned either way; completed and failed together mean an abort during the rename |
| BuildRun.PublishesWhatCame | backend/src/file/cache-session-coordinator.ts:695-832 | Over every run of the build, with an abort at any await and every operation failing or not: a file is published if and only if the build completes, it is what was received, of the announced length; consumed equals received; the lease is given back once, at the end, when no temporary file is left; a build that did not complete has failed and its listeners know |
| BuildRun.CompletesExactly | backend/src/file/cache-session-coordinator.ts:695-832 | A build that has ended is complete if and only if everything it waited for went well, the upstream sent exactly what was announced, and it was not aborted before its last look |
| BuildRun.AbortedInTime | backend/src/file/cache-session-coordinator.ts:790-816 | An error before the build has looked at it for the last time settles it: in no continuation does it complete or publish |
| BuildRun.ReceivesNothingMore | backend/src/file/cache-session-coordinator.ts:760-780 | In every run, after an error nothing more is received or consumed, apart from a chunk whose write is under way |
| BuildRun.CompletedAndFailed | backend/src/file/cache-session-coordinator.ts:790-806 | A build that completes has failed too if and only if it had before or was aborted after that look, while the file was measured or renamed |
| BuildRun.AbortedWhileRenaming | backend/src/file/cache-session-coordinator.ts:790-806 | A concrete run of that kind |
| BuildRun.BuildIsASession | backend/src/file/cache-session-coordinator.ts:695-832 | Every step of the build is one of the steps of a session its followers are proved against, or none that they notice |
| BuildRun.FollowersGetWhatIsPublished | backend/src/file/cache-session-coordinator.ts:695-832 | Build and follower together, under every interleaving: what a follower has received at any moment is the part of the file that is published later, if one is; a follower whose stream has ended had its whole range |
| Follower.PushesTheRange | backend/src/file/cache-session-coordinator.ts:1361-1450 | Under every interleaving, what was pushed is the file from the start of the range on, in order; no read goes past what was written; a build follower that ends has delivered the whole range, and so has a spool follower that passed its end |
| Follower.ParkedOnlyWithoutWork | backend/src/file/cache-session-coordinator.ts:1298-1336 | A parked follower has read all there is and its session has not ended, except between recording a failure and announcing it |
| Follower.ParkedWhileFailing | backend/src/file/cache-session-coordinator.ts:808-816 | A concrete run through that window |
| Follower.TurnReadsWhatIsThere | backend/src/file/cache-session-coordinator.ts:1361-1450 | A turn reads all there is of the range up to a chunk of 256 KiB; it ends only behind the range, waits only when nothing is there, and fails only with the session |
| Follower.PushesWhatWasRead | backend/src/file/cache-session-coordinator.ts:1424-1442 | A read is pushed as it is, and the pump goes on exactly if the consumer takes more |
| Follower.WaitsToBeAsked | backend/src/file/cache-session-coordinator.ts:1361-1450 | In every run, until the consumer asks again nothing is read or pushed |
| Follower.EndsEarly | backend/src/file/cache-session-coordinator.ts:1424-1429 | A follower ends before its range is through if and only if it follows a completed spool and a read of bytes that are there returned none |
| Follower.EndsEarlyAfterAll | backend/src/file/cache-session-coordinator.ts:1424-1429 | A concrete run: a completed spool of one byte, a read of it that returns none, and the stream ends with nothing delivered |
| Follower.DeliversTheRest | backend/src/file/cache-session-coordinator.ts:1397-1442 | Behind a complete session there is a run, of full reads, that delivers the rest of the range and ends the stream |
| Follower.EveryRunDelivers | backend/src/file/cache-session-coordinator.ts:1361-1450 | Behind a complete session, in every run without a failure in which reads return at least a byte: there are at most as many reads as bytes left, that many reads deliver the whole range, turns and reads together are bounded, the stream ends only with the whole range delivered, and until then the pump can go on or the consumer has to ask |
| Follower.NextKeeps | backend/src/file/cache-session-coordinator.ts:1361-1450 | Every step of writer, pump and consumer keeps the invariant |
| DirectRelay.Relay | backend/src/file/cache-session-coordinator.ts:1138-1162 | The yielded slices concatenate to the requested range of the content, whatever the chunks are; none is empty; the first chunk that begins past the end is the last one taken |
| DirectRelay.RangeIsInclusive | backend/src/file/cache-session-coordinator.ts:1138-1162 | The range holds exactly the bytes from start to end, both included, as far as there are any |
| DirectRelay.PastTheEnd | backend/src/file/cache-session-coordinator.ts:1146-1146 | Chunks past the end add nothing |
| DirectRelay.RangeOfMore | backend/src/file/cache-session-coordinator.ts:1147-1154 | What one more chunk adds to the range |

## Left out

- WebhookSafety.BatchIsFresh: TQueue is an ordered sequence of events with growing ids; the wrap of its ids at their maximum is not modelled.
- WebhookActor.WebhookActor.OnUpdateOk: `last_update_was_successful_`, which only decides about warnings, is not modelled.
- WebhookActor.WebhookActor.OnUpdateError: the same flag, and the text of the logged error, are not modelled.
- WebhookActor.WebhookActor.Loop: address resolution, the timeout of the actor and its stop are not modelled; a pass ends with what it did.
- WebhookActor.WebhookActor.Handle: a request that the webhook's answer carries is not modelled, nor are the callbacks, the statistics and the closing of the actor after too many 410 answers.
- WebhookActor.WebhookActor.LoadUpdates: the warnings about pending updates, their count and the callback of a first success are not modelled.
- WebhookActor.WebhookActor.SendUpdate: the text of the request and the wakeup of the actor are not modelled, only whether its headers can be built.
- WebhookActor.WebhookActor.CreateNewConnections: opening a socket is an input; address resolution, certificates and flood control counters are not modelled.
- FileStream.FileStreamConnection.OnFileReady: a size is compared with the largest size of a buffer as a number, without the casts; a second announcement is left out, because the client announces a file once.
- FileStream.FileStreamConnection.DropStaleDownloadState: the timeout for the first byte, which is started again, is an input that may come at any time.
- FileStream.FileStreamConnection.OnChunkFlushed: the idle timeout is an input that may come at any time.
- FileStream.FileStreamConnection.TearDown: the messages to the client manager and the removal of the local copy are not modelled.
- FileStreamResponse.BodyIsTheFile: that a local file holds the bytes of the file where it is read is a premise, stated about the chunks that were written.
- SplitSource.CollectDeps: the names found in a function are inputs; the regular expression, the headers of the new files and the undo mode are not modelled.
- SplitSource.Arsort: the order of sets of equal size is the order in which they were found; the bounds do not depend on it.
- WorkdirCleanup.RunWorkdirCleanup: sums of sizes are unbounded numbers; a walk that fails half way is a walk that found less.
- WorkdirReferences.WorkdirCleanupManager.RetainFile: counters are unbounded numbers; timers and intervals of the manager are not modelled.
- WorkdirReferences.WorkdirCleanupManager.RunCleanup: the number of files of the last round and the flag of an emergency round are in its result and not kept in the object.
- TableMigration.MigrateTable: values are numbers in the order of the source database; conversion is a function that may refuse; a failing insert is not modelled, since the migration then stops with its temporary file.
- Publication.PublishMigratedFile: a rename either happens as a whole or not at all, and one whose source is missing fails.
- SessionLocks.CacheSessionLocks.WithSessionLock: the two maps of queue tails are one map keyed by the kind of lock, and a promise is the job that settles it; a section that itself waits for a lock is not modelled.
- SessionLeases.NextKeeps: how the resource coordinator decides is an input, and so are timeouts and cancellations, which end a wait as a refusal; a spool consumer that joins before it asks for resources holds nothing and has no step.
- CacheBuild.AcquireSessionResources: the list of pending admissions and their cancellation are not modelled; a cancelled wait is a refusal.
- CacheBuild.RunBuildSession: one script of outcomes per call; every interleaving with aborts is in BuildRun.
- BuildRun.PublishesWhatCame: deadlines are aborts; the retries of the rename are one rename that works or not; a failed write leaves no part of its chunk, since the file is removed; the registration of the published file and the removal from the map of sessions are not modelled.
- Follower.DeliversTheRest: only full reads; every other run is in Follower.EveryRunDelivers.
- Follower.PushesTheRange: one follower beside its writer; several do not influence each other. The shutdown that removes all listeners is not modelled.
- DirectRelay.Relay: the window of the stream and the release of the upstream are not modelled; an upstream error ends the relay with what was yielded.
- `telegram-bot-api/telegram-bot-api/FileStreamRoute.cpp`, `telegram-bot-api/telegram-bot-api/ClientManager.cpp`, validation of schemas and indexes, conversion of values, the direct lock, the controllers and the front end are not modelled: they are plumbing or decisions of one branch.
