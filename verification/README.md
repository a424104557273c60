# MatterLeast backend protocols in Dafny

MatterLeast's backend keeps several event-driven protocols and caches: the session outbox, the HTTP transport, post
causality with coalesced requests, two bounded post caches, draft synchronisation, and read tracking. Their difficulty
is in generations, timers, re-entrant callbacks, messages that overtake each other, and eviction arithmetic. This
project models those parts and proves what they promise over whole runs.

Each part has the same structure. A value type holds the state, including what is on its way (timers, completions,
replies, each with the generation or observation number it captured) and, where a promise is about the past, some
history. Pure functions say what each call and each event does. A class holds the same state in mutable fields; its
methods, with the loops of the source, are proved equal to those functions. Invariants and theorems are lemmas about
the functions, over every step, every run, or every input. The modules named `...Content` and `...Effects` say without
those functions what is left behind: which text, which file, which method, which count.

| files | part |
|---|---|
| `OutboxModel` `OutboxSafety` `OutboxUploads` `OutboxSteps` `OutboxRuns` `OutboxUser` `OutboxTheorems` `OutboxFifo` | the outbox: states, invariant, FIFO delivery, completions, wake-ups |
| `OutboxContent` `OutboxEffects` `OutboxFiles` `OutboxAdmission` | what is filed, sent and saved is what was submitted; exact effects of each event |
| `OutboxProgress` `OutboxBudget` `OutboxDisk` `OutboxService` `OutboxRecovery` | termination, retry budget, durability, the service class with its attachment uploads, restart recovery |
| `DraftModel` `DraftSafety` `DraftContent` `DraftEdits` `DraftService` | draft synchronisation |
| `TransportModel` `TransportSafety` `TransportSteps` `TransportTheorems` `TransportContent` `TransportOrder` `TransportService` | the HTTP transport |
| `Causality` `CausalityContent` `Coalescing` `CoalescingContent` `Joins` `PostRepository` | observation fences, shared GETs, the cache/server race, the three-way join |
| `DiskFence` `DiskContent` `CacheTable` `CacheModel` `CacheRuns` `CacheContent` `CacheStore` | the cache worker with its fences and accounts, the cache table, the store |
| `Residency` `ResidencyContent` `ResidencyService` | resident bodies, leases and the sweep |
| `Following` `FollowingContent` `FollowingRuns` `FollowingService` | followed threads, resume cursors, coalesced refreshes |
| `Activity` `ActivityContent` `ActivityMentions` | read counters and own-post credits, mentions of viewed channels |
| `Prelude` `Totals` `PostOrder` | shared vocabulary, sums over maps, the timeline order |

## Findings

- `FollowingModel::observeReadThrough` accepts the boundary's own post again without comparing times. If that post is
  then reported with an earlier creation time, the boundary moves back; `FollowingRuns.ObservedMovesBackExactly` shows
  that this is the only way, and `FollowingRuns.SamePostCanMoveBack` gives an input. Where creation times never change,
  the documented promise ("back-scrolling cannot regress this boundary") holds over every run:
  `FollowingRuns.FixedTimesNeverMoveBack`.
- The unread flag of the activity tracker and its unread count can disagree. `Activity.FlagAgreesExactly` says when they
  cannot, `Activity.UnreadReplyUncounted` and `Activity.UnreadWithoutRootTotal` give inputs. `SidebarService` asks for
  roots only where a root total is known (`SidebarService.cpp:525-533`), which leaves the first of the two.
- A view in root mode keeps the count of all mentions. Where the server does not count root mentions apart, the next
  synchronisation computes the mention flag from that count, and the mention just viewed comes back:
  `ActivityMentions.MentionComesBack` gives a run, `ActivityMentions.ViewedMentionStaysAway` the exact condition.
- A deletion that reaches the disk cache while its account cannot be opened leaves the row, and a later read answers it:
  `DiskFence.ClosedDeletionIsRead` gives a run, and `DiskFence.DeletionRemovesExactly` says exactly when the row goes.
- `normalizedServer` trims blanks before it chops slashes, so a blank before a trailing slash survives:
  `DiskFence.BlankBeforeSlash` gives an input, and `DiskFence.SlashExactly` says exactly when a trailing slash makes no
  difference.
- The answer to a save is matched with the entry by time and content, but times are not unique over the life of a
  draft: an acknowledgement may date an entry back, and an erased entry starts again at the clock. A later edit can then
  be taken for the one that was saved, and be marked as saved without being sent (`DraftEdits.MistakenIsNotSent`).
  `DraftEdits.ConfirmedAfterDatingBack` and `DraftEdits.ConfirmedAfterErasure` give a run for either, both with a clock
  that never goes back, and `DraftEdits.EditOutdatesExactly` says exactly when no edit from a time on can be mistaken.

## Model

| member | source | states |
|---|---|---|
| `OutboxTheorems.FifoOnTheWire` | sources/backend/PendingPostService.cpp:340-515 | Over every run, two requests of one conversation are on the wire in the order in which their posts were enqueued, and each was sent with fewer than six earlier attempts, inside its ten minutes, overtaken by fewer than three posts. |
| `OutboxFifo.EarlierPostsHaveLeft` | sources/backend/PendingPostService.cpp:340-515 | Over every run, when a post is transmitted, each post enqueued earlier in its conversation has left the outbox before, and left it by being confirmed or cancelled. |
| `OutboxFifo.StepStays` | sources/backend/PendingPostService.cpp:663-735 | A step that neither confirms nor cancels a post keeps it in the outbox, in its conversation, at its place and with its text. |
| `OutboxTheorems.TransmissionNeedsHead` | sources/backend/PendingPostService.cpp:406-455 | A step that puts anything on the wire puts exactly one request there, for a post before which nothing of its conversation is left in the outbox, within every budget and with all attachments uploaded. |
| `OutboxTheorems.OneSendingPerConversation` | sources/backend/PendingPostService.cpp:340-404 | At most one post per conversation is Sending; it is the first of its conversation, and exactly one completion is outstanding for it, with its current generation. |
| `OutboxTheorems.CompletionsAreCurrent` | sources/backend/PendingPostService.cpp:456-515 | A completion outstanding for a post that is still in the outbox always belongs to the request that post is waiting for. |
| `OutboxTheorems.NoLostWakeUp` | sources/backend/PendingPostService.cpp:389-581 | Every post neither failed nor being sent has its own deadline pending; every queued, blocked or retrying head has an event pending that moves it on; every post being sent has its completion outstanding. |
| `OutboxTheorems.QuiescentMeansFailed` | sources/backend/PendingPostService.cpp:389-581 | When no start, timer, deadline or completion is pending, every post left in the outbox has failed. |
| `OutboxTheorems.NextSafe` | sources/backend/PendingPostService.cpp:121-735 | Every step of the user, the network, the timers, the disk and the uploads keeps the outbox invariant. |
| `OutboxTheorems.RunSafe` | sources/backend/PendingPostService.cpp:121-735 | Every state of every run satisfies the outbox invariant. |
| `OutboxTheorems.StartsCommute` | sources/backend/PendingPostService.cpp:859-931 | Starting two different conversations leads to the same deliveries and the same pending events in either order, so the unordered set in which an upload notification collects them does not matter. |
| `OutboxProgress.StepBudget` | sources/backend/PendingPostService.cpp:406-581 | Without new user work no step increases a numeric budget, and every delivered event decreases it. |
| `OutboxProgress.RunSettles` | sources/backend/PendingPostService.cpp:406-581 | In any run without new user work at most that many events are delivered: the retry machinery terminates. |
| `OutboxProgress.EveryPostSettles` | sources/backend/PendingPostService.cpp:517-581 | When a run from the start of a session has nothing left to deliver, each post it ever held has left by being confirmed or cancelled, or is Failed in its place. |
| `OutboxProgress.ConfirmedOrFailed` | sources/backend/PendingPostService.cpp:517-581 | Without a cancellation there are two ends: the post was confirmed, or it is Failed in its place and waits for the user. |
| `OutboxBudget.SixRequestsPerWindow` | sources/backend/PendingPostService.cpp:406-475 | Between two user retries a post goes on the wire at most six times, and exactly as often as its attempt counter says. |
| `OutboxBudget.SixAttemptsFit` | sources/backend/PendingPostService.cpp:34-40 | The five retry delays sum to 565 seconds, less than the ten-minute window. |
| `OutboxBudget.CountedExactly` | sources/backend/PendingPostService.cpp:737-790 | A post from the server is added to a pending post's intervening set exactly when it is new to it, of its conversation, visible, no echo of a confirmed or own post, and later than a known enqueue tail; the count stays the size of the set. |
| `OutboxBudget.CutOff` | sources/backend/PendingPostService.cpp:775-790 | The third intervening post fails a head that is not on the wire and leaves one that is. |
| `OutboxBudget.OnlySubmittedIsSent` | sources/backend/PendingPostService.cpp:1068-1074 | Over every session each post in the outbox and each request on the wire was submitted in that session: a restart sends nothing. |
| `OutboxSafety.DelayFits` | sources/backend/PendingPostService.cpp:517-545 | A scheduled retry uses an existing entry of the delay table and never waits beyond the end of its window. |
| `OutboxSafety.HeadIsFirst` | sources/backend/PendingPostService.cpp:273-283 | The first identifier of a conversation in the order is the earliest enqueued post of it. |
| `OutboxDisk.FileKeepsUp` | sources/backend/PendingPostService.cpp:1157-1213 | Over every run the outbox file holds the rescued backlog followed by the records of the outbox in order, or a save is pending. |
| `OutboxDisk.BacklogSurvives` | sources/backend/PendingPostService.cpp:1157-1213 | Over every run the outbox file is as it was found, or begins with the backlog of the earlier session, unchanged. |
| `OutboxDisk.SubmitAllOrNothing` | sources/backend/PendingPostService.cpp:195-234 | Submitting either appends the post everywhere with its record already durable, or leaves order, ownership and every post's intent as they were; posts that wait for the same uploads may have moved on. What is appended is the draft: `OutboxContent.AdmittedIsTheDraft`. |
| `OutboxDisk.RefusedLeavesNothing` | sources/backend/PendingPostService.cpp:195-234 | A refused submission leaves the whole outbox, its file included, as it was - only uploads and their completions differ - if no other post waits for one of these uploads. |
| `OutboxContent.AdmittedIsTheDraft` | sources/backend/PendingPostService.cpp:121-234 | A submission that is admitted files the draft itself - its conversation, text, known tail and files, with a fresh budget - last in order; the start of its conversation and its deadline are pending, and nothing is sent yet. |
| `OutboxContent.AdmittedIsSaved` | sources/backend/PendingPostService.cpp:195-234 | And the outbox file ends with its record: conversation, text and files as submitted. |
| `OutboxAdmission.AdmittedState` | sources/backend/PendingPostService.cpp:140-193 | It is admitted ready to be sent exactly when every file is there, failed exactly when an upload of a missing file is broken or cannot be named, and waiting otherwise. |
| `OutboxAdmission.StageUploads` | sources/backend/AttachmentUploadService.cpp:31-57 | Staging a file that is not staged already starts its upload for that channel and path, which fails at once if either is not there; every other upload is as it was. |
| `OutboxContent.StepKeys` | sources/backend/PendingPostService.cpp:121-735 | A post that is new in the outbox after a step was submitted by that step; every other is as it was in conversation, text, files and ticket. |
| `OutboxContent.PostsAsTyped` | sources/backend/PendingPostService.cpp:121-735 | Over every run a post in the outbox has the conversation, text and files of the submission that brought it in. |
| `OutboxContent.SentAsTyped` | sources/backend/PendingPostService.cpp:440-455 | Over every run whatever goes on the wire goes to the conversation, and carries the text and as many files, of the submission that brought the post in. |
| `OutboxContent.SavedAsTyped` | sources/backend/PendingPostService.cpp:1157-1213 | Over every run each record of the outbox file was there at the start, or has the conversation, text and files of the submission that brought its post in. |
| `OutboxFiles.SentFilesAreGiven` | sources/backend/PendingPostService.cpp:846-857 | Over every run each file of a request is that of the attachment at the same place, and was given by the server when that attachment's upload was done, or came with the submission. |
| `OutboxFiles.FinishedFills` | sources/backend/PendingPostService.cpp:859-931 | A finished upload is ready with the server's file, and so is every attachment that waited for it; no other attachment gets one. |
| `OutboxEffects.FireSendsExactly` | sources/backend/PendingPostService.cpp:406-455 | A timer sends exactly when its generation is current, the post is queued or waits for its retry, is first of its conversation, within every budget, in a known channel and with all its files: one request with the post's text and files, counted as an attempt. |
| `OutboxEffects.RejectedExactly` | sources/backend/PendingPostService.cpp:475-514 | A rejected request is tried again exactly when it is retryable and within every budget, with the delay of the table; otherwise the post has failed. |
| `OutboxEffects.AcceptedExactly` | sources/backend/PendingPostService.cpp:456-475 | An accepted request removes its post, remembers the server's identifier, and starts the conversation again. |
| `OutboxEffects.RemovedIsGone` | sources/backend/PendingPostService.cpp:698-735 | A removed post is gone with its uploads; every other post and upload is as it was. |
| `OutboxEffects.CancelledIsGone` | sources/backend/PendingPostService.cpp:663-670 | A cancelled post is gone, whatever state it was in, and no other; its conversation starts again. |
| `OutboxEffects.ArrivalConfirms` | sources/backend/PendingPostService.cpp:737-760 | A post of the outbox that arrives from the server is confirmed by it, and its echoes are ignored from then on. |
| `OutboxEffects.RetryStartsOver` | sources/backend/PendingPostService.cpp:591-661 | A failed post that is retried has a new window, no attempts and nothing overtaken, and is the same post: conversation, text, files and ticket. |
| `OutboxEffects.FailsOnlyForCause` | sources/backend/PendingPostService.cpp:406-581 | Whatever the step, no post fails without a cause: its time is up, three posts came in between, its attempts are used up, its channel is gone, the server refused it for good, or an upload it needs moved while a file of it is missing. |
| `OutboxService.PendingPostService.Step` | sources/backend/PendingPostService.cpp:121-931 | The service's methods and loops refine the state machine step by step, so everything proved of its runs holds of the service. |
| `OutboxService.PendingPostService.TryStartConversation` | sources/backend/PendingPostService.cpp:340-404 | Everything behind the head that has not failed ends up blocked, and a head that may move is queued under a new generation with its timer pending. |
| `OutboxService.PendingPostService.AttemptNow` | sources/backend/PendingPostService.cpp:406-455 | Only the head of a conversation is attempted; it fails when a budget is used up or its channel is gone, waits while a file is missing, and otherwise goes on the wire with its completion outstanding under the new generation. |
| `OutboxService.PendingPostService.PostCreated` | sources/backend/PendingPostService.cpp:456-514 | A success confirms whatever generation it carries; a failure of an older generation or of a failed post changes nothing; a retryable one within all budgets waits, any other fails the post. |
| `OutboxService.PendingPostService.ScheduleRetryOf` | sources/backend/PendingPostService.cpp:517-555 | The retry timer is set for the table delay or the remaining window, whichever is shorter, under a new generation. |
| `OutboxService.PendingPostService.DeadlineTimer` | sources/backend/PendingPostService.cpp:557-581 | The deadline fails a post of the same window unless it is failed or being sent. |
| `OutboxService.PendingPostService.RemovePost` | sources/backend/PendingPostService.cpp:698-735 | A removed post's uploads are released, it leaves order and ownership, the file is saved and its conversation is started. |
| `OutboxService.PendingPostService.HandleAuthoritativePost` | sources/backend/PendingPostService.cpp:737-802 | The loop counts the arrival once against each pending post of its conversation, confirms an own post instead, ignores an echo, and fails an overtaken head. |
| `OutboxService.PendingPostService.HandleAttachmentUploadChanged` | sources/backend/PendingPostService.cpp:859-931 | Every attachment that waited for the upload gets its file, posts become ready or fail, the file is saved once and each affected conversation is started once. |
| `OutboxService.PendingPostService.EnqueuePost` | sources/backend/PendingPostService.cpp:121-234 | Submitting stages the attachments one by one and admits the draft as `OutboxContent.AdmittedIsTheDraft` and `OutboxAdmission.AdmittedState` say, or takes everything back when the file cannot be written. |
| `OutboxService.PendingPostService.RetryPost` | sources/backend/PendingPostService.cpp:591-661 | A user retry reopens the post with a new budget, restarts its missing uploads and schedules its deadline and its conversation. |
| `OutboxService.PendingPostService.PersistBestEffort` | sources/backend/PendingPostService.cpp:815-834 | The file is written from backlog and order, or one later save is scheduled. |
| `OutboxService.PendingPostService.StartAttachmentUpload` | sources/backend/AttachmentUploadService.cpp:83-183 | An upload starts under a new generation, and fails at once when its channel or file is not there. |
| `OutboxService.PendingPostService.UploadFinished` | sources/backend/AttachmentUploadService.cpp:113-148 | A completion of the current generation makes the upload ready or failed and notifies; any other is ignored. |
| `OutboxService.PendingPostService.StageAttachment` | sources/backend/AttachmentUploadService.cpp:31-57 | Staging reuses an upload of the same channel and path, and otherwise starts a new one. |
| `OutboxRecovery.LoadStore` | sources/backend/PendingPostService.cpp:1045-1155 | The loop hands records over one by one; the backlog is the suffix from the failed record on, and the file goes only if there is none. |
| `OutboxRecovery.PrefixIsDurable` | sources/backend/PendingPostService.cpp:1076-1155 | The records taken are a prefix, each durable as a draft of its own with the record's text; recovery stops only where a write failed. |
| `OutboxRecovery.TakenIsDraft` | sources/backend/PendingPostService.cpp:1076-1138 | A record taken is a draft of its own conversation and post, in memory and in the file, with its text - without the quotation if it quotes a post -, the quoted post and its files. |
| `OutboxRecovery.NothingLostNothingSent` | sources/backend/PendingPostService.cpp:1045-1213 | Every usable stored record is, after a restart, durable as a draft of its own, or it stays in the outbox file through every run of the session that follows; nothing is sent in it but what it submits itself. |
| `OutboxRecovery.OthersUntouched` | sources/backend/PendingPostService.cpp:1127-1138 | Recovery creates no live draft but those of the records and touches no recovered draft of another post. |
| `OutboxRecovery.RecoveryIsIdempotent` | sources/backend/DraftService.cpp:432-446 | Recovering the same records again with unedited drafts changes nothing, even when nothing can be written. |
| `DraftSafety.UnsentTextSurvives` | sources/backend/DraftService.cpp:532-904 | Over any run without a local change of that draft, an unsent edit keeps its text until the server has confirmed exactly that text. |
| `DraftSafety.ServerSpares` | sources/backend/DraftService.cpp:555-904 | One step from the server leaves the text of every unsent edit, every unconfirmed deletion and every recovered draft alone; an edit is cleared only by a confirmation of itself, a deletion is forgotten only when settled and never revived. |
| `DraftSafety.ConfirmationClears` | sources/backend/DraftService.cpp:555-620 | An acknowledgement of the very edit, or a report of the requested text, does clear it. |
| `DraftEdits.EditOutdatesExactly` | sources/backend/DraftService.cpp:582-607 | From any time on, no edit of a draft - whether it is there or not, whatever the edit says and whenever it is made - can be acknowledged by a save sent before, exactly when the save is older than that time, or the entry is at least as late as the save, or no edit can make it say what the save said. |
| `DraftEdits.ConfirmedAfterDatingBack` | sources/backend/DraftService.cpp:582-616 | A run from the empty state, with a clock that never goes back, after which an edit is acknowledged by a save sent before it: an acknowledgement dated the entry back. |
| `DraftEdits.ConfirmedAfterErasure` | sources/backend/DraftService.cpp:582-616 | A second such run, in which nothing is dated back: the saved entry is erased by a reported deletion and the same text typed again. |
| `DraftEdits.MistakenIsNotSent` | sources/backend/DraftService.cpp:582-616 | What such an edit leads to: no save of it is sent, and the answer to the old save marks it as saved. |
| `DraftSafety.RemovalIsSent` | sources/backend/DraftService.cpp:366-408 | Removing a draft that the server may know leaves a deletion and sends it; any other draft is simply gone. |
| `DraftSafety.NextSafe` | sources/backend/DraftService.cpp:252-904 | Every step keeps recovered drafts outside synchronisation and the team counter equal to the answers outstanding for the current round. |
| `DraftSafety.RoundsFinishOnce` | sources/backend/DraftService.cpp:806-810 | Each answer of the current round is counted once, zero means none is outstanding, and an answer of an earlier round leaves the counter, the drafts and the current round's outstanding answers alone. |
| `DraftSafety.RoundReconciles` | sources/backend/DraftService.cpp:815-873 | A completed round leaves ordinary drafts that the server listed or that hold unsent text, marks each as listed or not, and sends again exactly the unsent, requested ones. |
| `DraftSafety.ListedArrive` | sources/backend/DraftService.cpp:771-798 | Every usable listed draft is present afterwards, unless a dirty or newer local entry stands; with which text, says `DraftContent.ListShows`. |
| `DraftContent.ListShows` | sources/backend/DraftService.cpp:771-798 | A listing shows the server's text, quoted post and time where no unsent text stands and no entry as new: of several drafts of one conversation the newest; unsent text and entries at least as new stay as they are. |
| `DraftContent.AnswerShows` | sources/backend/DraftService.cpp:756-811 | What the answer of the current round lists as newest is shown afterwards, be it the last answer of the round or not. |
| `DraftContent.PushedShows` | sources/backend/DraftService.cpp:642-727 | A pushed draft is shown - its text, quoted post and time, no files, clean and the server's - where none is held, and in place of a clean entry exactly when it is newer, or as new with other content. |
| `DraftContent.PushedSparesText` | sources/backend/DraftService.cpp:655-700 | A pushed draft leaves unsent text alone, and marks it as saved exactly if it is the text that was asked to be saved. |
| `DraftContent.PushedDeletion` | sources/backend/DraftService.cpp:622-727 | A reported deletion erases the draft, but for unsent text, which stays and is no longer the server's. |
| `DraftContent.TypedShows` | sources/backend/DraftService.cpp:252-324 | Text that is typed is what the draft says, unsent until it is saved, and no earlier than the clock. |
| `DraftContent.EmptiedIsDeleted` | sources/backend/DraftService.cpp:252-324 | Emptied text is a deletion the server has to hear of, if it may know the draft; otherwise the draft is gone. |
| `DraftContent.FlushSends` | sources/backend/DraftService.cpp:326-365 | A flush asks for the unsent text to be saved, as it is now. |
| `DraftContent.AnswerMarksSaved` | sources/backend/DraftService.cpp:582-616 | The answer to a save of what the entry still says marks it as saved, at the server's time; its text stays. |
| `DraftContent.AnswerToOther` | sources/backend/DraftService.cpp:582-600 | The answer to a save of anything else changes no text; a deletion asked for meanwhile is sent. |
| `DraftContent.RecoveredShows` | sources/backend/DraftService.cpp:410-471 | A recovered message is a draft of its own with its text, quoted post and files, in memory and in the file. |
| `DraftContent.RecoveredEditShows` | sources/backend/DraftService.cpp:473-507 | An edit of a recovered draft is what it says then, still outside synchronisation; without text and files it is gone. |
| `DraftContent.ChangesAreWritten` | sources/backend/DraftService.cpp:237-250 | While the draft file can be written, whatever changes a draft - user, server or the end of a round - puts all drafts into the file as they are. |
| `DraftServices.DraftService.Step` | sources/backend/DraftService.cpp:252-904 | The service's methods and loops refine the model step by step and keep its invariant. |
| `DraftServices.DraftService.UpdateDraft` | sources/backend/DraftService.cpp:252-324 | Text replaces the entry as unsent with a later time; clearing it removes an entry the server never had and leaves an unsent deletion of any other. |
| `DraftServices.DraftService.AddRecoveredDraft` | sources/backend/DraftService.cpp:410-471 | A recovered draft is reported as kept only if it is in the file; when the write fails the memory is as before. |
| `DraftServices.DraftService.SaveAnswered` | sources/backend/DraftService.cpp:555-620 | An answer clears exactly the edit that was sent, erases exactly the deletion that was sent, sends a newer deletion again, and otherwise changes no entry. |
| `DraftServices.DraftService.DraftPushed` | sources/backend/DraftService.cpp:622-727 | A pushed draft replaces only clean and older entries, with what `DraftContent.PushedShows` says; unsent text stays and is cleared only if it was requested and is the same; a pushed deletion erases all but unsent text. |
| `DraftServices.DraftService.TeamListed` | sources/backend/DraftService.cpp:756-811 | One team's answer is absorbed entry by entry, so that `DraftContent.AnswerShows` holds of it, and the last one finishes the round. |
| `DraftServices.DraftService.SettleEntries` | sources/backend/DraftService.cpp:815-860 | The loop over all entries settles each against the round and collects what to send. |
| `DraftServices.DraftService.DisableRemoteSync` | sources/backend/DraftService.cpp:875-904 | Disabling drops deletions, silences the rest and starts a new generation. |
| `TransportTheorems.ExactlyOnePlace` | sources/backend/HTTPConnector.cpp:110-190 | Every request ever enqueued is in exactly one place: one queue, one reply that will be delivered, handled, or given up. |
| `TransportTheorems.OnceOnly` | sources/backend/HTTPConnector.cpp:301-529 | Over every run no handler is called twice, and only GETs are ever on the wire twice (section 9.2.2 of RFC 9110); that they are GETs because their callers asked for GETs, says `TransportContent.SentTwiceWasGet`. |
| `TransportContent.SentTwiceWasGet` | sources/backend/HTTPConnector.cpp:157-165 | If a request is on the wire twice in any run, its caller asked for a GET. |
| `TransportContent.RequestsAsAsked` | sources/backend/HTTPConnector.cpp:192-315 | Over every run request number r was created by a call of its connector with exactly its method and its priority. |
| `TransportContent.AskedOnce` | sources/backend/HTTPConnector.cpp:301-315 | No two calls create the same request. |
| `TransportContent.SentAsAsked` | sources/backend/HTTPConnector.cpp:357-434 | What is on the wire was sent by the connector it was asked of, with the method and the priority its caller asked for. |
| `TransportContent.WaitsAsAsked` | sources/backend/HTTPConnector.cpp:301-315 | Over every run what waits in a queue was asked of its connector, with the priority of that queue. |
| `TransportContent.RestartReplaysAsked` | sources/backend/HTTPConnector.cpp:157-178 | A restart puts an unanswered request back into its queue exactly when its caller asked for a GET; otherwise it stays outstanding and is not sent again. |
| `TransportContent.FinishCallsItsHandler` | sources/backend/HTTPConnector.cpp:465-529 | A reply that finishes calls the handler of its own request, unless it is of an older generation or replayed. |
| `TransportTheorems.FinalIsFinal` | sources/backend/HTTPConnector.cpp:110-130 | What was handled stays handled, what was given up stays given up, and only a reset or destruction gives up. |
| `TransportTheorems.RestartReplaysGets` | sources/backend/HTTPConnector.cpp:157-170 | A restart puts every unanswered GET back in its queue and leaves every unanswered write outstanding. |
| `TransportOrder.ReplaysGoFirst` | sources/backend/HTTPConnector.cpp:157-165 | Replayed GETs go in front of everything that already waits. |
| `TransportOrder.QueuesGrowAtEnd` | sources/backend/HTTPConnector.cpp:142-190 | Over any part of a run in which a connector restarts, its queues only grow at the end, whatever else happens: replayed GETs, what waited, and what is asked for meanwhile keep that order. |
| `TransportOrder.ResetIsFinal` | sources/backend/HTTPConnector.cpp:110-130 | Over every run, what a connector had waiting or outstanding when it was reset stays given up and its handler is never called, whatever replies still arrive. |
| `TransportTheorems.CounterIsExact` | sources/backend/HTTPConnector.cpp:421-434 | Between events the request counter equals the number of replies held, which are exactly the unfinished ones of the current generation. |
| `TransportTheorems.NeverClamped` | sources/backend/HTTPConnector.cpp:465-529 | Whatever is about to stop counting was counted: the clamp at zero never acts. |
| `TransportTheorems.DrainSendsAll` | sources/backend/HTTPConnector.cpp:317-355 | Processing sends everything of high priority on all non-restarting connectors before anything of low priority, each queue in order, and leaves nothing that may be sent. |
| `TransportTheorems.RunQuiet` | sources/backend/HTTPConnector.cpp:333-355 | After every step no request waits except on a connector that is restarting. |
| `TransportTheorems.RunSafe` | sources/backend/HTTPConnector.cpp:110-529 | Every state of every run satisfies the transport invariant. |
| `TransportSteps.NextSafe` | sources/backend/HTTPConnector.cpp:110-529 | Every call and event, re-entrant ones included, keeps the transport invariant. |
| `TransportSteps.RestartedSafe` | sources/backend/HTTPConnector.cpp:180-189 | When a restart ends under its own generation no reply of the old manager is held any more. |
| `TransportService.Connectors.ProcessQueues` | sources/backend/HTTPConnector.cpp:333-355 | The while loop terminates and equals sending everything by priority. |
| `TransportService.Connectors.ConnectorWithPendingRequest` | sources/backend/HTTPConnector.cpp:317-331 | The first connector in search order that is not restarting and has a request of that priority, if any. |
| `TransportService.Connectors.ReplyFinished` | sources/backend/HTTPConnector.cpp:436-529 | A reply of an older generation changes nothing but the record that it finished, a replayed one gives back its slot without its handler, and any other is delivered once. |
| `TransportService.Connectors.BeginRestart` | sources/backend/HTTPConnector.cpp:145-170 | The flag is set and the loop puts every unanswered GET in front of its queue. |
| `TransportService.Connectors.EndRestart` | sources/backend/HTTPConnector.cpp:180-189 | The end of a restart clears the flag and processes the queues only under its own generation. |
| `TransportService.Connectors.Step` | sources/backend/HTTPConnector.cpp:97-529 | The methods and loops of the connectors refine the model step by step and keep the invariant; what a request is called and queued as, says `TransportContent.RequestsAsAsked`. |
| `Causality.NothingStaleIsWritten` | sources/backend/PostRepository.cpp:995-1139 | Over whole runs, once the server said something about a post, whatever a reply or an event later writes of it is at least that new, and a cached read, whose content carries no observation, adds it to a gap only if the read began later; what is written then, says `CausalityContent.BodiesSayWhatWasSaid`. |
| `Causality.NothingResurrects` | sources/backend/PostRepository.cpp:240-1139 | Over whole runs, once a deletion is handled, whatever is written of the post in any channel is newer than the deletion, or fills a gap from a read begun after it. |
| `Causality.AuthorityNeverDecreases` | sources/backend/PostRepository.cpp:995-1064 | The observation behind a resident body never decreases. |
| `Causality.OnlyNewestWrites` | sources/backend/PostRepository.cpp:995-1113 | Whatever a reply or an event writes carries an observation no older than any of that post; a cached read fills a gap only if it began no earlier than the newest of them. |
| `Causality.StaleReplyWritesNothing` | sources/backend/PostRepository.cpp:1012-1022 | A reply dispatched before the newest observation of a post leaves its body alone, in every channel. |
| `Causality.ReplyFencesRoot` | sources/backend/PostRepository.cpp:1115-1128 | A merged reply fences its root against earlier requests. |
| `Causality.CachedOnlyFillsGaps` | sources/backend/PostRepository.cpp:1066-1113 | A cached read changes no resident body. |
| `CausalityContent.ReplyWritesContent` | sources/backend/PostRepository.cpp:1012-1059 | A reply that nothing newer fences puts the content of its last row of a post into the resident body - which keeps its place in the timeline, and stays as it is if the row contradicts it - and fills a gap with the row as it is. |
| `CausalityContent.CachedFillsContent` | sources/backend/PostRepository.cpp:1066-1113 | A cached read that nothing newer fences fills a gap with its last row of the post. |
| `CausalityContent.PostedCreates` | sources/backend/types/BackendChannel.cpp:123-187 | A posted event creates the body it reports, where its channel keeps bodies and has none yet. |
| `CausalityContent.EditedWrites` | sources/backend/types/BackendChannel.cpp:349-362 | An edit puts its content into the resident body of that post. |
| `CausalityContent.RewritesContent` | sources/backend/WebSocketEventHandler.cpp:342-385 | A deletion marks the resident body and keeps its text; a reaction puts its content there. |
| `CausalityContent.FetchedWrites` | sources/backend/PostRepositoryNavigation.cpp:18-35 | A post fetched for its own sake is written like a reply of the newest observation. |
| `CausalityContent.StepSays` | sources/backend/PostRepository.cpp:995-1113 | A step leaves a body as it is or writes what it says; what a cached read adds carries no observation. |
| `CausalityContent.BodiesSayWhatWasSaid` | sources/backend/PostRepository.cpp:995-1139 | Over every run a body with an observation behind it says what the server said, in a reply or an event, with just that observation. |
| `CausalityContent.DeletedStaysDeleted` | sources/backend/PostRepository.cpp:253-271 | Over every run a deleted post stays deleted in its channel until something newer than the deletion is written there, or a gap left by an eviction is filled by a read begun after it. |
| `Causality.NextSafe` | sources/backend/PostRepository.cpp:228-1139 | Every step keeps a watermark for each post that something on its way is older than, and no body newer than its post's newest observation. |
| `PostRepositories.PostRepository.Step` | sources/backend/PostRepository.cpp:228-1139 | The methods and loops of the repository refine the model step by step and keep the invariant. |
| `PostRepositories.PostRepository.Filter` | sources/backend/PostRepository.cpp:1000-1024 | The filter loop lets through exactly what no newer observation fences. |
| `PostRepositories.PostRepository.Ingest` | sources/backend/PostRepository.cpp:995-1064 | Of a reply, exactly what no newer observation fences is merged, with the content `CausalityContent.ReplyWritesContent` says; posts and roots are fenced before; a body that contradicts the snapshot stays. |
| `PostRepositories.PostRepository.IngestCached` | sources/backend/PostRepository.cpp:1066-1113 | Exactly the posts that are neither resident nor observed since the read began are added. |
| `PostRepositories.PostRepository.CachePostObject` | sources/backend/PostRepository.cpp:228-251 | A snapshot takes the next observation number and fences its post and root. |
| `PostRepositories.PostRepository.InvalidateCachedPost` | sources/backend/PostRepository.cpp:253-271 | An invalidation takes the next observation number and fences its post. |
| `Coalescing.CalledExactlyOnce` | sources/backend/PostRepository.cpp:302-327 | Over every run, re-entrant requests included, no callback is called twice, and once nothing is on its way every callback has been called. |
| `Coalescing.CalledWithPhysicalObservation` | sources/backend/PostRepository.cpp:297-326 | A callback gets the observation of the physical request it joined. |
| `Coalescing.AskSharesOrOpens` | sources/backend/PostRepository.cpp:283-300 | A caller joins the request in flight for its account and path, and a request is opened only if there is none. |
| `Coalescing.ReentrantAskIsFresh` | sources/backend/PostRepository.cpp:311-326 | Asking again while the callbacks of that path are called opens a new request. |
| `CoalescingContent.CalledForItsPath` | sources/backend/PostRepository.cpp:273-326 | Over every run a callback that is called was asked with for some path, and gets the number drawn when a request for that very path was sent while none was on its way; without a path it gets none. |
| `CoalescingContent.CalledInOrder` | sources/backend/PostRepository.cpp:311-326 | Over every run, re-entrant requests included, the callbacks of one request are called in the order in which they asked. |
| `CoalescingContent.BelongsToItsPath` | sources/backend/PostRepository.cpp:273-300 | Over every run each callback belongs to a request for the path it asked for. |
| `PostRepositories.SharedGets.CoalescedGet` | sources/backend/PostRepository.cpp:273-300 | An empty path is answered at once, a path in flight is joined, any other path opens one physical request with the next observation. |
| `PostRepositories.SharedGets.Replied` | sources/backend/PostRepository.cpp:302-326 | The reply takes its entry out of the table and makes every joined callback due. |
| `Joins.CombineContext` | sources/backend/PostRepository.cpp:136-160 | The loops keep the first occurrence of every identifier, in order. |
| `Joins.ContextHasTargetOnce` | sources/backend/PostRepository.cpp:136-160 | The context holds the target exactly once, nothing twice, and exactly the fetched posts. |
| `Joins.FirstOccurrencesFacts` | sources/backend/PostRepository.cpp:136-160 | Keeping first occurrences drops only repetitions and empty identifiers and keeps the order. |
| `Joins.RaceAnswersOnce` | sources/backend/PostRepository.cpp:393-497 | Whichever of cache and server answers first, the caller is answered once: with success as soon as one succeeds, with failure only after both. |
| `Joins.RaceNeverAnswersTwice` | sources/backend/PostRepository.cpp:405-424 | However the parts answer, there is never a second answer and a success is never taken back. |
| `Joins.DirectPost.HttpAnswered` | sources/backend/PostRepository.cpp:465-497 | The server's answer is reported if it is the first success, or as a failure if the cache has failed already. |
| `Joins.DirectPost.CacheAnswered` | sources/backend/PostRepository.cpp:426-461 | The cache's answer is reported if it is the first success, or as a failure if the server has failed already. |
| `Joins.JoinFiresOnce` | sources/backend/PostRepository.cpp:686-759 | In any order of the three parts exactly one answer is given, after the last: the context if all succeeded and the post is there. |
| `Joins.AroundJoin.FinishPart` | sources/backend/PostRepository.cpp:715-738 | A part is recorded and counted down; only the last one answers, with the combined context or with nothing. |
| `PostOrder.SortedPostIds` | sources/backend/PostRepository.cpp:54-91 | The identifiers of exactly the posts of a timeline - all, root posts, or one thread - by creation time and identifier; members that are no posts or have no identifier are left out. |
| `PostOrder.TimelineUnique` | sources/backend/PostRepository.cpp:976-993 | A reply has one timeline order, however its table lists the posts. |
| `PostOrder.SortedUnique` | sources/backend/PostRepository.cpp:74-84 | Timeline order is unique. |
| `PostOrder.StrictTotalOrder` | sources/backend/FollowingModel.cpp:607-616 | Creation time, then identifier, is a strict total order. |
| `DiskFence.StaleStoreWritesNothing` | sources/backend/PostCacheService.cpp:118-176 | A store writes a post only if it is newer than every deletion of that post executed under that identity. |
| `DiskFence.ReadsStayInTheirAccount` | sources/backend/PostCacheService.cpp:178-194 | However commands of several accounts interleave, a read returns only rows stored under its own normalised identity. |
| `DiskContent.AnswersSayWhatWasStored` | sources/backend/PostCacheService.cpp:118-194 | Over every run each answered row says what a reply said of that post that was stored earlier under the reader's own identity. |
| `DiskContent.StoredLands` | sources/backend/PostCacheService.cpp:118-155 | A store that is carried out leaves the text of each unfenced, admitted post - the last of its name - in the account of its identity, with its observation. |
| `DiskContent.ChangedRow` | sources/backend/PostCacheService.cpp:118-155 | Whatever the step, a row that is new or other than before says what the store that was carried out said. |
| `DiskContent.RemovedFences` | sources/backend/PostCacheService.cpp:157-170 | A deletion fences its post from then on, whether or not its account can be opened, and no other post. |
| `DiskContent.LoadedIsRow` | sources/backend/PostCacheService.cpp:178-194 | A read answers the row of its account as it stands, or nothing if there is none or the account cannot be opened, and changes none. |
| `DiskFence.RowsSurviveNoDeletion` | sources/backend/PostCacheService.cpp:157-176 | Over every run, a row that is there is newer than the last deletion carried out there. |
| `DiskFence.QueueIsFifo` | sources/backend/PostCacheService.cpp:395-483 | Over every run commands are carried out in the order in which they were queued, each once. |
| `DiskFence.ReadAskedAfterDeletion` | sources/backend/PostCacheService.cpp:157-194 | Over every run a cached read asked for after a deletion was reported runs after it, and if the account was open for the deletion, whatever row the read answers is newer than it. |
| `DiskFence.DeletionRemovesExactly` | sources/backend/PostCacheService.cpp:157-176 | A deletion removes the cached row exactly when its account can be opened at that moment. |
| `DiskFence.ClosedDeletionIsRead` | sources/backend/PostCacheService.cpp:157-194 | A run for any account and post in which a row deleted while the account was closed is still answered by a read asked for afterwards. |
| `DiskFence.NextSafe` | sources/backend/PostCacheService.cpp:118-300 | Every command keeps fences, accounts and rows consistent. |
| `DiskFence.SlashExactly` | sources/backend/PostCacheService.cpp:76-83 | A server with a slash appended is the same server exactly when no blanks end it. |
| `DiskFence.BlankBeforeSlash` | sources/backend/PostCacheService.cpp:76-83 | A blank before a slash: two spellings that name different servers, and so different accounts. |
| `DiskFence.PostCacheWorker.FilterPosts` | sources/backend/PostCacheService.cpp:127-147 | The loop keeps exactly the posts that no watermark at or after the reply fences. |
| `DiskFence.PostCacheWorker.SelectAccount` | sources/backend/PostCacheStore.cpp:203-248 | An identity gets one account, created on first use, and is selected. |
| `DiskFence.PostCacheWorker.WorkOne` | sources/backend/PostCacheService.cpp:118-194 | The first queued command is executed under its own account: a store writes what no fence stops, a removal fences and deletes, a load reads. |
| `CacheTable.ExcessIsShortest` | sources/backend/PostCacheStore.cpp:921-986 | The evicted prefix lets the rest meet both targets, and no shorter prefix does. |
| `CacheTable.GlobalBounds` | sources/backend/PostCacheStore.cpp:892-989 | After pruning neither the number of posts nor the bytes exceed their limit. |
| `CacheTable.EvictionIsFair` | sources/backend/PostCacheStore.cpp:730-753 | What global pruning evicted was really used no more than a minute after anything it kept. |
| `CacheTable.TouchCoarse` | sources/backend/PostCacheStore.cpp:730-753 | Reading keeps every stored access time at most a minute behind the real one. |
| `CacheTable.ThreadBounds` | sources/backend/PostCacheStore.cpp:821-890 | Pruning leaves each overfull thread with exactly the limit and every other thread as it was. |
| `CacheTable.TrimmedKeepsNewest` | sources/backend/PostCacheStore.cpp:865-880 | Within a thread the replies that stay are the most recently used. |
| `CacheContent.StoredShows` | sources/backend/PostCacheStore.cpp:274-356 | After a store every row is the last wanted post of its name, as it came, of the account in use and used now, or was there and is named by no wanted post; each of those is there, unless its thread, the rows or the bytes exceed their limit with the reply in them. |
| `CacheContent.PrunedToTarget` | sources/backend/PostCacheStore.cpp:892-989 | Pruning takes a prefix, undercuts an exceeded limit by a twentieth, and takes no row more than that needs. |
| `CacheContent.PrunedForCause` | sources/backend/PostCacheStore.cpp:821-989 | A row is pruned only for cause: its thread has too many replies, or there are too many rows or bytes. |
| `CacheContent.ReadMarks` | sources/backend/PostCacheStore.cpp:707-753 | A read marks the row it finds as used, moves its access time once it is more than a minute behind, and leaves every other row alone. |
| `CacheContent.ShowingMarks` | sources/backend/PostCacheStore.cpp:533-575 | Showing a window uses every row it shows, and changes no row in any other way. |
| `CacheContent.RemovedExactly` | sources/backend/PostCacheStore.cpp:577-594 | A deletion takes the row of that name in the account in use, and no other. |
| `CacheContent.OpenedIsWanted` | sources/backend/PostCacheStore.cpp:250-272 | Opening a channel makes its posts wanted for the idle time, and no report moves that back. |
| `CacheContent.MaintainedInUse` | sources/backend/PostCacheStore.cpp:596-643 | After maintenance or a change of limits only rows and windows of channels in use are there, unchanged. |
| `CacheContent.MaintainedKeeps` | sources/backend/PostCacheStore.cpp:632-643 | And no row of a channel in use goes, unless a limit was exceeded. |
| `CacheStore.PostCacheStore.PruneGlobalLimits` | sources/backend/PostCacheStore.cpp:892-989 | The batched loops terminate and remove exactly that shortest prefix. |
| `CacheStore.PostCacheStore.PruneThreadLimits` | sources/backend/PostCacheStore.cpp:821-890 | Dropping the oldest replies thread by thread equals trimming every overfull thread. |
| `CacheStore.PostCacheStore.StorePosts` | sources/backend/PostCacheStore.cpp:274-356 | A successful store writes the eligible posts and returns with both hard limits and every thread limit kept; any other changes nothing. |
| `CacheStore.PostCacheStore.LoadTailWindow` | sources/backend/PostCacheStore.cpp:492-575 | The backward loop shows exactly the usable end of the recorded window, and uses the rows it reads. |
| `CacheModel.WindowNeverBridges` | sources/backend/PostCacheStore.cpp:533-563 | What is shown is an end of the window, all usable, and stops only at the limit, at the start or at an unusable row. |
| `CacheRuns.ShowsEndOfLastRecorded` | sources/backend/PostCacheStore.cpp:450-575 | Over every mix of stores, removals, evictions, reads and account changes, what a tail window shows is the longest end, up to the limit, of the window last recorded for that timeline and account whose rows are all there; each was stored in that timeline and not removed since. |
| `CacheRuns.RowsWereStored` | sources/backend/PostCacheStore.cpp:274-356 | Over every run a row that is there was stored for its account in its timeline, and not removed since. |
| `CacheRuns.RunSafe` | sources/backend/PostCacheStore.cpp:821-989 | Over every run, not only after a store, the cache is within its row and byte limits, every thread within its reply limit, and every stored access time within a minute of the real one. |
| `CacheStore.PostCacheStore.Step` | sources/backend/PostCacheStore.cpp:250-643 | The store's methods and loops do what the model of its runs says, call by call. |
| `CacheModel.SuffixIsLongest` | sources/backend/PostCacheStore.cpp:533-563 | The suffix is usable throughout and could not be longer. |
| `CacheStore.PostCacheStore.StoreTailWindow` | sources/backend/PostCacheStore.cpp:450-490 | The recorded window is the list with repetitions and empty identifiers dropped. |
| `CacheStore.PostCacheStore.LoadPost` | sources/backend/PostCacheStore.cpp:358-374 | A read returns the row under the current account and touches it; an unreadable row is a miss. |
| `CacheStore.PostCacheStore.SetLimits` | sources/backend/PostCacheStore.cpp:596-609 | The new limits are taken, none below one, and hold at once: rows, windows and usage of idle channels go, then overfull threads and the least recently used rows are cut. |
| `CacheStore.PostCacheStore.PruneInactiveChannels` | sources/backend/PostCacheStore.cpp:773-819 | Exactly the rows, windows and usage of channels opened within the idle time stay. |
| `Residency.SweepOutcome` | sources/backend/PostRepositoryResidency.cpp:348-468 | A sweep evicts exactly a prefix of the oldest-first candidates: nothing leased or pinned, every idle body, under pressure as few as meet the target; if the hard cap is still exceeded, only leased or pinned bodies are left. |
| `Residency.RunSafe` | sources/backend/PostRepositoryResidency.cpp:226-468 | Over every run of arrivals, snapshots, leases, moves, resets and sweeps the accounted bytes are the sum over the tracked bodies, and a body has as many leases as live handles. |
| `Residency.OnlySweepsEvict` | sources/backend/PostRepositoryResidency.cpp:348-468 | Over every run a body leaves only in a sweep, and only when no live lease holds it and no resident reply needs it. |
| `Residency.SweepMeetsTheCap` | sources/backend/PostRepositoryResidency.cpp:442-468 | Over every run a sweep ends within the hard limit, or with nothing but bodies that were leased or needed. |
| `Residency.LeasedStaysResident` | sources/backend/PostRepositoryResidency.cpp:269-334 | Over every run the body of a live lease is resident. |
| `ResidencyContent.IdleGoes` | sources/backend/PostRepositoryResidency.cpp:396-440 | Over every run a body that no handle holds and no resident reply needs goes in a sweep if it has been idle long enough. |
| `ResidencyContent.OldestGoFirst` | sources/backend/PostRepositoryResidency.cpp:348-468 | Over every run whatever a sweep takes nothing needs, and it takes no such body used later than one it keeps. |
| `ResidencyContent.SweepKeeps` | sources/backend/PostRepositoryResidency.cpp:358-394 | Over every run what a sweep keeps is as it was, and is all that is accounted afterwards. |
| `Residency.SweepIsPrefix` | sources/backend/PostRepositoryResidency.cpp:442-462 | Both passes together evict one prefix, pressure only above the hard limit and only while above the target. |
| `Residency.EvictSafe` | sources/backend/PostRepositoryResidency.cpp:424-440 | Evicting keeps the accounted bytes equal to the sum, and the clamp at zero never acts. |
| `Residency.EvictKeepsWaiting` | sources/backend/PostRepositoryResidency.cpp:424-440 | Evicting one body never makes another one unevictable. |
| `Residency.NoteSafe` | sources/backend/PostRepositoryResidency.cpp:226-267 | Noting a snapshot keeps the accounted bytes equal to the sum. |
| `Residency.LeaseSafe` | sources/backend/PostRepositoryResidency.cpp:269-300 | Leasing keeps the accounting, and the lease counts equal the live leases. |
| `Residency.ResetSafe` | sources/backend/PostRepositoryResidency.cpp:185-193 | Resetting a lease releases it once. |
| `Residency.IdleStartsAtRelease` | sources/backend/PostRepositoryResidency.cpp:311-334 | The idle time of a body starts when its last lease lets go, and only then. |
| `Residency.MoveSafe` | sources/backend/PostRepositoryResidency.cpp:160-183 | Moving a lease releases what the target held and keeps the counts equal to the live leases. |
| `ResidencyContent.NotedExactly` | sources/backend/PostRepositoryResidency.cpp:226-267 | A snapshot that may be noted is what its post counts for from now on; every other post counts for what it did. |
| `ResidencyContent.LeasedExactly` | sources/backend/PostRepositoryResidency.cpp:269-300 | A lease is granted exactly for a named resident body; it holds that body, and the body is in use now. |
| `ResidencyContent.ResetExactly` | sources/backend/PostRepositoryResidency.cpp:185-193 | A reset lets go of what its handle held and of nothing else. |
| `ResidencyContent.MovedExactly` | sources/backend/PostRepositoryResidency.cpp:160-183 | After a move the target holds what the source held, and the source nothing; no other handle changes. |
| `ResidencyService.ResidentMemory.SweepResidentBodies` | sources/backend/PostRepositoryResidency.cpp:348-468 | The loops recount, sort and evict: the state afterwards is that of both passes over all evictable bodies, oldest first. |
| `ResidencyService.ResidentMemory.Recount` | sources/backend/PostRepositoryResidency.cpp:358-394 | The loop over all bodies recounts the bytes and finds exactly the evictable candidates. |
| `ResidencyService.ResidentMemory.SortCandidates` | sources/backend/PostRepositoryResidency.cpp:414-422 | The candidates sorted by age, then identifier. |
| `ResidencyService.ResidentMemory.NoteResidentSnapshot` | sources/backend/PostRepositoryResidency.cpp:226-267 | A snapshot is tracked with its bytes, replaces the bytes known before, or is ignored when its body is not there or its channel keeps none; the sum stays right. |
| `ResidencyService.ResidentMemory.LeasePost` | sources/backend/PostRepositoryResidency.cpp:269-300 | A lease is granted exactly for a resident body. |
| `Following.SnapshotResult` | sources/backend/FollowingModel.cpp:472-605 | After a snapshot each thread is what the server listed merged with local state - in terms of the listing: `FollowingContent.ListedShows` -, else its old entry if marked or synthetic, else gone; conversations are untouched and no thread has two entries. |
| `FollowingContent.ListedShows` | sources/backend/FollowingModel.cpp:503-585 | A listed thread has its channel, time and mute state and shows the server's counts - replies raised to one where the user marked it as unread, mentioned exactly if there are mentions - unless a read is unacknowledged and the listing no newer than it. |
| `FollowingContent.ReadClears` | sources/backend/FollowingModel.cpp:727-757 | Reading a thread clears its counts at once and notes up to when it was read, until the server has heard of it. |
| `FollowingContent.ReadAnswered` | sources/backend/FollowingModel.cpp:757-775 | The server's answer ends the wait: a success takes the marks with it, a failure gives the thread back to snapshots. |
| `FollowingContent.MarkShows` | sources/backend/FollowingModel.cpp:374-419 | Marking a thread shows it as unread from that post on, and the mark is kept. |
| `FollowingContent.ConversationMark` | sources/backend/FollowingModel.cpp:374-419 | Marking a conversation records the mark; its entry follows from it when conversations are next rebuilt. |
| `FollowingContent.MentionShows` | sources/backend/FollowingModel.cpp:307-342 | A mention in a root post shows as a mention of its own, unless the thread is listed already. |
| `FollowingContent.TakenAwayExactly` | sources/backend/FollowingModel.cpp:344-372 | A view of a channel takes its mentions and its mark, a mention that was seen takes itself, an unfollowed thread its entry; every other thread and every conversation stays. |
| `FollowingContent.ObservationMoves` | sources/backend/FollowingModel.cpp:650-725 | An observation that is not refused moves the boundary to the post, and consumes a mark it reaches. |
| `FollowingContent.ArrivalResumes` | sources/backend/FollowingModel.cpp:292-305 | A post that arrives behind the boundary of a thread read to its end is where to resume. |
| `FollowingContent.SyncShows` | sources/backend/FollowingModel.cpp:178-253 | Rebuilding shows exactly the channels that are to be shown, each as the sidebar and the marks say. |
| `Following.ManualSurvives` | sources/backend/FollowingModel.cpp:567-585 | A thread marked as unread survives every snapshot. |
| `Following.MentionSurvives` | sources/backend/FollowingModel.cpp:587-602 | A synthetic mention stays as it is until the server lists its thread. |
| `Following.CursorSurvives` | sources/backend/FollowingModel.cpp:503-541 | The resume cursor of a thread without a mark survives every snapshot that keeps the thread. |
| `Following.ReadStaysRead` | sources/backend/FollowingModel.cpp:543-559 | While a read is unacknowledged, a snapshot no newer than it brings back neither replies nor mentions. |
| `Following.NewerReplyShows` | sources/backend/FollowingModel.cpp:555-559 | A snapshot with a newer reply ends the suppression. |
| `FollowingRuns.RunUnique` | sources/backend/FollowingModel.cpp:178-605 | Over every run no thread has two entries. |
| `FollowingRuns.BoundaryAdvancesOverRuns` | sources/backend/FollowingModel.cpp:650-725 | Over any run in which the entry of a thread or a conversation lives, is not marked as unread, and its boundary's post is not reported with an earlier creation time, its read boundary does not move back. |
| `FollowingRuns.FixedTimesNeverMoveBack` | sources/backend/FollowingModel.cpp:650-725 | If creation times never change, no run moves the boundary of a living entry back, marking as unread apart. |
| `FollowingRuns.StepOnlyObserved` | sources/backend/FollowingModel.cpp:178-725 | While the entry of a thread or a conversation lives and is not marked as unread, only an observation that is not refused changes its boundary, and puts it on the observed post. |
| `FollowingRuns.ObservedMovesBackExactly` | sources/backend/FollowingModel.cpp:677-698 | An observation moves the boundary back exactly when it reports the boundary's own post with an earlier creation time. |
| `FollowingRuns.SamePostCanMoveBack` | sources/backend/FollowingModel.cpp:677-698 | A concrete observation that does move the boundary back. |
| `FollowingRuns.AcceptedObservation` | sources/backend/FollowingModel.cpp:697-712 | After an accepted observation the cursor is on the least unread cached post; it is at the end exactly if there is none and the source is at its end. |
| `FollowingRuns.NextIsLeast` | sources/backend/FollowingModel.cpp:618-648 | The next cached post is unread, none is before it, and it is missing only if nothing is unread. |
| `FollowingRuns.SyncKeepsCursor` | sources/backend/FollowingModel.cpp:178-253 | A conversation that is still shown keeps its cursor unless it is marked. |
| `FollowingService.NoRefreshIsLost` | sources/backend/FollowingModel.cpp:421-470 | Over every run at most one query is open, and when nothing is pending every request for a refresh is covered by a query. |
| `FollowingService.RefreshSettles` | sources/backend/FollowingModel.cpp:441-470 | Once nobody asks, at most four events remain. |
| `FollowingService.FollowingModel.ApplyThreadSnapshot` | sources/backend/FollowingModel.cpp:472-605 | The nested loops leave exactly the entries that the snapshot theorem and `FollowingContent.ListedShows` describe. |
| `FollowingService.FollowingModel.NextCachedPost` | sources/backend/FollowingModel.cpp:618-648 | The loop finds the next unread cached post. |
| `FollowingService.FollowingModel.ObserveReadThrough` | sources/backend/FollowingModel.cpp:650-725 | An older observation is refused; an accepted one moves the boundary to the post and the cursor to the next unread cached post; a mark that was reached is used up. |
| `FollowingService.FollowingModel.SyncConversations` | sources/backend/FollowingModel.cpp:178-253 | The loop over channels rebuilds the conversations and settles used-up marks. |
| `FollowingService.FollowingModel.MarkPostUnread` | sources/backend/FollowingModel.cpp:374-419 | A mark is recorded and the thread's entry reopened. |
| `FollowingService.FollowingModel.MarkThreadRead` | sources/backend/FollowingModel.cpp:727-757 | A read is acknowledged optimistically, with a watermark on the server's timeline. |
| `FollowingService.FollowingModel.ThreadsAnswered` | sources/backend/FollowingModel.cpp:455-469 | The answer is applied and a refresh wanted meanwhile is scheduled. |
| `Activity.FoldLaw` | sources/backend/ChannelActivityTracker.cpp:17-190 | Once a domain is known, over any run of snapshots, posts and views of the other domain, read plus credit is the fold: at least every snapshot's counter, one more per own post. |
| `Activity.AcknowledgedLevel` | sources/backend/ChannelActivityTracker.cpp:43-66 | One snapshot raises read plus credit to its counter if that is higher, and never lowers it. |
| `Activity.UnreadIsTotalBeyondLevel` | sources/backend/ChannelActivityTracker.cpp:321-343 | The unread count is exactly what the total exceeds read plus credit by. |
| `Activity.OwnPostsStayRead` | sources/backend/ChannelActivityTracker.cpp:125-137 | Own posts, roots and replies in any mix, leave the unread count unchanged in either mode when the totals grow by them. |
| `Activity.SnapshotsInAnyOrder` | sources/backend/ChannelActivityTracker.cpp:17-75 | Two runs of the same membership snapshots, in any order and each any number of times, lead to the same level. |
| `Activity.WatermarksAreMonotone` | sources/backend/ChannelActivityTracker.cpp:17-208 | Apart from set-unread, no event moves a read watermark back. |
| `Activity.SynchronizedFlagIsCount` | sources/backend/ChannelActivityTracker.cpp:77-111 | After synchronising, the unread flag holds exactly when the unread count is positive. |
| `Activity.FlagAgreesExactly` | sources/backend/ChannelActivityTracker.cpp:77-111 | Flag and count agree for all totals exactly when roots are not asked for, or the flag is computed from root counts too, or no root counter is known. |
| `Activity.UnreadReplyUncounted` | sources/backend/ChannelActivityTracker.cpp:321-343 | An unread reply while threads are not collapsed: the flag is on, computed from all messages, and the count of roots is zero. |
| `Activity.UnreadWithoutRootTotal` | sources/backend/ChannelActivityTracker.cpp:321-343 | An unread message and no root total: the flag is on while the count of roots is zero. |
| `Activity.ReplyActivityShowsAfterFallback` | sources/backend/ChannelActivityTracker.cpp:169-190 | Reply activity outlives any run of root-mode views and shows as soon as the channel falls back, unless muted. |
| `ActivityMentions.MentionsStayRead` | sources/backend/ChannelActivityTracker.cpp:33-41 | A channel viewed outside root mode has no mention left, and none comes back over any run whose snapshots are all older than the view. |
| `ActivityMentions.ViewedMentionStaysAway` | sources/backend/ChannelActivityTracker.cpp:169-190 | For every history and every view, the mention stays away over all runs without newer snapshots and in root mode exactly when the view was not in root mode, or the server counts root mentions apart, or there was no mention. |
| `ActivityMentions.MentionComesBack` | sources/backend/ChannelActivityTracker.cpp:169-190 | A run in which a viewed mention comes back with no snapshot after the view: viewing clears it, the next synchronisation sets it again. |
| `ActivityContent.OthersPostIsUnread` | sources/backend/ChannelActivityTracker.cpp:137-155 | Another user's post makes the channel unread: a root post unless it is muted, a reply unless it is muted or only roots count, and a mention even when it is muted. |
| `ActivityContent.ReplyIsHeldBack` | sources/backend/ChannelActivityTracker.cpp:137-155 | A reply changes nothing about a channel in which only roots count, until that is no longer so. |
| `ActivityContent.PostStaysUnread` | sources/backend/ChannelActivityTracker.cpp:113-251 | From any state: after another user's root post, and whatever follows but a view or a mark, an unmuted channel is unread. |
| `ActivityContent.OwnPostKeepsUnread` | sources/backend/ChannelActivityTracker.cpp:113-137 | The user's own posts leave a channel as read or unread as it was. |
| `ActivityContent.ViewedIsRead` | sources/backend/ChannelActivityTracker.cpp:157-208 | A channel that was just viewed is read, and its totals are read up to what was seen, in the domain that was viewed. |
| `ActivityContent.MarkedIsUnread` | sources/backend/ChannelActivityTracker.cpp:210-251 | A channel marked as unread is unread, unless it is muted and has no mention; its counters are the server's. |
| `ActivityContent.SnapshotBrings` | sources/backend/ChannelActivityTracker.cpp:17-75 | A snapshot brings the server's mention counts, unless it is older than what is known; muting follows it at once. |
| `ActivityContent.MentionIsUnread` | sources/backend/ChannelActivityTracker.cpp:273-289 | A mention makes a tracked channel unread, muted or not; withdrawing it leaves no mention behind. |
| `ActivityContent.SynchronisedMode` | sources/backend/ChannelActivityTracker.cpp:77-111 | Synchronising counts roots exactly when threads are collapsed and both root counts are known. |
| `Activity.ChannelActivityTracker.SetMembership` | sources/backend/ChannelActivityTracker.cpp:17-75 | Counters only move forward, credits shrink by what is acknowledged, and stale mention counts are ignored: the update of the fold law. |
| `Activity.ChannelActivityTracker.SynchronizeChannel` | sources/backend/ChannelActivityTracker.cpp:77-111 | The domain is chosen by the root-count mode, and the unread flag compares the total with read plus credit. |
| `Activity.ChannelActivityTracker.RecordPost` | sources/backend/ChannelActivityTracker.cpp:113-155 | An own post is credited in every domain it counts in whose counter is known; another's marks activity in its own domain. |
| `Activity.ChannelActivityTracker.RecordViewed` | sources/backend/ChannelActivityTracker.cpp:157-208 | A view consumes the selected domain only; outside root mode it consumes everything. |
| `Activity.ChannelActivityTracker.MarkUnread` | sources/backend/ChannelActivityTracker.cpp:210-251 | The watermark is set as the server says, backwards too, and old credits are void. |

## Left out

- Timers do not fire early and the clock never goes back: both are assumed of the environment.
- Identifiers of pending posts and of uploads are not used again after they left; identifiers contain no separator character.
- Watermarks (`residentObservations`, `invalidationWatermarks`) are pruned by age in the source; the model prunes only
  fences that nothing on its way is older than, which is what the one-hour lifetime is meant to guarantee.
- 64-bit wrap-around of generations, observation numbers, times and counters: unbounded numbers are used.
- Within one step the outbox file can be written either always or never; the disk may change between steps.
- Listeners of signals do not call back into the outbox, the drafts or the resident memory in the middle of a step;
  the transport and the shared GETs are modelled with re-entrant callbacks.
- `restartTransport` after its own connector was destroyed by a callback: the model lets the rest of the restart do nothing.
  The same holds after a callback reset the connector, whose old manager, and with it the replies still in the list
  (`HTTPConnector.cpp:174-178`), is gone by then: what aborting those would do is not part of this model.
  `QNetworkReply::abort` is taken to finish the reply before it returns.
- Failing SQL statements other than a failed store transaction; SQLite itself (vacuum, write-ahead log, schema);
  rows that tie in all ordering columns are ordered by account.
- Encryption: a stored payload either decodes to what was stored or is unreadable.
- Upload progress, error texts, translations, logging, and all widgets.
- Quoted-reply formatting: recovery works for any function that removes the quoted text.
- Message properties other than the quoted post, and server file identifiers in the outbox file, which recovery does not read.
- Posted events without an identifier, and posted events held back while a direct channel is being opened: not part of this model.
- Thread metadata of root posts (reply counts, participants): only the fence of the root's body is modelled.
- Account switches of the draft service and of the outbox: one identity for the whole run.
- The pages behind the three-way join, and cached thread and channel reads, as far as they only forward to the ingestion and window operations modelled here.
- Presentation fields of a followed thread (author, message, team, urgency, since when it asks for attention).
- `removeDraftByKey`: in the model and the class, without a row of its own.
- Remote flags after `disableRemoteSync` while older acknowledgements are still on their way: only the preservation of text is claimed.
- Staging an upload identifier again with another path, and leases whose body leaves its channel other than by eviction.
- ACP client, MCP server, emoji, mention groups, manifest scripts, post navigation: they would add only easier members.
- OutboxService.PendingPostService.Step: the fields are held in one record that the methods update, not in sixteen separate fields.
- TransportService.Connectors.Step: all connectors live in one object, so aliasing between connector objects is not modelled.
- CacheStore.PostCacheStore.StorePosts: the table is a sequence in eviction order, so how SQLite finds that order is not modelled.
- DiskFence.ReadAskedAfterDeletion: nothing is claimed of a read after a deletion carried out while its account was closed;
  `DiskFence.ClosedDeletionIsRead` shows why.
- DiskFence.SlashExactly: blanks are the six ASCII ones, while `QString::trimmed` strips every Unicode space.
- OutboxDisk.RefusedLeavesNothing: a post that waits for an upload which the refused submission stages again may move on
  with it; of such posts only the intent is claimed to stay.
- Residency.RunSafe: the arrival of a body in a channel is a step of the model, not a method of the class.
- PostOrder.SortedPostIds: `std::sort` is replaced by an insertion sort; only its result is claimed, and it is unique.
