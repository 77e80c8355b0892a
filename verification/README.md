# AIChat in Dafny

A model of the stateful parts of the AIChat chat server, and proofs of what they promise over every run.

The concurrent parts are state machines: one label for each stretch of code that runs without giving way (a critical
section, one SQL statement, one callback), and a run is any finite interleaving of enabled labels. The theorems
quantify over all runs, and the clock, fresh uuids, database and Redis outcomes and the choices of `select` and of map
iteration are arbitrary. The objects the Go code mutates are classes here as well; their methods are proved to extend
such runs (or to compute the specification functions), so what is proved of runs holds of them.

| file | what it models |
|---|---|
| `types.dfy` | messages, message types, channel ids |
| `channel_ids.dfy` | the texts that are hashed to channel ids |
| `pender_protocol.dfy` | `defaultMessagePender` as a step system over shared, mutable message objects, with its mutex and `clearUp` |
| `pender_safety.dfy`, `pender_theorems.dfy` | its invariant, and the theorems about outcomes, retries, residence and the lock |
| `message_pender.dfy` | the pender as an object: `Pend`, `UnPend`, the scan and the callback loops, each tied to the step system |
| `message_service.dfy` | `SendMessage`, `onMessage` and the three callbacks around that pender, as one server |
| `message_sends.dfy`, `message_notices.dfy` | what one call of `SendMessage` does from start to end, by message and by answer, and what it hands over; the failure notices |
| `message_safety.dfy`, `message_rows.dfy`, `message_runs.dfy` | what runs of the whole server keep; rows and channels; the pender's theorems told of server runs |
| `message_acks.dfy`, `message_deliveries.dfy` | notices, acknowledgements and the lost lock; what stands behind every hand-over: the row, the Pend, the UnPend |
| `message_updates.dfy` | from the messages handed over to the unread counters |
| `conversation_table.dfy`, `conversation_updates.dfy` | the conversations table and its upsert; concurrent `updateConversation`, create and open |
| `conversation_serial.dfy`, `conversation_service.dfy` | updates one at a time as a fold; the store and service as an object |
| `paging.dfy`, `strict_paging.dfy`, `history_paging.dfy` | `ORDER BY ... LIMIT` pages; the `<`, unique-key and `<=` cursors and the handlers on top |
| `backfill.dfy` | migrations 14 to 17 |
| `sessions.dfy`, `session_races.dfy` | registry, online keys and subscriptions under connect, close, pongs, expiring keys and dying loops; exactly what races leave behind |
| `routing.dfy`, `redis_bus.dfy`, `gateway.dfy` | Redis against direct routing, in one go and copy by copy; both routers and the callbacks of `handleWs` as objects |
| `ws_conn.dfy`, `heartbeat.dfy` | one connection's write queue and Close; its ping, read deadline and online key |
| `lost_lock.dfy` | what the lost lock does to a connection whose reader waits for it |

## Where the code does not do what its notes say

* Acknowledgements. `docs/notes/week06-ack.md` (lines 34-73, 137) and `docs/notes/week12-debug.md` (lines 140-142) say
  that a client's ack frame carrying the message id removes the pending message and sets `is_delivered`. `onMessage`
  gives every frame a new id (`gateway/ws/ws_server.go:120`), so the id is never found. `MessageAcks.AckRoundTrip`
  proves the intended behaviour of `SendMessage` alone, and `MessageAcks.NothingIsAcked` what the server really does.
* The lock. `UnPend` returns without unlocking when the id is not there (`service/message.go:111-113`). So the first ack
  frame that reaches `UnPend` stops every later `Pend`, `UnPend` and scan: `MessageAcks.FirstAckFrameLocks`,
  `MessageAcks.LockLossSilences`. Readers that then wait for it hear no more pongs, and their users go offline with
  their connections open: `LostLock.CaughtReaderGoesOffline`. Exactly when the lock is lost:
  `PenderTheorems.LockLostIffMiss`.
* Retries. The same note speaks of 10 seconds; the code has a TTL of 30 seconds and retries every 5.
* The guard against handling a message twice compares with a `LastMsgId` that is never stored, so repeats count again:
  `ConversationUpdates.GuardNeverSeesRepeats`.
* History. The cookie of a full page is the request's own cookie, so a client that follows it stands still:
  `HistoryPaging.SelfDrivenStandsStill`. A client that takes the last row's time can get to the end exactly when every
  second holds fewer than `limit` messages, and then gets everything: `HistoryPaging.FinishesIffSmallTies`,
  `HistoryPaging.Covered`; that its requests are walks, while times are positive, is `HistoryPaging.HandlerWalks`, and
  what zero does `HistoryPaging.ZeroRestarts`. Two messages in one second and a limit of one go on for ever: `HistoryPaging.TieStalls`.
* The strict cursor loses rows exactly where a second straddles a multiple of the limit:
  `StrictPaging.CompleteIffNoCut`, with `StrictPaging.TieCutLosesRow` as an input.
* Group messages through Redis are routed again by their empty `ToId`: `Routing.RoomMessagesReachNobody`.
* Reconnecting before the old connection has closed loses the new one's entry, key and subscription:
  `SessionRaces.OverlapLosesNewSession` is a run. Exactly when a session is the registered one, a subscription the
  recorded one and a user online: `SessionRaces.RegisteredIff`, `SessionRaces.RecordedIff`, `SessionRaces.OnlineIff`.
* A connection that closes before it has connected leaves its key and subscription behind
  (`SessionRaces.EarlyCloseLeaves`), and a pong handled while closing leaves the user online
  (`SessionRaces.PongLeavesKey`). Exactly what is left: `SessionRaces.LeftoverIff`, `SessionRaces.OnlineAfterClose`.

## Model

| member | source | states |
|---|---|---|
| `ChannelIds.Symmetric` | types/channel.go:8-20 | both users of a direct conversation get the same channel id |
| `ChannelIds.LessIffParts` | types/channel.go:13 | the order is the dictionary's: a comes before b if and only if, after some common beginning, a ends or has the smaller character |
| `ChannelIds.SmallerFirst` | types/channel.go:11-20 | the hashed text is a_b exactly when a comes first in that order and b_a otherwise; "alice" and "bob" give alice_bob either way |
| `ChannelIds.DirectKeyIdentifiesPair` | types/channel.go:11-17 | two direct conversations hash the same text if and only if they join the same two users, for ids of one length or without underscore |
| `ChannelIds.DirectKeyIsNoRoom` | types/channel.go:11-26 | no direct conversation hashes the text of a room id of the same length |
| `PenderSafety.StepInv` | service/message.go:53-120 | every step, in any interleaving of Pend, UnPend, the scan and the callbacks, keeps the invariant: keys are current ids, each stored message is in exactly one of map, fail batch, ack hand-over, acked, failed; retries counted, spaced and none after a failure |
| `PenderSafety.RunInv` | service/message.go:53-120 | every run keeps that invariant |
| `PenderSafety.ScanDeletes` | service/message.go:63-78 | deleting by the ids read from the shared message objects removes exactly the entries queued for failure |
| `PenderTheorems.OneOutcome` | service/message.go:53-120 | a pended message is acked or failed at most once and never both, and it has an outcome exactly when it has left the map and both hand-overs |
| `PenderTheorems.KeysAreIds` | service/message.go:94-107 | each map key equals its entry's current MsgId although the message objects are shared and written by others |
| `PenderTheorems.Conservation` | service/message.go:53-120 | at every state, successful Pends = still in the map + removed and awaiting their callback + acked + failed |
| `PenderTheorems.RetriesBounded` | service/message.go:64-88 | in every run at most MaxRetry retries per message, none after its failure, at most one from the removal by UnPend on, and RetryInterval between Pend and retry and between retries |
| `PenderTheorems.NoFurtherRetry` | service/message.go:85-88 | the one retry left after UnPend comes from the batch collected before it: a removed message that is in no batch is never retried again |
| `PenderTheorems.ScanVerdict` | service/message.go:63-78 | a scan keeps an entry if and only if its reading is before SendAt + TTL and fewer than MaxRetry retries have fired, and queues it for a retry if and only if it keeps it and RetryInterval has passed since its last attempt; otherwise it is queued for failure |
| `PenderTheorems.LeftForGood` | service/message.go:94-120 | an entry that has left the map never returns, and no step changes its message's id or time |
| `PenderTheorems.DeadlineRemoves` | service/message.go:63-78 | the first scan that reads the clock at or after SendAt + TTL removes the entry, for the rest of the run |
| `PenderTheorems.ScansSpendRetries` | service/message.go:69-88 | as long as an entry stays, each scan at least RetryInterval after its last attempt has used up one of its retries |
| `PenderTheorems.RetriesRunOut` | service/message.go:65-88 | more than MaxRetry such scans remove the entry, whatever its SendAt |
| `PenderTheorems.MapDrains` | service/message.go:53-92 | with no new Pend, either bound on every entry leaves the map empty |
| `PenderTheorems.LockLostIffMiss` | service/message.go:109-120 | in a run the lock is lost for good if and only if some UnPend missed |
| `PenderTheorems.MissFreezes` | service/message.go:110-113 | after a miss the map and the owner never change, and every further event comes from a callback already handed over |
| `PenderTheorems.MissBlocks` | service/message.go:94-120 | after a miss no Pend, UnPend or scan ever gets past Lock again |
| `PenderTheorems.HolderFinishes` | service/message.go:59-116 | a lock holder can always complete its section, and it then frees the lock if and only if it is not an UnPend that missed |
| `PenderTheorems.CallbacksOutsideLock` | service/message.go:79-90 | no fail or retry callback runs while clearUp holds the lock |
| `MessagePender.DefaultMessagePender.Pend` | service/message.go:94-107 | refuses exactly the ids already in the map, leaving it alone; otherwise adds a fresh entry under the id; in both cases extends the run by the corresponding steps |
| `MessagePender.DefaultMessagePender.UnPend` | service/message.go:109-120 | succeeds exactly on ids in the map, removes only that entry and marks its message delivered; on a miss it returns with the mutex held |
| `MessagePender.DefaultMessagePender.Collect` | service/message.go:60-74 | the two lists hold, once each and in any map order, exactly the entries judged failed and judged due for a retry |
| `MessagePender.DefaultMessagePender.DeleteAll` | service/message.go:76-78 | removes exactly the ids the queued messages carry now |
| `MessagePender.DefaultMessagePender.Scan` | service/message.go:59-79 | the locked half of a tick is one scan step of the protocol and frees the mutex |
| `MessagePender.DefaultMessagePender.FireFailures` | service/message.go:82-84 | every queued message is marked failed, once each, through the shared object, with the mutex free |
| `MessagePender.DefaultMessagePender.FireRetries` | service/message.go:85-89 | the retry batch is the sequence of retry steps at the clock's readings, each writing lastRetryAt and retryCount of the shared entry |
| `MessagePender.DefaultMessagePender.ClearUp` | service/message.go:58-90 | a whole tick extends the run by one scan, then all failures, then all retries |
| `MessageSafety.PenderKeepsInv` | service/message.go:142-249 | in every run of the server the pender keeps its invariant |
| `MessageRuns.PenderRun` | service/message.go:53-120 | every run of the server contains a run of the pender that leads to the server's pender state, so what is proved of pender runs holds inside SendMessage and its callbacks |
| `MessageRuns.OneOutcome` | service/message.go:142-183 | in every server run a pended message is acked or failed at most once, never both, and exactly when it has left the map and both hand-overs |
| `MessageRuns.Conservation` | service/message.go:142-249 | in every server run, successful Pends = in the map + awaiting their callback + acked + failed |
| `MessageRuns.RetriesBounded` | service/message.go:85-89 | the retry bounds, finality, staleness and spacing hold in every server run |
| `MessageRuns.ServiceRetries` | service/message.go:142-145 | with the service's options a message is retried at most three times, each at least five seconds after its Pend and after the retry before |
| `MessageRuns.DeadlineRemoves` | service/message.go:63-78 | after a scan at or after its deadline a message is out of the map for good, whatever the server does next |
| `MessageRuns.ServiceDeadline` | service/message.go:142-143 | with the service's options that deadline is thirty seconds after SendAt |
| `MessageRuns.MapDrains` | service/message.go:53-92 | while the server pends nothing new, its scans empty the map |
| `MessageRuns.LockLostIffMissed` | service/message.go:109-120 | the server loses the pender's lock if and only if some UnPend missed |
| `MessageSends.DoneAsAsked` | service/message.go:191-249 | in every run, under every interleaving, a call of SendMessage that has ended has done exactly what its message and the answers it got ask for: nothing without a target; for content a row and a receipt, then one routing to the room's members, or Pend and delivery to a recipient online; a notice routed; an Ack nothing of its own; each early way out with what was done by then |
| `MessageSends.CarriesTheMessage` | service/message.go:198-216 | in every run the receipt of a call goes from the recipient to the sender with both ids and the time of the message it was handed, and what the call saves, pends, delivers or sends to a room is that message in its channel |
| `MessageSends.DirectOnline` | service/message.go:196-248 | from any state with the lock free and the id new, a direct content message to a recipient online can go its way undisturbed, and then its row is under its id, its fresh entry in the map, and the call's actions are exactly Save, the receipt to the sender, Pend, Deliver |
| `MessageSends.DirectOffline` | service/message.go:231-234 | to a recipient offline the same leaves the row, the receipt and nothing else |
| `MessageSends.DirectRefused` | service/message.go:238-248 | when the id is pended already, Pend refuses, the entry stays, and the message is saved, receipted and delivered all the same |
| `MessageSends.ToRoom` | service/message.go:251-270 | a content message with a room leaves its row in the room's channel, the receipt, and one routing to the members if they could be read |
| `MessageSends.NotSaved` | service/message.go:199-202 | when the store fails the call ends with nothing done, and under an id that has a row it can only fail |
| `MessageSends.UnsavedOnline` | service/message.go:236-248 | a conversation update or a receipt handed to SendMessage is pended and delivered without a row |
| `MessageSends.FailedRouted` | service/message.go:226-229 | a Failed message is routed, whoever is online, with no row and no entry |
| `MessageSends.NobodyRefused` | service/message.go:193-195 | a message to nobody is refused with nothing done |
| `MessageSafety.SavedBeforeDelivered` | service/message.go:196-248 | in every run a content message is pended, routed by its own call or sent to its room only after its row is saved, with exactly one Sent receipt in between |
| `MessageDeliveries.DeliveredIsSaved` | service/message.go:198-216 | a content message that anything but its receipt has been done with has its own row in the table, in every run |
| `MessageDeliveries.PendedIsSaved` | service/message.go:238-240 | every entry of the pender comes from a Pend of its message, and a content message's row is in the table as long as it is pended and after |
| `MessageDeliveries.RetryFollowsPend` | service/message.go:178-189 | every retry follows the Pend of the message it routes |
| `MessageDeliveries.RetriedAfterSaved` | service/message.go:178-189 | a retry routes a content message only after its row was saved and one Sent receipt went out, and the row is there |
| `MessageDeliveries.RetriesAreSent` | service/message.go:85-89 | in every run the messages routed again are, one for one and in order, those the pender retries |
| `MessageSafety.RoomsNeverPended` | service/message.go:215-218 | a content message that is pended has no room |
| `MessageSafety.CellsKept` | service/message.go:146-198 | no step changes a message's parties, room, id, content or time; its type can only become Failed |
| `MessageRows.RowsKeepTheirChannel` | service/message.go:198-202 | in every run each saved row is under its own id and carries the channel id that getChannelId computes from it |
| `MessageAcks.NoticesInert` | service/message.go:146-159 | a call made by OnMsgFailed is neither saved nor pended in any run: it checks, routes one notice and ends |
| `MessageAcks.NoticeAdvances` | service/message.go:226-229 | a notice never waits for the lock and each step brings it nearer its end, so OnMsgFailed to SendMessage terminates |
| `MessageNotices.NoticeMade` | service/message.go:146-159 | OnMsgFailed marks the message failed and calls SendMessage with a notice to the message's sender, from its recipient, with its id and room, no text and the present time |
| `MessageNotices.NoticeTellsSender` | service/message.go:146-159 | in every run, all that this call ever routes is one notice with exactly those fields |
| `MessageNotices.NoticeArrives` | service/message.go:226-229 | and undisturbed it routes it, to a sender or room that is there |
| `MessageNotices.OneNoticeEach` | service/message.go:82-84 | in every run there are as many notices as calls of OnMsgFailed |
| `MessageAcks.OfflineIsOnlySaved` | service/message.go:231-234 | in every run a direct content message to an offline recipient is saved and receipted and, in every continuation, never pended or routed |
| `MessageAcks.AckRoundTrip` | service/message.go:161-176 | an Ack given to SendMessage under a pended id, run undisturbed, removes the entry, marks the row delivered and routes one Ack to the original sender |
| `MessageDeliveries.AckEndToEnd` | service/message.go:161-176 | at any moment of any run, an Ack given to SendMessage for a pended content message, if nothing comes between its steps, takes the entry out, marks the row that is there, and routes one Ack to the sender if and only if it was not delivered already |
| `MessageDeliveries.AckBackExactly` | service/message.go:161-176 | in any run, OnMsgAcked for a content message finds its row, marks it delivered, and routes one Ack from recipient to sender if and only if the row was not delivered already |
| `MessageDeliveries.AckedOnce` | service/message.go:161-176 | in every run at most one Ack per message id goes to a sender, and its row is then delivered |
| `MessageDeliveries.EachHitOneAck` | service/message.go:109-120 | in every interleaving the Acks sent and the hand-overs still waiting are no more than the UnPends that found their id |
| `MessageDeliveries.HandoverWaits` | service/message.go:114-118 | what UnPend has taken out stays handed over, with OnMsgAcked able to run, until it has run |
| `MessageAcks.AckFrameMisses` | gateway/ws/ws_server.go:119-128 | behind onMessage an Ack frame never finds its id, so its UnPend loses the lock |
| `MessageAcks.FramesKeepInv` | gateway/ws/ws_server.go:119-128 | over runs where every call comes from a frame or from OnMsgFailed, ids stay distinct, no Ack's id is ever pended, and only Acks reach UnPend |
| `MessageAcks.NothingIsAcked` | gateway/ws/ws_server.go:119-128 | over those runs OnMsgAcked never runs, no Ack is routed back, and no saved row ever changes, so is_delivered stays as saved |
| `MessageAcks.FirstAckFrameLocks` | service/message.go:222-224 | the first Ack frame to reach UnPend leaves the pender locked |
| `MessageAcks.LockedIffUnPendRan` | gateway/ws/ws_server.go:119-128 | behind onMessage the pender is locked for good if and only if some Ack frame has got to UnPend |
| `MessageAcks.OneAckFrame` | service/message.go:222-224 | one Ack frame on a fresh server is such a run |
| `MessageAcks.LockLossSilences` | service/message.go:231-248 | from then on, in every continuation, the map is frozen, nothing is pended, and no call routes its message to an online recipient but those already past Pend; receipts, notices, room messages and retries already collected go on |
| `ConversationTable.Find` | store/conversation_db.go:32-42 | a lookup by key returns a matching row's id, and nothing only when no row matches |
| `ConversationTable.ReadWrite` | store/conversation_db.go:59-81 | what the store returns for a row has every column of it and no LastMsgId; reading a row and writing it back gives the same row if and only if no column has an empty text for NULL; writing a conversation and reading it back loses LastMsgId and nothing else |
| `ConversationTable.UpsertAt` | store/conversation_db.go:11-19 | the upsert leaves one row under the key: the old one with replaced preview and added counter, or the new one; the constraints still hold |
| `ConversationTable.UpsertElsewhere` | store/conversation_db.go:11-19 | it leaves what is under every other key alone |
| `ConversationTable.UpsertKeepsIdentity` | store/conversation_db.go:14-18 | no upsert, of any conversation, rewrites a row's user, peer, room or channel id |
| `ConversationUpdates.NoLostIncrements` | service/message.go:275-316 | in any interleaving and at every moment a counter is its initial value plus the deltas of the finished updates, racing creates included |
| `ConversationUpdates.FinalUnread` | service/message.go:275-316 | once every update of a conversation has succeeded, its counter has grown by exactly the sum they ask for, whatever became of other conversations and of API requests |
| `MessageUpdates.UnreadIsMessagesHandedOver` | service/message.go:231-268 | in any interleaving of the updates a server run has started with one another and with API requests: once those of a direct conversation have succeeded, its counter has grown by the messages from the peer that passed the online check; and a room's by the messages others sent to it at moments when the user was a member |
| `MessageUpdates.TouchesWhom` | service/message.go:242-268 | the conversations a message touches are exactly those of its two ends, the sender's too, or the room's for each member |
| `MessageUpdates.MessageShown` | service/message.go:242-268 | in any interleaving, once the updates of a conversation that some message touched have succeeded, its row is there and shows one such message: its time, its text and its sender's name |
| `ConversationUpdates.GuardNeverSeesRepeats` | service/message.go:300-303 | the re-entry guard never stops a message that has an id, repeated or not |
| `ConversationUpdates.LastMessageShown` | service/message.go:309-316 | once all updates of a conversation have succeeded and without an API create or open of it, its row shows one processed message in full, never an empty create |
| `ConversationUpdates.BlankOnlyFrom` | service/message.go:286-299 | once the requests for a conversation have ended, its row has a create's empty values only if the call that created it failed or an API request did |
| `ConversationUpdates.CreateBlanks` | service/conversation.go:36-45 | an API create under an existing key blanks the preview and keeps counter, key and channel |
| `ConversationUpdates.TableInvariant` | store/migrations/000010_create_conversation_table.up.sql:1-19 | under every interleaving at most one row per (user, peer) and per (user, room), exactly one of peer and room, new rows with their key's channel id, nothing rewriting either |
| `ConversationSerial.SerialIsFold` | service/message.go:275-316 | updates run one at a time leave under every key the fold of the processed messages |
| `ConversationSerial.FoldSumsAndShowsLast` | store/conversation_db.go:14-18 | that fold is the sum of the deltas and the last message under the key |
| `ConversationService.ConversationStore.GetByKey` | store/conversation_db.go:127-149 | a lookup fails, or returns no row exactly when there is none, or a conversation with every column of the row, counter, preview and channel, and no LastMsgId |
| `ConversationService.ConversationStore.InsertOrUpdate` | store/conversation_db.go:83-99 | the table becomes what the upsert says, or stays when the statement fails or the check rejects the row |
| `ConversationService.ConversationStore.CreateConversation` | service/conversation.go:29-47 | succeeds exactly when one of peer and room is given and the statement does, with an empty preview, no unread messages and the channel id of the room or of the two users; otherwise the table stays |
| `ConversationService.ConversationStore.UpdateConversation` | service/message.go:275-330 | alone at the table, updateConversation takes its key's row one fold step further and routes one notice from the peer or room to the user, of type ConversationUpdate and in the message's channel, or, when a statement or the user lookup fails or the message has no id, leaves at most an empty row and routes nothing; other rows stay |
| `ConversationService.ConversationStore.Open` | api/conversation.go:102-143 | open rejects exactly the requests without one target, answers with an internal error exactly when the lookup or a needed create fails, returns every column of the existing row, counter included, with the table untouched, or inserts one empty row and returns it |
| `Paging.SelectPage` | store/message_db.go:94-121 | a page holds the newest matching rows, newest first, each once, up to the limit, ties in any order |
| `Paging.ShortPageIsAll` | store/message_db.go:26-33 | a page shorter than the limit is everything that matches |
| `StrictPaging.ListHandler` | api/relation.go:96-123 | the handler's page, cookie (last row's time, or the request's when empty) and end flag, with its defaults |
| `StrictPaging.PagesDescend` | store/relationship_db.go:16-22 | following the cookies, a later page is strictly older than an earlier one, so pages are disjoint |
| `StrictPaging.SkipsExactlyTies` | store/relationship_db.go:16-22 | a finished walk skips a row if and only if the row ties with some page's last timestamp and is not on that page |
| `StrictPaging.CompleteIffNoTieCut` | api/relation.go:111-119 | a finished walk is complete if and only if none of its pages cut a tie |
| `StrictPaging.CompleteIffNoCut` | store/relationship_db.go:16-22 | a finished walk is complete if and only if no second straddles a multiple of the limit when the rows below the first cursor are counted from the newest: decided by rows, cursor and limit, however ties are ordered |
| `StrictPaging.WalkExists` | store/relationship_db.go:16-22 | from every cursor there is a walk that finishes |
| `StrictPaging.GrowthIsInvisible` | store/relationship_db.go:16-22 | a walk during which rows are added at or above the cursor reached is a walk over the rows there were at its start, so all that is proved of walks holds of it |
| `StrictPaging.WalkEnds` | api/relation.go:215-240 | all pages but the last are full, so a walk takes at most rows / limit + 1 requests |
| `StrictPaging.WalkDistinct` | store/relationship_db.go:56-62 | the pages joined are descending and without repetition |
| `StrictPaging.TieCutLosesRow` | store/relationship_db.go:56-62 | two rows of one second and a page of one: the second row is never shown |
| `StrictPaging.UniqueKeyEnumerates` | store/room_db.go:29-31 | on a unique key the walk lists every row once and nothing else |
| `HistoryPaging.FetchMessageHandler` | api/message.go:54-82 | the reply is the newest page of limit messages, fifty by default, at or before the request's cookie, or of all when it is not positive; is_end exactly when the page is short; the cookie is then the last row's time and otherwise the request's own |
| `HistoryPaging.HandlerWalks` | api/message.go:54-82 | a client that asks the handler again with the last row's time makes a walk, finished once it is told is_end, if and only if each time it sends is positive or no message is newer; the theorems on walks below are about such clients |
| `HistoryPaging.ZeroRestarts` | api/message.go:58-60 | a time of zero sends the client back to the newest message: three replies of which the third is the first again, though no two messages tie |
| `HistoryPaging.SelfDrivenStandsStill` | api/message.go:68-81 | following the handler's own cookie never ends and never moves once a first page is full, even while messages arrive |
| `HistoryPaging.ProgressIff` | store/message_db.go:26-33 | a full page moves the last-row cursor if and only if fewer than limit messages tie at the cursor |
| `HistoryPaging.Covered` | store/message_db.go:26-33 | with the last row's time as next cursor, a finished walk shows every message at or below the first cursor that was there at its start, whatever messages come in meanwhile, late ones included |
| `HistoryPaging.CursorFalls` | store/message_db.go:26-33 | in a walk that finishes, whatever comes in, every full page lowers the cursor |
| `HistoryPaging.OverlapAtBoundary` | store/message_db.go:26-33 | in a walk that finishes, whatever comes in, two pages share a message only if they are neighbours and it has the boundary timestamp |
| `HistoryPaging.SmallTiesEnd` | store/message_db.go:94-121 | when every tie is smaller than the limit and only newer messages come in, every walk ends, after at most one page per message and one |
| `HistoryPaging.SmallTiesEndAnyway` | store/message_db.go:94-121 | whatever comes in, as long as ties are still smaller than the limit in the last table met, a walk has had at most one page per message of that table and one |
| `HistoryPaging.FinishesIffSmallTies` | store/message_db.go:26-33 | a client that takes the last row's time can finish if and only if every second at or below its first cursor holds fewer than limit messages |
| `HistoryPaging.FinishedMeansSmallTies` | store/message_db.go:94-121 | a walk that has finished, whatever came in, found at its start no second with limit messages |
| `HistoryPaging.TieStalls` | store/message_db.go:26-33 | two messages of one second and a limit of one: walks of any length that have not finished and show only one of the two |
| `Backfill.UpdateAll` | store/migrations/000014_backfill_channel_id.up.sql:1 | an UPDATE over a table rewrites each row in place by its own old value |
| `Backfill.SqlDirectIsCalc` | store/migrations/000014_backfill_channel_id.up.sql:1 | LEAST and GREATEST build the text that CalcChannelId hashes |
| `Backfill.MessagesBackfilled` | store/migrations/000015_backfill_channel_id_room_msg.up.sql:1 | after 14 and 15 a message's channel id is what getChannelId computes if and only if it was unset or right before |
| `Backfill.ConversationsBackfilled` | store/migrations/000017_backfill_channel_id_room_conv.up.sql:1 | the same for conversations after 16 and 17, against CreateConversation |
| `Backfill.MessageMigrationsCommute` | store/migrations/000014_backfill_channel_id.up.sql:1 | 14 and 15 commute and change nothing when run again |
| `Backfill.ConversationMigrationsCommute` | store/migrations/000016_backfill_channel_id_direct_conv.up.sql:1 | 16 and 17 are idempotent, and commute exactly where the row check, a set channel id or equal texts let them |
| `Backfill.Migrate` | store/migrations/000016_backfill_channel_id_direct_conv.up.sql:1 | the four in order fill every unset channel id of both tables in place with the right one and touch nothing else |
| `Backfill.SavedRowsStayRight` | store/message_db.go:45-58 | a row saved later has the right channel id and the migrations leave it alone |
| `MessageRows.RowsOutlastMigrations` | store/message_db.go:45-58 | every row any run saves has the channel id the migrations would have given it, and they pass it by |
| `Sessions.LoopsAreSubscribedLessStopped` | service/router/redis_router.go:38-79 | in every run the subscriber loops alive for a user are those subscribed for him less those successfully unsubscribed and those ended by a read error |
| `Sessions.LoopCount` | service/router/redis_router.go:38-79 | in number: Subscribes - successful Unsubscribes - deaths, plus the Unsubscribes of loops already dead |
| `Sessions.ConnectedMeansBoth` | gateway/ws/ws_server.go:76-102 | for a user whose own sessions come one after the other, a connected session is the registered one, its subscription the recorded one, and that subscription's loop the only one alive unless it died; after the last close nothing of them remains; other users do as they like |
| `SessionRaces.RegisteredIff` | gateway/conn_manager.go:24-37 | in every run a session is registered if and only if since it was added no connection of its user has been added or removed |
| `SessionRaces.RecordedIff` | service/router/redis_router.go:41-46 | in every run a subscription is the recorded one if and only if since it was made no session of its user has subscribed, or unsubscribed with success |
| `SessionRaces.OnlineIff` | store/user_redis.go:87-97 | in every run a user's key is there if and only if the last thing that set or cleared it, onConnect, a pong, onClose or its expiry, set it |
| `SessionRaces.OrderlyKey` | gateway/ws/ws_server.go:76-109 | for a user whose own sessions come one after the other: between SetOnline and SetOffline the key is there unless it expired since it was last set; outside, exactly when a pong was handled after the last SetOffline and it has not expired since |
| `SessionRaces.OnlineAfterClose` | gateway/ws/ws_server.go:92-109 | in particular after the last close |
| `SessionRaces.PongLeavesKey` | gateway/ws/ws_server.go:103-109 | an orderly run of one session that is over and leaves its user online |
| `SessionRaces.OldCloseHitsNewSession` | gateway/ws/ws_server.go:92-102 | the old session's close takes the newer session's entry, online key and subscription away and leaves it open |
| `SessionRaces.OldClosingReached` | gateway/ws/ws_conn.go:76-109 | the state in which it does so is reached from the start |
| `SessionRaces.OverlapLosesNewSession` | gateway/ws/ws_server.go:135-141 | a run from the start that leaves a connected session without entry, key, record and loop |
| `SessionRaces.ResubscribeOrphans` | service/router/redis_router.go:41-46 | subscribing over an existing record orphans the old loop if and only if it is alive |
| `SessionRaces.OrphansLiveOn` | service/router/redis_router.go:47-79 | in every later run an orphaned loop is alive if and only if no read error of its own has ended it |
| `SessionRaces.LeftoverIff` | gateway/ws/ws_conn.go:66-81 | for a user who never had two sessions at once, whatever order their callbacks ran in, whether Redis answered or not, and whatever other users did: when all are over no entry is left, and no subscription if and only if each session's successful Unsubscribe came after its own Subscribe |
| `SessionRaces.UndoneIff` | gateway/ws/ws_server.go:92-102 | that condition, read off the run |
| `SessionRaces.EarlyCloseLeaves` | gateway/ws/ws_conn.go:76-81 | a run in which the reader closes before onConnect has run: the session is over, its user online and subscribed |
| `Routing.RedisRefinesLocalIff` | service/router/redis_router.go:47-60 | Redis routing makes the same pushes as direct routing if and only if the recipient is not connected here or has exactly one loop |
| `Routing.ConnectedUsersRouted` | service/router/redis_router.go:81-83 | so in every run in which the recipient's own sessions are orderly, a message to him when connected goes once to his session, and to nobody once his loop has died |
| `Routing.RegisteredUnderOwnUser` | gateway/conn_manager.go:24-29 | in every run a session is registered under its own user only |
| `Routing.GroupOnceEach` | gateway/conn_manager.go:65-91 | direct group routing attempts exactly one push to each registered member but the sender, and no other |
| `Routing.RedisGroupIsCopies` | service/router/redis_router.go:85-94 | through Redis a group message comes out only as copies of one direct routing by ToId, one per loop of a member |
| `Routing.RoomMessagesReachNobody` | service/router/redis_router.go:85-94 | in every run a message with an empty ToId reaches no socket that way |
| `Routing.RedisGroupReachesIff` | service/router/redis_router.go:47-60 | it reaches a socket if and only if its ToId is connected and some member has a loop |
| `RedisBus.CopyFate` | service/router/redis_router.go:47-60 | with publishes, loops and sessions interleaved at will, the copy of a publish for a loop that heard it is routed once, waits, or is lost; it waits only before a running loop and is lost exactly when its loop ended first |
| `RedisBus.RoutedInOrder` | service/router/redis_router.go:48-59 | a loop routes its copies in the order of the publishes |
| `RedisBus.RoutedStays` | service/router/redis_router.go:58 | a copy is pushed to the session registered for the recipient when its loop comes to it, and that once |
| `RedisBus.PublishIsDirectRouting` | service/router/redis_router.go:81-83 | while no session moves, a published message makes, once the loops have caught up, one push per loop on its channel, to the session direct routing would push to |
| `RedisBus.LoopsGoOn` | service/router/redis_router.go:48-59 | a loop with something before it can always route it |
| `Gateway.ConnManager.Route` | gateway/conn_manager.go:50-63 | one push to the recipient's connection, or none when it is not connected |
| `Gateway.ConnManager.RouteGroup` | gateway/conn_manager.go:65-91 | whatever order the goroutines run in, the pushes are those of the group specification |
| `Gateway.RedisMsgRouter.Unsubscribe` | service/router/redis_router.go:64-79 | succeeds exactly when a record exists and the subscription closes, and then removes both; otherwise nothing changes |
| `Gateway.RedisMsgRouter.Route` | service/router/redis_router.go:81-83 | the pushes are those of the Redis routing specification, or none when Redis does not take the message |
| `Gateway.RedisMsgRouter.RouteGroup` | service/router/redis_router.go:85-94 | in whatever order the goroutines run and whichever publishes fail, the pushes are those of the members whose publish was taken, and the call succeeds if and only if all were |
| `Gateway.WsServer.HandleWs` | gateway/ws/ws_server.go:60-141 | a request with a user that can be upgraded registers the connection, sets the key and subscribes: the run of sessions grows by these three steps; any other changes nothing |
| `Gateway.WsServer.OnClose` | gateway/ws/ws_server.go:92-102 | deregisters, clears the key and unsubscribes, stopping at the first error: the run grows by exactly these steps |
| `Gateway.WsServer.OnPong` | gateway/ws/ws_server.go:103-109 | a pong renews the key: one step of the run |
| `WsConnection.WrittenIsPrefix` | gateway/ws/ws_conn.go:54-64 | under every interleaving the frames written are a prefix of the accepted pushes, the queue is the end of them and at most 256 long, and at most one frame is in between |
| `WsConnection.HistoryGrows` | gateway/ws/ws_conn.go:111-138 | later steps only append to what was written and accepted |
| `WsConnection.StoppedWriterLoses` | gateway/ws/ws_conn.go:117-127 | once the writer has left nothing more is ever written |
| `WsConnection.AcceptedAfterClose` | gateway/ws/ws_conn.go:54-64 | a run in which Push accepts a frame after Close has returned, and no continuation writes it |
| `WsConnection.PushNeverBlocks` | gateway/ws/ws_conn.go:54-64 | Push always has an outcome; it drops only when open and full, and it has two outcomes if and only if closed with room |
| `WsConnection.CloseBodyRunsOnce` | gateway/ws/ws_conn.go:66-74 | in every run, with any number of Close calls, each statement of the body runs at most once, closeCh is never closed twice, and a returned call finds all three done |
| `WsConnection.EveryCloseReturns` | gateway/ws/ws_conn.go:66-74 | from every reachable state the callers of Close, stepping alone, all return |
| `WsConnection.WsConn.Push` | gateway/ws/ws_conn.go:54-64 | accepts into the queue, or reports an error only when closed or full and changes nothing |
| `WsConnection.WsConn.Close` | gateway/ws/ws_conn.go:66-74 | whether first or not, returns with the connection closed and its body run once in all |
| `WsConnection.WsConn.Write` | gateway/ws/ws_conn.go:111-138 | through messages and ticks the writer sends the queue's frames in order; it stops early only on a closed closeCh or on a failed write or ping, which closes the connection and loses at most that one frame |
| `Heartbeat.HeartbeatExactlyWhen` | gateway/ws/ws_conn.go:13-18 | over unbounded runs neither the read deadline nor the online key lapses if and only if the slowest pong and the ticker's late start together fit in the six seconds between pingPeriod and pongWait |
| `Heartbeat.LapseReached` | gateway/ws/ws_conn.go:83-95 | a run in which a limit passes when they do not fit |
| `Heartbeat.SilenceLapses` | store/user_redis.go:87-97 | without a further pong both limits stand until sixty seconds after the last one and no longer |
| `LostLock.WaitsForEver` | service/message.go:94-113 | once the lock is lost, a call that waits for it waits in every continuation |
| `LostLock.CaughtReaderGoesOffline` | gateway/ws/ws_conn.go:96-111 | a connection whose reader made such a call hears no further pong, so its user's key stands until sixty seconds after the last one and no longer, however long it is pinged |

## Left out

- MD5 is named by its input text: two channel ids are equal exactly when the texts are. Collisions are not part of this model.
- HTTP, JSON, validators, JWT, password hashes, object storage, logging, and the user, room and friend-request writes: no stateful property.
- `unread_count` is an unbounded integer here; the column is an INT and would reject an overflow. Times and cursors are unbounded integers too.
- `MessagePender.DefaultMessagePender.UnPend`: OnMsgAcked is here its write to the shared message; the row it updates and the Ack it routes are in `MessageDeliveries.AckBackExactly`.
- `MessagePender.DefaultMessagePender.FireFailures`: OnMsgFailed is here its write to the shared message; the notice it sends is in `MessageNotices.NoticeTellsSender`.
- `MessagePender.DefaultMessagePender.FireRetries`: the routing done by OnMsgRetry is in `MessageDeliveries.RetriesAreSent`.
- `MessagePender.DefaultMessagePender.ClearUp`: likewise. The class's methods run one at a time; every interleaving is covered by the step system they extend.
- `MessageUpdates.UnreadIsMessagesHandedOver`: the updates touch no state of the server model, so they are interleaved with one another and not with its steps; a message that has passed the online check counts from the moment it is routed.
- `ConversationSerial.SerialIsFold` is about messages with an id and keys with a peer or room, which is what SendMessage hands over.
- `StrictPaging.UniqueKeyEnumerates`: GetMembersPaged walks user ids upwards; the model uses minus the rank of an id as the cursor value. No rows are deleted during a strict walk, and none is added below its cursor.
- The conversation list (`GetByUserId`) pages by a timestamp that updates change between requests; it is left out.
- `Backfill`: SQL's LEAST and GREATEST are taken to order ids as Go does, which holds for lower-case uuids. Every unset channel id is the empty string.
- `Routing` and `Gateway`: the registry does not change while one message is being routed; in `RedisBus` it does. One server instance is modelled, and the bus delivers each publish to every current subscriber. The limit of 40 goroutines does not matter to what they push.
- `Sessions`: the online key may expire at any moment; that it does so sixty seconds after its last renewal and not before is in `Heartbeat`. A reader may handle pongs until it leaves, which it may put off beyond the closing of its socket. `Gateway.WsServer` runs each callback without interruption.
- `WsConnection`: socket framing and write deadlines are reduced to writes that succeed or fail.
- `Heartbeat`: one connection; SetOnlineStatus is taken to succeed, and the two renewals of one pong are simultaneous. A session that closes and deletes the key is in `Sessions`.
- The user cache, pprof, benchmarks and the designs that exist only in the notes.
