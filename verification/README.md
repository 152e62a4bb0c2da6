# Terminal Social: a verified model

This project models the parts of the Terminal Social chat server that carry state from one
request to the next, and proves what they guarantee.

- `Rate.dfy`: the token bucket and the per-key limiter that evicts idle buckets on every call.
- `Sanitizer.dfy`: the scanner that removes terminal control sequences from user text, proved
  equal to an automaton over the escape syntax of sections 5.4 and 5.6 of ECMA-48.
- `Escapes.dfy`: what the sanitizer leaves of a text, told by the escape sequences in it.
- `Mentions.dfy`: mention parsing and highlighting.
- `SessionCap.dfy`: the session counter, with the atomic operations of any number of handlers
  interleaved.
- `Database.dfy`, `StoreLaws.dfy`, `StoreService.dfy`: the tables with their triggers and
  cascades, what each statement keeps and means, and the store object.
- `Words.dfy`, `Rows.dfy`: what a search term is, and what the small statements write.
- `Hub.dfy`: the publish/subscribe hub with its bounded queues, as functions on values
  (`HubModel`) and as the object that changes in place (`HubService`).
- `Session.dfy`, `App.dfy`: what one session does to the store, the hub and its own fields, as
  functions and as the object's methods, which are proved to compute those functions.
- `World.dfy`: the whole system as a state machine: registrations, connections, commands, sends,
  the handling of queued events, disconnections, and the admin tool.
- `Safety.dfy`, `Badges.dfy`, `Threads.dfy`, `Delivery.dfy`, `Presences.dfy`, `Commands.dfy`,
  `Events.dfy`, `Histories.dfy`, `Runs.dfy`: what every step keeps, what every command and every
  event brings about, and the guarantees over whole runs with any number of users, rooms, sessions
  and messages.
- `Limited.dfy`: the same system with its message limiter and the keys that users sign up and in
  with, and how much a key and a user may store over time.
- `Budget.dfy`: when a user has one budget of the limiter and when two.

Queues are asynchronous: an event waits until its session handles it, or is lost when 64 events
already wait. `Mailbox` carries two histories the program does not keep, the events addressed to a
session and the ones dropped, and the hub a history of its presence broadcasts; the theorems on
delivery, presence and badges are stated with them.

Three behaviours are worth knowing.

- The message limit is one for each limiter key, not for each user. The session in which a user
  signs up is limited under the key's fingerprint and later sessions under the user's id, so while
  the first one is live its user can store twice the capacity at one instant
  (`BudgetLaws.TwiceIsReached`), never more than twice the limit (`LimitedRuns.UserWithinTwice`),
  and is held to one limit exactly when it is not live (`BudgetLaws.OneBudgetExactly`).
- A dropped `room_removed` event leaves a session's view on the room it was removed from, until the
  session acts itself (`Runs.LostRemovalStays`); it is no longer subscribed and its sends fail
  (`CommandLaws.DroppedRemovalLeavesView`).
- A handle that is a prefix of another mentioned handle may be marked inside the other's mark; the
  text survives.

## Model

| member | source | states |
|---|---|---|
| `Rate.Bucket.constructor` | internal/rate/rate.go:17-24 | a new bucket is full, refills at capacity / window a second, and was last used now |
| `Rate.Bucket.Allow` | internal/rate/rate.go:26-41 | refill, cap at capacity, take one token if there is one; the whole new state and the answer |
| `Rate.Limiter.constructor` | internal/rate/rate.go:51-53 | no buckets, the given capacity and window |
| `Rate.Limiter.Sweep` | internal/rate/rate.go:56-65 | exactly the buckets idle for more than two windows go; the others stay as they are |
| `Rate.Limiter.Allow` | internal/rate/rate.go:55-73 | sweep, find or create the bucket of the key, take from it; every other surviving bucket is untouched |
| `Rate.TokensAreLeastAllowance` | internal/rate/rate.go:17-41 | before each take the token count is the minimum, over creation and all earlier calls, of capacity + elapsed * refill - admitted since, and the minimum is attained |
| `Rate.ExactAdmission` | internal/rate/rate.go:26-41 | a call is admitted if and only if admitting it overfills no window ending now |
| `Rate.BucketWrittenOut` | internal/rate/rate.go:17-41 | both for a limit with its rate written out: the token count is the least of capacity + length * capacity / window - admitted over all windows, and a call is admitted if and only if each leaves one |
| `Rate.RefillsInOneWindow` | internal/rate/rate.go:17-41 | an emptied bucket is full again exactly one window later, and has a token exactly when a capacity-th of the window is over |
| `Rate.IdleIsFull` | internal/rate/rate.go:58-65 | a bucket idle for more than two windows refills to exactly the state New makes |
| `Rate.TableHoldsRecent` | internal/rate/rate.go:55-73 | after any calls the table holds the key of the last call and exactly the others last used within two windows before it |
| `Rate.EvictionIsInvisible` | internal/rate/rate.go:55-73 | over any interleaving of keys, each decision is that of a never-evicted bucket fed only the calls of its key |
| `Rate.LimiterAdmitsByOwnWindows` | internal/rate/rate.go:17-73 | both together, with the rate written out: the evicting limiter admits a call if and only if each window over the calls of its own key leaves one, at capacity + length * capacity / window - admitted |
| `Rate.Limiter.Provide` | internal/rate/rate.go:66-70 | the bucket of the key is found, or made full |
| `Rate.WindowBound` | internal/rate/rate.go:26-41 | of any stretch of calls on one bucket, no more are admitted than capacity + the time it spans * refill |
| `Rate.AdmittedInWindow` | internal/rate/rate.go:55-73 | the same for the evicting limiter and one key, over any interleaving of keys and any window of time |
| `Sanitizer.SkipControlSequence` | internal/domain/types.go:172-181 | the loop returns an index in bounds, and reading on after it is what the automaton does from its control-sequence state |
| `Sanitizer.SkipStringControl` | internal/domain/types.go:159-170 | the same for control strings, closed by BEL or ESC backslash |
| `Sanitizer.SkipEscape` | internal/domain/types.go:131-157 | the same for everything after an ESC, unfinished sequences included |
| `Sanitizer.SanitizeUserText` | internal/domain/types.go:102-129 | the index-jumping scanner writes what the one-rune-at-a-time automaton writes, less all its trailing newlines, tabs and spaces and nothing else |
| `Sanitizer.StripComposes` | internal/domain/types.go:105-127 | stripping a piece before another piece is exact, for every other piece, if and only if it leaves no sequence open |
| `Sanitizer.SanitizeIsClean` | internal/domain/types.go:100-129 | the result is a subsequence of the input, holds no control rune but newline and tab, and does not end in newline, tab or space |
| `Sanitizer.SanitizeFixedPoints` | internal/domain/types.go:100-129 | text is unchanged if and only if it is already clean; sanitizing twice is sanitizing once |
| `EscapeLaws.PiecesStrip` | internal/domain/types.go:100-181 | however a text is cut into whole escape sequences, single runes and an unfinished rest, stripping leaves exactly the single runes that are newline, tab or no control character |
| `EscapeLaws.Splits` | internal/domain/types.go:131-181 | every text can be cut so |
| `EscapeLaws.SanitizeExact` | internal/domain/types.go:100-129 | the sanitized text is what is seen of the pieces up to its last rune that is no newline, tab or space |
| `Mentions.ScanFindsAll` | internal/store/store.go:868-872 | leftmost, non-overlapping matching finds every position where the pattern matches |
| `Mentions.ParseMentions` | internal/store/store.go:870-882 | the loop with its seen set keeps first occurrences of the lower-cased matches |
| `Mentions.ParseMentionsExact` | internal/store/store.go:868-882 | the handles returned are exactly the 3-to-20-character handles after an @, without duplicates |
| `Mentions.ParseMentionsOrder` | internal/store/store.go:868-882 | they come in order of first appearance: before any mention of a later handle there is one of every earlier handle |
| `Mentions.WrapOccurrences` | internal/tui/app.go:353-372 | the inner loop, on one lower-casing of the text, writes the marked text |
| `Mentions.WrapMarksLeftmost` | internal/tui/app.go:356-371 | what it marks is exactly the leftmost, non-overlapping occurrences |
| `Mentions.NextPiece` | internal/tui/app.go:356-370 | one turn of the inner loop |
| `Mentions.HighlightMentions` | internal/tui/app.go:344-376 | the outer loop marks one handle after another, with the style for the reader or for others |
| `Mentions.MarksStand` | internal/tui/app.go:363-370 | around each occurrence stand the two marks of the style, and the text between is as it was |
| `Mentions.HandleGetsStyle` | internal/tui/app.go:350-374 | handle by handle, the leftmost occurrences get the reader's style if the handle is the reader's, without case, and the other style if not |
| `Mentions.StylesApart` | internal/tui/app.go:365-369 | a body that does not mention the reader shows nothing of the reader's style, one that mentions nobody else nothing of the other |
| `Mentions.HighlightPreservesText` | internal/tui/app.go:344-376 | erasing control sequences from the highlighted body gives the body back, for any mentions, one a prefix of another included |
| `SessionCap.CapHolds` | internal/ssh/server.go:91-134 | under every interleaving of the atomic steps of any number of handlers, admitted sessions never exceed the cap and the counter equals the handlers holding an increment |
| `SessionCap.RunKeepsOnce` | internal/ssh/server.go:129-134 | under every interleaving at most one of a handler's two cleanup calls is inside its Once, and the handler still holds its increment then |
| `SessionCap.DischargedOnce` | internal/ssh/server.go:91-134 | every handler gives its increment back once if it is done, and not before, however refusals, quits and disconnects interleave |
| `SessionCap.RefusedExactlyAtCap` | internal/ssh/server.go:91-96 | under every interleaving a handler is refused only if at least the cap of others held an increment when it made its own, and passes only if fewer did |
| `SessionCap.TicketIsDecided` | internal/ssh/server.go:91-96 | a ticket within the cap passes and one over it is refused |
| `SessionCap.Counter.Add` | internal/ssh/server.go:91-92 | add and return the new count |
| `SessionCap.Counter.TeaHandler` | internal/ssh/server.go:90-134 | alone on the counter, a handler is admitted exactly when under the cap with a PTY, no command and a key; otherwise the counter is as before |
| `SessionCap.Lease.Cleanup` | internal/ssh/server.go:129-134 | the first clean-up decrements, later ones do nothing |
| `StoreLaws.FindHandleExact` | internal/store/store.go:79-84 | the handle lookup finds a row with that handle, ignoring case, or there is none |
| `StoreLaws.FindRoomExact` | internal/store/store.go:229-232 | the room lookup finds a live room of that name, ignoring case, or there is none |
| `StoreLaws.IndexAfterDeletes` | internal/store/migrations/0001_init.sql:104-106 | the delete trigger, run row by row, removes exactly the postings of the rows that go |
| `StoreLaws.InsertRoomMessageKeepsValid` | internal/store/store.go:391-448 | the insert and its trigger keep the invariant: ids ascending, postings those of the rows, notifications and mentions pointing at rows, no member banned |
| `StoreLaws.InsertDMKeepsValid` | internal/store/store.go:450-490 | the same for direct messages |
| `StoreLaws.DeleteKeepsValid` | internal/store/store.go:623-627 | the same for soft deletion and the update trigger; no unread row changes its peer |
| `StoreLaws.PurgeKeepsValid` | internal/store/store.go:849-857 | the same for purge, its triggers and cascades, and for ids used again afterwards |
| `StoreLaws.PurgeExact` | internal/store/store.go:849-857 | purge removes exactly the messages deleted before the cutoff and every mention and notification of one; a message never deleted, or deleted at the cutoff or later, stays as it is |
| `StoreLaws.MembershipKeepsValid` | internal/store/store.go:288-302 | joining, leaving and banning keep the invariant |
| `StoreLaws.UnreadIsConserved` | internal/store/store.go:747-783 | the entries of UnreadCounts are the row counts and sum to the unread rows of the user |
| `StoreLaws.MarkRoomReadExact` | internal/store/store.go:785-789 | zeroes the entry of that user and room and no other entry of anyone |
| `StoreLaws.MarkDMReadExact` | internal/store/store.go:791-798 | zeroes the entry of that user and peer and no other entry of anyone |
| `StoreLaws.InsertDMRaisesOne` | internal/store/store.go:450-490 | a direct message raises one entry of one user by one |
| `StoreLaws.RoomMessageRaises` | internal/store/store.go:423-439 | a room message raises the room entry of each user once per entry in notified, and nothing else |
| `StoreLaws.DeletionRaisesNothing` | internal/store/store.go:623-627 | soft deletion changes no count and purge raises none |
| `StoreLaws.RoomMessageNotifies` | internal/store/store.go:423-439 | for any list of ids: each is notified as often as listed if a member other than the author, with as many notification rows, and a mention row if any |
| `StoreLaws.MentionedOnceEach` | internal/tui/app.go:591-606 | a send notifies every mentioned member but the author exactly once, with one mention row and one notification, and nobody else |
| `StoreLaws.ResolveExact` | internal/store/store.go:884-909 | each user whose handle is listed is resolved once, nobody else |
| `StoreLaws.RoomSendOutcome` | internal/store/store.go:391-448 | when a room send succeeds, what it stores, and that the history of the room grows by it and no other history changes |
| `StoreLaws.DMSendOutcome` | internal/store/store.go:450-490 | when a direct message succeeds, what it stores, and that the thread of the two, in either order, grows by it and nothing else does |
| `StoreLaws.DMKeyIsThePair` | internal/domain/types.go:92-98 | two pairs have one key if and only if they are the same pair in either order |
| `StoreLaws.ThreadIsPeer` | internal/store/store.go:767-777 | resolving the peer of a notification inverts DMKey |
| `StoreLaws.HistoryIsTail` | internal/store/store.go:535-555 | descending, limited and reversed is the last min(limit, n) rows, oldest first |
| `StoreLaws.TailIsSuffix` | internal/store/store.go:535-585 | a smaller limit gives a suffix of what a larger one gives |
| `StoreLaws.PurgedHistory` | internal/store/store.go:849-857 | after any purge, each history is a subsequence of what it was, ids ascending |
| `StoreLaws.SearchIsScan` | internal/store/store.go:650-656 | search answered from the postings equals a scan of the room for the words of the query, newest first, cut at the limit |
| `StoreLaws.SearchFinds` | internal/store/store.go:650-656 | found are exactly the messages of the room with those words, newest first, and with a limit the first of them |
| `WordLaws.TermsAreWords` | internal/store/migrations/0001_init.sql:96-110 | the terms of a body are exactly its longest runs of letters and digits, without case |
| `StoreLaws.TailIsLast` | internal/store/store.go:536-555 | the tail is the last rows, as many as the limit allows |
| `StoreLaws.StoredBodyIsSafe` | internal/store/store.go:404-410 | stored bodies hold no control rune but newline and tab and are no longer than the maximum |
| `StoreLaws.ListedRoomsAreMemberships` | internal/store/store.go:260-270 | the room list holds exactly the live rooms of the user, so none the user is banned from |
| `StoreLaws.ListedInNameOrder` | internal/store/store.go:260-270 | the room list is in name order, ignoring case |
| `RowLaws.ListedOnceByName` | internal/store/store.go:260-270 | the room list names each room once, in dictionary order without case |
| `RowLaws.NameLeIsLexicographic` | internal/store/store.go:260-270 | the order on names is that of the dictionary: a prefix, or a smaller rune at the first difference |
| `RowLaws.LowerCase` | internal/store/store.go:871-883 | lower case takes each of the 26 capitals to its letter and leaves every other rune alone |
| `RowLaws.HandleRunes` | internal/domain/types.go:76-82 | handles and room names are made of lower-case letters, digits, underscores and hyphens |
| `RowLaws.AdminFlagExact` | internal/store/store.go:168-182 | the admin flag of the user with the handle is set as asked, and nothing else changes |
| `RowLaws.BlockExact` | internal/store/store.go:682-691 | a block concerns one pair of users in one direction, and nothing else changes |
| `RowLaws.JoinRoomExact` | internal/store/store.go:288-297 | who may join, that a new member is a plain member and an old one keeps the role, and that nothing else changes |
| `RowLaws.CreateRoomExact` | internal/store/store.go:202-227 | a room needs a name that no room ever had; its maker owns it, and nothing else changes |
| `RowLaws.RegistrationExact` | internal/tui/register.go:51-66 | a free handle gives a new user who is a plain member of the default room, or makes and owns it if no room ever had its name; a taken handle changes nothing |
| `RowLaws.RemovedRoomIsGone` | internal/store/store.go:352-355 | a removed room is found by no name and listed for nobody, its name stays taken, and everything else stays |
| `RowLaws.CreatesAreCounted` | internal/store/store.go:859-865 | the quota counts the rooms that the user created after the cutoff |
| `RowLaws.NewIdIsNext` | internal/store/migrations/0001_init.sql:50-61 | a new message has the id after the largest there is, or 1 |
| `RowLaws.CutIsExact` | internal/tui/app.go:580-582 | text is cut to its first 2000 runes |
| `RowLaws.RoomSendErrors` | internal/store/store.go:391-410 | why a room message is refused, in the order of the checks, and that then nothing changes |
| `RowLaws.DMSendErrors` | internal/store/store.go:450-468 | why a direct message is refused, in the order of the checks, and that then nothing changes |
| `StoreService.ReverseInPlace` | internal/store/store.go:550-553 | the swapping loop turns the slice round |
| `StoreService.NewestInOrder` | internal/store/store.go:535-555 | fetch newest first, reverse in place: the last rows in order |
| `StoreService.Store.CreateUser` | internal/store/store.go:111-131 | refused when the handle is taken, ignoring case |
| `StoreService.Store.UserByHandle` | internal/store/store.go:79-84 | the row with this handle, ignoring case, or none if no row has it |
| `StoreService.Store.RoomByName` | internal/store/store.go:229-232 | the live room with this name, ignoring case, or none if no live room has it |
| `StoreService.Store.CreateRoom` | internal/store/store.go:202-227 | inserts the room and its owner together, or nothing when the name was ever used |
| `StoreService.Store.JoinRoom` | internal/store/store.go:288-297 | refuses the banned, ignores members, inserts others |
| `StoreService.Store.RemoveMember` | internal/store/store.go:299-302 | deletes the one membership row, as LeaveRoom and KickFromRoom both do |
| `StoreService.Store.BanFromRoom` | internal/store/store.go:365-379 | inserts the ban and deletes the membership together, or fails when the room or the user does not exist |
| `StoreService.Store.SetBlock` | internal/store/store.go:682-691 | inserts or deletes the one block row |
| `StoreService.Store.ListUserRooms` | internal/store/store.go:260-270 | exactly the live rooms of the user, in name order |
| `StoreService.Store.AppendMessage` | internal/store/store.go:417-422 | inserts the row and runs its trigger |
| `StoreService.Store.NotifyMentioned` | internal/store/store.go:423-439 | the loop over the mentioned ids: rows, notifications and the notified list |
| `StoreService.Store.InsertRoomMessage` | internal/store/store.go:391-448 | the checks in their order, then message, rows and result |
| `StoreService.Store.InsertDM` | internal/store/store.go:450-490 | the checks in their order, then message, notification and result |
| `StoreService.Store.RoomHistory` | internal/store/store.go:536-555 | the last min(limit, n) messages of the room, oldest first |
| `StoreService.Store.DMHistory` | internal/store/store.go:566-585 | the last min(limit, n) messages of the pair, oldest first |
| `StoreService.Store.SearchRoom` | internal/store/store.go:650-656 | the posting query; on a valid store, the scan |
| `StoreService.Store.DeleteMessageForUser` | internal/store/store.go:623-647 | who may delete, and the update with its trigger |
| `StoreService.Store.PurgeDeletedOlderThan` | internal/store/store.go:849-857 | the delete, its trigger row by row, the cascades, and the number of rows gone |
| `StoreService.Store.UnreadCounts` | internal/store/store.go:747-783 | the counting loop |
| `StoreService.Store.MarkRoomRead` | internal/store/store.go:785-789 | the update on notifications |
| `StoreService.Store.MarkDMRead` | internal/store/store.go:791-798 | the update on notifications |
| `HubModel.SendKeepsOk` | internal/hub/hub.go:189-195 | a send keeps what is consumed and queued in order of addressing, and drops if and only if the buffer is full |
| `HubModel.ReceiveKeepsOk` | internal/tui/app.go:178-187 | taking an event off the queue keeps delivery in order |
| `HubModel.SubscribeKeepsOk` | internal/hub/hub.go:46-60 | counts, sets, broadcasts and queues stay right |
| `HubModel.UnsubscribeKeepsOk` | internal/hub/hub.go:62-88 | the same on the way out |
| `HubModel.UnsubscribeStructured` | internal/hub/hub.go:62-88 | an unsubscribed session is in no room |
| `HubModel.RoomOpsKeepOk` | internal/hub/hub.go:90-108 | the same for joining and leaving rooms |
| `HubModel.RemoveStructured` | internal/hub/hub.go:110-129 | no session of the user is left in the room, empty sets go |
| `HubModel.RemoveKeepsOk` | internal/hub/hub.go:110-129 | queues and broadcasts stay right |
| `HubModel.PublishKeepsOk` | internal/hub/hub.go:147-170 | the same for both publishes |
| `HubModel.BroadcastTold` | internal/hub/hub.go:172-187 | a broadcast on the edge keeps the broadcasts about each user alternating, online first, last one true |
| `HubService.Sub.constructor` | internal/hub/hub.go:46-47 | an empty queue |
| `HubService.Sub.Send` | internal/hub/hub.go:189-195 | append, or drop when the buffer is full |
| `HubService.Sub.Receive` | internal/tui/app.go:178-187 | the oldest queued event leaves the queue |
| `HubService.Hub.constructor` | internal/hub/hub.go:38-44 | no rooms, users or counts |
| `HubService.Hub.SendEach` | internal/hub/hub.go:154-156 | one send to each subscriber of the snapshot |
| `HubService.Hub.Subscribe` | internal/hub/hub.go:46-60 | new queue, count, and a broadcast on the first session |
| `HubService.Hub.Unsubscribe` | internal/hub/hub.go:62-88 | out of every room, count, close, and a broadcast on the last session |
| `HubService.Hub.SeenInRooms` | internal/hub/hub.go:175-181 | every subscriber of some room, once |
| `HubService.Hub.JoinRoom` | internal/hub/hub.go:90-97 | into the set of the room |
| `HubService.Hub.LeaveRoom` | internal/hub/hub.go:99-108 | out of it, and the entry with the last one |
| `HubService.Hub.RemoveUserFromRoom` | internal/hub/hub.go:110-129 | every session of the user out of the room, each told |
| `HubService.Hub.Enter` | internal/hub/hub.go:46-55 | Subscribe up to the release of the lock |
| `HubService.Hub.Exit` | internal/hub/hub.go:62-84 | Unsubscribe up to the close of the channel |
| `HubService.Hub.Detach` | internal/hub/hub.go:63-82 | out of the rooms, the user set and the count |
| `HubService.Hub.CountDown` | internal/hub/hub.go:78-82 | one session less, and whether it was the last |
| `HubService.Hub.Close` | internal/hub/hub.go:84-84 | the channel is closed and nothing else changes |
| `HubService.Hub.SubsInRoom` | internal/hub/hub.go:112-120 | the sessions of the user in the room |
| `HubService.Hub.IsOnline` | internal/hub/hub.go:131-135 | a positive count |
| `HubService.Hub.PublishRoom` | internal/hub/hub.go:147-157 | to every subscriber of the room |
| `HubService.Hub.PublishUser` | internal/hub/hub.go:159-170 | to every session of the user |
| `HubService.Hub.BroadcastPresence` | internal/hub/hub.go:172-187 | to every subscriber of some room |
| `App.AppModel.Init` | internal/tui/app.go:154-176 | refreshes, subscription, rooms, first room, in this order, on the shared store and hub |
| `App.AppModel.SubscribeAll` | internal/tui/app.go:161-165 | subscribe and join each listed room |
| `App.AppModel.Prepare` | internal/tui/app.go:155-159 | the refreshes before the subscription |
| `App.AppModel.OpenFirst` | internal/tui/app.go:170-173 | show the first listed room, if any |
| `App.AppModel.NotifyAll` | internal/tui/app.go:604-606 | the loop over the notified ids |
| `App.AppModel.StoreMessage` | internal/tui/app.go:591-593 | parse, resolve, insert |
| `App.AppModel.StoreDM` | internal/tui/app.go:611-611 | the insert of a direct message |
| `App.AppModel.RefreshRooms` | internal/tui/app.go:204-209 | the room list is the store's |
| `App.AppModel.RefreshUnread` | internal/tui/app.go:227-237 | the badges are the store's counts |
| `App.AppModel.OpenRoom` | internal/tui/app.go:275-286 | show the room, mark it read, drop its badge |
| `App.AppModel.OpenDM` | internal/tui/app.go:288-298 | show the thread, mark it read, drop its badge |
| `App.AppModel.SendCurrent` | internal/tui/app.go:576-619 | rate limit, truncation and dispatch on the view |
| `App.AppModel.SendToRoom` | internal/tui/app.go:585-606 | membership, mentions, insert, publish |
| `App.AppModel.PublishSent` | internal/tui/app.go:597-606 | one room event, one notify for each notified id |
| `App.AppModel.SendToPeer` | internal/tui/app.go:607-616 | block check, insert, publish to both users |
| `App.AppModel.HandleHubEvent` | internal/tui/app.go:623-702 | each kind of event: badges, marks, refreshes, leaving a room |
| `App.AppModel.ReceiveNext` | internal/tui/app.go:178-187 | the oldest event leaves the queue and is handled |
| `App.AppModel.Cleanup` | internal/tui/app.go:909-917 | any mix of quits and disconnects unsubscribes once and decrements once |
| `App.AppModel.JoinTarget` | internal/tui/commands.go:37-49 | the room that /join may enter |
| `App.AppModel.EnterRoom` | internal/tui/commands.go:53-54 | list the rooms again and subscribe |
| `App.AppModel.AddMember` | internal/tui/commands.go:50-52 | the store join of /join and /invite |
| `App.AppModel.AddRoom` | internal/tui/commands.go:94-97 | the store creation of /create |
| `App.AppModel.MayModerate` | internal/tui/commands.go:120-129 | the role check of the moderators' commands |
| `App.AppModel.Strike` | internal/tui/commands.go:158-162 | the store part of /kick and /ban |
| `App.AppModel.ExpelUser` | internal/tui/commands.go:158-164 | store, hub and event of /kick and /ban |
| `App.AppModel.Join` | internal/tui/commands.go:33-57 | the command step by step |
| `App.AppModel.Leave` | internal/tui/commands.go:59-73 | the command step by step |
| `App.AppModel.Create` | internal/tui/commands.go:75-101 | the command step by step |
| `App.AppModel.Topic` | internal/tui/commands.go:103-117 | who may, and the event to the room |
| `App.AppModel.Invite` | internal/tui/commands.go:119-139 | the command step by step |
| `App.AppModel.Expel` | internal/tui/commands.go:141-165 | /kick and /ban step by step |
| `App.AppModel.Msg` | internal/tui/commands.go:167-196 | open the thread, then send |
| `App.AppModel.Block` | internal/tui/commands.go:217-243 | /block and /unblock |
| `App.AppModel.Delete` | internal/tui/commands.go:259-284 | visibility, permission, deletion, event |
| `CommandLaws.StepKeepsNames` | internal/store/migrations/0001_init.sql:1-30 | every step keeps handles and room names unique, ignoring case |
| `CommandLaws.ConnectTakesHold` | internal/tui/app.go:154-176 | a new session is subscribed to exactly the live rooms of its user, shows the first, and its badges are the store's counts |
| `CommandLaws.ConnectMarks` | internal/tui/app.go:227-237 | its marks are the rooms out of view where the user has unread mentions |
| `CommandLaws.DisconnectTakesHold` | internal/hub/hub.go:62-88 | a disconnected session is in no room and nobody else moves |
| `CommandLaws.JoinTakesHold` | internal/tui/commands.go:33-57 | exactly when /join works, and that the user is then a plain member unless one already, subscribed, showing the room with nothing unread; otherwise nothing changes |
| `CommandLaws.LeaveTakesHold` | internal/tui/commands.go:59-73 | out of the room in store, hub, list and view |
| `CommandLaws.CreateTakesHold` | internal/tui/commands.go:75-101 | exactly when /create works, the quota of five in 24 hours included; the creator owns the room and no other membership changes |
| `CommandLaws.InviteTakesHold` | internal/tui/commands.go:119-139 | exactly when /invite works: for an owner or moderator of the room in view or an admin; it makes a plain member in the store only |
| `CommandLaws.ExpelTakesHold` | internal/tui/commands.go:141-165 | exactly when /kick and /ban work: for an owner or moderator of the room in view or an admin; membership, ban and every subscription of that user and room, and no other; every session told |
| `CommandLaws.RemovalTakesHold` | internal/tui/app.go:687-700 | a session told it is out leaves the room in hub, list and view |
| `CommandLaws.DroppedRemovalLeavesView` | internal/hub/hub.go:110-128 | a session with a full queue that shows the room its user is expelled from is taken out of it and not told; what it says there changes nothing |
| `CommandLaws.OthersLeaveSession` | internal/tui/app.go:178-187 | what a session shows, lists and counts changes by its own actions only |
| `CommandLaws.DeleteTakesHold` | internal/tui/commands.go:259-284 | who may delete; that message and no other is marked, once, and its room told |
| `CommandLaws.BlockTakesHold` | internal/tui/commands.go:217-243 | while a block stands, and only then, nothing the blocked user writes is stored or sent |
| `CommandLaws.RoomSendReaches` | internal/tui/app.go:603-606 | a room message goes once to every subscriber, a notify once to every session of each notified user, nothing to anyone else |
| `CommandLaws.DMSendReaches` | internal/tui/app.go:615-616 | a direct message goes once to every session of each of its two users and to nobody else |
| `CommandLaws.RefreshTakesHold` | internal/tui/app.go:682-683 | told of a change, the session lists exactly the live rooms of its user |
| `CommandLaws.TopicTakesHold` | internal/tui/commands.go:103-117 | the owner or an admin, and nobody else, has every subscriber of the room told once |
| `CommandLaws.LookupsInvert` | internal/store/migrations/0001_init.sql:1-30 | with unique names, a lookup by name inverts the name |
| `CommandLaws.StepRefers` | internal/store/store.go:260-270 | every step keeps the user, the listed rooms and the room in view of every session in existence |
| `CommandLaws.StepMarks` | internal/tui/app.go:227-237 | every step keeps mention marks to rooms with a badge |
| `EventLaws.EventMoves` | internal/tui/app.go:623-702 | what one event does to every badge and mark of the session, to its view and list, and to every unread count of anybody |
| `EventLaws.ShowTakesHold` | internal/tui/app.go:275-298 | a listed room or any thread is shown and read; no other badge, mark or count changes |
| `EventLaws.SayTakesHold` | internal/tui/app.go:576-619 | a send is stored if and only if the limiter allows it, the channel in view takes it and there is something to say; one message of the user in that channel, or no change at all |
| `EventLaws.MsgTakesHold` | internal/tui/commands.go:167-196 | /msg is to show the thread with another user and then to say the text there, if there is one |
| `EventLaws.JoinTells` | internal/tui/commands.go:53-56 | /join tells every subscriber of the room, the new one included, once, and nobody else |
| `EventLaws.LeaveTells` | internal/tui/commands.go:59-73 | /leave tells everybody else subscribed to the room, and /create nobody |
| `EventLaws.InviteTells` | internal/tui/commands.go:134-138 | /invite tells every subscriber of the room, and nobody else |
| `EventLaws.ExpelTells` | internal/tui/commands.go:158-164 | /kick and /ban tell the user's sessions in the room that they are out, the others there of the change, and nobody else |
| `EventLaws.AdminAtConnect` | internal/tui/app.go:154-176 | a session has the powers of an admin exactly if its user is an admin when it connects |
| `Safety.StepValid` | internal/store/migrations/0001_init.sql:32-110 | every step of the system keeps the store invariant |
| `Safety.StepHub` | internal/hub/hub.go:46-195 | every step keeps the hub invariant, and the hub's live subscribers are the sessions |
| `Safety.StepBans` | internal/tui/commands.go:141-165 | every step keeps all sessions of a banned user out of the room, and lifts no ban |
| `Safety.ConnectBans` | internal/tui/app.go:161-165 | a new session of a banned user does not join the room |
| `DeliveryLaws.ActFlows` | internal/hub/hub.go:147-195 | whatever a session does, but for taking an event off its queue, only adds arrivals, and all are queued in order if they fit |
| `DeliveryLaws.StepMoves` | internal/hub/hub.go:189-195 | every step moves every live queue by arrivals or by one event taken off |
| `DeliveryLaws.MovesExact` | internal/hub/hub.go:189-195 | in one step something is dropped if and only if what arrives does not fit |
| `PresenceLaws.BroadcastReaches` | internal/hub/hub.go:172-187 | a presence broadcast is sent, as that user's online or offline event, once to each session subscribed to some room and to no other |
| `PresenceLaws.StepHears` | internal/hub/hub.go:46-88 | in a step a session hears of each broadcast, in order, if it is subscribed to some room, and of none if not |
| `HistoryLaws.StepGrown` | internal/store/migrations/0001_init.sql:50-61 | every step but a purge keeps all messages, apart from tombstones, and adds what it posts at the end |
| `HistoryLaws.RunHistory` | internal/store/migrations/0001_init.sql:50-61 | after any run the table is, apart from tombstones, an in-order part of what it was followed by what was posted; all of it without a purge |
| `HistoryLaws.StepKeepsLive` | internal/store/store.go:623-627 | no step but a /delete of it changes or removes a message that was never deleted |
| `LimitedRuns.LimitedRunIsRun` | internal/tui/app.go:576-579 | with the limiter in place the system runs as in World, so every theorem on runs holds of it |
| `LimitedRuns.StoredIsAdmitted` | internal/tui/app.go:576-579 | a step that stores a message has asked the limiter under its session's key and was admitted |
| `LimitedRuns.AskedExactly` | internal/tui/app.go:576-579 | the limiter is asked by a live session that says something or that writes a text to another user, once, and by nothing else |
| `LimitedRuns.MessagesWithinRate` | internal/ssh/server.go:136-142 | over any run and any window of time, all sessions with one key together store at most capacity + length * capacity / window messages |
| `LimitedRuns.UserWithinRate` | internal/ssh/server.go:136-142 | so does a user whose sessions share one key, however many they are |
| `LimitedRuns.StepKeepsKeys` | internal/tui/register.go:45-69 | every step keeps this: each user has the key they signed up with, and each session is limited under that key or under its user's id |
| `LimitedRuns.RunKeepsKeys` | internal/ssh/server.go:123-142 | over any run from the start, so it is, and the key a user signed up with never changes |
| `LimitedRuns.UserKeysDiffer` | internal/ssh/server.go:136-141 | different users have different id keys |
| `LimitedRuns.KeysAreOfOneUser` | internal/ssh/server.go:136-142 | in every reachable state sessions limited under one key have one user, so nobody uses up another's limit |
| `LimitedRuns.AddedKeySignsIn` | internal/store/store.go:133-137 | a key that a session adds, if it is nobody's yet, signs its user in from then on, and before that nobody |
| `LimitedRuns.HandlesInRuns` | internal/tui/register.go:45-60 | in every reachable state every handle is 3 to 20 lower-case letters, digits, underscores and hyphens |
| `LimitedRuns.EveryoneCanBeMentioned` | internal/store/store.go:867-883 | in every reachable state every user is mentioned by an @ and the handle |
| `LimitedRuns.UserWithinTwice` | internal/ssh/server.go:136-142 | over any run and any window of time, every user, over all sessions together, stores at most twice capacity + length * capacity / window messages |
| `BudgetLaws.BurstPasses` | internal/rate/rate.go:55-73 | a session whose key is rested stores, at one instant, as many messages as the capacity allows, and takes nothing from another key |
| `BudgetLaws.TwiceAtOnce` | internal/ssh/server.go:136-142 | from every reachable state with a live session of a user under another key than the id, the run can go on so that this user stores twice the capacity at one instant |
| `BudgetLaws.TwiceIsReached` | internal/ssh/server.go:136-142 | one capacity plus rate does not bound a user: for every capacity, a run from the start stores twice as much for its first user at one instant |
| `BudgetLaws.LaterStaysLater` | internal/ssh/server.go:136-142 | once the session a user signed up in has ended, every session of theirs is limited under the id, for good |
| `BudgetLaws.OneBudgetExactly` | internal/ssh/server.go:136-142 | from a state on, a user is held to one capacity plus rate, however the run goes on, if and only if the session they signed up in is not live |
| `BadgeLaws.CoveredTame` | internal/tui/app.go:275-298 | a step that raises nothing keeps the badges covering the store |
| `BadgeLaws.RoomSendAnnounces` | internal/tui/app.go:593-606 | a room send raises no unread count of a session's user by more than the notify events it is sent, queued or dropped |
| `BadgeLaws.DMSendAnnounces` | internal/tui/app.go:611-616 | the same for direct messages |
| `BadgeLaws.PaidCovers` | internal/tui/app.go:623-681 | an event that leaves the queue is made up for in the badge, or the store has nothing unread there |
| `BadgeLaws.HandledDebt` | internal/tui/app.go:626-636 | handling an event leaves badge plus unseen bumps of a room out of view as it was |
| `BadgeLaws.RoomSendDebt` | internal/tui/app.go:597-606 | a room send adds one bump to every subscriber, mentioned or not |
| `BadgeLaws.StepCovers` | internal/tui/app.go:623-681 | every step keeps, for every live session: unread count at most badge plus matching events queued or dropped |
| `BadgeLaws.StepDebt` | internal/tui/app.go:593-636 | one step, seen from a subscribed session not showing the room, adds one bump if it posts there and none otherwise |
| `ThreadLaws.HandledDMDebt` | internal/tui/app.go:637-659 | handling an event leaves badge plus unseen messages of a thread out of view as it was |
| `ThreadLaws.StepDMDebt` | internal/tui/app.go:607-659 | one step, seen from a session that does not show the thread with a peer, adds one if it stores a message of the peer there and nothing otherwise |
| `Runs.BadgesNeverUnderReport` | internal/tui/app.go:623-681 | in every reachable state, for every live session, room and peer, the unread count is at most the badge plus matching events queued plus matching events dropped |
| `Runs.OneBumpPerMessage` | internal/tui/app.go:626-636 | over any run in which a subscribed session does not show the room, badge plus unseen bumps grow by exactly the number of messages posted |
| `Runs.OneBumpWithoutLoss` | internal/tui/app.go:626-636 | if nothing is dropped meanwhile, badge plus queued bumps alone do |
| `Runs.OneBumpPerDM` | internal/tui/app.go:637-659 | over any run in which a session does not show the thread with a peer, its badge plus the peer's messages it has not seen grow by exactly the number of messages the peer wrote there; the user's own add nothing |
| `Runs.OneDMBumpWithoutLoss` | internal/tui/app.go:637-659 | if nothing is dropped meanwhile, badge plus queue alone do |
| `Runs.MarksInRuns` | internal/tui/app.go:677-681 | in every reachable state a room marked as mentioning the user has a badge |
| `Runs.ReachableIsGood` | internal/store/migrations/0001_init.sql:32-110 | every reachable state satisfies the store, hub, ban, badge, name and reference invariants |
| `Runs.UnreadIsConservedInRuns` | internal/store/store.go:747-783 | in every reachable state the counts partition the unread rows |
| `Runs.BanIsPermanent` | internal/store/store.go:288-297 | from a ban on, over any run: never a member, no session subscribed, every send fails, in no notified list |
| `Runs.BanCommandIsPermanent` | internal/tui/commands.go:141-165 | the same from the /ban command on |
| `Runs.LostRemovalStays` | internal/tui/commands.go:141-165 | from such an expulsion on, whatever else happens, the session goes on showing the room until it acts itself |
| `Runs.PresenceInRuns` | internal/hub/hub.go:46-145 | in every reachable state the count is the live sessions of the user, presence broadcasts alternate starting with online and end in IsOnline, rooms are non-empty and hold live sessions |
| `Runs.PresenceIsHeard` | internal/hub/hub.go:172-187 | over any run in which a session is subscribed to some room, the presence events it is sent are, one for one and in order, the broadcasts |
| `Runs.DeliveryInRuns` | internal/hub/hub.go:147-195 | in every reachable state consumed plus queued is an in-order part of what was addressed, the rest was dropped, the queue is at most 64, and they are equal if nothing was dropped |
| `Runs.LossOnlyWhenFull` | internal/hub/hub.go:189-195 | over any run through which a session is live, something is dropped if and only if at some step more arrives than its queue has room for; if not, consumed plus queued grows, in order, by exactly what was addressed |
| `Runs.NothingLostSinceConnect` | internal/hub/hub.go:189-195 | a session whose queue has had room since it connected has every event ever addressed to it, in order |
| `Runs.NamesInRuns` | internal/store/migrations/0001_init.sql:1-30 | in every reachable state a handle finds its one user and a live room name its room |
| `Runs.QueriesInRuns` | internal/store/store.go:535-656 | in every reachable state, reused ids included, the history of a room and of a pair is the tail and search the scan |
| `Runs.LiveMessageStays` | internal/store/store.go:849-857 | a message that no step of a run deletes is found at its end as it was, whatever is purged meanwhile |
| `Runs.RoomHistoryInRuns` | internal/store/store.go:535-555 | after any run the history of a room is, apart from tombstones, an in-order part of what it was followed by what was posted there; all of it without a purge |
| `Runs.ThreadHistoryInRuns` | internal/store/store.go:566-585 | the same for the thread of two users, whichever of them asks |

## Left out

- Interleavings inside one command: publishing, `/join`, `Init`, `sendCurrent` and `Limiter.Allow` are each one step, although the program releases its locks in between. The session counter is the exception: its atomic operations are separate steps.
- Database errors: every statement is its meaning on the tables. A constraint that fails (a taken name, a missing row) is an error result.
- The SQL engine: users and rooms are never deleted, so joins with them drop nothing. Notification ids and times, message times, `deleted_by`, the author, reason and time of a ban, topics, profiles, last-seen times, suspension and reports are not columns of the model. Keys are a table of fingerprints in `LimitedRuns` only.
- Full-text search beyond single terms, AND, OR and NOT over ASCII letters and digits, and the LIKE fallback of `SearchRoom`, which does not agree with the index.
- The order in which `ResolveHandles` returns ids is that of the table here; the program leaves it to the database. The laws on notified ids hold for any list of ids, in any order.
- Text is a sequence of Unicode scalar values. Invalid UTF-8, the byte-wise cut at 2000 (here 2000 runes) and case folding outside ASCII are not modelled.
- Floating point: tokens and times are reals, and the limiter's window is positive.
- `internal/tui` beyond state: layout, rendering, keys, the message caches, the member pane, the online map and the peer list; a session may open a thread with any user, which allows more than the peer list does. The arguments of a command are taken as parsed.
- `/search`, `/whois`, `/profile`, `/keys`, `/report`, `/notifications`, `/help`: they read, or change only what is not modelled. `/addkey` is a deed of `LimitedRuns`, its argument taken as parsed and without labels.
- SSH transport, keys, configuration and deployment; of the admin tool only the admin flag, purging and room deletion. `Promote` has no caller and is not a step.
- A hub subscriber need not be a store member (leaving in one session leaves the user's others subscribed), an online member need not be subscribed (an invitation changes only the store), and a room in view can have a badge (a notify raises it regardless). None of these is claimed.
- Session ids of ended sessions may be used again, and in `World` any existing user may connect; in `LimitedRuns` with one of their keys only.
- The walk of `Unsubscribe` over the rooms is one map comprehension here, not a loop over the map.
- Registration (`internal/tui/register.go`:51-69) accepts in `World` any handle that is free, which allows more than the handle pattern does; `LimitedRuns.SignUp` has the pattern and the unique fingerprint.
- SessionCap.Counter.TeaHandler: does not cover what the handler does once admitted (the user lookup, the choice of model) nor the messages it prints.
- StoreLaws.RoomSendOutcome: the time of the message is not a column, and the cut is at 2000 runes.
- StoreLaws.DMSendOutcome: the time of the message is not a column, and the cut is at 2000 runes.
- StoreService.Store.CreateUser: the key row inserted with the user, and its unique fingerprint, are not part of the store here, so only a taken handle refuses; `LimitedRuns.SignUp` refuses for either.
- StoreService.Store.BanFromRoom: the author, reason and time of the ban are not stored.
- StoreService.Store.SearchRoom: the LIKE fallback and terms outside ASCII letters and digits are not modelled.
- App.AppModel.Init: the peer list, the block list and the online map are not fields of the model.
- App.AppModel.Prepare: the refreshes of peers and blocks are not modelled.
- App.AppModel.OpenRoom: the loaded history and the member pane are not fields of the model.
- App.AppModel.OpenDM: the loaded history and the member pane are not fields of the model.
- App.AppModel.SendCurrent: the limiter's answer is a parameter; `LimitedRuns` supplies it from the limiter.
- App.AppModel.HandleHubEvent: the message caches, peer list, online map and member pane that the events also change are not fields of the model.
- App.AppModel.ReceiveNext: the same as for HandleHubEvent.
- App.AppModel.Topic: the topic text and its cut are not stored.
- App.AppModel.Msg: the peer list is not a field of the model.
- App.AppModel.Block: the session's block list is not a field of the model.
- CommandLaws.ConnectTakesHold: the peer list, the block list and the online map are not fields of the model.
- CommandLaws.TopicTakesHold: says who may set a topic and who is told, not what the topic is.
- LimitedRuns.UserWithinRate: bounds a user whose sessions share one key; `BudgetLaws.OneBudgetExactly` says when that is, and `LimitedRuns.UserWithinTwice` bounds every user.
