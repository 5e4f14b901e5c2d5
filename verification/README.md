# An end-to-end encrypted chat relay, modelled and proved in Dafny

The system is a relay that stores ciphertext and an ordered log per group, and clients that run
MLS groups over it. This project models the parts where the two have to agree about order, state
and loss, and proves what they promise over whole runs. `dafny verify dfyconfig.toml` checks it.

Three protocols are at the centre.

* **Commits** (`Mls`, `Commits`). Clients stage an MLS commit, publish it against the relay's epoch
  compare-and-swap, and merge or discard on the answer. Requests and answers are delayed, reordered
  and lost. A group state is the chain of commits that led to it.
* **Delivery** (`GroupLog`, `Delivery`, `LiveHub`, `Catchup`). A send appends under a group's lock
  and fans out under the hub's lock; a subscription registers and backfills in one step. Queues are
  bounded and slow subscribers are dropped. `Catchup` adds the client that reads its queue, loses
  connections and resubscribes from its cursor.
* **History** (`History`, `HistoryReader`, `Sql`, `PgHistory`, `PgMessages`, `PgStore`). A log with a
  counter that survives deletions, two paging directions, expiry on read, redaction and pruning; the
  device that pages through it; and the SQL form of the same log.

Around them: circles shared by several devices through a versioned blob (`Circles`, `Backup`), whole
requests and their access rules, Welcomes and invites (`Roster`, `RosterRace`, `Relay`, `Rights`, `Store`, `Server`), the rate
limiter (`RateLimit`), the state snapshot and the safety number (`BigEndian`, `Snapshot`,
`SafetyNumber`), fork detection (`Fork`) and message folding (`Fold`). `Common` holds shared names and
the algebra of order-preserving filters.

Code that changes things step by step is modelled by classes and loops (`Mls.ChatClient`,
`LiveHub.HubServer`, `Store.MemoryStore`, `Server.RelayServer`, `PgStore.Database`,
`RateLimit.RateLimiter`, `Fork.ForkWatch`, `Fold.Fold`, `Circles.MergeBackups`, `Snapshot`), each proved
equal to a function; the lemmas are about those functions and about runs of them. A run is a sequence
of steps in any order; a step that is not possible changes nothing.

## Findings

Where the code does not keep a property in general, the model shows a run that breaks it and the exact
condition under which it is kept.

* `merge_staged_commit` merges whatever is staged, and nothing serializes membership changes on one
  client. Three at once can merge a commit the relay never took: `Commits.ConcurrentChangesFork`.
  Acting on an acceptance follows the relay exactly when what is staged is what was accepted
  (`Commits.MergeFollowsRelay`); one change at a time is always safe (`Commits.SoloRunsAreSafe`).
* A client that gives up on a commit the relay took, or takes later, can never apply it and stays where
  it is until it forgets the group: `Commits.GiveUpWedges`, `Commits.TakenLateWedges` and
  `Commits.WedgedForever`; `Commits.LostAnswerWedges` is a four-step run.
* The answer to a send advances the cursor. In any run, reading it leaves a gap exactly when somebody else
  posted between the old cursor and the post answered: `Catchup.AckSkips`, and over whole runs
  `Catchup.CoveredExactly`. A subscriber dropped for a full queue is not told, so its next send skips what it
  was not sent (`Catchup.DroppedSenderLoses`), as does one that never subscribed
  (`Catchup.UnsubscribedSenderLoses`). What is skipped never comes back by resubscribing from the cursor:
  `Catchup.LostForGood`.
* Nothing keeps a device from having two page requests under way. Two first pages answered out of turn
  leave a gap between the cursors, and the walk then reports the start reached:
  `HistoryReader.RacingFetchesSkip`, on every log of more than two pages. Folding a reply is safe exactly
  when its bound still fits the cursors (`HistoryReader.FitsExactly`), which one request at a time always
  gives (`HistoryReader.SoloRunsFit`).
* A page none of whose entries a device can open does not move its cursor, so everything below it stays
  out of reach, however often it asks, exactly as long as such a page is there: `HistoryReader.StuckExactly`,
  `HistoryReader.StuckWhileWalled`, `HistoryReader.StuckForever`, and the reachable case
  `HistoryReader.DamagedPageHidesTheRest`.
* The SQL store casts unsigned numbers to signed columns, and the relay passes on a client's timestamps,
  prune bounds and count bounds as they are (relay/src/server.rs:1199-1227). From 2^63 on, an
  appended entry's expiry is long past there and far ahead in memory, its timestamp oldest there and newest
  in memory; a prune deletes nothing there and everything in memory; a count takes in everything there and
  nothing in memory. `PgHistory.AgreesExactly` says for every request exactly when the two stores agree, and
  `PgHistory.TableAgreesExactly` that a table holding such a number can always be told from the log. A
  cursor of 2^63 or more returns the whole message log: `PgMessages.AfterRefines`.
* An upload seals the circles and only then reads the version it is sent with, and a load on reconnecting
  waits for no upload. A load answered in between hands the upload the newest version, and it replaces the
  blob by what was sealed: `Backup.CrossedLoadOverwrites`, with a run in `Backup.CrossedLoadLosesACircle` in
  which nothing fails.
* An upload's retry takes over the blob's version before it takes over the blob's circles. If it fails
  in between, the next upload replaces the blob and drops circles nobody left:
  `Backup.FailedRetryLosesACircle`. `Backup.UploadKeepsExactly` is the exact condition for both.
* Claims on an invite outlive its record, so a link made anew under an old id admits more than `max_uses`,
  exactly by those who claimed the old one: `Relay.AdmittedExactly`, with a run in
  `Relay.RecreatedLinkAdmitsMore`.
* The last-admin guard is exact on the list it changes (`Roster.GuardIsExact`), but it reads that list in an
  earlier store call than the write. Two admins demoting each other at once leave a group without one:
  `RosterRace.StaleGuardFails`. `RosterRace.AdminKeptExactly` is the exact condition, which requests no write
  falls into the middle of always meet: `RosterRace.UndisturbedKeepsAdmin`.

## Model

| member | source | states |
|---|---|---|
| Mls.DiscardUndoesStage | crypto-core/src/client.rs:415-445 | staging and discarding returns the group to where it was, so the commit that won still applies |
| Mls.ChatClient.CreateGroup | crypto-core/src/client.rs:311-332 | a new group starts at epoch 0 with nothing staged; an existing one is refused |
| Mls.ChatClient.StageCommit | crypto-core/src/client.rs:359-413 | a commit is built on the current state and held, unless one is held already |
| Mls.ChatClient.MergeStagedCommit | crypto-core/src/client.rs:415-432 | the held commit, whichever it is, becomes the state; nothing held is no change |
| Mls.ChatClient.DiscardStagedCommit | crypto-core/src/client.rs:434-445 | only the held commit goes |
| Mls.ChatClient.ProcessIncoming | crypto-core/src/client.rs:595-653 | a commit applies exactly when it is somebody else's and built on this state, and then clears what was held |
| Mls.ChatClient.JoinFromWelcome | crypto-core/src/client.rs:447-471 | the newcomer starts from the Welcome's state |
| Mls.ChatClient.JoinByExternalCommit | crypto-core/src/client.rs:536-577 | a link joiner adopts its own commit before the relay has seen it |
| Mls.ChatClient.ForgetGroup | crypto-core/src/client.rs:473-477 | the group is gone |
| GroupLog.AppendKeepsDense | relay/src/store.rs:782-807 | sequence numbers are 1, 2, 3, ... without gaps |
| GroupLog.AfterIsSuffix | relay/src/store.rs:809-813 | reading after a cursor is dropping that many messages |
| GroupLog.OneWinnerPerEpoch | relay/src/store.rs:782-807 | once an epoch is reached, a commit for it or an earlier one is refused forever |
| Commits.NoFork | crypto-core/src/client.rs:415-445 | in every safe run each client's history is a prefix of the accepted commits, a link joiner's its own commit ahead |
| Commits.SameEpochSameState | crypto-core/src/client.rs:595-653 | two settled clients at the same epoch hold the same commits |
| Commits.EpochsNumbered | relay/src/store.rs:782-807 | in every run, forks included, accepted commits carry epochs 1, 2, 3, ... once each in log order, messages are numbered without gaps, and the relay's epoch is the number of commits it took |
| Commits.EpochsInOrder | relay/src/store.rs:782-807 | in a safe run each accepted commit is built on all the ones before it, and no other message carries an epoch not yet reached |
| Commits.MergeFollowsRelay | client/src/lib/controller.js:2105-2107 | acting on an acceptance keeps a client on the relay's chain exactly when what it has staged is what was accepted |
| Commits.SoloRunsAreSafe | client/src/lib/controller.js:2158-2185 | clients that finish one membership change before the next always meet that condition |
| Commits.ConcurrentChangesFork | client/src/lib/controller.js:2078-2125 | a run with three changes at once that ends in a state the log does not lead to |
| Commits.CatchUpReaches | crypto-core/src/client.rs:595-653 | replaying the log brings a client to its head exactly when none of the commits it lacks is its own |
| Commits.Converges | crypto-core/src/client.rs:595-653 | the same after any safe run, from any position at or before its state |
| Commits.ChangeCompletes | client/src/lib/controller.js:2078-2119 | a change made at the head, taken and answered: its author is at the new head with nothing staged, the cursor behind it, and a Welcome leading there is offered |
| Commits.NewcomerStarts | client/src/lib/controller.js:690-710 | a newcomer's commits are those of the log up to its cursor, so replaying from there reaches the head exactly when none of the rest is its own |
| Commits.LinkJoinCompletes | client/src/lib/controller.js:3090-3135 | joining by a link parked at the head, taken and answered, ends settled at the new head with the cursor at the end |
| Commits.DeliveredAdvances | client/src/lib/controller.js:733 | a delivered message puts the cursor behind it, and never back |
| Commits.LostIsNotTaken | client/src/lib/relay.js:152-166 | a request that was lost is never taken |
| Commits.GiveUpWedges | client/src/lib/controller.js:2158-2185 | giving up on an unanswered commit, whatever else is outstanding, leaves a client wedged exactly when it was or the relay took what it holds staged |
| Commits.TakenLateWedges | client/src/lib/relay.js:152-166 | a commit given up on while still under way wedges the client when it arrives, exactly if the relay takes it |
| Commits.LostAnswerWedges | client/src/lib/controller.js:2158-2185 | staging, publishing, being taken and losing the answer is a run that ends wedged |
| Commits.WedgedForever | crypto-core/src/client.rs:595-653 | a wedged client keeps its state through every run until it forgets the group |
| Commits.ForgetFrees | crypto-core/src/client.rs:473-477 | forgetting the group frees a wedged client, which may then join anew |
| Delivery.Delivered | relay/src/server.rs:799-829 | in every interleaving a live subscription has queued exactly the log after its cursor, then every later post of others, the two overlapping in at most one post |
| Delivery.GapFree | relay/src/server.rs:843-896 | every fanned-out post past the cursor that is not one's own is queued, and nothing that is not in the log |
| Delivery.AtMostOneRepeat | relay/src/server.rs:799-829 | sequence numbers rise strictly along a subscription, except that the last backlog entry may come once more right after itself |
| Delivery.SubscriptionEnds | relay/src/server.rs:584-597 | a subscription ends by being replaced, disallowed or torn down by its own connection, and is dropped by fan-out exactly when it has no room |
| Delivery.FanOutReaches | relay/src/server.rs:872-896 | after a fan-out a subscriber with room has the post at the end of the queue and keeps the subscription; one without room loses the subscription and gets nothing; the sender keeps both as they were |
| Delivery.EphemeralReaches | relay/src/server.rs:1054-1080 | an ephemeral reaches everyone subscribed but its sender who has room, and drops the rest |
| Delivery.SubscribeReplies | relay/src/server.rs:799-829 | right after a subscription its reply stands at the session's start, naming the log's length if the cursor was below it and nothing otherwise, and the log from the cursor on follows to the end |
| Delivery.SubscribeAlone | relay/src/server.rs:799-829 | nobody else's queue or subscription moves |
| Delivery.SendLogs | relay/src/server.rs:843-896 | a commit for the wrong epoch changes nothing; any other send is logged last under the next number, with its sender, epoch and payload, and is due one answer |
| Delivery.AnsweredOnce | relay/src/server.rs:872-896 | in every run a post is answered at most once on any connection, and never before it is logged |
| Delivery.AnswerGiven | relay/src/server.rs:872-896 | an answer that is due is queued last on its connection, if that is open, and is due no more |
| Delivery.CreateSubscribes | relay/src/server.rs:661-671 | creating a group subscribes its creator; an existing group is left alone |
| Delivery.InterruptionsEnd | relay/src/server.rs:584-597 | a removed member is not subscribed, and a closing connection leaves just the subscriptions it does not own |
| Delivery.ClosedIsFinal | relay/src/server.rs:199-224 | a closed connection stays closed, with nothing queued or taken again |
| LiveHub.OfferAll | relay/src/server.rs:884-893 | offering to subscribers one by one, in any order, keeps and queues what the one-step fan-out does |
| LiveHub.DropOwned | relay/src/server.rs:584-597 | a closing connection takes only the subscriptions it still owns |
| LiveHub.SendAll | relay/src/server.rs:199-209 | queueing one by one is queueing the run |
| LiveHub.HubServer.AppendPost | relay/src/server.rs:843-876 | the first half of a send is the model's append step |
| LiveHub.HubServer.FanOut | relay/src/server.rs:872-896 | the second half is the model's fan-out step |
| LiveHub.HubServer.Subscribe | relay/src/server.rs:799-829 | registering, answering and backfilling is the model's subscribe step, whose reply and backlog `Delivery.SubscribeReplies` states |
| LiveHub.HubServer.Teardown | relay/src/server.rs:584-597 | teardown is the model's teardown step |
| Catchup.NothingLost | relay/src/server.rs:211-224 | however often its queue fills or its connection dies, a client that sends only while subscribed holds every post up to its cursor, or wrote it |
| Catchup.ResubscribeBringsRest | relay/src/server.rs:799-829 | resubscribing from the cursor leaves every logged post held or queued |
| Catchup.AckSkips | client/src/lib/controller.js:3164 | in any run, from any moment without a gap below the cursor, reading the answer to a send leaves none exactly when every post from the old cursor up to the one answered is the client's own |
| Catchup.CoveredExactly | client/src/lib/controller.js:3164 | for every run, whoever sends when: there is never a gap below the cursor exactly when no read jumps over another's post |
| Catchup.SendSkips | client/src/lib/controller.js:3164 | a send by a client that has read everything puts the cursor at the end of the log, without a gap exactly when nobody else had posted beyond it |
| Catchup.DroppedSenderLoses | relay/src/server.rs:884-893 | a run in which a subscriber with a full queue is dropped on an open connection, sends, reads everything, and has a post missing below its cursor that no later moves bring while subscriptions start from the cursor |
| Catchup.SkippedIsGone | client/src/lib/controller.js:3164 | every post between the old cursor and the send is then neither held nor coming |
| Catchup.LostForGood | relay/src/server.rs:799-829 | a fanned-out post that is neither held nor coming stays so through every run of moves in which the client subscribes from there or later |
| Catchup.SubscribedHoldsAll | relay/src/server.rs:799-829 | subscribed and having read its queue, a client holds every fanned-out post |
| Catchup.UnsubscribedSenderLoses | client/src/lib/controller.js:3164 | a run in which a send leaves the cursor past a post never received, and no later moves bring it while subscriptions start from the cursor |
| History.NeverReissued | relay/src/store.rs:404-411 | numbers handed out climb strictly over every run, whatever was deleted |
| History.ExpiryUnobservable | relay/src/store.rs:574-638 | while the clock does not go back, every page, count and number is that of a log that keeps everything and filters |
| History.ClockBackExactly | relay/src/store.rs:587-600 | a clock stepping back shows a deletion exactly when something dropped was due to live until then |
| History.BackwardPage | relay/src/store.rs:606-616 | a backward page is in order, older than its bound, leaves nothing out between them, and is short of its limit only if it has everything older |
| History.CompleteMeansNothingOlder | relay/src/store.rs:606-616 | `complete` on a backward page holds exactly when nothing older is left |
| History.ForwardPage | relay/src/store.rs:599-605 | a forward page is in order, newer than its bound, leaves nothing out between them, and is short of its limit only if it has everything newer |
| History.ForwardComplete | relay/src/store.rs:599-605 | a forward page is complete exactly when it was asked for from the start and is the whole log |
| History.RunValid | relay/src/store.rs:550-663 | every run keeps the log ordered and numbered within its counter |
| History.ApplyExactly | relay/src/store.rs:550-663 | one request: an entry stays exactly unless it expired by the request's clock, is pruned, or is redacted by its author or an admin; nothing appears but an append's entry under the next number; order is kept |
| History.SurvivesExactly | relay/src/store.rs:574-663 | over any run an entry once there is still there exactly unless some request took it down in one of those ways |
| History.NothingAppears | relay/src/store.rs:550-572 | over any run whatever is there was there at the start or was appended as it is, under the number it got |
| History.RedactExactly | relay/src/store.rs:640-654 | an entry is gone after a redaction exactly when its number is the one named and the caller is an admin or its author; the others keep their order |
| History.RedactAnswers | relay/src/store.rs:640-654 | the answer is whether there was such an entry |
| History.CountExactly | relay/src/store.rs:618-638 | the count is the number of entries later than the time, by others, that have not expired |
| HistoryReader.PageLimit | relay/src/server.rs:1149-1153 | the page size asked for is clamped to 1..200, and is 50 when none is given |
| HistoryReader.ReadingIsExact | client/src/lib/controller.js:1942-1966 | under any interleaving of appends, redactions, pruning, expiry, requests, answers and losses in which replies are folded while they fit, nothing is folded in twice and nothing readable between the cursors, or below them once complete, is missing |
| HistoryReader.HeldIsGenuine | client/src/lib/controller.js:1942-1966 | in every run, racing or not, a device holds nothing it cannot open and nothing the log never held |
| HistoryReader.FoldedOnce | client/src/lib/controller.js:1942-1966 | a reply is folded once, and one that was lost never |
| HistoryReader.FitsExactly | client/src/lib/controller.js:1942-1966 | for a bound read off the cursors at any earlier moment, folding the reply is safe for every log exactly when the bound still fits the cursors |
| HistoryReader.SoloRunsFit | client/src/lib/controller.js:3309-3319 | a device with one request under way at a time only folds replies that fit |
| HistoryReader.RacingFetchesSkip | client/src/lib/controller.js:3290-3319 | on every log of more than two pages, two first requests answered out of turn leave an entry the device could open unread between its cursors, with the start reported reached |
| HistoryReader.BackwardWalkIsExact | relay/src/store.rs:587-616 | paging back until complete brings every readable entry that was there at the start and still is at the end |
| HistoryReader.WalkIsInOrder | client/src/lib/controller.js:1942-1966 | on a walk back one request at a time each page lies below the one before, and front to back they are what is held, each entry once and by rising number |
| HistoryReader.FirstPageReaches | client/src/lib/controller.js:3290-3299 | the first page, if any of it is readable, reaches the log's end |
| HistoryReader.StuckExactly | client/src/lib/controller.js:3309-3319 | a request for older entries changes nothing exactly when more than a page is left and none of the page can be opened |
| HistoryReader.StuckWhileWalled | client/src/lib/controller.js:3309-3319 | over any run of requests, posts, expiry, redactions and prunes the reader stays where it was exactly as long as every request meets such a page, and from the first that does not it has moved for good |
| HistoryReader.StuckForever | client/src/lib/controller.js:3309-3319 | while nothing below the cursor can expire and nothing is redacted or pruned, no number of requests moves the reader, whatever is posted or expires elsewhere |
| HistoryReader.DamagedPageHidesTheRest | client/src/lib/controller.js:3309-3319 | for every page size, a log whose first entry a device could open and never gets while nothing is redacted or pruned |
| HistoryReader.LoadOlderProgress | client/src/lib/controller.js:3309-3319 | otherwise it reaches the start or moves the cursor down |
| HistoryReader.WalkEnds | client/src/lib/controller.js:3309-3319 | for a device that can open every entry the walk ends within as many requests as the cursor's value |
| Sql.WhereIsFilter | relay/src/pg.rs:571-598 | selecting rows and ordering is ordering and filtering |
| Sql.DescendingIsReversed | relay/src/pg.rs:577-618 | a descending query is the ascending one reversed |
| Sql.LastOfReversed | relay/src/pg.rs:590-617 | a descending query with one row extra, cut and reversed, is the end of the list, and the extra row tells whether more is left |
| Sql.LimitTwice | relay/src/pg.rs:590-617 | the same for an ascending query |
| PgHistory.AscendingOrdered | relay/src/pg.rs:571-583 | ordering lists the rows by number, each once, and no others |
| PgHistory.ForwardQuery | relay/src/pg.rs:571-617 | the forward query gives the in-memory page and flag |
| PgHistory.BackwardQuery | relay/src/pg.rs:577-617 | the backward query gives the in-memory page and flag |
| PgHistory.QueryRefines | relay/src/pg.rs:489-680 | every request on which the casts make no difference gives the same answer and leaves the same log |
| PgHistory.TablesRefineMemory | relay/src/pg.rs:489-680 | over whole runs of such requests the tables and the in-memory log cannot be told apart |
| PgHistory.AgreesExactly | relay/src/pg.rs:489-680 | for every request to a table without cast numbers, no later requests tell the stores apart exactly when its numbers fit a signed column or meet no row the cast would treat differently |
| PgHistory.TableAgreesExactly | relay/src/pg.rs:512-598 | for every table, requests that fit the columns never tell it from the in-memory log exactly when it holds no number that turned negative in the cast |
| PgMessages.AppendRefines | relay/src/pg.rs:905-969 | the conditional update gives the in-memory number or error, exactly unless a commit names epoch 2^63 |
| PgMessages.AfterRefines | relay/src/pg.rs:971-999 | reading after a cursor agrees exactly for cursors that fit a signed column |
| PgMessages.RowsRefineLog | relay/src/pg.rs:905-969 | over any run of sends the rows are the in-memory log, and each answer is the in-memory one exactly unless it answers a commit for epoch 2^63 |
| PgStore.OldestFirst | relay/src/pg.rs:613-616 | the rows are turned from newest first to oldest first in place |
| PgStore.Database.AppendMessage | relay/src/pg.rs:905-969 | the transaction is the modelled update, and touches one group |
| PgStore.Database.AppendHistory | relay/src/pg.rs:489-537 | the counter upsert and insert are the modelled append |
| PgStore.Database.HistoryPage | relay/src/pg.rs:548-618 | delete, select, cut and reverse are the modelled fetch |
| Circles.MergeBackups | client/src/lib/circles.js:163-168 | the two loops over an insertion-ordered map are the merge |
| Circles.MergeKeepsAll | client/src/lib/circles.js:142-168 | ids are the union, none twice, and this device's copy wins |
| Circles.MergeAssociative | client/src/lib/circles.js:142-168 | three lists fold to the same list, order included, however they are paired |
| Backup.MergeMapsIsMerge | client/src/lib/circles.js:163-168 | on what lists hold under each id, merging is one map laid over another |
| Backup.NoCircleLost | client/src/lib/controller.js:2601-2698 | in every run in which no load is taken over between a seal and its send, and no upload starts between a failed retry and the next load, a circle once parked stays parked unless some device left it, even when a write lands after its device gave up on it; what a device's own upload parks is `Backup.LandedHoldsOwn` |
| Backup.LandedHoldsOwn | client/src/lib/controller.js:2601-2634 | in every run a write that lands, first try, retry or given up on, parks every circle the device held when it sealed that upload, in its own copy; a first try nothing else, a retry besides just the other circles of the blob it re-read |
| Backup.RefusedIsRetried | client/src/lib/controller.js:2614-2625 | a first try out of date is refused, re-reads the blob, and is sealed again over it at its version |
| Backup.OwnCopyStays | client/src/lib/controller.js:2703-2722 | a device's copy of a circle changes only by its own joining and leaving |
| Backup.CirclesComeFrom | client/src/lib/controller.js:2631-2722 | a circle a device comes to hold was joined or read in the blob |
| Backup.NeverReadNeverWrites | client/src/lib/controller.js:2592-2602 | a device that has never read the blob never writes it |
| Backup.GivenUpMayLand | client/src/lib/relay.js:152-166 | a write given up on may still land, over the version it was sent for and over no other |
| Backup.ArrivesOnce | client/src/lib/relay.js:152-166 | it arrives once or never |
| Backup.FailedLoadBringsNothing | client/src/lib/controller.js:2666-2684 | a load that failed changes neither version nor circles |
| Backup.WritesReplaceWhatWasSeen | relay/src/store.rs:665-679 | in every run versions rise by one and a landed write replaces exactly the blob its writer had last read or written when it was sent |
| Backup.UploadKeepsExactly | client/src/lib/controller.js:2601-2628 | in every run a sealed upload or retry keeps every parked circle nobody left exactly when its version is out of date when sent, or what was sealed has all of the blob last seen by then that nobody left |
| Backup.FailedRetryOverwrites | client/src/lib/controller.js:2621-2632 | after an upload that failed at the newest version, the next parks only what the device holds |
| Backup.FailedRetryLosesACircle | client/src/lib/controller.js:2621-2632 | a run in which a circle nobody left is gone |
| Backup.CrossedLoadOverwrites | client/src/lib/controller.js:2601-2684 | from any state, a load answered while an upload is being sealed makes it park exactly what was sealed, and lose exactly what that lacks |
| Backup.CrossedLoadLosesACircle | client/src/lib/controller.js:2601-2684 | a run in which nothing fails and a circle nobody left is gone |
| Backup.QuerySetBackupAgrees | relay/src/pg.rs:682-715 | the SQL swap gives the in-memory answer, and leaves the in-memory blob, exactly when a row exists or none was expected |
| RateLimit.SharedBucket | relay/src/ratelimit.rs:34-44 | two addresses share a bucket exactly when equal or in one V6 /64 |
| RateLimit.RateLimiter.PerMinute | relay/src/ratelimit.rs:22-28 | n a minute: rate n/60, burst n, no buckets |
| RateLimit.RateLimiter.Allow | relay/src/ratelimit.rs:47-68 | the purge, refill and take are the modelled call |
| RateLimit.AdmitExactly | relay/src/ratelimit.rs:47-68 | a call passes exactly when its bucket holds a token, which it costs, and no other bucket moves |
| RateLimit.WindowBound | relay/src/ratelimit.rs:22-68 | in any stretch of any run one bucket passes at most burst plus rate times its length |
| RateLimit.DroppingUnseen | relay/src/ratelimit.rs:51-60 | a limiter that drops full buckets answers every call as one that never does |
| RateLimit.WaitIsBounded | relay/src/ratelimit.rs:47-68 | a client that waits 60/n seconds is let through |
| RateLimit.ClockBackGivesNothing | relay/src/ratelimit.rs:55-61 | a clock that reads earlier than a bucket's last use gives it nothing |
| BigEndian.RoundTrip | crypto-core/src/client.rs:201-208 | a number that fits its width reads back |
| BigEndian.MostSignificantFirst | crypto-core/src/client.rs:201-208 | the first byte weighs most |
| Snapshot.ExportState | crypto-core/src/client.rs:193-213 | the loop writes the encoding |
| Snapshot.ImportState | crypto-core/src/client.rs:215-242 | the cursor walk is the decoding, with its three errors |
| Snapshot.ReadEntries | crypto-core/src/client.rs:234-242 | the entry loop is the decoding of the entries |
| Snapshot.RoundTripExactly | crypto-core/src/client.rs:193-242 | for every map, listed in any order, and any trailing bytes, a snapshot reads back exactly when its header is shorter than 2^32 |
| Snapshot.PrefixRejected | crypto-core/src/client.rs:215-242 | every strict prefix of a snapshot is refused as truncated |
| Snapshot.FrontLayout | crypto-core/src/client.rs:193-213 | the header lies behind its length in four bytes, and the number of entries in eight |
| Snapshot.EntryLayout | crypto-core/src/client.rs:193-213 | each entry lies as far along as those before it are long: its two lengths, its key, its value |
| Snapshot.OnlyVersionOne | crypto-core/src/client.rs:215-242 | nothing is loaded but under a header of version 1 |
| Snapshot.HeaderRefused | crypto-core/src/client.rs:215-242 | a malformed header and another version are each refused as that |
| SafetyNumber.Symmetric | crypto-core/src/client.rs:494-506 | both sides build the same bytes |
| SafetyNumber.SmallerFirst | crypto-core/src/client.rs:494-506 | the party whose name, or between equal names whose key, comes first stands first, each field behind its length |
| SafetyNumber.Injective | crypto-core/src/client.rs:494-506 | equal bytes come from the same unordered pair of name and key, and from no other |
| SafetyNumber.KeyOf | crypto-core/src/client.rs:489-493 | a key is found exactly when a member has the name, and is that of the first who has it |
| SafetyNumber.NumberExactly | crypto-core/src/client.rs:480-506 | only a name nobody has is refused; any other gives the bytes for the first member who has it |
| SafetyNumber.MatchMeansNoSubstitution | crypto-core/src/client.rs:480-506 | two members' numbers match exactly when each roster gives the other's own key |
| Roster.GuardIsExact | relay/src/server.rs:691-703 | the guard refuses just the removals and demotions that would leave no admin |
| Roster.AdminsAreUsers | relay/src/server.rs:696-702 | the count the guard uses is the number of people whose role is Admin |
| RosterRace.StaleGuardFails | relay/src/server.rs:683-708 | the permission checks, guards and writes of two requests interleaved: two admins demote each other, both are let through, and no admin is left |
| RosterRace.AdminKeptExactly | relay/src/server.rs:683-741 | over every interleaving of role and removal requests there is always an admin exactly when each write comes while its guard would still pass |
| RosterRace.UndisturbedKeepsAdmin | relay/src/server.rs:683-741 | which holds when no write falls between a guard's read and its own write |
| RosterRace.ChangesWereAllowed | relay/src/server.rs:683-741 | in every interleaving a role changes only by a write of a request its maker was allowed to make when they made it, and as asked for |
| RosterRace.WriteExactly | relay/src/store.rs:481-527 | a request past its guard does what it asked to a target who has a seat, and nothing to anybody else |
| Roster.WithRoles | relay/src/store.rs:472-479 | allowing a member changes nobody's role |
| Roster.WithoutRoles | relay/src/store.rs:481-487 | removing a member removes exactly their seat |
| Roster.AssignRoles | relay/src/store.rs:517-527 | assigning a role changes that user's role only, and the number of admins accordingly |
| Relay.AclHolds | relay/src/server.rs:683-756 | after any run of whole requests every group has an admin and no repeated member, every subscriber is a member, and invites, Welcomes and subscriptions name existing groups |
| Relay.SeatsAreAuthorised | relay/src/server.rs:661-741 | a seat is gained only by creating, an admin's Allow or a redeeming link, and lost only by leaving, an admin's Disallow or with the group |
| Rights.RolesAreAuthorised | relay/src/server.rs:683-708 | in any state, a seated user's role changes only by a SetRole naming them and the group, made by a global admin or an admin of that group, and becomes the role asked for |
| Rights.SetRoleExactly | relay/src/server.rs:683-708 | such a request is done exactly when its maker may, the target has a seat and is not the last admin being demoted; otherwise nothing changes |
| Rights.SeatsGivenExactly | relay/src/server.rs:661-756 | exactly when creating, allowing, removing and deleting are done, and the seat, role and subscription each leaves |
| Rights.RedeemSeatsExactly | relay/src/server.rs:1039-1052 | presenting a link succeeds exactly when it exists, has not expired and has uses left or was used by the presenter before, who then has a seat and keeps a role they had |
| Rights.AccountsAreAdmitted | relay/src/server.rs:470-488 | an account is made only by registering, and exactly for a known user, on an open relay, for the first user of all, or with a link that works |
| Rights.LinksAreAuthorised | relay/src/server.rs:990-1037 | a link appears, changes its payload or goes only by somebody who may manage its group, and its uses rise only by a first use |
| Rights.LinkRequestsExactly | relay/src/store.rs:826-854 | exactly when making, changing and revoking a link are done; the first writer of an id wins |
| Rights.SubscriptionsAreAuthorised | relay/src/server.rs:584-597 | a subscription is made only for the requester's own connection, by a member or the creator, and goes only by removal, with the group, with the connection that owns it, or by being too slow |
| Rights.SubscribeExactly | relay/src/server.rs:799-810 | a member who subscribes is subscribed, and a stranger changes nothing |
| Rights.OnlineExactly | relay/src/server.rs:595-597 | who is online on which connection is decided only by connecting and by closing that very connection |
| Rights.WelcomesAreAuthorised | relay/src/server.rs:938-988 | a Welcome is taken exactly from one member to another, under its sender's own name, and waits last in the recipient's queue unless a connection has room |
| Relay.WelcomesConserved | relay/src/server.rs:938-988 | in every run each accepted Welcome is on a connection's queue, in the store, or gone with its group, counted with multiplicity |
| Relay.ConnectDrains | relay/src/server.rs:499-525 | connecting moves the whole stored queue, in order, to the new connection and leaves nothing stored |
| Relay.InvitesAccounted | relay/src/store.rs:826-892 | over a record's lifetime `uses` is the number of distinct users who first claimed it then, and never passes `max_uses` |
| Relay.RepeatsAreFree | relay/src/store.rs:856-879 | a claimant may present the link again at any later time, without counting, exactly until it expires or is gone |
| Relay.AdmittedExactly | relay/src/store.rs:856-879 | after any run, a used-up link admits exactly its claimants under every record of that id, who are no more than `max_uses` exactly when nobody had claimed the id before the record |
| Relay.RecreatedLinkAdmitsMore | relay/src/store.rs:856-879 | a run after which a link for one use admits two |
| Store.Retain | relay/src/store.rs:574-585 | retaining in order is the filter |
| Store.FindSeat | relay/src/store.rs:509-515 | the first seat of a user, or the end |
| Store.CountAdmins | relay/src/server.rs:697-699 | the number of admin seats |
| Store.RemoveSeats | relay/src/store.rs:481-487 | every other seat, in order |
| Store.DropWelcomes | relay/src/store.rs:489-499 | every queue without one group's Welcomes |
| Store.MemoryStore.AppendMessage | relay/src/store.rs:782-807 | the log, epoch and answer of `GroupLog.Append`, or no such group |
| Store.MemoryStore.MessagesAfter | relay/src/store.rs:809-813 | the messages after a cursor, or no such group |
| Store.MemoryStore.AppendHistory | relay/src/store.rs:550-572 | the entry under the next number, or no such group |
| Store.MemoryStore.SweepExpiredHistory | relay/src/store.rs:574-585 | every log without its expired entries, and how many went |
| Store.MemoryStore.HistoryPage | relay/src/store.rs:587-616 | the page and flag of the log without its expired entries, which `History.ForwardPage` and `History.BackwardPage` describe; an unknown log is empty and complete |
| Store.MemoryStore.HistoryCount | relay/src/store.rs:618-638 | unexpired entries by others after a time |
| Store.MemoryStore.RedactHistory | relay/src/store.rs:640-654 | the redacted log and whether it shrank: by `History.RedactExactly` and `History.RedactAnswers` the entry goes, and the answer says so, exactly for its author or an admin |
| Store.MemoryStore.PruneHistory | relay/src/store.rs:656-663 | entries before a time go |
| Store.MemoryStore.SetBackup | relay/src/store.rs:665-679 | nothing is written over a version that was not expected |
| Store.MemoryStore.CreateGroup | relay/src/store.rs:454-470 | a new group has its creator as admin and an empty log |
| Store.MemoryStore.MemberRole | relay/src/store.rs:509-515 | the role of the first seat |
| Store.MemoryStore.AllowMember | relay/src/store.rs:472-479 | a member is added once, as a plain member |
| Store.MemoryStore.DisallowMember | relay/src/store.rs:481-487 | a member is removed |
| Store.MemoryStore.SetMemberRole | relay/src/store.rs:517-527 | a member's role is set; a stranger's is refused |
| Store.MemoryStore.DeleteGroup | relay/src/store.rs:489-499 | the group, its logs, its queued Welcomes and its invites go |
| Store.MemoryStore.StoreWelcome | relay/src/store.rs:815-819 | a Welcome joins the end of a queue |
| Store.MemoryStore.TakeWelcomes | relay/src/store.rs:821-824 | the whole queue is handed over and emptied |
| Store.MemoryStore.RedeemInvite | relay/src/store.rs:856-879 | the record and claims after a presentation, and whether it succeeded |
| Server.RelayServer.RequireAdmin | relay/src/server.rs:1387-1398 | a group admin or a global one |
| Server.RelayServer.RequireMember | relay/src/server.rs:1379-1385 | whoever has a seat |
| Server.RelayServer.WouldOrphan | relay/src/server.rs:696-702 | the target is the only admin |
| Server.RelayServer.CreateGroup | relay/src/server.rs:661-671 | the whole request of the model |
| Server.RelayServer.SetRole | relay/src/server.rs:683-708 | the whole request of the model, whose permission and effect `Rights.SetRoleExactly` states |
| Server.RelayServer.Disallow | relay/src/server.rs:710-741 | the whole request of the model |
| Server.RelayServer.DeleteGroup | relay/src/server.rs:743-756 | the whole request of the model |
| Server.RelayServer.Subscribe | relay/src/server.rs:799-810 | a member of a known group is registered and given the log after the cursor; a stranger or a failed read registers nobody |
| Server.RelayServer.Connect | relay/src/server.rs:499-525 | online, drained, and the stored Welcomes queued in order |
| Server.RelayServer.SendWelcome | relay/src/server.rs:938-988 | queued if the recipient's connection takes it, stored otherwise, refused unless both are members |
| Server.RelayServer.RedeemInvite | relay/src/server.rs:1039-1052 | the whole request of the model |
| Fork.ClassifyFailure | client/src/lib/fork.js:56-83 | a failure is suspect exactly when it is live, somebody else's, and not from an epoch ahead |
| Fork.TallyIsHistory | client/src/lib/fork.js:92-134 | the counts and senders kept are those of the events since the last clear |
| Fork.OwnMessagesDecide | client/src/lib/fork.js:92-134 | what is believed of a sender depends only on their own events |
| Fork.ForkWatch.Succeeded | client/src/lib/fork.js:110-120 | the event is recorded and the tallies follow |
| Fork.ForkWatch.Failed | client/src/lib/fork.js:122-137 | the event is recorded, and changes nothing unless it is suspect |
| Fork.ForkWatch.Clear | client/src/lib/fork.js:159-162 | the group is forgotten |
| Fork.ForkWatch.Stranded | client/src/lib/fork.js:148-153 | the senders over the threshold, sorted, once each |
| Fork.ForkWatch.Verdict | client/src/lib/fork.js:139-157 | exactly the senders with a streak of at least the threshold, and out of sync exactly when they are everyone judged |
| Fold.Fold | client/src/lib/fold.js:26-66 | the loop is the fold |
| Fold.FoldOne | client/src/lib/fold.js:30-63 | one message: the divider, then the line, the extended group or a new one |
| Fold.FoldIsCanonical | client/src/lib/fold.js:26-66 | lossless and in form: one sender, one kind of evidence and one day per group, gaps under the window, no neighbours that belong together, dividers exactly at day changes |
| Fold.CanonicalIsFold | client/src/lib/fold.js:26-66 | a list in that form is the fold of its own messages, so there is only one |
| Fold.PrefixMeans | client/src/lib/fold.js:26-66 | what the form says of every item and every two neighbours |
| Fold.HeaderVouches | client/src/lib/fold.js:46-62 | every line of a group is its sender's, of its day, of its evidence with none meaning signed, and less than five minutes after the line before |

## Left out

- OpenMLS, Ed25519, AES-GCM, Argon2 and SHA-256: a group state is its chain of commits, a header is bytes with a version, and the safety number stops at the bytes that are hashed.
- Clocks, randomness, sockets and the network: time, nonces, and whether a queue has room are parameters; a lost request or answer is a step.
- JSON, base64 and the SQL driver: messages are datatypes and tables are maps.
- Deleting and recreating a group while a send to it is in flight; `deleteServer` in client/src/lib/controller.js:2315-2342, which publishes commits without the flag.
- The outbound depth counter is the number of queued items; its separate atomic updates are not interleaved.
- SetRole, Disallow and Subscribe are whole steps in `Relay`; the store calls inside one request are not interleaved with another's, except in `RosterRace`.
- Keys that arrive after a page was read: which entries a device can open does not change during a walk.
- A membership change still waiting for its answer when its client forgets the group: forgetting drops it here, while in client/src/lib/controller.js:2158-2185 it would act on what a rejoined client has staged.
- ImportState: stops before the groups are reloaded from the storage map, which is OpenMLS's part.
- NumberOf: stops before the digest and its twelve groups of five digits.
- Allow: floating-point rounding is not modelled; tokens and time are reals, and calls see a clock that does not go back.
- HistoryCount: the two stores answer differently for a group that does not exist; the server refuses such a request before either is asked.
- AppendRefines: `$2 - 1` on the smallest signed value is taken to fail whether or not the group has a row.
- Fold: `days` stands for the label of a timestamp's day, which in the code carries no year; item keys are left out.
- Merging circles keeps ids; which device's copy of a circle is newer is not claimed, and the code lets an older one win.
- Accounts, passkeys, vaults, push, TURN, blobs and their tickets, metrics, games, quorum, log rendering and the user interface: they would add mostly easy members.
