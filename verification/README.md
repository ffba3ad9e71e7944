# A verified model of dialog resharding and the feed cache

The repository is a small social network. Its four stateful parts are modelled here and their
properties are proved for all inputs, all runs and all reachable states:

* **Dialog resharding.** Messages live in independent PostgreSQL shards chosen by hashing the two
  users of a dialog. The shard count is changed while sends go on: enable dual-write, backfill,
  verify, switch reads, disable dual-write, cleanup.
* **The feed cache.** Each user's feed is a Redis sorted set of at most `cap` post ids beside post
  bodies in hashes, an index over a join in PostgreSQL. Popular authors are not pushed; their posts
  are pulled and merged on reading.
* **The stream worker.** Feed events are handled at least once over a pending list, across handler
  failures and crashes.
* **The WebSocket registry.** Which users have open sockets in this process, and when to subscribe
  and unsubscribe them.

## Files

| file | what it holds |
|---|---|
| `Sharding.dfy` | chat keys and shard indices |
| `MessageTable.dfy` | one shard's table: idempotent insert, paging by id, deletion, counting |
| `Paging.dfy` | LIMIT and OFFSET |
| `DialogList.dfy` | the ordered, paged listing of a dialog |
| `ClusterConfig.dfy` | the routing flags |
| `ReshardingProtocol.dfy` | the migration as a transition system |
| `ReshardingSafety.dfy` | what every step keeps; no acknowledged message is lost |
| `ReshardingOutcome.dfy` | when the switch is safe; rollback; where every message ends up |
| `BackfillPlan.dfy`, `BackfillSteps.dfy` | backfill as a list of inserts, and as its loops run it |
| `DialogsCluster.dfy` | the cluster object: send, list and the migration commands as loops |
| `QuietMigration.dfy` | the transition system and the loops agree |
| `MigrationRuns.dfy` | runs that exist: the quiet migration ends, and each failure is reached |
| `CommandRuns.dfy` | a send, a switch of flags and a cleanup as runs of the transition system |
| `FeedOrder.dfy` | the algebra of "the newest n" |
| `FeedWorld.dfy` | the effect of each request; the graded invariant; exact reads |
| `FeedReads.dfy` | what a reader sees: each post's place on a page, and what requests do to it |
| `FeedRows.dfy` | rows stored one by one in a sorted set and in the bodies |
| `FeedRebuild.dfy` | the rebuild command by command, with errors and concurrent readers |
| `FeedCache.dfy` | the feed functions and handlers as they change Redis and the database in place |
| `FeedMerge.dfy` | celebrity flags, pull and merge |
| `HybridFeed.dfy` | runs of the hybrid feed: events handled late, repeatedly and in any order, expiring flags; what every run keeps |
| `HybridReads.dfy` | what merged reads show in these runs: exactly when it is true, and when it is the database's page |
| `HybridGap.dfy` | runs that end with a missing post, an old text and a deleted post on the page |
| `FeedWorker.dfy` | the stream worker |
| `WorkerLoops.dfy` | the worker's loops as runs of the stream's relation |
| `ConnectionManager.dfy` | the WebSocket registry |

## Assumptions

* SHA-256 is a parameter; where it matters, it is assumed that no two payloads of user pairs collide.
* One statement on one shard is atomic, and ids of a shard grow in commit order (an insert that hits
  a conflict still consumes an id). A list read is one statement. Redis commands are atomic.
* A message id is fresh (UUIDv4).
* Two grace periods are conditions on the operator, named `Drained` and `CleanupDrained`: backfill
  starts only when no send is under way that was routed without the chat's new home, and cleanup
  only when no send is still going to write elsewhere than there. The code enforces neither. Up to the
  switch of reads safety needs no grace period at all (`NothingIsLostBeforeSwitch`), from then on the
  first one; `SwitchIsSafeExactlyWhenReady` states what goes wrong without it and
  `UndrainedMigrationLoses` that it does. The second is needed only for where every message ends up.
* The migration commands run in one process with the application, as in the integration scenario.
  Each CLI command starts its own process, whose flags the application does not see.
* Feeds: requests run one after another; no feed and no post body expires or is evicted. In the runs
  of `FeedWorld` a post is fanned out when it is created, and its events may be handled again at any
  later time. In the runs of `HybridFeed` created and deleted events are handled at any later time, in
  any order and any number of times, a created event always with the text it was published with, also
  after its post was edited or deleted; celebrity flags may expire at any time.
  The rebuild is also modelled with readers between its commands, but no other writer; commands of its
  pipeline behind one that failed are still sent, a command of the pipeline that reports an error may or
  may not have taken effect, and its final
  DEL is taken to work. Posts with equal `created_at`, whose order the SQL leaves open, are listed as Redis
  orders their ids; the merge theorems assume distinct times.

## Findings about the code

* `reconfigure` assigns before it validates, so a refused configuration stays in force
  (`DialogsCluster.Cluster.Reconfigure`).
* The comment in `cmd_switch_read` that a rollback stays cheap holds only for messages sent before
  the switch: afterwards both counts are equal and a send writes one shard although dual-write is
  still on (`ReshardingOutcome.RollbackAfterSwitch` gives the exact condition,
  `MigrationRuns.LateRollbackLoses` a run that loses a message). Some chat moves whenever the two
  counts differ (`Sharding.SchemesAgreeOnlyIfEqual`).
* Without waiting for sends routed before dual-write, a migration can lose an acknowledged message
  (`MigrationRuns.UndrainedMigrationLoses`).
* Shrinking leaves rows behind: cleanup visits only shards below the new count. They remain exactly
  when a row lies on a shard beyond it before cleanup (`ReshardingOutcome.RowsAreConserved`), for ever
  if it lay there at the start (`ReshardingOutcome.ShrinkingLeavesRows`, `MigrationRuns.ShrinkingExample`).
* A dual-written message has a different `created_at` on each shard, and concurrent sends can arrive
  in opposite orders (`MigrationRuns.SendsOvertake`), so a switch can reorder a dialog:
  `DialogList.OppositeArrivalsReorder` gives an input and `DialogList.ShardsListAlike` the exact condition.
* A full feed does not refill after a deletion: `FeedWorld.DeletionLeavesAGap` says exactly when it
  falls short, and `FeedWorld.GapHappens` that it does for every cap.
* A post skipped while its author was flagged is missing from merged reads once that flag has expired
  and the author has fewer followers, as long as the reader's feed is not empty:
  `FeedMerge.MergedReadIsWhole` says exactly when the merged read is the database's, and
  `HybridGap.SkippedPostHappens` gives a run.
* A created event handled after its post was edited puts the old text back into the stored body, and
  merged reads show it (`HybridGap.OldTextHappens` gives a run). A stored body is wrong exactly if such
  an event was the last to write it (`HybridFeed.WrongBodiesAreTheWrong`), and a merged read shows
  current texts of existing posts exactly if no post it shows from the feed has such a body
  (`HybridReads.ReadIsTrueExactly`).
* A created event handled after its post was deleted stores the body again and pushes the post again,
  and merged reads show the deleted post until a deleted event is handled afterwards
  (`HybridReads.DeadIsShownExactly` gives the exact condition, `HybridGap.DeadPostHappens` a run).
* In runs without these three (no flag expires, a created event is handled only while the post still has
  its text, a deleted event at once) every merged read within the guaranteed depth is the database's page
  (`HybridReads.HybridReadIsDatabases`).

## Model

| member | source | states |
|---|---|---|
| Sharding.PayloadParts | app/dialogs/sharding.py:31-40 | the hashed bytes are v1, a bar, the 16 big-endian bytes of the smaller user id, a bar, and those of the larger |
| Sharding.PayloadNamesThePair | app/dialogs/sharding.py:24-40 | two payloads are equal exactly when they are of the same two users, in either order |
| Sharding.ChatIdNamesThePair | app/dialogs/sharding.py:24-40 | without hash collisions a chat key belongs to exactly one unordered pair of users |
| Sharding.ShardIsTheRoute | app/dialogs/sharding.py:43-55 | for a 32-byte key and a positive count the function never raises and its big-endian bucket modulo n is the model's index |
| Sharding.MultipleSplitsShards | app/dialogs/sharding.py:43-55 | the index over k*n shards is congruent modulo n to the index over n shards |
| Sharding.SchemesAgreeOnlyIfEqual | app/dialogs/sharding.py:43-55 | two shard counts, one of them below 2^64, send every chat to the same index exactly when they are equal |
| MessageTable.InsertFacts | migrations/dialogs/001_messages.sql:5-21 | the idempotent insert keeps ids increasing and message ids unique, keeps every row, and leaves the message id present exactly once |
| MessageTable.PageIsComplete | scripts/resharding.py:66-81 | a page holds rows above the cursor only, and no row at or below its last id is skipped; an empty page means none are left |
| MessageTable.AddAllRedo | scripts/resharding.py:88-99 | repeating a prefix of the inserts before all of them changes nothing |
| DialogList.OrderRowsAnswersTheQuery | app/dialogs/pg_repository.py:49-68 | the listing is a permutation of the rows in (created_at DESC, id DESC) order |
| DialogList.ListChatAnswers | app/dialogs/pg_repository.py:41-70 | the item at position i carries sender, recipient, text and time of the chat's row with exactly offset + i rows of the chat before it by (created_at DESC, id DESC), and every such row within the limit is listed |
| DialogList.ListedIsUnique | app/dialogs/pg_repository.py:49-68 | the query has only one answer |
| DialogList.ListingNeedsOnlyTheLog | app/dialogs/pg_repository.py:41-70 | tables with the same entries of a chat in the same order of arrival answer every page alike, whatever their ids |
| DialogList.ListingIsTheDialog | app/dialogs/pg_repository.py:41-70 | both users get the same listing, it holds only messages between them, and each item carries the sender, recipient, text and time of a stored row |
| DialogList.ShardsListAlike | app/dialogs/pg_repository.py:49-68 | two shards holding the same messages of a dialog, each with its own stamps and ids, list them in the same order exactly when they agree for every two of them on which is newer by stamp, then id |
| DialogList.DualWriteKeepsOrder | app/dialogs/pg_repository.py:28-33 | two dual-written messages, arriving on each shard in either order with that shard's stamps, are listed alike exactly when both shards find the same one newer (later stamp, or equal stamp and later arrival) |
| MigrationRuns.SendsOvertake | app/dialogs/pg_repository.py:28-39 | under dual-write two sends to a moving dialog can arrive on its two homes in opposite orders |
| ClusterConfig.SendIsReadable | app/dialogs/cluster.py:127-156 | the read shard is among the write shards exactly under dual-write or when both counts give the same index |
| DialogsCluster.SentIsListed | app/dialogs/cluster.py:127-156 | after a send the message is on the shard reads select exactly under dual-write or when both counts give the same index |
| DialogsCluster.Cluster.Reconfigure | app/dialogs/cluster.py:190-211 | each given flag is assigned even when the result is refused, and it is refused exactly when a count is outside 1 to n |
| DialogsCluster.Cluster.Send | app/dialogs/pg_repository.py:20-39 | the shard by the write count, and under dual-write also the one by the read count, gets the message with its own timestamp, no other table changes, and each routing error comes before any insert |
| DialogsCluster.Cluster.List | app/dialogs/pg_repository.py:41-70 | the routing error, or a page of the read shard in which each row of the chat stands at its rank with its own fields |
| DialogsCluster.Cluster.EnableDualWrite | scripts/resharding.py:30-41 | only write_n and dual_write change |
| DialogsCluster.Cluster.SwitchRead | scripts/resharding.py:132-137 | only read_n changes |
| DialogsCluster.Cluster.DisableDualWrite | scripts/resharding.py:140-145 | only dual_write changes |
| DialogsCluster.Cluster.CopyPage | scripts/resharding.py:82-100 | the rows of a page that live elsewhere are inserted at their new home in order, up to the first target outside the cluster |
| DialogsCluster.Cluster.CopyShard | scripts/resharding.py:61-100 | paging through a shard inserts exactly the moves of its rows |
| DialogsCluster.Cluster.Backfill | scripts/resharding.py:44-101 | refused without dual-write; otherwise the tables are the starting ones with all moves of the read shards applied in order, and the count returned is their number |
| DialogsCluster.Cluster.Verify | scripts/resharding.py:104-129 | with both counts in the cluster it passes exactly when every row of the read shards has its message id on its new home, and otherwise raises with the positive number of rows that have not |
| DialogsCluster.MissingCountsCopyless | scripts/resharding.py:109-124 | what the loops count, move by move, is the number of such rows |
| DialogsCluster.Cluster.Cleanup | scripts/resharding.py:148-173 | refused under dual-write; otherwise each of the first new_n shards keeps exactly the rows whose chat lives there, and the count returned is the rows lost |
| DialogsCluster.VerifyMeansCopiesInPlace | scripts/resharding.py:104-129 | verify counts nothing missing exactly when every row of the read shards has its message id on its new home |
| DialogsCluster.CleanupKeepsEveryMessage | scripts/resharding.py:148-173 | after a passing verify cleanup removes no message's last copy: each is still on its new home, unaltered |
| BackfillPlan.RestartIsHarmless | scripts/resharding.py:58-100 | backfill stopped after any insert and restarted ends with the same messages in the same order on every shard as one never stopped |
| BackfillPlan.RepeatAddsNothing | scripts/resharding.py:58-100 | a further run after a finished one changes no table's rows |
| BackfillPlan.BackfillAppends | scripts/resharding.py:61-100 | from a well-placed start each table is its old log followed by the moved entries of the chats that now live there, in order |
| BackfillPlan.ListingsSurvive | scripts/resharding.py:61-100 | without sends in between every page of every dialog reads the same before, after backfill, after the switch and after cleanup |
| ReshardingSafety.SoundStep | scripts/resharding.py:30-173 | every step of a send or of the operator keeps the sound state: unaltered owned rows on old or new homes, exact bookkeeping of sends, reads complete before the switch |
| ReshardingSafety.InvStep | scripts/resharding.py:30-173 | every step of a drained run keeps backfill's progress and, from its end on, the readiness of every message |
| ReshardingSafety.NoAcknowledgedMessageIsLost | scripts/resharding.py:30-173 | in every state reachable by a drained migration every acknowledged message is on the shard reads select, unaltered |
| ReshardingSafety.NothingIsLostBeforeSwitch | app/dialogs/cluster.py:127-156 | until reads are switched no run loses an acknowledged message, drained or not, also after rollbacks |
| ReshardingOutcome.NothingRemovedBeforeSwitch | scripts/resharding.py:44-101 | until reads are switched every table only grows at its end, with or without draining |
| ReshardingOutcome.BackfillCovers | scripts/resharding.py:44-101 | when a drained backfill returns every row is on an old or new home, and its message (id, chat, users and text; the time of the copy is not compared) is on the new one, or its send is still to write there, or has raised |
| ReshardingOutcome.SwitchIsSafeExactlyWhenReady | scripts/resharding.py:132-137 | from any state in which backfill has returned, drained or not, every continuation is safe exactly when each message is on its new home or will be written there by its own send |
| ReshardingOutcome.VerifyAllowsTheSwitch | scripts/resharding.py:104-137 | once no send routed without the new home is under way, a passing verify makes the switch safe, also while dual-writing sends are under way |
| ReshardingOutcome.VerifyDecidesTheSwitch | scripts/resharding.py:104-129 | the same, and with no send under way and none raised a passing verify is also necessary |
| ReshardingOutcome.RollbackAfterSwitch | scripts/resharding.py:132-137 | a message sent after the switch is found after going back to the old count exactly when its chat does not move |
| MigrationRuns.LateRollbackLoses | scripts/resharding.py:132-137 | whenever a chat moves, a drained run and a late rollback leave an acknowledged message of it unreadable |
| MigrationRuns.StaleSendOutlastsBackfill | scripts/resharding.py:30-101 | whenever a chat moves, an undrained run from any start returns from backfill with a message neither on its new home nor bound for it |
| MigrationRuns.UndrainedMigrationLoses | scripts/resharding.py:30-137 | and such a run goes on to lose an acknowledged message |
| MigrationRuns.QuietMigrationCompletes | scripts/resharding.py:30-173 | from every start the operator can take the migration to its end within both grace periods |
| ReshardingOutcome.EachMessageIsHome | scripts/resharding.py:148-173 | after a drained run each acknowledged message is on exactly one of the new shards, its new home, and one whose send raised is there or on none of them |
| ReshardingOutcome.RowsAreConserved | scripts/resharding.py:148-173 | after a drained run the new shards hold one row per message on its new home: all acknowledged ones and besides only some whose send raised, so one per message sent if none raised; the whole cluster holds no more exactly when, just before cleanup, no row lay beyond the new shards, and always when it grows |
| ReshardingOutcome.ShrinkingLeavesRows | scripts/resharding.py:158-173 | a row beyond the new shards at the start is there at the end of every drained run, and the cluster has more rows than messages |
| MigrationRuns.ShrinkingHappens | scripts/resharding.py:158-173 | from every start with such a row a completed migration exists that ends with more rows than messages |
| QuietMigration.BackfillFinishes | scripts/resharding.py:58-100 | from any point of an undisturbed backfill its own steps reach the end, by the measure shards left, rows above the cursor, rows of the page |
| QuietMigration.ProtocolMatchesMethod | scripts/resharding.py:44-101 | the undisturbed backfill of the transition system ends with the tables the backfill method computes and changes nothing else |
| CommandRuns.SendIsRun | app/dialogs/pg_repository.py:20-39 | from every sound state a send that runs alone succeeds, is acknowledged, and leaves the tables the send method leaves |
| CommandRuns.CleanupIsRun | scripts/resharding.py:148-173 | a cleanup that runs alone ends with the tables the cleanup method leaves and changes nothing else |
| QuietMigration.VerifyCommandDecides | scripts/resharding.py:104-129 | with no send under way that was routed without the new home, if the verify command passes, the switch loses nothing; with none under way and none raised, only then |
| QuietMigration.DialogsStayApart | app/dialogs/pg_repository.py:41-70 | in every reachable state both users read the same listing and it holds only messages between the two |
| FeedOrder.TopIsPrefix | app/feed_cache.py:202-203 | keeping the newest n by rank is keeping the first n of the order, and there are n of them if there can be |
| FeedOrder.PrefixAgrees | app/feed_cache.py:390-392 | an index that holds the newest n of a set agrees with the set on the first n positions |
| FeedOrder.AddThenTrim | app/feed_cache.py:199-204 | adding entries and trimming to the cap keeps the newest n of the larger set, for every n up to the cap |
| FeedOrder.RemoveMany | app/feed_cache.py:304-311 | removing entries costs as many guaranteed positions as the index lost |
| FeedOrder.TopOfUnion | app/feed_cache.py:432-434 | the newest n of a union are the newest n of the two parts' newest n |
| FeedWorld.CreateKeepsGood | app/routes/posts.py:29-76 | creating a post keeps every feed good at its grade |
| FeedWorld.UpdateKeepsGood | app/routes/posts.py:80-109 | updating a text keeps every feed good and its bodies current |
| FeedWorld.DeleteKeepsGood | app/routes/posts.py:113-156 | deleting a post lowers a feed's grade by exactly what the feed lost |
| FeedWorld.BefriendKeepsGood | app/routes/friends.py:19-52 | a new friend's posts enter the feed without loss of grade |
| FeedWorld.UnfriendKeepsGood | app/routes/friends.py:56-73 | a former friend's posts leave the feed, lowering the grade by exactly their number in it |
| FeedWorld.RebuildIsGood | app/feed_cache.py:314-370 | a rebuild restores the full grade from any state |
| FeedWorld.ReadLeavesFeeds | app/feed_cache.py:373-417 | a read of a feed with all bodies stored drops nothing |
| FeedWorld.FanOutAgainKeepsGood | app/workers/feed_worker.py:59-61 | handling the created event of a live post again, whatever happened since, keeps every feed good at its grade |
| FeedWorld.FanRemoveAgainKeepsGood | app/workers/feed_worker.py:62-63 | handling the deleted event of a post that is gone again, whatever happened since, changes no good feed |
| FeedWorld.FeedsStayGood | app/feed_cache.py:184-370 | in every run, with events handled again at any time, each feed is within the cap, holds only live posts of current friends with current bodies, and the newest cap - d of them, d being the entries lost since the last rebuild |
| FeedWorld.ReadIsExact | app/feed_cache.py:373-417 | a read within the newest cap - d returns exactly the database's page: ids, texts, authors, order |
| FeedReads.DatabasePageByRank | app/feed_cache.py:314-370 | the database's page, item by item: at position i the friends' post with exactly offset + i friends' posts before it, with its present text and author, and no such post within the limit is left out |
| FeedReads.ReadShowsByRank | app/feed_cache.py:373-417 | the same of every read within the guaranteed depth |
| FeedReads.ReadShowsFriendsPosts | app/feed_cache.py:373-417 | at any depth a read of a good feed shows friends' posts only, with present text and author |
| FeedReads.NewPostIsReadFirst | app/routes/posts.py:29-76 | a new post newer than all the friends' others is the first item of every follower's next read, with the text and author it was posted with |
| FeedReads.EditIsRead | app/routes/posts.py:80-109 | after the author's edit every read that shows the post shows the new text, and the others their own |
| FeedReads.DeletionIsRead | app/routes/posts.py:113-156 | after the author's deletion no read shows the post |
| FeedReads.UnfriendingIsRead | app/routes/friends.py:56-73 | after a friend is removed no read shows a post by that user |
| FeedReads.BefriendingIsRead | app/routes/friends.py:19-52 | after a friend is added the friend's posts stand at their ranks among all friends' posts |
| FeedWorld.DeletionLeavesAGap | app/feed_cache.py:229-243 | after a deletion a full-grade feed has the newest cap exactly unless the entry was in the feed and the friends have more posts than the cap |
| FeedWorld.GapHappens | app/routes/posts.py:113-156 | for every positive cap a run from nothing reaches such a deletion |
| FeedCache.Feeds.FanOutPost | app/feed_cache.py:184-204 | the loop over followers adds and trims in each follower's feed and in no other |
| FeedCache.Feeds.RemovePostFromAllFeeds | app/feed_cache.py:229-243 | the loop removes the id from each follower's feed and from no other |
| FeedCache.Feeds.AddFriendPostsToFeed | app/feed_cache.py:246-280 | the friend's newest posts are added with their bodies and the feed trimmed once |
| FeedCache.Feeds.RemoveFriendPostsFromFeed | app/feed_cache.py:283-311 | exactly the entries whose stored body names the friend are removed |
| FeedCache.Feeds.RebuildFeedForUser | app/feed_cache.py:314-370 | for every set of commands that report an error: it fails exactly if one of the pipeline or the RENAME does, success is the whole rebuild, a failure leaves the feeds as they were, the temporary key never survives, and the commands sent, those behind a failed one included, form a run of the rebuild's command relation |
| FeedRebuild.FeedIsNeverPartial | app/feed_cache.py:343-370 | in every run of the commands, any of them failing and the pipeline's later ones still taking effect, the feed between any two is the old one before the RENAME and the complete newest cap from then on; the temporary key is gone at the end |
| FeedRebuild.ReaderGetsWholePosts | app/feed_cache.py:390-415 | a reader that takes its page between two commands and the bodies between later ones gets one current post per id and finds nothing to drop |
| FeedCache.Feeds.ReadFeed | app/feed_cache.py:373-417 | rebuild on a miss, entries without a body removed, and within the guaranteed depth the item at position i is the post with exactly offset + i newer friends' posts |
| FeedCache.Feeds.CreatePost | app/routes/posts.py:29-76 | row and stored body become exactly the given author, text and time, no other row or body changes, and the post is fanned out |
| FeedCache.Feeds.UpdatePost | app/routes/posts.py:80-109 | refused unless the user owns the post; then row and body get the new text and keep author and time, and nothing else changes |
| FeedCache.Feeds.DeletePost | app/routes/posts.py:113-156 | refused unless the user owns the post; then row, body and feed entries go, and nothing else |
| FeedCache.Feeds.SetFriend | app/routes/friends.py:19-52 | oneself and unknown users are refused; otherwise friendship and feed change together |
| FeedCache.Feeds.DeleteFriend | app/routes/friends.py:56-73 | friendship and feed entries go together |
| FeedMerge.Celebrities.IsCelebrity | app/services/celebrity.py:37-50 | the cached flag, or the follower count against the threshold, which is then cached |
| FeedMerge.Celebrities.GetCelebrityFriends | app/feed_cache.py:91-148 | without repetition exactly the friends for whom is_celebrity answers true; afterwards every friend has a flag equal to that answer |
| FeedMerge.Dedup | app/feed_cache.py:448-454 | the loop keeps the first item of each id, in order |
| FeedMerge.DedupKeepsFirsts | app/feed_cache.py:448-454 | exactly the first item of each id is kept, each id once |
| FeedMerge.ByTimeIsStable | app/feed_cache.py:455-455 | whatever the times, the sort puts later items first and keeps the order of items of equal time |
| FeedMerge.ByTimeIsSorted | app/feed_cache.py:455-455 | with distinct times the stable sort is the newest-first order of the same items |
| FeedMerge.ReadFeedMerged | app/feed_cache.py:420-460 | rebuild on a miss, push part without the entries that have no body, celebrity friends, pull part and merge give the merged page; the feed and the flags end as read_feed and get_celebrity_friends leave them |
| FeedMerge.MergeIsExact | app/feed_cache.py:445-460 | merging the newest n of both parts gives the window of all posts of both, no post twice |
| FeedMerge.MergedReadShows | app/feed_cache.py:420-460 | whatever the bodies say and whether or not the posts still exist: if the feed holds the newest n of what it indexes, the merged read is the window of those of them with bodies and of the celebrities' posts, no post twice, the former with their stored texts |
| FeedMerge.MergedReadIsExact | app/feed_cache.py:420-460 | if the feed holds the newest n of the pushed posts with bodies, the merged read is exactly the window of pushed and celebrity posts together, also when a celebrity was pushed earlier |
| FeedMerge.MergedReadIsComplete | app/feed_cache.py:420-460 | if every friend's post was pushed or is by a flagged friend, the merged read is the database's page |
| FeedMerge.MergedReadIsWhole | app/feed_cache.py:420-460 | the merged read of the first n is the database's page exactly when the newest n friends' posts were pushed or are by friends flagged at the read |
| FeedMerge.SkippedPostIsUnseen | app/feed_cache.py:428-430 | in particular a post neither pushed nor by a flagged friend is on no page |
| FeedMerge.HandleCreated | app/workers/feed_worker_rmq.py:61-102 | the body is stored, the post is pushed exactly for non-celebrities, then each follower is notified once with the first 200 characters of the text, and the answer is cached for readers |
| HybridFeed.RunKeepsBooks | app/workers/feed_worker_rmq.py:61-110 | in every run of the hybrid feed, with events handled late, repeatedly, in any order, after edits and deletions, and flags expiring, each feed holds the newest cap - d of the posts put into it and not taken out, and a stored body differs from the database exactly for the posts booked as wrong |
| HybridFeed.WrongBodiesAreTheWrong | app/workers/feed_worker_rmq.py:68-69 | from nothing, a stored body differs from the database, by an old text or by outliving its post, exactly if the last write to it came from a created event whose text the post did not have |
| HybridFeed.HandlingKeepsBody | app/workers/feed_worker_rmq.py:68-69 | one handling keeps the body of a live post current exactly if the event carries no text or the text the post still has |
| HybridFeed.HandlingIsTheHandlers | app/workers/feed_worker_rmq.py:61-102 | handling a created event in a run does to stores and flags what the worker's handler does |
| HybridReads.ReadIsTheMethods | app/feed_cache.py:420-460 | a merged read in a run answers and leaves what the merged read method does |
| HybridReads.MergedReadInRun | app/feed_cache.py:420-460 | in every state of such a run a merged read within cap - d is exactly the window, newest first and none twice, of the posts the feed indexes that have bodies, with their stored texts, and of the flagged friends' posts, as the database has them |
| HybridReads.ReadIsTrueExactly | app/feed_cache.py:420-460 | there the texts shown are the current ones of existing posts exactly if no post shown from the feed is booked as wrong |
| HybridReads.ReadIsDatabasesExactly | app/feed_cache.py:420-460 | and the page is the database's exactly if moreover the posts shown are the newest of the friends' |
| HybridReads.DeadIsShownExactly | app/workers/feed_worker_rmq.py:61-108 | a deleted post is shown exactly if its entry is in the window, and known to the read exactly if it is among the newest the feed indexes and a created event has brought its body back |
| HybridReads.HybridReadIsDatabases | app/feed_cache.py:420-460 | in every orderly run (no flag expires, created events find their text unchanged, deleted events are handled at once) whose friends' posts have been handled, a merged read within cap - d is the database's page |
| HybridGap.SkippedPostHappens | app/services/celebrity.py:37-50 | for every positive cap a run in which a flag expires ends with a handled post missing from the merged read |
| HybridGap.OldTextHappens | app/workers/feed_worker_rmq.py:68-69 | for every positive cap a run from nothing ends with a merged read that shows the text a post had before its last edit |
| HybridGap.DeadPostHappens | app/workers/feed_worker_rmq.py:61-108 | for every positive cap a run from nothing ends with a merged read that shows a deleted post |
| FeedWorker.Consumer.DrainEntries | app/workers/feed_worker.py:68-86 | an entry stays pending exactly if it was pending and either was not in the batch, or its handler raised, or its acknowledgement did not take effect |
| FeedWorker.Consumer.RecoverPending | app/workers/feed_worker.py:89-129 | if the first k reads succeed, exactly the entries these return are visited, once each in increasing id order; an entry stays pending exactly if it was not visited, its handler raised, or its acknowledgement did not take effect; a read error is met exactly when k is less than the reads needed |
| FeedWorker.EnoughReads | app/workers/feed_worker.py:102-129 | with the reads needed every pending entry is visited, and one read per entry and one more are always enough |
| FeedWorker.AtLeastOnce | app/workers/feed_worker.py:68-172 | at every point of every run with failures and crashes each published event is unread, pending, or was acknowledged after its handler returned |
| WorkerLoops.DrainLosesNothing | app/workers/feed_worker.py:68-86 | however a run came to a batch, what the drain loop leaves pending is what a continuation of the run leaves pending, and every published event is unread, in that list, or was acknowledged after its handler returned |
| WorkerLoops.RecoveryLosesNothing | app/workers/feed_worker.py:89-129 | the same of the recovery loop of a restarted worker, wherever its reads fail |
| FeedWorker.TailBeforeNews | app/workers/feed_worker.py:147-170 | a restarted worker takes up everything pending before it reads new entries, unless reading its tail failed |
| FeedWorker.FanOutTwice | app/workers/feed_worker.py:59-61 | handling a created event twice in a row leaves in any state the feeds that handling it once leaves |
| FeedWorker.FanRemoveTwice | app/workers/feed_worker.py:62-63 | so does handling a deleted event twice in a row |
| FeedWorker.RetryAfterDelete | app/feed_cache.py:403-415 | a created event retried after the deletion is shown by no read, and a read that covers it removes it |
| ConnectionManager.Manager.Connect | app/ws/connection_manager.py:40-46 | the socket is added, and it is first exactly when the user had none |
| ConnectionManager.Manager.Disconnect | app/ws/connection_manager.py:53-62 | the socket is removed, it is last exactly when the user's entry goes, and removing an absent socket changes nothing |
| ConnectionManager.Manager.Push | app/ws/connection_manager.py:69-89 | a socket stays registered exactly if it was and works, the number returned is that of the sockets less that of the broken ones, and the lock sections passed are one snapshot and one disconnect of each broken socket |
| ConnectionManager.DecisionsAlternate | app/ws/connection_manager.py:40-89 | under every interleaving of lock sections a user's first and last decisions strictly alternate from first, differ in number by one exactly while a socket is registered, and no empty set remains |
| ConnectionManager.RegisteredByLast | app/ws/connection_manager.py:40-62 | under every interleaving a socket is registered exactly if the latest section about it connected it |
| ConnectionManager.PushInterleaved | app/ws/connection_manager.py:69-89 | a push whose sections are interleaved with others in any way leaves its broken sockets unregistered unless connected again, and the working ones registered unless others disconnect them; it disconnects no working one itself |
| ConnectionManager.DisconnectTwice | app/ws/connection_manager.py:53-62 | disconnecting a removed socket again changes nothing and decides nothing |

## Left out

- HTTP routing, request models, authentication, user registration and search.
- Connection pools, DSN parsing, replicas, and the Redis, RabbitMQ and Tarantool clients; the Tarantool backend, whose stored procedures are not part of this model.
- SHA-256 itself, and how evenly it spreads chats over shards.
- Expiry and eviction of feeds and bodies, and replication lag: they break the exact feed claims. A fan-out onto an evicted feed key would leave a partial feed that is never rebuilt.
- Requests interleaved with each other on one feed: a fan-out between the SELECT and the RENAME of a rebuild is overwritten.
- The delay between a request and its event is modelled for the RabbitMQ transport of the hybrid feed, not for the Redis Streams transport, whose events are repeated but not delayed past an edit or a deletion in `FeedWorld`.
- Two events of one post handled by two RabbitMQ consumers with their Redis commands interleaved, and a handler that stops midway: in `HybridFeed` an event is handled in one step, in any order and any number of times.
- ReshardingOutcome.BackfillCovers: does not compare the time of the copy, because a dual-written message has its own on each shard.
- The dispatch of the CLI: it refuses a non-positive `--new-n`, which is a precondition of the migration methods here.
- DialogsCluster.Cluster.Backfill: models the loops with no other traffic; interleaving with live sends is in the transition system, and `QuietMigration.ProtocolMatchesMethod` connects the two.
- FeedMerge.ReadFeedMerged: runs alone, so a body that vanishes between the reading of bodies and the reading of times is not modelled.
- FeedWorker.FanOutTwice: repeats at once only, in any state; later repeats are in `FeedWorld.FanOutAgainKeepsGood`.
- FeedWorker.FanRemoveTwice: likewise; later repeats are in `FeedWorld.FanRemoveAgainKeepsGood`.
- ConnectionManager.Manager.Push: models a push with no section of another task in between; interleavings are covered by `ConnectionManager.PushInterleaved` and `ConnectionManager.DecisionsAlternate`.
- The callbacks of the registry run after the lock is released, so nothing is claimed about the order in which broker bindings change.
- WebSocket heartbeats, timeouts and broker reconnects; seeding, chart, load and failover scripts.
