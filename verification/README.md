# Kulturní přehled: a verified model

Dafny models of the stateful parts of the Kulturní přehled repository, with proofs of what
they promise. Every file is one component:

| files | component |
|---|---|
| `Wrappers`, `Texts`, `StableSort` | the option type and fresh identifiers, text up to blanks and letter case, stable sorting |
| `ChangeLog`, `Replica`, `Convergence` | versioned rows, the append-only change log, paged pulls and the replica a phone folds out of them |
| `Notifications`, `NotificationStory`, `NotificationTiming`, `TimingServes` | coalescing event notifications, what each of them says, the timing argument between writers and phones, and that its machine does what the server does |
| `Watchlist` | the one-level forest with fractional ranks |
| `Requests`, `Server`, `Session` | the outbox and the REST handlers: their specification, the invariants of every run and the exactly-once contract, and the same writes as methods over one mutable session |
| `Acceptance`, `Writes`, `Answers`, `Replays` | when a request is accepted and how it is refused, what it leaves in its row, what its answer means, and what a repeated operation is answered |
| `RefreshTokens`, `TokenLifetimes` | refresh token rotation with reuse detection (section 5.2.2.3 of RFC 6819) |
| `HostLimits`, `Fetcher`, `Freshness` | the polite page cache: budget, gap and cooldown of a host; a store that agrees with the last definitive answer; when a page is asked for |
| `Pool`, `PoolPayload`, `PoolIngest`, `PoolStore` | the season pool's ingest under two identities: the payload, each turn of the loop, and the same in place |
| `PoolMarks`, `PoolScenarios`, `PoolHolds`, `PoolAccounts`, `PoolSettled`, `PoolRepush`, `PoolVeto`, `PoolWitnesses` | what a push keeps, when it holds every item it was sent, what it did to each row, when pushing again changes nothing, what the veto keeps out and the counters count, and the concrete pushes that fail |
| `PlannerRules`, `PlannerFit`, `PlannerCalendar` | the season planner's rules, the "does it fit" simulation and what its verdict means, on the calendar |
| `PlayQueue` | cutting a running order into loads the player accepts |
| `SeatWatch` | neighbouring free seats in a hall plan |

Each operation is a function on values that says what it does, lemmas about that function, and,
where the program changes things in place, a class or a method with loops proved equal to it
(`TokenStore`, `Session.Tables`, `PoliteFetcher`, `PoolStore.Ingest`, `Report`, `Segment`).
Runs are sequences of requests, turns or moves; "over every run" means over every such sequence.

`dafny verify dfyconfig.toml` verifies the project.

Where the code and its own documentation disagree the model follows the code:

- The pool's contract says that `version` is bumped only when the content hash changed
  (`apps/api/src/kp_api/api/v1/season.py:11-15`); a merge bumps the survivor's version too, and
  rekeying changes `dedup_key` without a bump (`VersionGrowsExactly`, `MergeBumpsVersionAlone`).
- The fetcher's description lets a longer Retry-After win
  (`skills/lib/kp_fetch.py:24-28`); the code caps it at seven days (`RetryAfterIsHonouredExactly`).
- The pool upsert is documented as idempotent, so that an identical re-push bumps nothing
  (`docs/api.md:99-100`). Where every split of the veto's terms is caught that is so exactly for
  the steady pushes (`SecondPushOnlySees`), and it is so for all of them exactly where the splits
  are caught (`RepushIsSafeExactly`); both can be read off the stored rows, the payload and the
  veto before the push. The skill that fills the pool asks for pushes that need not be steady:
  it reuses a stored row's key for another page (`skills/kulturni-sezona/SKILL.md:98-105`,
  `ReusedKeyUndoesThePush`).
- `find_adjacent` is described as finding the first run of free seats; a row with one single
  free seat never answers a request for one seat.

## Model

| member | source | states |
|---|---|---|
| ChangeLog.WriteKeepsLog | apps/api/src/kp_api/sync/changelog.py:73-94 | one more `change_log` row for the next version of a row keeps the whole log honest: per entity versions 1..n without a gap, the last payload is the row, a DELETE entry is last and stands exactly for a soft-deleted row |
| ChangeLog.ChronicleGrows | apps/api/src/kp_api/sync/changelog.py:203-222 | an entity's history may grow by the first version of a new row or the next version of a live one, and by nothing else |
| Replica.ProbeTells | apps/api/src/kp_api/sync/service.py:79-93 | reading one row more than asked for makes `has_more` say exactly whether entries remain beyond the page |
| Replica.BeyondIsExact | apps/api/src/kp_api/sync/service.py:79-89 | the read beyond a cursor is all of the workspace's entries with a later number and no others |
| TimingServes.DrainedPageIsRead | apps/api/src/kp_api/sync/service.py:70-111 | a page carries the clock that was read before its rows, and one without more is the page the phones of the timing argument read |
| Replica.BeyondIsTail | apps/api/src/kp_api/sync/service.py:79-89 | what a pull reads beyond a cursor is the tail of the workspace's entries in sequence order |
| Replica.PullAdvances | apps/api/src/kp_api/sync/service.py:91-111 | one pull hands over exactly the next `limit` entries (or all that remain), moves the cursor to the last of them, and `has_more` holds exactly when some remain |
| Replica.EveryRunStaysInStep | apps/api/src/kp_api/sync/service.py:70-111 | after any number of pulls with any limits of at least 1, while the log grows between them, a phone has received its workspace's entries up to its cursor, each once and in order |
| Replica.PullTerminates | apps/api/src/kp_api/sync/service.py:91-111 | the number of entries beyond the cursor falls by the full limit with every page that has more, and the first page without more leaves none |
| Replica.Drain | apps/api/src/kp_api/sync/service.py:70-111 | pulling until `has_more` is false terminates and leaves the phone with every entry of its workspace |
| Replica.DrainedFoldMirrors | apps/api/src/kp_api/sync/changelog.py:41-94 | folding the last payload per entity over a workspace's entries yields exactly the server's rows of that workspace, tombstones included |
| Replica.ReplicaConverges | apps/api/src/kp_api/sync/service.py:70-111 | a replica that pulled from 0 by any pages against a growing log and then saw `has_more` false holds exactly the server's rows |
| Convergence.PhoneConverges | apps/api/src/kp_api/sync/service.py:70-111 | end to end over every interleaving of outbox operations, REST writes and pulls: the first page without `has_more` makes the phone equal to the server |
| Watchlist.PlacedAsIntended | apps/api/src/kp_api/sync/service.py:387-477 | whatever fractional rank is computed puts the item next to its anchor among its siblings, at the end without one, and back where it was when it is its own anchor |
| Watchlist.WriteArranges | apps/api/src/kp_api/sync/service.py:387-477 | writing a live row at the computed rank turns the scope's position order into the intended one and keeps all sibling ranks distinct |
| Watchlist.CreateRefinesOrder | apps/api/src/kp_api/api/v1/watchlist.py:235-267 | creating an item shows it where it was asked for and reorders no other scope |
| Watchlist.MoveRefinesOrder | apps/api/src/kp_api/sync/service.py:643-693 | moving an item, from the outbox or from REST (whose end-of-scope lookups differ), rearranges its new scope as asked, closes up the old one and changes no other |
| Watchlist.CreateKeepsForest | apps/api/src/kp_api/sync/service.py:358-380 | a created item keeps the watchlist a forest one level deep over live rows |
| Watchlist.MoveKeepsForest | apps/api/src/kp_api/api/v1/watchlist.py:344-369 | an accepted move keeps the forest: never under itself, under a child, under a dead row, or with children of its own |
| Acceptance.CreateIsPlannedExactly | apps/api/src/kp_api/sync/service.py:358-441 | a new item has a place exactly when its parent, if any, is a live root of the workspace, at most one anchor is given, and the anchor, if any, is a live row of the workspace in that scope; otherwise the first of these that fails is the refusal |
| Acceptance.MoveIsPlannedExactly | apps/api/src/kp_api/sync/service.py:634-679 | the same for a move, which is refused under itself, and under any parent for an item with live children; among the roots an item with children moves freely |
| Acceptance.ItemCreateIsAccepted | apps/api/src/kp_api/sync/service.py:480-541 | the outbox answers a creation "applied", "not_found" or "invalid" exactly so, and names the refusal |
| Acceptance.ItemMoveIsAccepted | apps/api/src/kp_api/sync/service.py:606-693 | the outbox applies a move exactly when the item is live, in the version the client knew, and may go there; "not_found" is a missing item, parent or anchor, "conflict" another version, "invalid" the rest, with the refusal named |
| Acceptance.RestItemIsAnswered | apps/api/src/kp_api/api/v1/watchlist.py:235-425 | the REST handlers do the same requests and answer 404, 409 or 400 for the others, which write nothing |
| Watchlist.DeleteTakesTheTree | apps/api/src/kp_api/sync/service.py:725-752 | deleting a live item soft-deletes exactly it and its live children |
| Watchlist.TreeGoneKeepsShape | apps/api/src/kp_api/api/v1/watchlist.py:404-425 | after the cascade the live rows are still a forest with distinct sibling ranks |
| Watchlist.DeleteRefinesOrder | apps/api/src/kp_api/api/v1/watchlist.py:391-425 | deleting leaves the other siblings in their order, nothing under the item, and every other scope as it was |
| Watchlist.DeleteKeepsLog | apps/api/src/kp_api/sync/service.py:725-752 | the cascade logs every child and the item as the next version of each |
| Watchlist.LowestRank | apps/api/src/kp_api/api/v1/watchlist.py:113-145 | the neighbour query finds a least rank among the rows, or none |
| Watchlist.HighestRank | apps/api/src/kp_api/api/v1/watchlist.py:81-94 | the end-of-scope query finds a greatest rank among the rows, or none |
| Notifications.Pending | apps/api/src/kp_api/notifications.py:117-127 | the query picks the live notification of the event due last among those due more than MERGE_MARGIN from now, and one exactly when there is one |
| Notifications.AnnounceKeepsLog | apps/api/src/kp_api/notifications.py:95-150 | announcing, whether it merges or adds, logs the next version of the right notification |
| Notifications.AnnounceKeepsSpacing | apps/api/src/kp_api/notifications.py:110-150 | whatever is announced, two notifications of one event that wait out the window stay due at least 105 seconds apart |
| Notifications.AtMostOneMergeable | apps/api/src/kp_api/notifications.py:117-127 | at any moment at most one notification of an event can be merged into, so the order of the query does not matter |
| Notifications.NothingComesAfterDeletion | apps/api/src/kp_api/notifications.py:153-172 | once an event is deleted no live notification of it has a deadline still to come |
| Notifications.WithdrawTakesThePending | apps/api/src/kp_api/notifications.py:153-172 | withdrawing soft-deletes exactly the event's live notifications still to come and logs each |
| Notifications.WithdrawKeepsSpacing | apps/api/src/kp_api/notifications.py:165-172 | the withdrawal loop restores the spacing invariant the deleted event had broken |
| NotificationStory.ChangesAreDiffering | apps/api/src/kp_api/notifications.py:67-85 | an edit announces the venue exactly when the address reads differently, the programme exactly when the notes do, blanks around them aside |
| NotificationStory.AnnouncementIsHeard | apps/api/src/kp_api/notifications.py:110-150 | an announcement goes into the event's live notification that has more than 15 seconds left, if there is one, and otherwise opens a new one, due in two minutes, or at once when a member asked |
| NotificationStory.StepNotifies | apps/api/src/kp_api/api/v1/events.py:100-220 | each request announces what happened to its event: a new one, what differs about an edited one, a member's message; and nothing else is ever announced |
| NotificationStory.EveryNotificationTells | apps/api/src/kp_api/notifications.py:127-150 | over every run, every version of every notification says what had been announced into it by then: the union of the changes, the strongest kind, the last message that is not blank; nothing follows a withdrawal |
| NotificationTiming.CommitSparesDue | apps/api/src/kp_api/notifications.py:117-135 | a writer that commits within MERGE_MARGIN of the clock it read under the event lock supersedes no version that is already due |
| NotificationTiming.PageSettles | apps/api/src/kp_api/sync/service.py:76-93 | because the server clock is read before the rows, what a drained page makes due is final |
| NotificationTiming.StepKeepsSound | apps/api/src/kp_api/notifications.py:95-172 | every step of the machine (lock, announce, withdraw, commit, abort, pull in two halves, show) keeps that invariant |
| NotificationTiming.ShownVersionsAreFinal | apps/api/src/kp_api/notifications.py:14-20 | in every interleaving, a version any phone has shown is at every later moment the newest version or withdrawn |
| NotificationTiming.CommitSparesDueExactly | apps/api/src/kp_api/notifications.py:117-135 | a commit keeps every version already due the newest or withdrawn exactly when each live notification it merges into is still to come |
| NotificationTiming.InTimeMergesBeforeDue | apps/api/src/kp_api/notifications.py:14-20 | a commit within MERGE_MARGIN of the first clock reading is one of those |
| NotificationTiming.LateCommitSupersedes | apps/api/src/kp_api/notifications.py:16-19 | without the margin it is false: a run of ten moves from the empty state reaches a late commit that supersedes a version a phone has shown on time |
| TimingServes.MachineAnnouncesAlike | apps/api/src/kp_api/notifications.py:95-150 | under the lock the timing argument's machine announces as the server does |
| TimingServes.MachineWithdrawsAlike | apps/api/src/kp_api/notifications.py:153-172 | and takes back what the server takes back |
| Server.CreateEventKeepsSound | apps/api/src/kp_api/api/v1/events.py:100-132 | inserting, logging and announcing an event keeps the invariant of the shared tables |
| Server.UpdateEventKeepsSound | apps/api/src/kp_api/api/v1/events.py:159-185 | patching an event and announcing only watched changes keeps it |
| Server.DeleteEventKeepsSound | apps/api/src/kp_api/api/v1/events.py:188-202 | deleting an event with its pending notifications keeps it |
| Server.CreateItemKeepsSound | apps/api/src/kp_api/sync/service.py:480-541 | creating a watchlist item keeps it |
| Server.MoveItemKeepsSound | apps/api/src/kp_api/sync/service.py:606-693 | moving a watchlist item keeps it |
| Server.EditItemKeepsSound | apps/api/src/kp_api/sync/service.py:544-603 | editing or checking a watchlist item keeps it |
| Server.DeleteItemKeepsSound | apps/api/src/kp_api/sync/service.py:696-752 | deleting a watchlist tree keeps it |
| Server.ApplyOneKeepsSound | apps/api/src/kp_api/sync/service.py:767-802 | an outbox operation, applied, failed or repeated, keeps it |
| Server.RestItemKeepsSound | apps/api/src/kp_api/api/v1/watchlist.py:235-425 | every REST request on the watchlist keeps it |
| Server.RestEventKeepsSound | apps/api/src/kp_api/api/v1/events.py:100-231 | every REST request on events keeps it |
| Server.ReachableIsSound | apps/api/src/kp_api/sync/service.py:131-752 | in every state any run of outbox operations and REST requests reaches: the log tells every row's story, the watchlist is a forest with distinct sibling ranks, notifications are spaced |
| Server.StepCaches | apps/api/src/kp_api/sync/service.py:773-801 | an operation leaves its own answer in the idempotency cache and changes no other; every request only appends to the log |
| Server.FailureChangesNothing | apps/api/src/kp_api/sync/service.py:793-801 | what the specification keeps of a failed operation: its own cached answer, which is not "applied"; that the code's rollback comes to the same is proved at `Session.Tables.ApplyOne` |
| Server.RepeatsChangeNothing | apps/api/src/kp_api/sync/service.py:767-802 | exactly once: a run with repeated operation ids ends in the same tables and log as the run that keeps only the first of each |
| Server.RepeatsGetTheFirstAnswer | apps/api/src/kp_api/sync/service.py:773-781 | every repeat of an operation id in its workspace gets the first answer verbatim, whatever happened in between |
| Replays.ForeignRepeatIsForbidden | apps/api/src/kp_api/sync/service.py:773-780 | over every run an operation id that was applied in another workspace is answered "forbidden" with its own id and nothing else, and changes nothing |
| Replays.ForbiddenExactly | apps/api/src/kp_api/sync/service.py:773-780 | no other request is ever answered "forbidden" |
| Server.BatchingIsIrrelevant | apps/api/src/kp_api/sync/service.py:805-812 | how a client cuts its outbox into batches makes no difference |
| Answers.EveryAnswerTells | apps/api/src/kp_api/sync/service.py:131-764 | an applied operation answers with the row it wrote, that row's new version (one more than the client's base version, where it sends one) and the sequence number of the entry with that version; a stale edit of a live row, and nothing else, answers "conflict", with the version the row has |
| Answers.NewAnswerTells | apps/api/src/kp_api/sync/service.py:784-801 | the same once the answer is cached; an operation that did not apply leaves tables and log as they were |
| Acceptance.EventWriteIsAccepted | apps/api/src/kp_api/sync/service.py:131-258 | the outbox creates an event exactly when the body is one and the identifier unused, and updates one exactly when it is live, in the version the client knew, and its source is not sent |
| Acceptance.ItemEditIsAccepted | apps/api/src/kp_api/sync/service.py:544-575 | it edits an item exactly when it is live, in the version the client knew |
| Acceptance.DeletionIsAccepted | apps/api/src/kp_api/sync/service.py:261-289 | deleting is accepted in any version and repeatedly, for rows of the workspace |
| Acceptance.NotificationIsAccepted | apps/api/src/kp_api/sync/service.py:292-333 | a member's message is accepted exactly for live events of the workspace |
| Acceptance.UnknownIsInvalid | apps/api/src/kp_api/sync/service.py:783-785 | an operation the server does not know is "invalid" |
| Acceptance.RestEventIsAnswered | apps/api/src/kp_api/api/v1/events.py:137-231 | a stale or misdirected REST request on an event is answered 409 or 404 and writes nothing |
| Writes.AppliedOperationReads | apps/api/src/kp_api/sync/service.py:131-693 | an applied operation leaves in its row what it said, field by field (the outbox fills nine columns of a new event, nulls clear on an update only, checking notes when and who and unchecking forgets both), and changes no other row of the table |
| Writes.DoneRequestReads | apps/api/src/kp_api/api/v1/events.py:100-202 | so does a REST request, which fills every column; checking what is checked changes nothing |
| Writes.EveryEntryIsSigned | apps/api/src/kp_api/sync/changelog.py:73-94 | every log entry a request writes names its user |
| Session.Tables.AnnounceEvent | apps/api/src/kp_api/notifications.py:95-150 | `announce` on the session's tables: refuses a deleted event, merges into the pending row or inserts one, and logs it |
| Session.Tables.WithdrawPending | apps/api/src/kp_api/notifications.py:153-172 | the loop withdraws every pending row in turn and logs each |
| Session.Tables.SetAttributes | apps/api/src/kp_api/sync/service.py:235-237 | assigning the sent attributes one by one, in any order, gives the patched row: sent nulls clear, unsent fields stay |
| Session.Tables.PatchEvent | apps/api/src/kp_api/sync/service.py:232-245 | updates, logs and announces only when a watched field changed |
| Session.Tables.RetireEvent | apps/api/src/kp_api/sync/service.py:276-281 | soft-deletes, logs and withdraws |
| Session.Tables.SetItem | apps/api/src/kp_api/sync/service.py:577-596 | sets the sent fields, and who checked it and when only on an actual change of `done` |
| Session.Tables.BuryTree | apps/api/src/kp_api/sync/service.py:725-752 | the cascade loop over live children, then the item itself |
| Session.Tables.ApplyOne | apps/api/src/kp_api/sync/service.py:784-801 | the applier runs inside a savepoint and a raised failure rolls back whatever it wrote: a new operation that applied wrote what its answer says, one that did not wrote nothing, a known one changes nothing |
| Session.Tables.ApplyOperations | apps/api/src/kp_api/sync/service.py:805-812 | a batch applies its operations in order and returns their answers in order |
| Session.Tables.Handle | apps/api/src/kp_api/sync/service.py:767-812 | any request takes the tables from one sound state to the next |
| RefreshTokens.SuccessorExtendsChain | apps/api/src/kp_api/adapters/auth.py:303-316 | a rotation links the new token behind the newest one of its family |
| RefreshTokens.ReachableFamiliesAreChains | apps/api/src/kp_api/adapters/auth.py:118-141 | in every reachable state each token family is one parent chain whose only unrotated token is the newest, revoked entirely or not at all |
| RefreshTokens.OnlyTheNewestRotates | apps/api/src/kp_api/adapters/auth.py:270-316 | a token is exchanged exactly when it is the newest of its unrevoked family, unexpired and presented with its own family and user |
| RefreshTokens.ReplayOutcome | apps/api/src/kp_api/adapters/auth.py:276-297 | replaying a rotated token changes nothing within the grace window and revokes exactly its own family after it |
| RefreshTokens.RevokedFamilyNeverGrows | apps/api/src/kp_api/adapters/auth.py:274-275 | a revoked family gains no token, loses none and never yields one again, over every later run |
| RefreshTokens.StolenCopyBurnsTheFamily | apps/api/src/kp_api/adapters/auth.py:288-297 | once reuse is detected no token of that family is ever exchanged again |
| TokenLifetimes.AcceptedForItsLifetime | apps/api/src/kp_api/adapters/auth.py:274-316 | whatever happens in between, a token presented by its user is exchanged until `ttl` after it was issued and no longer, if it was neither exchanged nor revoked |
| TokenLifetimes.GraceCountsFromTheExchange | apps/api/src/kp_api/adapters/auth.py:280-297 | the grace for a replay counts from the exchange, over every run |
| TokenLifetimes.EveryRefusalHasItsCause | apps/api/src/kp_api/adapters/auth.py:262-301 | each refusal is answered exactly for its own cause, and writes nothing unless reuse is detected |
| TokenLifetimes.ExchangeReads | apps/api/src/kp_api/adapters/auth.py:303-324 | an exchange dates the old token, adds one of its user and family behind it, and changes no other |
| TokenLifetimes.LoginReads | apps/api/src/kp_api/adapters/auth.py:118-141 | a login adds one token of the user, in a family of its own, and changes no other |
| TokenLifetimes.LogoutReads | apps/api/src/kp_api/adapters/auth.py:327-338 | a logout revokes the family's tokens and changes no other |
| RefreshTokens.TokenStore.IssueTokensForUser | apps/api/src/kp_api/adapters/auth.py:118-141 | a login adds the first token of a family of its own and keeps every family a chain |
| RefreshTokens.TokenStore.RotateRefresh | apps/api/src/kp_api/adapters/auth.py:253-324 | rotation in place: the refusals in order, the burn, or the successor; chains stay chains |
| RefreshTokens.TokenStore.RevokeFamily | apps/api/src/kp_api/adapters/auth.py:327-338 | logging out revokes the whole family and no other |
| HostLimits.WindowOnEntry | skills/lib/kp_fetch.py:307-308 | after pruning, the request list holds exactly the contacts of the last 24 hours |
| HostLimits.AskedInTime | skills/lib/kp_fetch.py:302-322 | a request that goes out starts after the cooldown, a minimum gap after the last one, and a day after the one a whole budget earlier |
| HostLimits.CooldownIsBounded | skills/lib/kp_fetch.py:277-283 | a cooldown lasts at least its strike's doubling span and at most seven days, whatever Retry-After says |
| HostLimits.RetryAfterIsHonouredExactly | skills/lib/kp_fetch.py:277-283 | a Retry-After of s seconds is honoured exactly when it is at most seven days; a longer one is cut to seven days |
| HostLimits.RetryAfterIsKept | skills/lib/kp_fetch.py:304-306 | over every run: after a refusal that asked for s seconds nobody asks the host again for that long, or for seven days if that is less |
| HostLimits.LongRetryAfterIsCutShort | skills/lib/kp_fetch.py:279-282 | a host that asks for 700000 seconds is asked again after 604800 |
| HostLimits.EveryRunIsPolite | skills/lib/kp_fetch.py:302-351 | over every run of every process: the rolling budget, the gap and the cooldowns hold although the list is pruned and the sleep follows the budget count |
| HostLimits.WindowWithinBudget | skills/lib/kp_fetch.py:308-316 | no half-open window of 24 hours, wherever it starts, holds more charged requests than the budget |
| HostLimits.NeighboursKeepTheGap | skills/lib/kp_fetch.py:317-322 | successive charged requests start at least the minimum interval apart |
| HostLimits.RefusalsSpreadOut | skills/lib/kp_fetch.py:277-283 | with no answer in between, the k-th refusal comes at least the sum of min(6 h doubled, 7 days) after the first |
| HostLimits.CooldownEnds | skills/lib/kp_fetch.py:279-282 | a host is closed for no longer than a week after its last contact |
| Fetcher.GetRefines | skills/lib/kp_fetch.py:287-369 | one call returns the body of the last definitive answer exactly when that was a 200, whether by fresh hit, 304, new page, budget, cooldown or failure; what goes out with a request are the validators last heard of a page that was a 200 |
| Fetcher.EveryAnswerIsTheLastOne | skills/lib/kp_fetch.py:287-369 | over every run of calls each answer is that of "remember the last definitive answer per URL" |
| Fetcher.PruneForgets | skills/lib/kp_fetch.py:409-419 | pruning forgets exactly what was last confirmed more than a year ago |
| Freshness.AskedForExactly | skills/lib/kp_fetch.py:255-313 | a call sends nothing exactly when the page was last confirmed less than its limit ago (28 days, 6 for a feed, 3 if watched, up to a quarter less; none under refresh) or its host may not be asked; so a page past its limit is asked for whenever the host is open and has budget |
| Freshness.PassedOverForCause | skills/lib/kp_fetch.py:302-316 | over every run a host is passed over exactly while a refusal keeps it closed or while the last 24 hours hold its budget |
| Freshness.ClosedExactly | skills/lib/kp_fetch.py:277-283 | how long a refusal closes a host: 6, 12, 24, 48, 96 hours, then a week, or what the server asks for if that is longer, up to a week |
| Freshness.EveryAnswerIsJudged | skills/lib/kp_fetch.py:328-351 | a request is charged unless the proxy refused it or curl failed on this side; an answer is a refusal exactly when there was none or it was 403, 429 or 500 and above; refusals add a strike, other answers clear them |
| Freshness.RetryAfterReads | skills/lib/kp_fetch.py:426-429 | `Retry-After` counts exactly when it is a number of seconds, blanks around it aside |
| Freshness.PolicyReads | skills/lib/kp_fetch.py:94-101 | requests go out two seconds apart and eighty a day, six and twenty-five at www.fok.cz |
| Freshness.PrunesAreADayApart | skills/lib/kp_fetch.py:394-407 | over every run two prunes, by whichever processes, are at least a day apart |
| Fetcher.MoveAgreesExactly | skills/lib/kp_fetch.py:222-253 | for overlapping processes a step keeps store and reference in agreement exactly when it does not confirm a copy whose body has left the store since it was loaded |
| Fetcher.OverlappingRunsAgree | skills/lib/kp_fetch.py:287-358 | a run of overlapping processes in which no such step happens keeps them in agreement throughout |
| Fetcher.OverlappingAnswersExactly | skills/lib/kp_fetch.py:298-369 | anywhere in such a run, what a call hands out is the last definitive answer exactly when it heard one itself or the copy it loaded is still what the store would serve |
| Fetcher.AnswerIsOfTheCall | skills/lib/kp_fetch.py:292-369 | whatever other processes do meanwhile, a call hands out what the reference said when it loaded or says when it ends, and the latter if it heard an answer |
| Fetcher.StaleCopyIsHandedOut | skills/lib/kp_fetch.py:344-351 | it can be the former: another process stores a new page, the host refuses, the old page is handed out |
| Fetcher.ConfirmedCopyCanBeLost | skills/lib/kp_fetch.py:247-253 | such a run exists: the store ends up with a new body under an old page's validators |
| Fetcher.ProcessesShareOneBudget | skills/lib/kp_fetch.py:263-275 | however many processes share the directory, what a host is charged for keeps its budget, gap and cooldowns |
| Fetcher.PoliteFetcher.Get | skills/lib/kp_fetch.py:287-358 | `get` on the shared directory: specified branch by branch, and its answer is the last definitive one |
| Fetcher.PoliteFetcher.AskHost | skills/lib/kp_fetch.py:302-358 | the part under the host lock: the state is written back on every way out |
| Fetcher.PoliteFetcher.MaybePrune | skills/lib/kp_fetch.py:394-407 | a process prunes at most once, and only a day after the last prune by anyone |
| PoolPayload.ByKeyIsLastPerKey | apps/api/src/kp_api/api/v1/season.py:446-447 | keying the payload keeps one item per key, the last |
| PoolPayload.CollapseSeparates | apps/api/src/kp_api/api/v1/season.py:205-225 | collapsing keeps one item per identity, the last, and every item without one |
| PoolPayload.PayloadIsSeparate | apps/api/src/kp_api/api/v1/season.py:437-453 | what reaches the pool was sent, is not vetoed, and no two items are the same candidate by key or by identity |
| PoolPayload.PayloadRepresents | apps/api/src/kp_api/api/v1/season.py:437-453 | every allowed item is represented by the last of its key or of its identity |
| PoolVeto.SettingIgnoresCase | apps/api/src/kp_api/config.py:174-176 | the veto refuses exactly the names in which something between two commas of the setting can be read letter by letter, in whatever case either is written |
| PoolVeto.CaseMakesNoDifference | apps/api/src/kp_api/api/v1/season.py:177-183 | candidates whose names differ only in case are refused alike |
| PoolVeto.VetoedRowsGo | apps/api/src/kp_api/api/v1/season.py:186-202 | whatever is sent, the stored rows that mention a term, and they alone, are purged, counted and stay retired |
| PoolVeto.EveryItemIsCounted | apps/api/src/kp_api/api/v1/season.py:434-453 | `vetoed` counts the items that mention a term, `total` those that reach the pool, `collapsed` the others; what reaches the pool mentions none |
| PoolVeto.GivesWayExactly | apps/api/src/kp_api/api/v1/season.py:446-453 | an allowed item gives way exactly to a later allowed one of its key, or to another of its page and day |
| PoolVeto.CrossClubIsRefused | skills/elektronika-expert/preferences.md:70-73 | an item at "Cross Club" is refused under the documented veto, whatever is stored |
| PoolIngest.TurnCases | apps/api/src/kp_api/api/v1/season.py:480-511 | for any item: a row is created exactly when the item's key and identity lead to no live row; otherwise the row under the key, or else the one of its identity seen last, takes the item up and all others of that identity are folded into it |
| PoolIngest.TurnKeepsTidy | apps/api/src/kp_api/api/v1/season.py:480-543 | for any payload, each turn leaves both indexes fit for the items to come: keys lead to live rows, the groups ahead are disjoint and none of their rows has a stale alias, although rekeying leaves aliases behind |
| PoolHolds.LoopHolds | apps/api/src/kp_api/api/v1/season.py:480-543 | turn by turn through a harmless push: what later items rely on is as it was, each item so far is held by one row, and every live row holds one item or was left alone |
| PoolIngest.PushKeepsKeys | apps/api/src/kp_api/domain/models.py:606-612 | every push keeps the live keys of the season distinct, as the unique index demands, and every stored hash that of its content |
| PoolHolds.PushHoldsExactly | apps/api/src/kp_api/api/v1/season.py:425-556 | a push leaves every payload item in the pool, under its key, seen now, with nothing new left to say, exactly when it is harmless: where a stored row has one item's key and another's page and day, the item of the key does not come first and the other does not adopt the row |
| PoolHolds.HarmfulPushLoses | apps/api/src/kp_api/api/v1/season.py:487-511 | otherwise some payload item's key is the key of no live row afterwards |
| PoolWitnesses.ReusedKeyUndoesThePush | skills/kulturni-sezona/SKILL.md:98-105 | one row and two items, one with its key and one with its page: the first push writes both to the row, loses the one key and leaves the row at its old content two versions on, and the same push again creates a row |
| PoolAccounts.PushExplainsEveryRow | apps/api/src/kp_api/api/v1/season.py:480-543 | every live row was left alone, or took up exactly one payload item, or was created from one, and every item has such a row, exactly when the push is harmless |
| PoolAccounts.ItemsAreHeldWhole | apps/api/src/kp_api/api/v1/season.py:515-541 | each payload item is held by exactly one live row, with the content that row had before with the item merged in, or for a new row the item's own, exactly when the push is harmless |
| PoolAccounts.VersionTells | apps/api/src/kp_api/api/v1/season.py:228-264 | for any payload and any pool: a surviving row's version never falls, and while it stays the row is the same but for its key and `last_seen_at` |
| PoolAccounts.VersionGrowsExactly | apps/api/src/kp_api/api/v1/season.py:504-541 | in a harmless push a surviving row's version grows by one for each row folded into it and by one if its content hash changed, so exactly when either happened; a new key alone does not count (`ReusedKeyUndoesThePush` is a push where it grows by two and neither happened) |
| PoolWitnesses.MergeBumpsVersionAlone | apps/api/src/kp_api/api/v1/season.py:248-248 | a push of two rows and one item after which the survivor has its old hash and a new version |
| PoolAccounts.FieldsStay | apps/api/src/kp_api/api/v1/season.py:296-310 | for any payload and any pool: a surviving row loses a field only if it is no enrichment and a payload item sent null for it, and changes one only to what an item sent |
| PoolAccounts.FieldsStayByKey | apps/api/src/kp_api/api/v1/season.py:515-541 | in a harmless push that is the item of the row's own key |
| PoolAccounts.FoldedEnrichmentIsLostExactly | apps/api/src/kp_api/api/v1/season.py:228-264 | in a harmless push an enrichment of a folded row is gone exactly when the survivor had none and the item that joined them brings none |
| PoolMarks.AbsorbGathers | apps/api/src/kp_api/api/v1/season.py:228-264 | a merge leaves on the survivor the marks of both: decided if either was, a note if either had one, the earlier first sighting, its own marks first |
| PoolMarks.PushLosesNoMark | apps/api/src/kp_api/api/v1/season.py:228-264 | over any push every live, unvetoed row has a live home whose marks are those of all the rows that ended there |
| PoolScenarios.MergeCarries | apps/api/src/kp_api/api/v1/season.py:250-261 | one merge turns a scenario into its image with the loser replaced, first occurrences only |
| PoolScenarios.PushCarriesScenarios | apps/api/src/kp_api/api/v1/season.py:487-511 | over any push each scenario becomes its image under where its members ended up, in first-occurrence order and in a new version; one without merged members is untouched |
| PoolScenarios.PushConserves | apps/api/src/kp_api/api/v1/season.py:478-556 | over any push the reported counters balance with the number of live rows, and every payload item is created, updated or unchanged |
| PoolRepush.MixtureIsAllowed | apps/api/src/kp_api/api/v1/season.py:177-179 | when every split of every term at a space is itself caught, the venue of one allowed candidate beside the source of another is allowed |
| PoolRepush.MergedIsAllowed | apps/api/src/kp_api/api/v1/season.py:177-183 | so under such terms a merge of allowed content stays allowed |
| PoolRepush.NoMentionSurvives | apps/api/src/kp_api/api/v1/season.py:186-202 | and no live row mentions a term after any push |
| PoolSettled.PushOnlySeesExactly | apps/api/src/kp_api/api/v1/season.py:473-556 | where the veto has nothing to purge, a push creates, updates, rekeys and merges nothing and changes nothing but `last_seen_at` exactly when each payload item is settled: its key's row has nothing new to learn and no other live row has its key or its identity |
| PoolSettled.PushSettlesExactly | apps/api/src/kp_api/api/v1/season.py:425-556 | a push settles its own payload exactly when it is steady: harmless, and no item without a URL moves a row onto the page and day of another item |
| PoolSettled.CoherentIsSteady | skills/kulturni-sezona/SKILL.md:79-84 | where the recipe is followed, so that a stored or sent key determines page and day, every push is steady |
| PoolSettled.LoneItemIsSteady | apps/api/src/kp_api/api/v1/season.py:480-543 | a payload of at most one item is steady, whatever page its key had before |
| PoolWitnesses.DriftUndoesThePush | apps/api/src/kp_api/api/v1/season.py:296-310 | a harmless push that is not steady: an item without a URL moves a row to another day, where its page is another item's, and the second push folds it away |
| PoolRepush.SecondPushOnlySees | apps/api/src/kp_api/api/v1/season.py:425-556 | under such terms (among them all lists of single words) pushing the same payload again creates, updates, rekeys, merges and purges nothing and changes nothing but `last_seen_at` exactly when the first push is steady |
| PoolRepush.SecondPushExactly | apps/api/src/kp_api/api/v1/season.py:473-556 | for any terms and any one push: the second push changes nothing else exactly when the first left no vetoed row and settled its payload |
| PoolRepush.UncaughtSplitUndoesThePush | apps/api/src/kp_api/api/v1/season.py:177-202 | any split that is not caught shows in two pushes of one item, which is steady: the second purges a row and creates one |
| PoolRepush.RepushIsSafeExactly | apps/api/src/kp_api/api/v1/season.py:425-556 | repeating any steady push changes nothing else exactly when the splits of the terms are caught |
| PoolRepush.CrossClubComesBack | skills/elektronika-expert/preferences.md:70-73 | under the vetoes the project documents they are not: a row sourced from "club" and an item at "cross" undo the push |
| PoolStore.RewriteMembers | apps/api/src/kp_api/api/v1/season.py:255-259 | the member loop computes the rewritten list |
| PoolStore.CollapseByIdentity | apps/api/src/kp_api/api/v1/season.py:205-225 | the two passes compute the collapsed payload |
| PoolStore.Ingest.PurgeVetoed | apps/api/src/kp_api/api/v1/season.py:186-202 | retires exactly the live rows at vetoed venues and counts them |
| PoolStore.Ingest.MergeCandidate | apps/api/src/kp_api/api/v1/season.py:228-264 | moves the marks, rewrites every scenario and retires the loser |
| PoolStore.Ingest.MergeTwins | apps/api/src/kp_api/api/v1/season.py:506-511 | the inner loop folds all losers into the winner and drops their keys from the index |
| PoolStore.Ingest.IngestItem | apps/api/src/kp_api/api/v1/season.py:480-543 | one turn of the outer loop over the mutated indexes |
| PoolStore.Ingest.PutPool | apps/api/src/kp_api/api/v1/season.py:425-556 | the request in place: refuse, collapse, purge, index, walk, count |
| StableSort.ByKeySorts | skills/kulturni-sezona/bin/kp_validate.py:178-178 | sorting gives a sorted permutation |
| StableSort.ByKeyIsStable | skills/kulturni-sezona/bin/kp_validate.py:178-178 | sorting keeps the order of equal keys |
| PlannerRules.SortWithOneMore | skills/kulturni-sezona/bin/kp_validate.py:359-371 | sorting with one element more is sorting without it and putting the element somewhere |
| PlannerRules.WeekRule | skills/kulturni-sezona/bin/kp_validate.py:180-190 | the week rule reports exactly the weeks with more than two events, with their titles in date order |
| PlannerRules.GapRule | skills/kulturni-sezona/bin/kp_validate.py:192-200 | the gap rule reports exactly the neighbours less than two days apart without a season event |
| PlannerRules.BlockedRule | skills/kulturni-sezona/bin/kp_validate.py:202-208 | the calendar rule reports exactly the unbooked events that collide |
| PlannerFit.WorksRule | skills/kulturni-sezona/bin/kp_validate.py:211-248 | the works rule reports exactly the plays of a work played before in the plan, with its first title, and the plays of works heard this year, and warns of those heard last year only |
| PlannerFit.GapRuleIsComplete | skills/kulturni-sezona/bin/kp_validate.py:192-200 | without season events no reported neighbours means no two events too close |
| PlannerFit.GapRuleSeesExactly | skills/kulturni-sezona/bin/kp_validate.py:192-200 | all events that are no season events are two days apart exactly when no neighbours are reported and no two with only season events between them are closer |
| PlannerFit.SeasonEventHidesAGap | skills/kulturni-sezona/bin/kp_validate.py:194-194 | with a season event in between two events can be too close unreported |
| PlannerRules.FitBlamesOnlyTheCandidate | skills/kulturni-sezona/bin/kp_validate.py:359-384 | whatever `cmd_fit` counts against a candidate involves it: its own week, a pair of neighbours containing it, its own blocked day or one of its works |
| PlannerFit.FittingKeepsTheWeek | skills/kulturni-sezona/bin/kp_validate.py:359-387 | a candidate that fits leaves its week within the cap |
| PlannerFit.FittingKeepsTheGaps | skills/kulturni-sezona/bin/kp_validate.py:378-383 | a candidate that fits is not too close to either neighbour, even where the plan already holds a reported pair |
| PlannerFit.FitsExactly | skills/kulturni-sezona/bin/kp_validate.py:359-387 | a candidate fits if and only if its week stays within the cap, neither neighbour is too close, it collides only as an event of the plan that reads the same does, and each of its works passes |
| PlannerCalendar.FitsByTheCalendar | skills/kulturni-sezona/bin/kp_validate.py:142-208 | the same on the calendar: at most two events in the candidate's week from Monday to Sunday, none on the same or the next day beside it unless a season event, no collision that the plan does not have already, no work that does not pass |
| PlannerCalendar.CollidesExactly | skills/kulturni-sezona/bin/kp_validate.py:142-161 | an event collides with a blocked day, or with the first appointment it comes within two hours before or one hour after |
| PlannerCalendar.ScheduleIsByDay | skills/kulturni-sezona/bin/kp_validate.py:173-178 | the schedule holds every event and booking as often as it was given, by day |
| PlannerFit.WorksFitExactly | skills/kulturni-sezona/bin/kp_validate.py:211-248 | its works add nothing to the report exactly when each one heard this year, or already in the plan, is played (again) there under the same title and every other occurs once |
| PlannerFit.RepeatGoesUnreportedExactly | skills/kulturni-sezona/bin/kp_validate.py:372-377 | a work of the plan goes unreported exactly when the plan itself repeats it under the candidate's title |
| PlannerFit.FitCanMask | skills/kulturni-sezona/bin/kp_validate.py:359-383 | so a repeated work can get through: where two events of one title play it, `cmd_fit` finds nothing against a third |
| PlannerRules.CheckSchedule | skills/kulturni-sezona/bin/kp_validate.py:164-208 | the loops append exactly the schedule's violations to the report |
| PlannerRules.CheckWorks | skills/kulturni-sezona/bin/kp_validate.py:211-248 | the nested loops append exactly the works' violations and warnings |
| PlannerRules.CmdFit | skills/kulturni-sezona/bin/kp_validate.py:350-387 | the two simulations and their difference |
| PlayQueue.CutIsOk | apps/api/web/src/domain/playQueue.ts:151-184 | any queue is cut into segments whose items concatenate to 0..n-1, each one album or one run with its items' uris in order, over-long only for a single piece, no two neighbouring runs able to share their boundary piece, every item indexed where its uris are |
| PlayQueue.PlacesAreExact | apps/api/web/src/domain/playQueue.ts:174-180 | the occurrence index lists every movement of every track-resolved piece, and what it lists is that movement, at that place |
| PlayQueue.PushUris | apps/api/web/src/domain/playQueue.ts:175-180 | the inner loop indexes and pushes each movement |
| PlayQueue.AppendItem | apps/api/web/src/domain/playQueue.ts:160-182 | one turn of the loop: an album closes the run, a piece joins it or opens a new one |
| PlayQueue.BuildSegments | apps/api/web/src/domain/playQueue.ts:151-184 | the program's segments, objects that grow through the `run` alias, are that cut |
| SeatWatch.RowsExact | infra/claudebox/seat-watch.py:179-191 | the rows hold exactly the free, allowed seats, each seat in one row and there as often as in the plan, within the tolerance of its row's anchor, from left to right |
| SeatWatch.GroupedCounts | infra/claudebox/seat-watch.py:181-187 | each seat joins the first row opened near its height |
| SeatWatch.GroupSeats | infra/claudebox/seat-watch.py:181-187 | the grouping loop computes those rows |
| SeatWatch.ScanRow | infra/claudebox/seat-watch.py:191-198 | the scan finds the leftmost window of a row, or that it has none |
| SeatWatch.FindAdjacent | infra/claudebox/seat-watch.py:170-199 | for two seats or more: the leftmost window of the topmost row that has one, and nothing exactly when none has; a single seat is found exactly where some row holds at least two, and is the first of the topmost such row, or its second when they are not neighbours |
| SeatWatch.LoneSeatIsNotFound | infra/claudebox/seat-watch.py:191-199 | a plan with one free seat has none for a request of one |
| SeatWatch.HitMeans | infra/claudebox/seat-watch.py:170-199 | a hit is that many free, allowed seats of one row, neighbours one pitch apart |

## Left out

What the proofs assume:

- Sync writes are one step each, in the order in which they commit; sequence numbers become visible in increasing order. What overlapping announcements do is modelled in `NotificationTiming`, with locking, reading the clock and committing as separate steps.
- The database clock does not run backwards from one writer to the next.
- ShownVersionsAreFinal: a writer is expected to commit within MERGE_MARGIN of the first clock it read under the event lock, and a phone to decide only after a page without `has_more`; nothing is claimed about withdrawals, which have no margin.
- Watchlist positions are exact numbers; the code's own comment concedes that floats run out of room (`apps/api/src/kp_api/api/v1/watchlist.py:7-12`).
- PushHoldsExactly: the database's unique index on the live keys of a season, and the schema's rule that `season_event` is never null; so too every theorem about harmless or steady pushes. Nothing is assumed there about which keys go with which pages.
- SecondPushOnlySees: the splits of the veto's terms are caught; `RepushIsSafeExactly` shows that nothing less will do.
- VersionGrowsExactly: the push is harmless; without that only `VersionTells` is claimed. So too FieldsStayByKey and FoldedEnrichmentIsLostExactly, beside `FieldsStay`.
- Letter case is that of A to Z: `casefold` folds accented letters too.
- ItemsAreHeldWhole: that a row's content is its merge with the item needs stored hashes to be those of their contents, as every write leaves them; its hash is that merge in any case.
- PushLosesNoMark: when two merged rows both carry a note the loser's is dropped, as in the code.
- The content hash is injective; two contents are equal exactly when their canonical JSON is.
- EveryRunIsPolite: sleeping for w takes at least w, and only charged requests count (a local curl failure or a proxy refusal is not charged).
- FittingKeepsTheWeek: a report about a week shows how many events it has, as the code's text does; otherwise how violations are rendered is left open there.
- FitsExactly: different violations read differently, as the code's JSON does unless titles contain its separators; so too FittingKeepsTheGaps and RepeatGoesUnreportedExactly.

What the models do not contain:

- HTTP routing, request validation, database mechanics, cookies and sessions; a body its schema rejects arrives as `Malformed`.
- A batch that holds several events' locks is one transaction per event in `NotificationTiming`.
- An explicit null for a column the database forbids to be null.
- Costs and tickets, which repeat the pattern of events.
- `created_at`, `updated_at` and the log rows' own timestamps.
- Rows of an unordered SELECT (the cascade, the withdrawal) are taken by ascending identifier.
- Event images, program links, e-mail, digests, statistics, iCal, Spotify and Discogs adapters.
- JWT encoding, signatures, access tokens, personal access tokens and OAuth.
- Applying, pushing and listing scenarios, season plans and seat watches over HTTP.
- `url_identity` and time zones: parameters of the pool's model.
- `curl`, atomic file writes, `flock`, a crash between the body and the meta file, and a load that reads the two files around another process's write.
- Python's OverflowError for a host with more than a thousand strikes in a row.
- EveryAnswerIsTheLastOne: calls follow one another there; overlapping processes are the subject of `MoveAgreesExactly`, `OverlappingAnswersExactly` and `AnswerIsOfTheCall`.
- An exception raised by the network layer itself, which leaves a host's state unwritten.
- Parsing dates, prices and programmes; the price, variety and lane rules; `cmd_scenario`; reserved slots in `cmd_fit`.
- `buildQueue`, `itemFor` and the player frame.
- Reading a hall plan, the notification e-mail and the loop over watches.
