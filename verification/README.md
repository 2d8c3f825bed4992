# TicketFlow: models and proofs

This project models the request machinery of TicketFlow, a support-ticket API over PostgreSQL and
Redis, in Dafny 4.11 and proves what it promises. Run `dafny verify dfyconfig.toml`.

The parts, from the ground up:

- `Domain`, `Text`: users, tickets, enumerations; text forms of numbers and UUIDs and when a joined
  text can be taken apart again.
- `CanonicalJson`: sorted-key JSON printing, with a reader that is its inverse.
- `LiteralSearch`, `TicketQuery`: the escaped ILIKE search, the WHERE conditions, the total order and
  the pages of a ticket list.
- `CacheKey`: the versioned key of a list answer.
- `RedisModel`, `CacheService`, `DashboardStats`, `RateLimit`: a Redis server updated in place and the
  services that use it. A call to Redis is answered, refused, or executed with its reply lost
  (`Fate`); the two failures are what the services swallow.
- `CacheProtocol`, `CacheTheorems`: list requests, dashboard requests, commits and invalidations as
  one step system, interleaved at every wait. Each query of a request reads its own committed state
  (READ COMMITTED: `app/db/session.py:15-18` sets no isolation level). Time passes, entries expire or
  are evicted, rate-limit counters live in the same key space, and any Redis call may fail.
- `CacheStaleness`: how long the caches can hide a commit when invalidations fail.
- `CacheHandlers`: the handlers of `CacheService` do what the protocol's steps do, as long as nobody
  else uses Redis in between; the database may move on between their queries.
- `TicketOps`, `Workflow`, `WorkflowTheorems`, `Routes`: the locked mutations, first one at a time in
  a service that updates its tables in place, then as lock, check, commit, read-back and notify steps
  of any number of competing requests.
- `WorkflowAccess`: whose tickets are whose over every run, and that mutations can be decided.
- `CacheWorkflow`: the list cache over a database that the workflow writes.
- `Connections`: the WebSocket manager's table, its handlers and its broadcasts.

Main assumptions: SHA-256 is a collision-free function of text (`CollisionFree`); the database's case
folding works character by character and neither moves `\`, `%` and `_` nor maps anything onto them
(`FoldsLetters`); the list version key is never lost from Redis; ticket ids are never used twice; a
Redis key is gone at the millisecond of its expiry, whereas Redis drops it only when that millisecond
is over. "Less than one time to live" and the multiples of 1000 in `RetryAfterSuffices` depend on this
last millisecond.

Fields such as `PageOrigin`, `StatsOrigin` and `World.born` record where a value came from. No step
reads them; they are there so that theorems can speak about it. `ListStalenessBounded` and
`DashboardStalenessBounded` do not use the recorded beginnings and times; `EveryPageIsComputed` and
`AllCountsAreComputed` prove that the records are those of a request that computed the value.

## Where the code promises less than one might expect

- **A status notice need not name an adjacent pair.** `change_ticket_status` commits, which lets the
  row lock go, and then reads the row back; the event's `new_status` is the status found then
  (`app/services/ticket_service.py:222-225`, `app/api/v1/tickets.py:233-242`). A second agent can
  commit in between. `NoticesTellChanges` gives the exact condition (no other change of that ticket
  committed between the commit and the read-back) and `NoticeMaySkip` builds a run that announces
  OPEN to RESOLVED.
- **The dashboard may serve counts older than an invalidation that ran.** Its key is fixed, so a
  computation that has already run a query may store its result after the deletion.
  `DashboardFreshExactly` says exactly when, `DelayedFillOutlivesInvalidation` is a run where it
  happens. The list's guarantee (`ListFreshness`) rests on versions and does not carry over.
- **Retry-After may be a fraction of a second short.** TTL is rounded to the nearest second by Redis;
  `RetryAfterSuffices` gives the exact remaining times for which a caller who waits that long is
  rejected again, `RetryAfterMayFallShort` is such a sequence of calls on a fresh key.
- **One call does not heal every corrupted counter.** A counter below zero, or one that expires later
  than a window from now, survives it; `OneCallHeals` gives the exact condition.
- **An edit or creation may commit and never invalidate.** If the ticket is deleted between the
  commit and the read-back, the read-back fails and the request ends before the caches are
  invalidated (`app/services/ticket_service.py:73-74`, `177-178`). `ReadBackFailsExactly` gives the
  exact condition, `EditMayFailAfterCommit` is such a run. In `CacheProtocol` that commit stays in
  `pending`. Its own invalidation never runs, but the deletion is a later commit: once that one is
  invalidated, `ListFreshness` covers both, and until then `ListStalenessBounded` does.

## Model

| member | source | states |
|---|---|---|
| CacheTheorems.ListFreshness | app/api/v1/tickets.py:135-162 | In every run with any Redis failures: a list request that reads the version after the invalidation of commit i ran answers, hit or miss, a count and rows both read from states containing commit i, and exactly the page of those states |
| CacheTheorems.QuiescentListIsCurrent | app/api/v1/tickets.py:127-162 | Once the newest commit has been invalidated, even if earlier invalidations failed, and while none commits, a request that has yet to read the version answers exactly the page of the current database, even with slow readers of earlier versions still storing |
| CacheTheorems.AnswersShowAskedFor | app/api/v1/tickets.py:140-162 | Every answer in every run, cached or not, shows rows asked for only, a customer no other customer's, with the true total of the state counted |
| CacheTheorems.StoredPageIsServed | app/services/cache_service.py:89-99 | A live page under the current version answers the next equal request without a query |
| CacheTheorems.ComputedPageIsStored | app/services/cache_service.py:115-120 | A page computed with a key is in the cache throughout the next time to live unless Redis refuses it |
| CacheStaleness.ListStalenessBounded | app/services/cache_service.py:105-122 | Though every invalidation fail: take a state with commit i in which no computation under way has read an older one; every list request not answered until one time to live later is answered, hit or miss, from states containing commit i |
| CacheStaleness.EveryPageIsComputed | app/api/v1/tickets.py:140-162 | Every page answered is the one some request computed for itself, from states no older than its beginning; a cached one was computed less than one time to live before it was read |
| CacheStaleness.DashboardStalenessBounded | app/services/cache_service.py:144-172 | The same run-based bound for the dashboard: all four queries behind such an answer saw commit i |
| CacheStaleness.AllCountsAreComputed | app/api/v1/dashboard.py:30-36 | Every statistics answered are those some request computed for itself, from states no older than its beginning, and less than one time to live before a cached answer |
| CacheStaleness.ListBeginsWithNewest | app/api/v1/tickets.py:135-139 | The beginning those results speak of is the newest commit at the request's first step, and no later step changes it |
| CacheStaleness.DashboardBeginsWithNewest | app/api/v1/dashboard.py:30 | The same for dashboard requests |
| CacheTheorems.DashboardFreshExactly | app/api/v1/dashboard.py:30-36 | A later request can still be served statistics that miss commit i if and only if the cached entry or a computation under way has read a state without it |
| CacheTheorems.ReportsShowCounts | app/api/v1/dashboard.py:30-36 | Every statistics answered in every run, cached or not, are the true counts of the states the four queries saw |
| CacheTheorems.InvalidationForgetsEntry | app/services/cache_service.py:160-169 | After the invalidation transaction ran, whether or not its reply arrived, no dashboard entry is cached, and the computations under way with an old snapshot are those there were before |
| CacheTheorems.DelayedFillOutlivesInvalidation | app/api/v1/dashboard.py:30-36 | A reachable state in which all commits are invalidated and yet a later request can be served statistics without the newest commit |
| CacheProtocol.StepKeepsInv | app/services/cache_service.py:36-172 | Every step of every request, commit, failure, eviction and clock tick keeps the invariant that each stored page was read after all commits invalidated by the time its version became current |
| CacheProtocol.HitAnswers | app/services/cache_service.py:80-102 | Whatever is found under a request's key is the page of that request's own scope and filters, from states covering all commits it is due, stored within its time to live |
| CacheHandlers.ListMeanwhile | app/api/v1/tickets.py:127-162 | The protocol's steps of one list request, under any failures and with any commits before its count and before its row query, give the page and the store that the handler's contract states |
| CacheHandlers.DashboardMeanwhile | app/api/v1/dashboard.py:30-36 | The same for one dashboard request with any commits before each of its four queries |
| CacheWorkflow.ListNeverGoesBack | app/api/v1/tickets.py:229-231 | Over a database written by the workflow, nobody who asks after a status change was invalidated is shown that ticket with an earlier status or another content, from the cache or not |
| CacheService.ResolveTicketListCacheKey | app/services/cache_service.py:36-77 | SET NX then GET: which key is resolved and what the store becomes, for each way either call may fail |
| CacheService.GetCachedTicketList | app/services/cache_service.py:80-102 | A hit only for an answered, live, parsable list entry; every failure is a miss |
| CacheService.SetCachedTicketList | app/services/cache_service.py:105-122 | Stores under the key resolved earlier with the time to live, or leaves the store alone |
| CacheService.InvalidateTicketCaches | app/services/cache_service.py:160-172 | One transaction seeds and advances the version and removes the dashboard entry, or nothing happens |
| CacheService.GetCachedDashboardStats | app/services/cache_service.py:125-141 | A hit only for an answered, live, parsable statistics entry |
| CacheService.SetCachedDashboardStats | app/services/cache_service.py:144-157 | Stores under the fixed key with the time to live, or leaves the store alone |
| CacheService.GetList | app/api/v1/tickets.py:127-162 | The page answered and the store left by one list request, for every combination of Redis outcomes and of the states its two queries see |
| CacheService.GetStats | app/api/v1/dashboard.py:30-36 | The statistics answered and the store left by one dashboard request, for every combination of Redis outcomes and of the states its four queries see |
| CacheKey.KeyIdentifiesRequest | app/services/cache_service.py:51-77 | Two requests have the same key if and only if version, scope, status, priority, category, stripped search text, page and page size all agree |
| CacheKey.KeyDeterminesAnswer | app/services/cache_service.py:51-77 | Requests that share a key get equal pages from every pair of database states |
| CacheKey.ListKeyIsNotFixed | app/services/cache_service.py:20-21 | No list key ever equals the version key or the dashboard key |
| CanonicalJson.SerializeCanonical | app/services/webhook_service.py:157-165 | Two values have the same text if and only if they mean the same, objects compared as mappings at every depth |
| CanonicalJson.SerializeMeans | app/services/webhook_service.py:157-165 | Parsing the text gives back a value of the same meaning with nothing left over |
| CanonicalJson.RoundTrip | app/services/webhook_service.py:160-165 | Reading a printed value in any context gives back the value and the rest of the text |
| CanonicalJson.ReadQuoted | app/services/webhook_service.py:160-165 | A string, quoted and escaped as in section 7 of RFC 8259, is read back unchanged, whatever follows it |
| CanonicalJson.SerializeIgnoresInsertionOrder | app/services/cache_service.py:70-75 | Any insertion order of an object's members gives the same text |
| CanonicalJson.MembersAscend | app/services/webhook_service.py:160-165 | The members of a printed object are its own, in ascending order of their keys |
| CanonicalJson.LessMeans | app/services/webhook_service.py:162 | That order is by the code points where two keys first differ, a prefix coming first |
| CanonicalJson.EscapeForms | app/services/webhook_service.py:164 | Exactly quotation mark, backslash and control characters are escaped, with the short form where there is one and four lower-case hexadecimal digits elsewhere |
| Text.NatTextIsDecimal | app/services/cache_service.py:61-63 | Numbers are written in decimal without leading zeros |
| Text.UuidTextLayout | app/services/cache_service.py:54 | A UUID is written as its 32 lower-case hexadecimal digits with dashes after 8, 12, 16 and 20 |
| LiteralSearch.SearchIsLiteral | app/services/ticket_service.py:125-133 | The pattern %escaped query% matches a text under ILIKE with backslash escape exactly when the folded query occurs contiguously in the folded text |
| LiteralSearch.EscapeIsOnePass | app/services/ticket_service.py:241-244 | The three chained replaces equal one pass that puts a backslash before each special character |
| LiteralSearch.EscapeInjective | app/services/ticket_service.py:241-244 | Different search texts are never escaped to the same pattern |
| LiteralSearch.PercentIsAnyText | app/services/ticket_service.py:127-131 | Unescaped, % would match any text |
| LiteralSearch.UnderscoreIsAnyCharacter | app/services/ticket_service.py:127-131 | Unescaped, _ would match any one character |
| Text.StripTakesEnds | app/services/ticket_service.py:125 | Stripping takes blanks from the two ends and nothing else, and leaves no blank there |
| Text.BlankCodePoints | app/services/ticket_service.py:125 | The blanks are the 29 code points that Python's str.strip removes |
| TicketQuery.QueryConditions | app/services/ticket_service.py:115-133 | The list of conditions that is built up holds of a ticket exactly when it is in the user's scope and passes every filter and the search |
| TicketQuery.OffsetLimit | app/services/ticket_service.py:143-144 | (page - 1) * page_size rows are skipped: the slice is the one that starts after all earlier pages |
| TicketQuery.CeilingPages | app/services/ticket_service.py:147 | The integer division gives the least number of pages that hold all rows, and none for no rows |
| TicketQuery.ListTickets | app/services/ticket_service.py:102-155 | The page is that of the matching, ordered rows, with total and rows each taken from the state its own query saw |
| TicketQuery.PagesPartition | app/services/ticket_service.py:135-155 | On one state, pages 1..pages concatenated are the ordered list of all matching tickets, each once; all but the last are full, the last is not empty, later ones are |
| TicketQuery.RowsAreAskedFor | app/services/ticket_service.py:115-133 | Every row of an answer is the row of the state read, a customer's own, and passes every filter and the search, said of the row's fields |
| TicketQuery.AskedForIsShown | app/services/ticket_service.py:115-146 | On one state every ticket asked for is on some page |
| TicketQuery.TotalCountsAskedFor | app/services/ticket_service.py:135-136 | The total is the number of tickets asked for in the state the count query saw |
| TicketQuery.AnswerIsInShape | app/services/ticket_service.py:138-155 | The answer carries the page number and size asked for, no more rows than that, newest first by creation time and then id |
| TicketQuery.AgentsAskForAll | app/services/ticket_service.py:115-118 | An agent without filters asks for every customer's tickets |
| TicketQuery.ListingIsOrdered | app/services/ticket_service.py:138-145 | The listing holds exactly the matching rows in strictly descending (created_at, id) |
| TicketQuery.ListingIsUnique | app/services/ticket_service.py:141-142 | Any arrangement of the rows in that order is the listing, because ids are unique |
| TicketQuery.PageCountIsCeiling | app/services/ticket_service.py:147 | The number of pages that hold the rows is (total + size - 1) // size |
| RateLimit.FixedWindowScript | app/services/rate_limit_service.py:15-28 | From any store: the count and remaining seconds answered and the new counter, healthy exactly when the old one was not beyond repair; a failure that changes nothing on a key that holds no number |
| RateLimit.ConsumeRateLimit | app/services/rate_limit_service.py:51-80 | Admits and changes nothing when Redis refuses or the key holds no number; otherwise decides by the new counter and touches no other key; a lost reply counts but admits |
| RateLimit.RateBound | app/services/rate_limit_service.py:60-80 | Over any trace from any counter and with any failed calls, at most limit * (ceil(L / W) + 1) answered requests are admitted in a half-open interval of length L, plus what the first counter is short of zero |
| RateLimit.TwiceTheLimit | app/services/rate_limit_service.py:60-80 | No interval as long as one window sees more than twice the limit admitted, plus what the first counter is short of zero, which is nothing unless it is negative |
| RateLimit.WindowsIsCeiling | app/services/rate_limit_service.py:60-80 | The window count in the bound is the ceiling of span / window |
| RateLimit.CountsTheWindow | app/services/rate_limit_service.py:15-28 | On a fresh key the counter is the number of requests in the current fixed window and expires at its end; windows do not overlap; a request is admitted exactly when it is among the first limit of its window |
| RateLimit.TracesCountTheWindow | app/services/rate_limit_service.py:60-80 | The same after any trace with lost replies and refused calls: the executed calls alone are counted, in their fixed windows |
| RateLimit.NeverNeedsRepair | app/services/rate_limit_service.py:21-25 | From an empty store every counter keeps an expiry within one window, so the repairing branch is never needed |
| RateLimit.OneCallHeals | app/services/rate_limit_service.py:16-25 | One executed call makes a counter healthy if and only if it was not beyond repair (below zero, or counting with an expiry more than a window away); then it stays healthy over every further trace and the repair branch is not needed again |
| RateLimit.RejectionsDoNotExtend | app/services/rate_limit_service.py:16-19 | Calls made within a window, however many, never move its end |
| RateLimit.AdmittedAfterWindow | app/services/rate_limit_service.py:74-80 | A rejected caller who returns once the window is over is admitted, whatever was rejected in between |
| RateLimit.RetryAfterIsTimeLeft | app/services/rate_limit_service.py:74-80 | Admitted exactly up to the limit; a rejected caller is told the time left to the nearest second, at least one and never more than the time left rounded up |
| RateLimit.RetryAfterSuffices | app/services/rate_limit_service.py:74-80 | A rejected caller who waits exactly Retry-After seconds is admitted if and only if the remaining time was at most one second or was not rounded down, whatever calls came in before the window's end |
| RateLimit.RetryAfterMayFallShort | app/services/rate_limit_service.py:74-80 | Three calls on a fresh key: the second is told to wait one second, the third comes after it and is rejected |
| DashboardStats.FillCounts | app/services/dashboard_service.py:20-25 | The zero-initialised table overwritten with the grouped rows counts every member, present or absent, correctly |
| DashboardStats.CalculateDashboardStats | app/services/dashboard_service.py:15-46 | The answer is made of the four counts, each of the state its own query saw |
| DashboardStats.StatsCount | app/services/dashboard_service.py:18-46 | Each number of the statistics is the number of tickets with just that status, priority or category, for every member |
| DashboardStats.CountsAddUp | app/services/dashboard_service.py:18-46 | On one state the status, priority and category counts each sum to the total |
| TicketOps.TicketService.GetAccessibleTicket | app/services/ticket_service.py:78-99 | Returns the row exactly when it exists and lies in the caller's scope; missing and foreign tickets are alike |
| TicketOps.TicketService.CreateTicket | app/services/ticket_service.py:53-75 | The tables and the outcome are those of the atomic creation of an OPEN ticket |
| TicketOps.TicketService.UpdateOpenTicket | app/services/ticket_service.py:158-179 | The loop over the updates ends in the row with all of them applied in order; refused unless owned and OPEN |
| TicketOps.TicketService.DeleteOpenTicket | app/services/ticket_service.py:182-198 | Removes the ticket and its comments, only when owned and OPEN |
| TicketOps.TicketService.ChangeTicketStatus | app/services/ticket_service.py:201-225 | Moves to the requested status only when that is the one allowed next |
| TicketOps.TicketService.CreateComment | app/services/comment_service.py:13-36 | Appends the comment to the ticket's thread when the ticket is accessible |
| TicketOps.CreationExactly | app/services/ticket_service.py:64-75 | Field by field: one OPEN ticket with the request's owner, title, description, category and priority and no comments; nothing on an id in use |
| TicketOps.EditExactly | app/services/ticket_service.py:166-179 | Succeeds exactly on the caller's own OPEN ticket; each field given takes its new value, every other keeps its old one; otherwise not-found or not-editable with nothing changed |
| TicketOps.DeletionExactly | app/services/ticket_service.py:189-198 | Succeeds exactly on the caller's own OPEN ticket, which goes with its comments; otherwise not-found or not-deletable with nothing changed |
| TicketOps.ChangeExactly | app/services/ticket_service.py:208-225 | Succeeds if and only if the request is OPEN to IN_PROGRESS, IN_PROGRESS to RESOLVED or RESOLVED to CLOSED; then only status and modification time change; otherwise an invalid transition with nothing changed |
| TicketOps.CommentExactly | app/services/comment_service.py:21-36 | Agents comment on any ticket, customers on their own; author, role and body are recorded behind all earlier comments, which stay |
| TicketOps.OwnershipDecides | app/services/ticket_service.py:87-97 | An existing ticket is not found if and only if a customer asks for another customer's; agents always find it |
| TicketOps.OthersUntouched | app/services/ticket_service.py:158-225 | A mutation leaves every other ticket and its comments as they are |
| TicketOps.AtomicKeepsStarted | app/services/ticket_service.py:228-238 | No mutation deletes a ticket that has left OPEN, changes its content or takes its status back |
| TicketOps.AtomicStatus | app/services/ticket_service.py:45-50 | A ticket's status moves by exactly one allowed transition, and only by a successful status change; it appears and disappears as OPEN only |
| Workflow.StepRefinesAtomic | app/services/ticket_service.py:78-99 | Under row locks every step of every interleaving either changes nothing or is one whole atomic mutation with its logged outcome |
| Workflow.CommitIsAtomic | app/services/ticket_service.py:201-225 | A commit, made from a row read earlier, has the effect and outcome the mutation would have at the moment of the commit |
| Workflow.StepKeepsLocks | app/services/ticket_service.py:91-99 | A request past its lock holds it alone and its row is still as it read it; every ticket has a comment thread and no other has |
| Workflow.RunsAreSerialisable | app/services/ticket_service.py:158-225 | After any interleaving, database and outcomes are those of running the decided mutations one at a time in commit order |
| Workflow.ReachableIsSerialisable | app/services/comment_service.py:21-36 | The same from the empty database, comments included, a waiter that finds its row deleted getting not-found |
| WorkflowAccess.ForeignersFindNothing | app/services/ticket_service.py:88-90 | Over every run: of a ticket that a customer created, no other customer's edit, deletion or comment is ever answered anything but not-found, and the ticket stays its creator's |
| WorkflowAccess.EveryMutationCanBeDecided | app/services/ticket_service.py:91-99 | From every state with consistent locks a fresh request whose row is not locked can run to a decision, with the effect and outcome it has on its own |
| WorkflowAccess.TicketsCanBeClosed | app/services/ticket_service.py:45-50 | A run that takes a ticket from its creation to CLOSED |
| WorkflowTheorems.StatusHistory | app/services/ticket_service.py:45-50 | In every reachable state a ticket's committed history is a prefix of OPEN, IN_PROGRESS, RESOLVED, CLOSED ending with its status; at most three changes ever succeed |
| WorkflowTheorems.StartedTicketsAreFrozen | app/services/ticket_service.py:158-198 | Once a ticket has left OPEN no continuation of the run deletes it, changes its title, description, category, priority or owner, or takes its status back |
| WorkflowTheorems.ProgressNeverDecreases | app/services/ticket_service.py:182-225 | The numbers of tickets at or past IN_PROGRESS, RESOLVED and CLOSED never decrease along a run |
| WorkflowTheorems.TotalIsConserved | app/services/ticket_service.py:53-198 | The number of tickets equals committed creations less committed deletions |
| WorkflowTheorems.NoticesTellChanges | app/api/v1/tickets.py:229-244 | Every notice is about one committed change with its true old status; its new status is further on by exactly the changes committed before the read-back, so it names the next status if and only if there were none |
| WorkflowTheorems.NoticesAreAccounted | app/api/v1/tickets.py:243-244 | Each committed change is announced at most once per channel, never more often on the dashboard than on the ticket's channel, and exactly once on both when its request finished |
| WorkflowTheorems.RefusalsAreSilent | app/api/v1/tickets.py:229-244 | A request without a committed status change announces nothing |
| WorkflowTheorems.ChangesAreReadBack | app/services/ticket_service.py:223-225 | Reading a committed status change back always finds the ticket |
| WorkflowTheorems.ReadBackFailsExactly | app/services/ticket_service.py:177-179 | Reading any committed mutation back fails if and only if a deletion of its ticket was committed after it |
| WorkflowTheorems.EditMayFailAfterCommit | app/services/ticket_service.py:177-179 | A reachable run in which an edit is committed and its read-back fails, so that its request ends before the caches |
| WorkflowTheorems.AnnouncementsAreNotHeldBack | app/api/v1/tickets.py:243-244 | In every reachable state a request that has read its status change back is free to announce it on the ticket's channel and then on the dashboard's |
| WorkflowTheorems.NoticeMaySkip | app/services/ticket_service.py:222-225 | A reachable run whose notice says OPEN to RESOLVED, which is no allowed transition |
| Routes.UpdateStatus | app/api/v1/tickets.py:229-257 | Undisturbed: commit, then caches, then the adjacent pair on both channels; a refusal changes and tells nothing |
| Routes.CreateTicket | app/api/v1/tickets.py:79-95 | Rejected exactly when Redis answers that the customer's quota is used up; a rejected request leaves the tables and every Redis key but its counter alone; an accepted creation advances the list version, forgets the dashboard entry and keeps stored pages unless Redis refuses; failing Redis never blocks a creation |
| Routes.ChannelsAndQuotasAreApart | app/services/ws_manager.py:16-19 | No two tickets share a channel, no ticket's is the dashboard's, and no two customers share a creation quota |
| Connections.ConnectionManager.Connect | app/services/ws_manager.py:28-33 | The table gains one member on one channel |
| Connections.ConnectionManager.Disconnect | app/services/ws_manager.py:35-45 | The table loses one member, and the channel with its last one |
| Connections.ConnectionManager.Snapshot | app/services/ws_manager.py:50-54 | The members of the channel, each once |
| Connections.ConnectionManager.DropStale | app/services/ws_manager.py:62-85 | Exactly the sockets whose own send failed leave the channel as it is by then |
| Connections.MembershipOverRuns | app/services/ws_manager.py:47-85 | In every interleaving a subscription is stored exactly while its handler serves it and no finished broadcast found it broken; no empty channel is stored; each broadcast sends once to each snapshot member and to nobody else |
| Connections.EveryMemberIsSent | app/services/ws_manager.py:50-60 | A socket that is served on the channel and not found broken when a broadcast starts is sent the event exactly once by its end, whatever happens meanwhile |
| Connections.BroadcastsCanFinish | app/services/ws_manager.py:56-85 | A broadcast under way can always be finished, with any results of its remaining sends |
| Connections.ArrivalsAreServed | app/api/v1/ws.py:93-103 | A socket that arrives can be registered on its channel and then leave it, and is in the table exactly in between |
| Connections.StartTakesMembers | app/services/ws_manager.py:50-54 | A broadcast is for exactly those registered on its channel when it starts |
| Connections.StartIsSnapshot | app/services/ws_manager.py:50-54 | The starting step is what the manager's snapshot method promises |
| Connections.EmptyOnceHandlersEnd | app/api/v1/ws.py:93-103 | Once no handler serves, the table is empty, even with broadcasts still cleaning up |
| Connections.StepRefinesPairs | app/services/ws_manager.py:28-85 | Seen as a set of (channel, socket) pairs, each critical section adds one pair, removes one, or removes the broadcast's own failed sockets |
| Connections.FinishIsDropStale | app/services/ws_manager.py:62-85 | The clean-up step of a broadcast is the manager's clean-up method on any ordering of the snapshot and its results |
| Connections.JoinersSurvive | app/services/ws_manager.py:55-85 | A socket that joins while a broadcast is sending is never removed by that broadcast |

## Left out

- JWT, Argon2, HMAC and SHA-256 internals; the hash is a parameter taken to be collision-free.
- HTTP routing, validation, error envelopes, health checks, seeding, migrations: no property beyond their bodies.
- SQL, the Redis wire protocol and sockets: queries are functions of a committed state, transactions and scripts are atomic, sends have a result.
- Isolation other than row locks: a transaction's uncommitted writes are seen by nobody and its commit either happens or not.
- The JSON form of cached responses: a stored entry is the value itself, and entries of another kind stand for those that do not parse.
- Loss of the version key (flush, restart or eviction of it), after which version numbers could be used again: `ListFreshness` assumes it away.
- UTF-8: texts are sequences of Unicode scalar values, so lone surrogates and the bytes that are signed or hashed are not modelled.
- JSON numbers with fractions: the payloads have none; the reader also rejects `\u` escapes of surrogates, which the printer never writes.
- Webhook registration, scheduling, delivery and its log, and comment events: single attempts without retries.
- Case folding that changes the number of characters, and LIKE patterns ending in a lone escape character, which are an error in SQL.
- The login quota's key and the login route: the same limiter under another key.
- Reading single tickets and comment lists: plain reads.
- Order of events across requests: broadcasts come after the row lock is released, so only accounting holds.
- Cancelled requests other than `Abort`, which may end a request at any wait and releases its lock, and the database clock: creation and modification times are data of the request.
- Connections.ConnectionManager.DropStale: one broadcast is modelled as its snapshot, its sends and its clean-up, the two critical sections as methods and the sends between them as steps, because the lock is released in between.
- RateLimit.CountsTheWindow: every call executed; lost and refused calls are in `RateLimit.TracesCountTheWindow`.
- CacheWorkflow.ListNeverGoesBack: the committed tables are those of some workflow run; which request's invalidation belongs to which commit is not tied to the workflow's requests.
- CacheService.GetList: nobody else uses Redis between its own calls, which happen at one time; any interleaving is in `CacheProtocol`.
- CacheService.GetStats: the same.
