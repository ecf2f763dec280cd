# SABnzbd's download engine, as a Dafny model

This project models what SABnzbd does with an article from the moment a server is given it until its bytes are in the
finished file, and the bookkeeping beside that: the byte and quota meter, restarts and timers of servers, the history
pages and the stage log. `dafny verify dfyconfig.toml` checks all of it.

Every part has two layers.

- **Functions on values** (`Storage`, `Connections`, `Restarts`, `Meters`, `Calendar`, …) say what one call, or one turn
  of a loop, does to the whole state it can touch. State machines over these functions let the threads of the program
  take turns in any order, and lemmas prove what every run keeps.
- **Objects** (`NzbFiles`, `ArticleCaches`, `NewsWrappers`, `DecodedArticles`, `Downloaders`, `BpsMeters`,
  `QuotaTimers`) have the fields, branches and loops of the program's classes. Each method is proved to lead to exactly
  the state that its function gives for the state before it.

## The parts

**Cache and assembler** — `Storage`, `Placements`, `Assembly`, `Interleaving`, `GapPasses`, `CacheMap`, `CacheSizes`,
`NzbFiles`, `ArticleCaches`. A decoded part goes to memory, to a file in the job's admin folder, or straight to its
offset in the target file; the assembler's passes pick it up from there. `Interleaving` interleaves decoder, cache and
assembler at every call and at every turn of the assembler's loop, with limit changes, direct write switched on and
off, failing and short writes, and restarts of the program. Whatever happened, after the last pass the file is the
concatenation of its parts. `CacheMap` shows that memory and admin folder together are one map from article to bytes,
on every run of the cache's calls, the turns of a flush and the assembler's turns; `CacheSizes` says on which of them
its accounting is exact.

**Connections** — `Connections`, `Answers`, `Sessions`, `Duplex`, `Logins`, `NewsWrappers`. One NNTP connection with a
request that waits, a queue of requests in flight, a semaphore, a partly sent command, login flags and a generation.
`Duplex` adds a server that answers each line it has read once and in order (section 3.5 of RFC 3977, login as in
section 2.3 of RFC 4643) and shows which response meets which article.

**Ownership** — `LifeCycle`, `Ownership`, `Watching`. All servers with all their connections, stepping in any order. A
ledger says where each article is that was handed out and not yet disposed of, and it is proved to agree with every
queue. No connection with work is left where the main loop does not look.

**Decoding** — `Decoders`, `Trials`, `DecodedArticles`, `BadData`. Every way in which `decode` can end an article's
stay on a server, the search for another server, and what is left of the article for cache and assembler; and what
becomes of data that no server has in good order.

**Restarts and timers** — `Restarts`, `Timers`, `MainLoops`, `Downloaders`. The restart counter, the penalty timers,
`check_timers`, the removal of a restarting server, and the wait of the main loop with the calls that notify it and
those that do not.

**Byte meter** — `Meters`, `Metering`, `Periods`, `BpsMeters`, `Calendar`, `QuotaTimers`. Cached byte counts and their
flush into totals, timeline and speeds; quota; the ends of days, weeks and months, and the next reset.

**History** — `Histories`, `Texts`, `StableSorts`, `StageLogs`. One page out of two lists, and the printer and parser
of the stage log.

## Where the program does not keep what it promises

Each of these has a lemma that says exactly when, and one that shows it happening, where it takes a run by a run from
the initial state.

- A ready connection that gets a 480 while an article waits to be sent disposes of that article and yet keeps it, under
  the login command: `queue_command` takes over the article it has just discarded. This is the one case its guard is
  reached in. (`Ownership.AccountedExactlyUnlessSurprised`, `Sessions.GuardFiresOnlyWhenSurprised`,
  `Ownership.SurpriseHappens`)
- An iteration of `assemble` that leaves through one of its two late `break`s loses the part it has already taken from
  the cache. (`Interleaving.LostExactlyThroughBreaks`, `Interleaving.PartIsLost`)
- Bad data that no other server can better is saved, so that par2 may repair it, and marked as decoded; a little later
  `register_article` marks it as on disk as well. A pass that comes in between writes the data. From the mark on no pass
  takes it, and no file depends on it: it stays in the cache until the job is purged or the cache is flushed.
  (`Decoders.BadDataIsSkippedExactly`, `CacheMap.MarkedIsNeverTaken`, `BadData.PassIgnoresMarked`,
  `BadData.BadDataIsNotWritten`)
- `flush_articles` sets `__cache_size` to zero and then loops without a lock. What other calls save, load or purge in the
  meantime leaves the size wrong when it ends: above zero, and memory is lost until the next flush; below zero, and more
  than the limit fits. (`CacheSizes.SizeIsExactExactly`, `CacheSizes.WithinLimitExactly`, `CacheSizes.PurgedDuringFlush`,
  `CacheSizes.SavedDuringFlush`)
- A send that raises would-block after its permit was taken never gives the permit back; as many of them as there are
  permits leave a connection that sends nothing more until it is reset. (`Sessions.PermitsExact`,
  `Sessions.WouldBlockCostsAPermit`, `Duplex.SpentNeverSends`, `Duplex.EveryLimitCanBeSpent`)
- A timer that passes, or the scheduler, asks for a restart without notifying the main loop. If it waits at that moment
  it goes on waiting, until something else notifies it. (`MainLoops.WaitsWhilePendingExactly`, `MainLoops.TimerIsMissed`)
- A restart that is asked for while one is pending is counted and never taken back, so once the main loop runs it never
  waits again. (`Restarts.MayWaitExactly`, `Restarts.NeverWaitsAgain`, `Restarts.AskedTwice`)
- With two servers of one id, which a rename to an id that was set up meanwhile leads to, `check_timers` can leave the
  second one idle. (`Restarts.CheckTimersAwaits`, `Restarts.InitKeepsUnique`, `Restarts.SecondIsForgotten`)
- A flush at the end of a day raises `KeyError` when bytes are still cached for a server that was removed.
  (`Metering.FlushRaisesExactly`, `Metering.RemovedServerRaises`)
- A quota of size zero on the way from one quota to another turns the usage into its opposite.
  (`Metering.ChangeKeepsUsageExactly`, `Metering.ZeroSizeFlipsUsage`)
- The monthly quota rule, asked on the last day of a month that is too short for it and after the moment, plans a reset
  in the past. (`Calendar.MonthlyIsNextExactly`, `Calendar.EveryShortMonthIsMissed`, `Calendar.PlannedInThePast`)
- A history page without a limit never shows a job of the database, although `fetch_history` takes a limit of zero to
  mean all and the setting that the page falls back on may be zero. (`Histories.NoLimitIsRestExactly`,
  `Histories.RowIsHidden`)

## Model

| member | source | states |
|---|---|---|
| Interleaving.EveryRunAssembles | sabnzbd/assembler.py:358-440 | On every run of decoder, cache, assembler, direct writes and restarts, once a file_done pass has gone through the table the target file is the in-order concatenation of the parts, and nothing of it is left in memory or admin folder. |
| Interleaving.BelowNextIndexIsOnDisk | sabnzbd/assembler.py:512-526 | On every run every index below `assembler_next_index` is on disk with its bytes at the part's own offset. |
| Interleaving.RunNeverBack | sabnzbd/assembler.py:512-526 | But for a restart of the program no run moves `assembler_next_index` back or takes an article off the disk. |
| Interleaving.FinalPassCompletes | sabnzbd/assembler.py:372-440 | An uninterrupted file_done pass started in any reachable state finishes, loses nothing and completes the file. |
| Interleaving.ContiguousPassStopsAtFirstGap | sabnzbd/assembler.py:372-432 | An uninterrupted contiguous pass over loadable data leaves the index exactly at the first part that is not on disk. |
| GapPasses.GapPassWrites | sabnzbd/assembler.py:372-432 | An uninterrupted pass that may leave gaps, with direct writes, up to the first article that is untried while its job is not paused, or to the end: every decoded part from `assembler_next_index` on is then on disk at its offset and gone from memory and admin folder, whatever is missing before it; what is not decoded, what lies behind and every other file are left as they were; and the index stops exactly at the first part that is not on disk. |
| Placements.EndsExactly | sabnzbd/assembler.py:374-411 | A turn ends the pass before it touches anything exactly at the end of the table, at a deleted file, at an untried article of a job that is not paused where gaps are allowed, and at a missing one where they are not and the file is not done. |
| Placements.DropsExactly | sabnzbd/assembler.py:412-432 | A turn that holds a part drops it exactly if gaps are allowed and the file it opens cannot be written directly, or if it is written directly, this part cannot be, one was skipped and the file is not done; otherwise the part is on disk and the pass goes on. |
| Placements.WrittenWhere | sabnzbd/assembler.py:426-432 | A part is written at its own offset if directly, else behind what the pass appended, which begins at the contiguous offset. |
| Placements.OffsetWithoutHeaders | sabnzbd/nzb/file.py:264-276 | Without offsets in the headers the contiguous offset is the sum of the decoded lengths up to the first part that is not on disk, and for queues that do not know these lengths the length of the file. |
| Placements.SavedWhere | sabnzbd/articlecache.py:152-176 | A save keeps the data in memory exactly if there is memory, the data fits the limit, and it is not the first part of a file whose name is unknown; a finished job saves nothing. |
| Placements.FlushedBytes | sabnzbd/assembler.py:442-460 | A direct write leaves in the target file, made sparse first if it was empty, all of the data or as much as was written before it failed; without one no file is touched. |
| Placements.FlushedWhere | sabnzbd/articlecache.py:225-237 | Out of memory the data goes to the target file exactly if direct write is on, possible and does not fail; otherwise, whole, to the admin folder. |
| Placements.FlushMovesIndex | sabnzbd/assembler.py:500-526 | A flush moves `assembler_next_index` over the article exactly if that is the next one and was written directly. |
| Placements.LoadedFrom | sabnzbd/articlecache.py:178-199 | A load takes the data from memory, or else from the admin folder, deletes it there, and ends the article's registration. |
| Placements.PurgedFrom | sabnzbd/articlecache.py:211-224 | A purge takes the data out of memory, or else deletes the admin file, and changes nothing else of the article. |
| Placements.LimitIsLargest | sabnzbd/articlecache.py:121-130 | A new limit is the largest within the upper limit and, unless it is negative, within what was asked for. |
| Placements.PassesOver | sabnzbd/assembler.py:389-407 | A turn passes over an article on disk, with the index while nothing was skipped, and over a missing one, which counts as skipped unless the file is done. |
| Placements.BeginsAtIndex | sabnzbd/assembler.py:359-372 | A pass begins at `assembler_next_index`, with nothing open, skipped or appended. |
| Interleaving.LostExactlyThroughBreaks | sabnzbd/assembler.py:412-432 | An iteration that takes a part from the cache loses it if and only if it leaves through one of the two late breaks. |
| Interleaving.PartIsLost | sabnzbd/assembler.py:412-424 | A run from a new job, on a file system without sparse files, in which a pass begun to empty the cache loses a part that is in memory and can be written directly. |
| Interleaving.StepKeeps | sabnzbd/articlecache.py:152-237 | Every step of every thread keeps each part in exactly one of memory, admin file and its place in the target file. |
| Assembly.PartsInPlace | sabnzbd/assembler.py:426-432 | A file as long as its parts, with every part at its offset, is their concatenation. |
| Assembly.OffsetIsBegin | sabnzbd/nzb/file.py:252-276 | Whichever branch `contiguous_offset` takes, it gives the offset of the part at `assembler_next_index`. |
| Assembly.AssembleArticleKeeps | sabnzbd/assembler.py:442-460 | A single-article direct write puts the part at its offset and disturbs no other, or, short or failed, leaves it to be kept elsewhere. |
| Assembly.WriteOpenedKeeps | sabnzbd/assembler.py:426-432 | Writing directly and appending put the next part at the same place. |
| CacheMap.SaveStores | sabnzbd/articlecache.py:152-176 | An article saved afresh, marked as on disk or not, can be loaded back exactly, or is in its place in the target file, and no other article is touched. |
| CacheMap.LoadRemoves | sabnzbd/articlecache.py:178-198 | Loading returns what the map holds and removes it from memory, admin folder and `saved_articles`. |
| CacheMap.SavedIsLoaded | sabnzbd/articlecache.py:152-209 | On every run of cache and assembler, whatever turns of flushes, limit changes, marks, turns and work on other articles come between, what was saved is what the next load returns, or the article has left the cache marked as on disk; and then its bytes are, and stay, in its place in the target file, if nothing written later claims these bytes of the file for other data. |
| CacheMap.WriteKeepsExactly | sabnzbd/assembler.py:499-510 | A write leaves what is in its place in a file there if and only if the two agree where they overlap. |
| CacheMap.MarkedIsNeverTaken | sabnzbd/nzbqueue.py:733-736 | On every run no turn of any pass takes data of an article that is marked as on disk; until this article is saved, loaded or purged by name it can be loaded, or a flush has put it in its place in the target file, and without a flush it is where it was. |
| CacheMap.FullFlush | sabnzbd/articlecache.py:200-209 | A full flush that nothing comes between, in whatever order the table gives its items, empties memory, leaves the size exact whatever it was, and loses nothing: what could be loaded, or was in its place in the target file, still is one of the two if no data in memory claims the same bytes of the file for something else. |
| CacheMap.PurgeRemovesExactly | sabnzbd/articlecache.py:211-223 | A purge removes everything of the given articles from memory and disk and nothing else. |
| CacheMap.PurgingSavedPurgesAll | sabnzbd/articlecache.py:211-223 | Everything held in memory or admin files, marked as on disk or not, is in the job's `saved_articles`, so purging those leaves nothing of the job. |
| CacheMap.OpKeeps | sabnzbd/articlecache.py:132-223 | Every call, every mark, every turn of a flush and every turn of the assembler keeps each article's data in one place only; all but those of a flush keep the distance of `__cache_size` from the total length in the table, so without a flush it stays exact; only a save adds to it, and only within the limit. |
| CacheMap.UsageStaysWithinLimit | sabnzbd/articlecache.py:132-176 | On runs without a limit change the size stays within the limit, or never grows while it is over one that was lowered; on runs without a flush so does the usage, since size and usage keep their distance. |
| CacheSizes.SizeIsExactExactly | sabnzbd/articlecache.py:200-209 | On every run of saves, loads, purges and flushes, interleaved at each of their steps on size and table, the size at the end of a flush is the bytes that were reserved and popped during it less the bytes held before and freed during it; it is exact if and only if these are equal. |
| CacheSizes.WithinLimitExactly | sabnzbd/articlecache.py:132-139 | After a flush what is in memory stays within the limit on every run, until the next flush or change of the limit, if and only if the flush did not leave the size below zero, or there is no memory. |
| CacheSizes.SizeLeftIsLost | sabnzbd/articlecache.py:132-139 | A size left above zero is taken off the limit until the next flush. |
| CacheSizes.PurgedDuringFlush | sabnzbd/articlecache.py:200-223 | A run from an empty cache in which a purge during a flush leaves the size below zero, and more than the limit fits. |
| CacheSizes.SavedDuringFlush | sabnzbd/articlecache.py:152-209 | A run in which a save during a flush leaves it above zero. |
| CacheSizes.SaveIsSteps | sabnzbd/articlecache.py:152-176 | A save that ends in memory is a reservation and an entry in the table, any other touches neither size nor table. |
| CacheSizes.LoadIsSteps | sabnzbd/articlecache.py:178-223 | A load or a purge of what is in memory takes it out and then frees its space. |
| CacheSizes.FlushIsSteps | sabnzbd/articlecache.py:200-209 | A flush resets the size and then takes one article after the other out of the table, with no change to the size. |
| CacheSizes.LimitIsStep | sabnzbd/articlecache.py:121-130 | A new limit counts from the moment it is set. |
| CacheMap.NewLimitMoves | sabnzbd/articlecache.py:120-130 | A new limit never exceeds the upper limit and touches no data. |
| NzbFiles.PWriteTwice | sabnzbd/assembler.py:505-510 | Writing in two steps is writing once, which makes the loop over short writes harmless. |
| NzbFiles.NzbFile.GetContiguousOffset | sabnzbd/nzb/file.py:252-276 | The loop computes the specified offset. |
| NzbFiles.NzbFile.WriteAll | sabnzbd/assembler.py:505-510 | However short each write is, the file ends as after one write of all bytes, or of those before the write that failed. |
| NzbFiles.NzbFile.WriteData | sabnzbd/assembler.py:499-526 | After a complete write the article is on disk and the index moves exactly if it was at this article. |
| NzbFiles.NzbFile.OpenFile | sabnzbd/assembler.py:539-563 | An empty file is made sparse for direct write; a failing sparse call or a missing size falls back to appending at the contiguous offset. |
| NzbFiles.NzbFile.AssembleOne | sabnzbd/assembler.py:442-460 | The direct write of one article leads to the specified file, and says whether it was written. |
| ArticleCaches.ArticleCache.SetLimit | sabnzbd/articlecache.py:120-130 | The limit is set as specified, and never above the upper limit. |
| ArticleCaches.ArticleCache.ReserveSpace | sabnzbd/articlecache.py:132-139 | A reservation succeeds exactly when the new usage fits the limit, and only then changes it. |
| ArticleCaches.ArticleCache.Save | sabnzbd/articlecache.py:152-176 | Saving leads to the specified world: registered, then in memory, admin folder or target file. |
| ArticleCaches.ArticleCache.Load | sabnzbd/articlecache.py:178-198 | Loading returns and removes what the specified map holds. |
| ArticleCaches.ArticleCache.FlushArticles | sabnzbd/articlecache.py:200-209 | The flush loop pops every article, in some order, and leads to the specified world. |
| ArticleCaches.ArticleCache.PurgeArticles | sabnzbd/articlecache.py:211-223 | The purge loop leads to the specified world. |
| ArticleCaches.ArticleCache.FlushArticleToDisk | sabnzbd/articlecache.py:225-237 | Direct write first, the admin folder when that fails. |
| ArticleCaches.ArticleCache.Iteration | sabnzbd/assembler.py:374-432 | One turn of the loop of `assemble`, with all its exits, leads to the specified world and pass. |
| ArticleCaches.ArticleCache.Assemble | sabnzbd/assembler.py:358-440 | The whole loop is the specified pass. |
| Sessions.FinishConnectKeeps | sabnzbd/newswrapper.py:137-181 | Without the surprise, login discards nothing, leaves a waiting article alone and queues login commands only. |
| Sessions.GuardFiresOnlyWhenSurprised | sabnzbd/newswrapper.py:183-193 | The guard of `queue_command` fires on an article if and only if a ready connection gets a 480 while an article waits. |
| Answers.FirstInFirstOut | sabnzbd/downloader.py:178-204 | Articles leave a server's queue in the order in which it was handed them, and a search is made exactly when the queue is empty and one is due. |
| Answers.ExpiredAreDecoded | sabnzbd/downloader.py:187-202 | Articles past retention are all handed out and decoded as missing, the last of the queue first, and before them the one that was asked for. |
| Answers.PreparesExactly | sabnzbd/newswrapper.py:369-400 | A waiting request stays, but for an article of a connection that could ask and may not any more; without one the next article is asked for exactly if the connection is logged in or waits for nothing, its server is active and not restarting, and nothing holds up all work. |
| Answers.SendsExactly | sabnzbd/newswrapper.py:402-464 | A waiting request is sent exactly if a permit is free, its job is neither removed nor paused and the socket takes bytes; without a permit it waits, for such a job it goes back, and a socket that fails resets the connection. |
| Answers.BufferFirst | sabnzbd/newswrapper.py:402-421 | The rest of a command goes out before anything else. |
| Answers.WriteParksExactly | sabnzbd/newswrapper.py:402-464 | A connection leaves the busy set when it has nothing to send and waits for no answer. |
| Answers.RefusedCommand | sabnzbd/newswrapper.py:252-262 | A 500 gives the article back, keeps the connection, and the server is not asked with that command again: HEAD follows STAT and ARTICLE follows BODY. |
| Answers.UnknownAnswer | sabnzbd/newswrapper.py:264-280 | An answer that is no end of an article, no refusal and not about the login gives back the article and all the connection holds, and resets it. |
| Answers.ResetGivesBack | sabnzbd/newswrapper.py:466-516 | A hard reset gives back everything held, the waiting request first and then what is in flight in its order: forgotten if its job was removed, decoded if it was tried too often at a server that is not required, else for any server. |
| Answers.FinalAnswer | sabnzbd/newswrapper.py:208-249 | The answers 220, 222, 223, 411, 423, 430 and 451 hand the article to decoding and free its permit, and the connection goes on. |
| Answers.SentToUnready | sabnzbd/newswrapper.py:208-249 | Article and body end an article's stay on a connection that is not ready, too. |
| Answers.LoginAnswer | sabnzbd/newswrapper.py:225-232 | An answer about the login on a ready connection gives back the article it came for, and then the login goes on with it. |
| Answers.AnswerToLogin | sabnzbd/newswrapper.py:225-232 | On a connection that is not ready, or for no article, every other answer goes to the login; where that fails, the penalty decides whether the connection is reset and its server deactivated. |
| Answers.NoEntryNoAnswer | sabnzbd/newswrapper.py:318-324 | A response that comes to a reader of an earlier generation, or with nothing in flight, changes nothing. |
| Answers.AnswersInTurn | sabnzbd/newswrapper.py:317-330 | Responses are handled one after the other until the connection is reset or nothing is in flight. |
| Answers.ReadPrepares | sabnzbd/newswrapper.py:329-343 | After the responses the next request is prepared, and a connection without work leaves the busy set unless data is pending; a read that was cut short prepares nothing. |
| Answers.NothingRead | sabnzbd/newswrapper.py:299-316 | Without a connection or a complete response a read changes nothing. |
| Answers.CommandSays | sabnzbd/newswrapper.py:195-206 | An article is asked for by STAT in pre-check and BODY otherwise, or by HEAD and ARTICLE of servers that refused them. |
| Answers.FreeingPoolsAll | sabnzbd/downloader.py:206-217 | Freeing the queue of a server leaves it empty and gives each article back for any server, in order. |
| Logins.LoginByPassword | sabnzbd/newswrapper.py:137-181 | Where a login is needed, the greeting queues the user name, a 381 then the password, and a 281 to that makes the connection ready; any other answer to the password fails, but a 480, which starts again; a 281 to the user name makes it ready at once. |
| Logins.LoginOnRequest | sabnzbd/newswrapper.py:137-181 | Where none is needed the greeting makes it ready; a 480 then leads through the same login. |
| Logins.NameNotTaken | sabnzbd/newswrapper.py:161-172 | Any other answer to the user name leaves the connection unready, with nothing to send. |
| Logins.AnswersOnceReady | sabnzbd/newswrapper.py:161-181 | An answer about the login that comes to a ready connection is nothing to one that needed only its user name, and a failed login to one that sent the password, unless it is another 281. |
| Logins.FalseExactly | sabnzbd/downloader.py:859-940 | Finishing a connect is answered with False exactly at a rejection, or at an answer other than 281 and 480 between sending the password and its being taken. |
| Logins.ReadyMeansWelcomed | sabnzbd/newswrapper.py:137-181 | On every run a connection that needs a login is ready only after a 281 to its present generation. |
| Logins.RejectionFails | sabnzbd/newswrapper.py:154-155 | A 400, 500 or 502 fails at any point of the login, and touches nothing that is queued. |
| Sessions.WriteKeeps | sabnzbd/newswrapper.py:402-464 | Any short send, would-block or broken send keeps permits, response queue, wire and login exact. |
| Sessions.ReadAllKeeps | sabnzbd/newswrapper.py:317-331 | The response loop keeps them too, releases one permit a response, and a reader of an old generation changes nothing. |
| Sessions.ReadOneKeeps | sabnzbd/newswrapper.py:209-282 | A response takes the head of the queue and gives back its permit, or the connection is reset; a stale one does nothing. |
| Sessions.PermitsExact | sabnzbd/newswrapper.py:105-135 | A corollary of `WriteKeeps` and `ReadAllKeeps`: in-flight requests and free permits never exceed the limit, and are equal to it exactly when no send raised would-block after its acquire. |
| Sessions.WouldBlockCostsAPermit | sabnzbd/newswrapper.py:422-457 | A corollary of `SendNext`: would-block after the acquire takes the permit for good. |
| Duplex.PeerReadsCommands | sabnzbd/newswrapper.py:402-442 | The lines the peer reads are the committed commands in order; none is split, dropped or interleaved. |
| Duplex.EveryResponseFindsItsRequest | sabnzbd/newswrapper.py:122-135 | On every run, across resets, the k-th response is paired with the article of the k-th command sent, and the greeting with none. |
| Duplex.EveryRunKeepsTheWire | sabnzbd/newswrapper.py:402-464 | On every run the bytes taken by the socket followed by the buffer are the committed commands, and the permits are exact. |
| Duplex.StaleReaderDoesNothing | sabnzbd/newswrapper.py:320-331 | A corollary of `EveryRunKeepsTheWire`, which has such readers in its runs: a reader from before a reset pops nothing and changes nothing. |
| Duplex.SpentNeverSends | sabnzbd/newswrapper.py:422-457 | A connection on which as many sends raised would-block after their acquire as it has permits sends no other command on any run, until it is reset. |
| Duplex.EveryLimitCanBeSpent | sabnzbd/newswrapper.py:422-457 | For any limit there is a run from a fresh connection that leaves it so. |
| Duplex.GenerationsOnlyRise | sabnzbd/newswrapper.py:484-486 | Generations never fall, and a reset starts one that no earlier reader has. |
| LifeCycle.GetArticleHolds | sabnzbd/downloader.py:178-204 | Prefetching accounts for every article: those past retention are all disposed of once, peeked at or not. |
| LifeCycle.PrepareHolds | sabnzbd/newswrapper.py:369-400 | Preparing a request moves one article from the server's queue to the connection, or disposes of the waiting one. |
| LifeCycle.WriteHolds | sabnzbd/newswrapper.py:402-464 | A write accounts for every article, whatever its sends do. |
| LifeCycle.ReadOneHolds | sabnzbd/newswrapper.py:209-282 | A response disposes of the article at the head of the queue, and of those a reset or deactivation frees, each once. |
| LifeCycle.ReadHolds | sabnzbd/newswrapper.py:284-353 | A whole read, with the request it prepares, accounts for every article. |
| LifeCycle.ResetHolds | sabnzbd/newswrapper.py:466-486 | A hard reset disposes of everything the connection holds, each article once. |
| LifeCycle.PenalizeHolds | sabnzbd/downloader.py:859-929 | A permanent error frees the prefetched articles of a server it deactivates, and what the connection holds. |
| Ownership.EveryArticleInOnePlace | sabnzbd/newswrapper.py:369-516 | On every run of any number of servers and connections an article is in at most one place, is held exactly while handed out once more than disposed of, and is never disposed of without being held or handed out while held. |
| Ownership.EveryRunPartitions | sabnzbd/downloader.py:380-413 | Idle and busy connections partition a server's connections, every busy one is open, and connecting finds all permits free. |
| Watching.NoWorkIsLeftIdle | sabnzbd/downloader.py:380-413 | On every run whose reads and writes come to watched connections, each connection with its handshake done that has a request to send or a response to come is busy, so that the main loop hears of it. |
| Watching.RestartLeadsToRemoval | sabnzbd/downloader.py:620-631 | A server without busy connections is removed once it was marked for a restart, and not before. |
| Watching.DeactivatedServer | sabnzbd/downloader.py:166-169 | A deactivated server has nothing prefetched and hands out nothing. |
| Ownership.RemovalStrandsNothing | sabnzbd/downloader.py:620-631 | When a restarting server without busy connections is stopped and removed, no article is left at it. |
| Ownership.ResetConnsEmpty | sabnzbd/downloader.py:171-176 | The loop of `stop` empties every connection it meets. |
| Ownership.AccountedExactlyUnlessSurprised | sabnzbd/newswrapper.py:183-193 | A response leaves every article accounted for if and only if it is not a 480 on a ready connection with an article waiting. |
| Ownership.SurpriseHappens | sabnzbd/newswrapper.py:189-193 | For any two articles and any server without login, a run from the start to a connection that has one in flight and one waiting; a 480 then frees both, and the second is still attached. |
| NewsWrappers.Server.constructor | sabnzbd/downloader.py:103-164 | A server starts with its threads idle and nothing queued. |
| NewsWrappers.Server.GetArticle | sabnzbd/downloader.py:178-204 | The prefetch queue, the result and the articles disposed of are as specified, peeking or not. |
| NewsWrappers.Server.ResetArticleQueue | sabnzbd/downloader.py:206-216 | The loop frees every queued article in order. |
| NewsWrappers.Server.Deactivate | sabnzbd/downloader.py:166-169 | The server is inactive and its queue is freed. |
| NewsWrappers.Server.Stop | sabnzbd/downloader.py:171-176 | Every idle connection is reset once, in some order, with all it held disposed of; then the queue is freed. |
| NewsWrappers.NewsWrapper.InitConnect | sabnzbd/newswrapper.py:122-135 | The greeting takes a permit and the first place in the response queue; a connection in order stays so. |
| NewsWrappers.NewsWrapper.AddSocket | sabnzbd/downloader.py:380-390 | An open connection moves from idle to busy; a closed one stays. |
| NewsWrappers.NewsWrapper.RemoveSocket | sabnzbd/downloader.py:402-413 | An open connection moves from busy to idle; a closed one stays. |
| NewsWrappers.NewsWrapper.Discard | sabnzbd/newswrapper.py:496-516 | An article of a removed job is dropped; one tried too often is given up on this server; any other goes back. |
| NewsWrappers.NewsWrapper.QueueCommand | sabnzbd/newswrapper.py:183-193 | The guard discards the waiting article and rebinds it. |
| NewsWrappers.NewsWrapper.QueueArticle | sabnzbd/newswrapper.py:195-207 | STAT, HEAD, BODY or ARTICLE, by pre-check and by what the server supports. |
| NewsWrappers.NewsWrapper.FinishConnect | sabnzbd/newswrapper.py:137-181 | Every login branch leads to the specified flags, request and error. |
| NewsWrappers.NewsWrapper.HardReset | sabnzbd/newswrapper.py:466-486 | The waiting request and the whole response queue are drained, the socket removed, and a new generation starts afresh. |
| NewsWrappers.WriteAccounts | sabnzbd/newswrapper.py:402-464 | What `Write` logs on the objects accounts for every article: a ledger that agrees with them before agrees with them after. |
| NewsWrappers.ReadAccounts | sabnzbd/newswrapper.py:284-353 | So does what `Read` logs, unless a 480 surprises the connection. |
| NewsWrappers.ResetAccounts | sabnzbd/newswrapper.py:466-486 | And what `HardReset` logs. |
| NewsWrappers.NewsWrapper.PrepareRequest | sabnzbd/newswrapper.py:369-400 | The request, the feed and the answer are as specified, before and after login, with the server ready or not. |
| NewsWrappers.NewsWrapper.SendNext | sabnzbd/newswrapper.py:422-442 | A request is sent whole or in part, skipped for its job, blocked, or the connection is reset. |
| NewsWrappers.NewsWrapper.Write | sabnzbd/newswrapper.py:402-464 | The buffer is flushed first, and only then a request prepared and sent; permits, queue, wire and login of the object stay exact. |
| NewsWrappers.NewsWrapper.OnResponse | sabnzbd/newswrapper.py:209-282 | Every status code releases one permit and leads to the specified end of the article. |
| NewsWrappers.NewsWrapper.ReadAll | sabnzbd/newswrapper.py:317-331 | The loop pairs responses with the queue until a reset or a response without an entry. |
| NewsWrappers.NewsWrapper.Read | sabnzbd/newswrapper.py:284-353 | The responses are handled and then the next request is prepared, or the socket removed; unless a 480 surprises it, the object stays exact. |
| NewsWrappers.Downloader.ResetNw | sabnzbd/downloader.py:942-964 | The failed article is discarded before the connection is reset. |
| NewsWrappers.Downloader.FinishConnectNw | sabnzbd/downloader.py:859-940 | A permanent error is penalized as specified, and answered with False. |
| Decoders.BackToPoolExactly | sabnzbd/decoder.py:63-157 | A corollary of `Decode`: an article goes back to the pool if and only if memory ran out, or it failed and another server can be tried; then no server has it, and the one that failed is not asked again. |
| Trials.GivenUpExactly | sabnzbd/nzb/article.py:178-193 | An article that is not accepted goes back to the pool if and only if memory ran out, or some server in the list is active, of no higher priority than the one that failed, and neither that one nor on the try list; otherwise it is registered, with the server that failed on its try list, and marked as on disk unless in pre-check. |
| Trials.AcceptedIsRegistered | sabnzbd/decoder.py:63-157 | What is delivered, present in pre-check, or badly formed but named by its lines, is registered at any server. |
| Trials.SavedExactly | sabnzbd/decoder.py:95-157 | Data is saved if and only if it is what the reply holds, is not empty, and is in good order or has no server left to better it. |
| Trials.GivenUpAfterAllHadIt | sabnzbd/nzb/article.py:178-193 | Among servers of one priority an article that fails everywhere is given up only after every active one had it. |
| Trials.DeliveredIsSaved | sabnzbd/decoder.py:63-157 | A download in good order is saved to the byte and registered, with its header, and left to be written. |
| Decoders.MissingGoesOn | sabnzbd/downloader.py:558-572 | A corollary of `DecodeReply`: without a response or decoded bytes an article goes to another server, or is registered and marked to be skipped. |
| Decoders.FailuresRunOut | sabnzbd/nzb/article.py:178-193 | Every failure that sends an article on, whether it arrived or not, leaves it fewer servers to be given to; running out of memory is not the server's failure. |
| Decoders.ScanExactly | sabnzbd/decoder.py:116-126 | The scan of the lines finds the article present if and only if some line names the message and no line but an extension header has a clue that it was removed. |
| Decoders.SettledIsDecoded | sabnzbd/downloader.py:558-572 | The end that a call on a connection logs for an article is the one that decoding comes to, when the articles it takes as settled are those that are good or present, or have no other server to try, and did not run out of memory. |
| Decoders.BadDataIsSkippedExactly | sabnzbd/decoder.py:95-157 | Data is saved and yet marked as on disk if and only if it is bad, not empty, no other server can be tried, and the job is not finished; good data is saved exactly and left to be written. |
| BadData.PassIgnoresMarked | sabnzbd/assembler.py:372-432 | A whole pass leaves the data of a marked article where it is, and everything it does, to any file, is the same whatever that data is. |
| BadData.BadDataIsLeftOver | sabnzbd/decoder.py:143-157 | From decoding on: bad data that is saved and marked is taken by no turn of any later run, and stays loadable until a flush or a call about this article. |
| BadData.BadDataIsNotWritten | sabnzbd/nzbqueue.py:733-736 | A new job with a file of one part, of which the only server has a damaged copy: a last pass that begins before the article is marked as on disk writes the damaged part; one that begins after it goes through the file, leaves it empty, and the data is still in the cache. |
| Decoders.PrecheckLeavesNothing | sabnzbd/decoder.py:110-138 | A corollary of `BackToPoolExactly`: pre-check saves and marks nothing, and registers an article if and only if it is present or no other server can be tried. |
| DecodedArticles.Article.AllowNewFetcher | sabnzbd/nzb/article.py:137-147 | The article is free again, with or without the server on its try list. |
| DecodedArticles.Article.SearchNewServer | sabnzbd/nzb/article.py:178-193 | The loop finds another server exactly when there is one that is active, untried and of no higher priority, and frees the article then. |
| DecodedArticles.Article.ScanLines | sabnzbd/decoder.py:117-126 | The loop with its break computes the specified scan. |
| DecodedArticles.Article.RegisterArticle | sabnzbd/nzbqueue.py:715-736 | An article of a finished job is freed; a failed one of a download is marked as on disk. |
| DecodedArticles.Article.Decode | sabnzbd/decoder.py:63-157 | Every exception path leads to the specified article, saved data and end of the stay. |
| DecodedArticles.Article.DecodeReply | sabnzbd/downloader.py:558-572 | A missing response is not decoded. |
| Restarts.NoWaitWhilePending | sabnzbd/downloader.py:716-723 | On every run `server_restarts` is at least the number of pending restarts, so the main loop does not begin to wait while one is pending. |
| Restarts.MayWaitExactly | sabnzbd/downloader.py:716-723 | It may begin to wait if and only if nothing is pending and no restart was ever asked for twice. |
| MainLoops.WaitsWhilePendingExactly | sabnzbd/downloader.py:715-723 | On every run of the loop and the other threads, at every moment, the loop waits while a restart is pending if and only if a restart was asked for since it last ran and nothing has notified it since. |
| MainLoops.DecidesWithNonePending | sabnzbd/downloader.py:716-722 | It never decides to wait with a restart pending. |
| MainLoops.RunsUntilRemoval | sabnzbd/downloader.py:604-628 | Once it runs with a restart pending it does not wait again before it has taken a server out. |
| MainLoops.TimerIsMissed | sabnzbd/downloader.py:991-998 | A run from the start in which a timer passes while the loop waits: the restart is pending, and the loop waits until it is notified. |
| Restarts.NeverWaitsAgain | sabnzbd/downloader.py:345-353 | After a restart was asked for twice the counter never returns to zero. |
| Restarts.AskedTwice | sabnzbd/downloader.py:345-353 | A run with two requests and one removal after which the counter is one and nothing is pending. |
| Restarts.CheckTimersAwaits | sabnzbd/downloader.py:1019-1038 | After `check_timers` every server is active, pending, or has an unexpired timer if and only if before it every server without these was the first with its id. |
| Restarts.UniqueIdsAreAwaited | sabnzbd/downloader.py:1019-1038 | With unique ids that is always so. |
| Restarts.TwoOfOneId | sabnzbd/downloader.py:345-378 | A run with a rename that is pending while a server is set up under the new id leads to two servers of one id. |
| Restarts.SecondIsForgotten | sabnzbd/downloader.py:1024-1038 | From there, with both deactivated and a timer planned for each, the second is idle after `check_timers` once the timers have passed: its id was kicked for the first. |
| Restarts.InitKeepsUnique | sabnzbd/downloader.py:316-378 | `init_server` keeps ids unique if and only if it does not create a server under an id in use. |
| Restarts.InsertSorts | sabnzbd/downloader.py:377-378 | A new server is put where sorting the list puts it, and none is lost. |
| Downloaders.Downloader.InitServer | sabnzbd/downloader.py:316-378 | The first server with the old id is marked and counted, or a new one is created in its place in the order. |
| Downloaders.Downloader.PlanServer | sabnzbd/downloader.py:976-989 | One stamp is added to the server's timers. |
| Downloaders.Downloader.TriggerServer | sabnzbd/downloader.py:991-998 | Only a stamp that is still planned restarts the server, and it clears all its timers. |
| Downloaders.Downloader.Unblock | sabnzbd/downloader.py:1000-1013 | The timers go, and an inactive server is restarted. |
| Downloaders.Downloader.CheckTimers | sabnzbd/downloader.py:1019-1038 | Both loops lead to the specified state, with everything awaited exactly when nothing but first servers was forgotten before. |
| Downloaders.Downloader.RemoveRestarted | sabnzbd/downloader.py:604-628 | The first restarting server without busy connections, and without a search for articles that lies ahead, is removed if there is one; the counter falls by one and its successor is set up. |
| Timers.TriggerExactly | sabnzbd/downloader.py:991-998 | A timer that passes asks a restart of the first server of its id exactly if its stamp is still planned, and then no stamp of the id is. |
| Timers.UnblockExactly | sabnzbd/downloader.py:1000-1013 | Unblocking takes the id's stamps away and asks a restart exactly if some server of the id is inactive. |
| Timers.CheckTimersSpares | sabnzbd/downloader.py:1019-1038 | `check_timers` leaves alone the first server of an id with a stamp that has not passed, and its stamps, and that of an id without stamps whose servers are all active. |
| Timers.RemoveExactly | sabnzbd/downloader.py:620-628 | A removed server is gone, the others stay in order, the one under its new id is set up if it is configured, and the counter falls by one. |
| Timers.PlanExactly | sabnzbd/downloader.py:977-989 | Planning adds one stamp to those of the id. |
| Metering.EveryByteIsCounted | sabnzbd/bpsmeter.py:272-342 | On every run from zero, received bytes since the last clear plus those cached at it equal grand total plus cached; the grand total is the sum of the timeline; day is at most week and month, and these at most grand total. |
| Periods.EveryTotalIsItsPeriod | sabnzbd/bpsmeter.py:280-329 | On every run from zero, for every server, the totals of day, week and month are exactly the bytes flushed since the last flush past the end of a day, of the week and of the month, the grand total all of them, the timeline those under each label, and each end the one that was current at the last flush past it. |
| Periods.SpeedIsBytesOverTime | sabnzbd/bpsmeter.py:309-351 | Until the window is five seconds long the speed is the bytes since it began over the time since it began. |
| Periods.SteadySpeedStays | sabnzbd/bpsmeter.py:309-340 | A steady speed is shown as it is, for all servers together and for each, however long the window is. |
| Periods.WindowIsFiveSeconds | sabnzbd/bpsmeter.py:342-348 | The window ends now and reaches back five seconds, or to where it began. |
| Metering.EverySumIsExact | sabnzbd/bpsmeter.py:318-351 | On every run `bps` is the sum of `server_bps` and `sum_cached_amount` the sum of `cached_amount`. |
| Metering.QuotaIsUsage | sabnzbd/bpsmeter.py:333-342 | On every run, while a non-zero quota is set, `quota - left` is what was charged since it was set or reset; the count of a quota that follows one of size zero starts, by definition, at what `left` then holds, as `ChangeKeepsUsageExactly` and `ZeroSizeFlipsUsage` describe. |
| Metering.ChangeKeepsUsageExactly | sabnzbd/bpsmeter.py:515-541 | Changing a quota keeps its usage if and only if it was not zero, or nothing was left of none. |
| Metering.ZeroSizeFlipsUsage | sabnzbd/bpsmeter.py:528-537 | A zero size on the way turns the usage into its opposite. |
| Periods.QuotaAsLastSet | sabnzbd/bpsmeter.py:515-539 | On every run there is a quota exactly if the last change of it says so, and it is on or off as it was switched last. |
| Periods.RatesAreReset | sabnzbd/bpsmeter.py:370-379 | A reset of the rates clears every speed and begins a window, and touches no total, cached byte or quota. |
| Periods.QuotaIsSet | sabnzbd/bpsmeter.py:515-539 | A quota is as large as configured; one before it leaves its usage, and where there was none what `left` holds, or the usage of the period if none was ever set, counts as used; taking it away leaves neither size nor rest. |
| Periods.WindowIsNotEmpty | sabnzbd/bpsmeter.py:315-317 | A window counts as no shorter than a millionth of a second. |
| Periods.NoTrickle | sabnzbd/bpsmeter.py:339-351 | After an update the speed is at least a hundredth of a byte a second, or nothing in a window that begins anew. |
| Periods.ResetIsUnused | sabnzbd/bpsmeter.py:467-480 | A quota that is reset is unused. |
| Metering.FlushRaisesExactly | sabnzbd/bpsmeter.py:282-325 | A flush raises `KeyError` if and only if the day is over and bytes are cached for a server no longer in the list. |
| Metering.RemovedServerRaises | sabnzbd/bpsmeter.py:282-325 | From any meter at zero, for any server and any number of bytes, a run after which the flush at the end of the day raises. |
| Metering.NothingEndsWithinTheDay | sabnzbd/bpsmeter.py:282-297 | A flush before the end of the day only adds, to all four totals alike. |
| Meters.NewBpsSums | sabnzbd/bpsmeter.py:330-340 | The new speeds of the servers add up to the new speed of their sum. |
| BpsMeters.BPSMeter.InitServerStats | sabnzbd/bpsmeter.py:246-264 | Only missing counters are made, at zero. |
| BpsMeters.BPSMeter.Receive | sabnzbd/bpsmeter.py:272-278 | Bytes are cached for the server and in the sum, and nothing else changes. |
| BpsMeters.BPSMeter.Rollover | sabnzbd/bpsmeter.py:280-301 | Day, week and month end only with a day, and the listed servers get new counters. |
| BpsMeters.BPSMeter.FlushServers | sabnzbd/bpsmeter.py:318-331 | The loop moves every cached count to all counters and takes every speed, in any order, or ends at a missing counter. |
| BpsMeters.BPSMeter.Flush | sabnzbd/bpsmeter.py:272-351 | The whole update leads to the specified meter, and raises exactly when a needed counter is missing. |
| BpsMeters.BPSMeter.Reset | sabnzbd/bpsmeter.py:370-379 | All speeds are zero and the window starts now. |
| BpsMeters.BPSMeter.ClearServer | sabnzbd/bpsmeter.py:412-429 | The server's counters start again at zero; its cached bytes stay. |
| BpsMeters.BPSMeter.ChangeQuota | sabnzbd/bpsmeter.py:515-539 | Every branch leads to the specified size, rest and flag. |
| Calendar.CivilRoundTrip | sabnzbd/bpsmeter.py:41-90 | `localtime` gives a valid date of every day and `mktime` takes it back. |
| Calendar.DayNumberRoundTrip | sabnzbd/bpsmeter.py:41-90 | `localtime` takes back `mktime` of every valid date. |
| Calendar.WeekDaysFollow | sabnzbd/bpsmeter.py:48-61 | Monday is 0, the days of the week follow one another, and 1 January 2000 was a Saturday. |
| Calendar.TomorrowIsNext | sabnzbd/bpsmeter.py:41-45 | `tomorrow` is the first midnight after now. |
| Calendar.NextWeekIsNext | sabnzbd/bpsmeter.py:48-61 | `next_week` is the first midnight of a Monday after now. |
| Calendar.NextMonthIsNext | sabnzbd/bpsmeter.py:71-90 | `next_month` is the first midnight of a first of a month after now. |
| Calendar.MonthlyIsNextExactly | sabnzbd/bpsmeter.py:502-512 | The monthly rule gives the earliest match strictly after now if and only if it is not asked on the last day of a month too short for it, after the moment. |
| Calendar.NextResetIsNext | sabnzbd/bpsmeter.py:484-513 | For every period the next reset is the earliest matching instant strictly after now, but for that case exactly. |
| Calendar.EveryShortMonthIsMissed | sabnzbd/bpsmeter.py:502-508 | The case arises on the last day of every month that is too short. |
| Calendar.PlannedInThePast | sabnzbd/bpsmeter.py:502-508 | On 30 April 2023 at noon the reset on the 31st is planned for the past. |
| Calendar.OldMomentCounts | sabnzbd/bpsmeter.py:484-513 | Without a period the moment stays as it was; with one it does not matter what it was. |
| QuotaTimers.QuotaTimer.ThisWeek | sabnzbd/bpsmeter.py:48-56 | The loop that steps back by days ends at the Monday of the week. |
| QuotaTimers.QuotaTimer.NextReset | sabnzbd/bpsmeter.py:484-513 | `q_time` becomes the specified moment, and stays for an unknown period. |
| Histories.PageIsSliceExactly | sabnzbd/api.py:1885-1966 | For a positive limit a page is, as a multiset, items start to start + limit of the combined list if and only if no job of its post-processing slice is among its database rows. |
| Histories.PageInOrder | sabnzbd/api.py:1956-1961 | For disjoint lists a page is the reversed post-processing slice followed by the database slice. |
| Histories.PageIsExactly | sabnzbd/api.py:1885-2018 | For a positive limit and any two lists a page is the jobs of its post-processing slice whose id no row of its database slice has, in the reverse of their order, followed by these rows. |
| Histories.EveryJobIsOnItsPage | sabnzbd/api.py:1885-2018 | So every job of the combined list's slice is on the page under its id. |
| Histories.PagesCoverEveryJobOnce | sabnzbd/api.py:1885-1966 | Consecutive pages that reach the end list every job exactly once. |
| Histories.NoLimitHidesTheDatabase | sabnzbd/api.py:1909-1944 | Without a limit no job of the database is on any page. |
| Histories.NoLimitIsRestExactly | sabnzbd/api.py:1909-1944 | The page without a limit is, as a multiset, the rest of the combined list if and only if the database holds nothing or the page starts at the end. |
| Histories.RowIsHidden | sabnzbd/api.py:1909-1944 | With one job in each list the page without a limit shows the first alone, and one with a limit of two shows both. |
| Histories.BuildHistory | sabnzbd/api.py:1885-1966 | The slices, reversals and totals lead to the specified page, archive or not. |
| Histories.AddActiveHistory | sabnzbd/api.py:1969-2018 | The loop appends the jobs whose id is not listed yet, in order. |
| StageLogs.RoundTripExactly | sabnzbd/database.py:569-605 | Unpacking a packed log gives its stages stably sorted by rank if and only if every stage is clean. |
| StageLogs.NoColonIsEnough | sabnzbd/database.py:526-532 | A stage is clean when its name has no colon or CR LF, it has an action, and no action has a semicolon, three colons or CR LF. |
| StageLogs.UnpackedIsTheStableSort | sabnzbd/database.py:601-603 | The result is the only list that is ordered by rank and keeps the order of stages of one rank. |
| StageLogs.UnpackedInOrder | sabnzbd/constants.py:133-143 | Whatever the text is, its stages come in the fixed order of stages, and those of other names last. |
| StageLogs.PackStages | sabnzbd/database.py:526-532 | The loop builds the specified text. |
| StageLogs.UnpackStages | sabnzbd/database.py:576-605 | The loop skips lines without exactly one separator and sorts the rest. |
| StableSorts.SortIsStable | sabnzbd/database.py:601-603 | Sorting orders by key, loses nothing, and keeps those of one key in their order. |
| StableSorts.StableSortIsUnique | sabnzbd/database.py:601-603 | Two ordered lists with the same elements of every key in the same order are equal. |
| Texts.SplitJoin | sabnzbd/database.py:581-595 | Splitting a joined text gives the pieces back when they can be told apart. |
| Texts.JoinSplit | sabnzbd/database.py:581-595 | Joining the pieces of a split gives the text back. |
| Texts.SplitSeparates | sabnzbd/database.py:581-595 | The pieces of a split can always be told apart. |

## Left out

Taken as given:

- Decoding of yEnc and UU, CRC values and sparse files: decoded bytes, header fields and the outcome of `sparse` are inputs.
- Sockets, TLS, selectors, DNS and time-outs: how many bytes a send takes, whether it blocks or breaks, which responses arrive, and when a connection is reset are arbitrary.
- Locks: a call that the program makes under a lock is one step. Of what it does without one, a save, a load, a turn of the loops of `assemble`, `flush_articles` and `purge_articles`, and a single change of a server or timer are one step each, and other threads run between them; `CacheSizes` takes the changes of the cache's size and table apart further. That a turn of a flush has an article in hand between taking it from the table and writing it out is not modelled.
- `NzbQueue.get_articles` gives out only articles that no server holds, each once. Which articles these are, and server priorities, are not modelled.
- On a connection, whether decoding settles an article or gives it back is an input of each call; `Decoders.SettledIsDecoded` ties it to what decoding does. The order in which servers are tried (`Article.get_article`) and the filename checks during decoding are not modelled.
- `get_new_id` never gives a name in use: an article's admin file is its own.
- Queries of the history database: the filtered rows arrive as a list.

Modelled in another form:

- `Article`, `saved_articles` and the admin folder are records inside `NzbFile`: one flag and one optional file for each article.
- That direct write is turned off in the configuration once sparse files or a direct write prove impossible is a step of its own, which may come at any time.
- Server ids and day labels are only compared, and are plain values. The filters of the history and all fields of a job but its id are not modelled.
- How often an article was tried is a property of the jobs at each call (`exhausted`), not a counter.
- The calendar has a leap year every fourth year, which is right from 1901 to 2099, and a fixed offset to UTC.
- Speeds and quota are real numbers; rounding is not modelled.
- The list of servers is sorted by a number in place of priority and name.
- The permits of a connection after a reset are those of the limit configured at that moment, which is an input.

Not modelled:

- Interleaving.EveryRunAssembles: runs in which a part does not decode to what was posted, for which `BadData` says what is left; runs that leave `assemble` through one of its two late breaks, or save an article that the cache already holds; `Interleaving.LostExactlyThroughBreaks` gives the first case exactly. Data lost from the cache or the admin folder, and append mode with missing parts before parts already written, are outside it too.
- Ownership.EveryArticleInOnePlace: runs with a 480 on a ready connection while an article waits; `Ownership.AccountedExactlyUnlessSurprised` gives that case exactly.
- Metering.EveryByteIsCounted: runs after a flush that raised `KeyError`; `Metering.FlushRaisesExactly` gives that case exactly. Reading saved totals from disk and the defaults taken from the history are outside it.
- Calendar.NextResetIsNext: resets at an hour past 23 or a minute past 59, which the setting's pattern lets through.
- Writes that raise `OSError` within `assemble`, `ready_bytes`, `should_queue_nzf`, `delay`, disk space checks, and what happens to a file once it is assembled.
- `save_data` that fails, the flush thread of the cache, and the choice of files that it hands to the assembler.
- The QUIT command on closing, the text clues by which a login error becomes a penalty, and exceptions other than `NNTPPermanentError` during login.
- The bps list, article statistics, notifications and pausing when the quota is spent, and `unblock_all`.
- Post-processing, RAR and par2 inspection, the web interface, configuration storage, `directunpacker.py` and `dirscanner.py`: driven from outside, or easy members.
