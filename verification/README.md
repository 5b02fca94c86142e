# A verified model of the Axcess crawl

Axcess crawls a web site, keeps a copy of what it saw, and turns findings into a report that experts
complete. This project models the parts of it whose correctness is not visible in any one function,
and proves what they promise for every input, every interleaving and every run.

* **The crawl** (`JobQueue`, `Crawl`, `CrawlInvariant`, `CrawlSteps`, `CrawlReach`, `CrawlBreadthFirst`,
  `CrawlTermination`, `CrawlVisits`, `CrawlPageLimit`, `CrawlRowSteps`, `CrawlChords`, `CrawlSchedule`,
  `CrawlDepthLimit`, `CrawlWorker`). A
  persistent job table is drained by cooperative workers. The crawl is a transition system whose steps are
  the code between two awaits, with crashes before, in and after every step that enqueues, and restarts.
  The site is an arbitrary function from URL to links; `CrawlVisits` lets every visit answer differently.
  Whole-run theorems: completeness, breadth-first depths, the depths many workers can record, sound
  quiescence, the page limit from above and from below, termination on infinite sites, and that a crashed and resumed crawl
  ends like one that never crashed. `CrawlWorker.WorkerContext` is the program's own object; each of its
  methods is proved to be one step, on a table shared with other scans.
* **Saved style sheets** (`StyleText`, `StyleWalk`, `StyleSnapshot`, `StyleLayers`, `ImportConditions`,
  `SheetImports`, `SheetFetch`, `SheetLayers`, `SheetBrowser`, `SheetCache`, `SheetCacheSteps`,
  `SheetCacheRuns`, `SheetCacheMisses`, `SheetCacheEnds`, `SheetTable`). A tree of sheets and `@import` rules
  becomes a bounded list of texts. CSS means a sequence of rules, each with its stack of conditions. Every sheet and address
  holds its rules whether or not they can be read or fetched; the capture must keep them all or say that it
  is incomplete, and must not say so needlessly. The fetch cache that concurrent pages share must answer as
  direct recursive fetching would.
* **The per-host limiter** (`RateLimit`), over real-valued time.
* **URLs** (`FormEncoding`, `UrlNormal`, `UrlCanonical`, `UrlScope`). The normal form is the key by which
  the whole crawl recognises a page; the scope decides what is crawled.
* **Element places** (`Places`, `ImageRefs`). Elements are named by counting, and the count must be the
  one a browser makes on a pruned copy.
* **Review and report** (`Evaluation`, `FindingStatus`, `StatusHistory`, `AuditReport`, `QualityGate`).

`Text` holds shared value types and string facts.

## What turned out false

Eight promises of the program or its documentation fail on some input. The code is modelled as it is; each
failure has a lemma with an input that shows it, and the condition under which the property holds is proved.

* `normalize` is not idempotent: a link to `http://h/a #x` normalizes to a URL with a trailing space,
  which a second pass strips (`UrlCanonical.IdempotenceFails`). It is idempotent exactly when the normal form
  does not end in the white space of a bare path, and a third pass never changes anything.
* With several workers a page within the depth limit can be missed: a longer path to its parent may be
  recorded first, at the limit (`CrawlDepthLimit.DepthLimitCanMissPage`). The depths that can be recorded are
  exactly the lengths of chordless link paths, so a page that one page alone links to can be missed exactly
  when a chordless path as long as the limit leads to that page. However many pages link to it, no page is
  missed at the end of a path whose earlier pages have no such chordless path
  (`CrawlDepthLimit.ShortPathIsProcessed`), nor, when runs may die half-way through enqueuing, at the end of one
  whose earlier pages have only shorter simple paths (`CrawlReach.SurePathIsProcessed`).
* A sheet imported into an unnamed layer and captured in several texts becomes several layers, whose
  rules no longer compete by specificity (`StyleLayers.LayerIsCut`). The number of layers survives exactly
  when no such import is captured in more than one text.
* An imported sheet that a script disabled is captured as if it were in force, and the snapshot still
  says it is complete (`StyleSnapshot.DisabledImportIsKept`). What is captured is what was in force exactly
  when no disabled imported sheet holds a rule.
* A fetched sheet that orders its layers with an `@layer` statement before its imports loses those
  imports, and the snapshot is still complete (`SheetBrowser.HiddenImportIsLost`). A fetched text means what
  its address holds exactly when no sheet in the tree of imports below it hides an import that holds a rule.
* `SheetCache` says that a request that raised is not kept; the sheet that imported it is kept as
  missing for the whole scan (`SheetCacheMisses.RaiseBelowIsRemembered`). A wrong answer can be kept for a
  sheet exactly when the sheet can be had and imports another (`SheetCacheMisses.WrongIsKeptExactly`).
* A place counted for the selector `noscript` counts elements the inspector removes
  (`Places.NoscriptIsCounted`); for every other tag the counts agree. No caller in the program asks for it.
* The report drops an open finding when its row's status summary is out of date
  (`AuditReport.StaleSummaryHidesFinding`). No open finding is lost exactly when no row reads as fully
  triaged while a finding of it is open.

## Model

| member | source | states |
|---|---|---|
| JobQueue.DedupeKeyInjective | src/audit/crawler/orchestrator.py:929-930 | Two jobs share a dedupe key exactly when they are the same URL of the same scan |
| JobQueue.UpdateKeepsValid | src/audit/db/queue.py:62-174 | No statement but INSERT can break id order or the uniqueness of keys |
| JobQueue.ViewOfUpdate | src/audit/db/queue.py:62-174 | Every UPDATE acts on one scan's rows as on a table that holds that scan alone |
| JobQueue.UpdateLeavesOthers | src/audit/db/queue.py:62-160 | An UPDATE of one scan's row changes no other scan's rows |
| JobQueue.ViewOfInsert | src/audit/db/queue.py:41-59 | A job is inserted exactly when its own scan lacks the URL, and other scans see nothing |
| JobQueue.ViewOfFirstReady | src/audit/db/queue.py:99-110 | A lease for a scan hands out the job that scan's own queue would |
| JobQueue.JobTable.Enqueue | src/audit/db/queue.py:41-59 | Appends one pending row with a fresh id, or nothing when the key is taken |
| JobQueue.JobTable.Lease | src/audit/db/queue.py:62-122 | Claims the pending row with the lowest id, counting the attempt, and changes no other row |
| JobQueue.JobTable.CompleteJob | src/audit/db/queue.py:125-134 | Completes the row and clears its lease, whoever holds it |
| JobQueue.JobTable.FailJob | src/audit/db/queue.py:137-160 | Back to pending below three attempts, failed otherwise |
| JobQueue.JobTable.ReclaimExpired | src/audit/db/queue.py:163-174 | Frees exactly the leases that have run out and counts them |
| JobQueue.JobTable.PendingCount | src/audit/db/queue.py:177-204 | The number of pending rows; zero exactly when there is nothing to lease |
| CrawlSteps.StepKeeps | src/audit/crawler/orchestrator.py:1177-1201 | Every step of every worker, crashes and restarts included, keeps: in_flight counts the holders, no job is held twice, every job was linked from an earlier one, a completed job's links all have rows |
| CrawlSteps.HistoryKeeps | src/audit/crawler/orchestrator.py:404-447 | The same after every history of starts, crashes and interleavings |
| CrawlSteps.PurgeDropsNothing | src/audit/crawler/orchestrator.py:882-917 | Under an unchanged scope a restart deletes no job |
| CrawlReach.PageLimitOvershoot | src/audit/crawler/orchestrator.py:1231-1233 | With w workers and limit m at least 1, pages fetched never exceed m + w - 1, retries and interleavings included |
| CrawlPageLimit.GuardsAreExact | src/audit/crawler/orchestrator.py:1179-1191 | The four branches of the loop, on the queue and counters themselves: at the limit exactly when pages fetched reach it, else take exactly when a job is pending, else sleep exactly when a worker holds one, else leave |
| CrawlPageLimit.HeldPageIsCounted | src/audit/crawler/orchestrator.py:1236-1343 | A held page is counted once, exactly when it is in scope, not blocked, allowed by robots.txt and fetched, and finished when counted or never to be |
| CrawlPageLimit.LimitIsUsedUp | src/audit/crawler/orchestrator.py:1231-1233 | A run at rest below its page limit has no pending job, whatever each visit answered; one that left a job pending fetched at least the limit and at most w - 1 more |
| CrawlPageLimit.NoLimitNoEarlyExit | src/audit/crawler/orchestrator.py:1231-1233 | Without a limit a run at rest has no pending job |
| CrawlPageLimit.HistoryIsVisits | src/audit/crawler/orchestrator.py:1177-1201 | A history on a site that does not change is one of visits that answer alike, so both hold of it |
| CrawlPageLimit.PagesAreThisRuns | src/audit/crawler/orchestrator.py:1343 | The counter is the number of pages that came back since the last start, over any history |
| CrawlPageLimit.FinishAddsLinks | src/audit/crawler/orchestrator.py:1554-1566 | Finishing a page adds a row for exactly its links in scope and not blocked, if it came back, is above the depth limit, and fewer pages were fetched than the limit allows |
| CrawlPageLimit.FinishAddsOneLevelDown | src/audit/crawler/orchestrator.py:1554-1566 | Those rows are pending and one level below the page |
| CrawlRowSteps.RowStep | src/audit/db/queue.py:62-174 | What each step does to each row, crashes and restarts included: leased for 120 seconds with its attempt counted if it is the first pending, completed by its holder, returned or, from the third attempt, given up, freed by a start after its lease ran out, and otherwise unchanged |
| CrawlRowSteps.NewRowStep | src/audit/crawler/orchestrator.py:1684-1731 | Every row a step adds is pending, untried and new to its scan: a seed at depth 0, or a link of the held page in scope, not blocked, one level down and within the depth limit |
| CrawlRowSteps.LinksKeepOrder | src/audit/crawler/orchestrator.py:1684-1731 | A page's links are queued in the order in which the page first has them |
| CrawlRowSteps.GivenUpLate | src/audit/db/queue.py:137-160 | No job of any history is given up before its third attempt |
| CrawlRowSteps.PurgeIs | src/audit/crawler/orchestrator.py:882-917 | Under a changed scope a restart drops exactly the pending jobs outside it |
| CrawlReach.StepKeepsLeases | src/audit/crawler/orchestrator.py:413 | When each start waits for outstanding leases to expire, every leased row is held by a live worker |
| CrawlReach.IdleExitIsSound | src/audit/crawler/orchestrator.py:1184-1189 | A worker leaves through the idle branch only when no job is pending or held, and then no later step of the run touches or adds one |
| CrawlReach.QuietMeansSettled | src/audit/crawler/orchestrator.py:1177-1201 | When all workers have left, no limit applied and nothing failed, every job is completed |
| CrawlReach.DepthIsAPath | src/audit/crawler/orchestrator.py:1556-1566 | Under every interleaving a job's depth is the length of a real link path from an entry |
| CrawlReach.DepthNeverBelowDistance | src/audit/crawler/orchestrator.py:1556-1566 | No job is ever recorded nearer than its shortest link distance |
| CrawlReach.DepthIsASimplePath | src/audit/crawler/orchestrator.py:1556-1566 | Under every interleaving and crash a job's depth is the length of a simple link path |
| CrawlReach.SurePathIsProcessed | src/audit/crawler/orchestrator.py:1684-1731 | On any site, however large, a crawl that comes to rest has processed the end of every link path whose earlier pages have only simple paths shorter than the depth limit |
| CrawlReach.Completeness | src/audit/crawler/orchestrator.py:1684-1731 | When no page that has links has a simple path as long as the depth limit, a crawl at rest has processed exactly the URLs reachable through admissible links, one completed row each, for any number of workers, interleaving and crashes |
| CrawlReach.CountIsDeepEnough | src/audit/crawler/orchestrator.py:1684-1731 | A depth limit no smaller than the number of admissible URLs meets that condition |
| CrawlReach.ResumeEqualsUninterrupted | src/audit/crawler/orchestrator.py:404-447 | However often and wherever it crashed, half-way through enqueuing included, a crawl ends with the same jobs |
| CrawlBreadthFirst.HistoryKeepsFifo | src/audit/db/queue.py:85-110 | With one worker, jobs are leased in order of depth, retries included |
| CrawlBreadthFirst.BreadthFirstExactness | src/audit/db/queue.py:85-110 | With one worker every recorded depth is the shortest link distance and the jobs are exactly the URLs within the depth limit |
| CrawlBreadthFirst.LoneResumeEqualsUninterrupted | src/audit/crawler/orchestrator.py:404-447 | With one worker crashed and uncrashed crawls agree on URLs and depths at every depth limit |
| CrawlChords.DepthIsAChordlessPath | src/audit/crawler/orchestrator.py:1556-1566 | Unless a run dies half-way through enqueuing, a recorded depth is the length of a chordless link path within the limit |
| CrawlSchedule.ReachPage | src/audit/crawler/orchestrator.py:1177-1201 | Enough workers can finish the pages of any chordless path in turn while every other page is held |
| CrawlDepthLimit.DepthsRecordable | src/audit/crawler/orchestrator.py:1556-1566 | A page can be recorded at a depth by some number of workers exactly when a chordless path of that length, within the limit, leads to it |
| CrawlDepthLimit.ManyWorkersBreadthFirst | src/audit/db/queue.py:85-110 | Any number of workers records only link distances exactly when every chordless path within the limit is a shortest one |
| CrawlDepthLimit.MissableExactly | src/audit/crawler/orchestrator.py:112-114 | A page only one page links to can be missed when that page is processed exactly when a chordless path as long as the depth limit leads to that page |
| CrawlDepthLimit.ShortPathIsProcessed | src/audit/crawler/orchestrator.py:112-114 | However many pages link to a page, a crawl at rest has processed the end of every link path no earlier page of which has a chordless path as long as the depth limit, unless a run died half-way through enqueuing |
| CrawlDepthLimit.LongPathCanMissPage | src/audit/crawler/orchestrator.py:112-114 | Such a path and enough workers give a crawl at rest, nothing failed, without the page |
| CrawlDepthLimit.ProcessedExactly | src/audit/crawler/orchestrator.py:1556-1566 | A URL is processed exactly when some link path leads to it on which the crawl recorded no earlier page at the limit |
| CrawlDepthLimit.DepthLimitCanMissPage | src/audit/crawler/orchestrator.py:112-114 | A crawl, with no failure and no page limit, that comes to rest with a page within max_depth left out |
| CrawlTermination.JobsBounded | src/audit/crawler/orchestrator.py:1556-1560 | Jobs never outnumber the URLs within the depth limit, even of an infinite site |
| CrawlTermination.RunTerminates | src/audit/crawler/orchestrator.py:1177-1201 | Any run takes a bounded number of steps besides waiting, from any reachable state |
| CrawlTermination.RunGoesOn | src/audit/crawler/orchestrator.py:1177-1201 | While a worker has not left, some worker can do more than wait, without an exception |
| CrawlTermination.CanComeToRest | src/audit/crawler/orchestrator.py:1177-1201 | From every reachable state a run can come to rest with no job failing |
| CrawlTermination.FreshRunLeases | src/audit/db/queue.py:137-160 | A fresh run leases each job at most three times and in all at most three times the jobs created |
| CrawlVisits.VisitsStaySound | src/audit/crawler/orchestrator.py:1177-1201 | When every visit may answer differently or fail, every history still keeps in_flight, the holders and the page limit's bound |
| CrawlVisits.VisitsOvershoot | src/audit/crawler/orchestrator.py:1231-1233 | The page limit is overshot by at most w - 1 whatever each visit answers |
| CrawlVisits.VisitsIdleExit | src/audit/crawler/orchestrator.py:1184-1189 | The idle exit is sound whatever each visit answers |
| CrawlVisits.VisitsTerminate | src/audit/crawler/orchestrator.py:1177-1201 | A run takes at most nine steps for each job there ever is and three for each worker, besides waiting, whatever each visit answers |
| CrawlVisits.VisitsTerminateWithin | src/audit/crawler/orchestrator.py:1177-1201 | If all links ever shown lie among finitely many URLs, that bounds the whole run |
| CrawlWorker.ViewOfKept | src/audit/crawler/orchestrator.py:882-917 | Deleting stale rows from the shared table is the purge of the resuming scan's rows |
| CrawlWorker.WorkerContext.StartRun | src/audit/crawler/orchestrator.py:404-447 | Reclaim, purge, seed and spawn are one Start step; other scans only lose expired leases |
| CrawlWorker.WorkerContext.PurgeOutOfScope | src/audit/crawler/orchestrator.py:882-917 | Deletes exactly this scan's pending jobs outside the scope |
| CrawlWorker.WorkerContext.SeedQueue | src/audit/crawler/orchestrator.py:920-926 | Queues each entry point once at depth 0 |
| CrawlWorker.WorkerContext.TopOfLoop | src/audit/crawler/orchestrator.py:1179-1191 | A worker leaves at the limit exactly when as many pages as it allows were fetched, otherwise takes a job exactly when one of its scan is pending, and otherwise leaves idle or sleeps as no job is held or some is; each is one step |
| CrawlWorker.WorkerContext.CountPage | src/audit/crawler/orchestrator.py:1343 | A page that came back is one Count step |
| CrawlWorker.WorkerContext.EnqueueChildren | src/audit/crawler/orchestrator.py:1684-1731 | Skipping links already seen on the page changes nothing: each admitted link has its row one level down |
| CrawlWorker.WorkerContext.FinishJob | src/audit/crawler/orchestrator.py:1554-1566 | Enqueuing links, completing and releasing is one step of this scan and none of any other; below the depth and the page limit every link in scope and not blocked has its row |
| CrawlWorker.WorkerContext.AbortJob | src/audit/crawler/orchestrator.py:1196-1201 | A failed job is returned or given up and the worker released, in one step |
| StyleText.WrapConditions | src/audit/crawler/style_snapshot.py:318-335 | The loop over reversed wrappers nests the written conditions, first outermost |
| StyleText.DenoteWrapped | src/audit/crawler/style_snapshot.py:318-335 | The text that is written means each rule under what the conditions impose in CSS, in order, and nothing else changes |
| StyleText.WrappedRuleStandsUnder | src/audit/crawler/style_snapshot.py:318-335 | A rule wrapped in a condition stands under its trimmed text: media unless blank or all, supports unless blank and in brackets, a layer always |
| StyleText.Concatenate | src/audit/crawler/style_snapshot.py:395-404 | Joins the sheets in order, each under its media |
| StyleText.DenoteNext | src/audit/crawler/style_snapshot.py:395-404 | One more sheet adds its rules under its media after all others |
| StyleWalk.ImportWrappers | src/audit/crawler/style_snapshot.py:145-154 | The recorded wrappers impose what the import puts its rules under: media, then supports, then layer |
| StyleWalk.ImportedRuleStandsUnder | src/audit/crawler/style_snapshot.py:145-187 | One rule of an imported sheet, read or fetched, stands under the import's media, test and layer, spelled out, after the conditions around it, its addresses resolved against its own sheet or else the page |
| StyleText.SameAnywhere | src/audit/crawler/style_snapshot.py:318-335 | Texts that mean the same mean the same under any conditions |
| StyleWalk.SheetPartsMean | src/audit/crawler/style_snapshot.py:155-199 | One part for each unbroken run of rules, under the conditions of the imports that lead to it, denotes the tree of sheets rule for rule when every sheet can be read or has an address, and otherwise leaves rules out |
| StyleWalk.Walker.Push | src/audit/crawler/style_snapshot.py:141-144 | A part past the sheet bound is dropped and flagged |
| StyleWalk.Walker.Flush | src/audit/crawler/style_snapshot.py:168-178 | The rules since the last import are emitted whole, or dropped and flagged when a bound leaves no room for them, and only then |
| StyleWalk.Walker.WalkImport | src/audit/crawler/style_snapshot.py:179-190 | An import is walked in place one level deeper or fetched, and flagged exactly when it is too deep, has neither sheet nor address, or passes a bound |
| StyleWalk.Walker.Walk | src/audit/crawler/style_snapshot.py:155-199 | The parts are exactly those of the tree of sheets or, flagged, some of them; the flag is set exactly when a sheet cannot be had, an import is too deep, or a bound is passed |
| StyleSnapshot.SavedMeans | src/audit/crawler/style_snapshot.py:524-550 | Wrapping each part's text keeps what the parts mean, less those whose text could not be had |
| StyleSnapshot.SavedDocumentMeans | src/audit/crawler/style_snapshot.py:155-207 | Cut into runs, wrapped and concatenated, the page's enabled sheets denote the same rules under the same conditions in the same order when each can be read or fetched, and otherwise a subsequence |
| StyleSnapshot.KeepPart | src/audit/crawler/style_snapshot.py:524-550 | A part is kept as its wrapped text, or skipped; the snapshot stays complete exactly when its text could be had and fits |
| StyleSnapshot.BuildSnapshot | src/audit/crawler/style_snapshot.py:510-557 | Complete exactly when the walk lost nothing, every part's text could be had and all fit; the sheets are then the parts' wrapped texts, and some of them in order otherwise |
| StyleSnapshot.CaptureStyles | src/audit/crawler/style_snapshot.py:141-207 | Complete exactly when every sheet could be read or fetched and no bound on depth, count or size was passed; the concatenated text then denotes the page's enabled sheets rule for rule in cascade order, each rule under what its imports impose in CSS, and a subsequence of them otherwise; at most 2000 sheets of ten million bytes and fifty million in all either way |
| StyleSnapshot.CapturableWithin | src/audit/crawler/style_snapshot.py:70-79 | What completeness asks for, in figures |
| StyleSnapshot.NestingIsLegible | src/audit/crawler/style_snapshot.py:182 | Imports nested eight deep are followed and no deeper |
| StyleSnapshot.DisabledSheetIsSkipped | src/audit/crawler/style_snapshot.py:200-207 | A disabled sheet of the page adds nothing to what it means or to what is saved |
| StyleSnapshot.DisabledImports | src/audit/crawler/style_snapshot.py:200-207 | What is captured is what was in force exactly when no disabled imported sheet holds a rule |
| StyleSnapshot.DisabledImportIsKept | src/audit/crawler/style_snapshot.py:183 | A page whose disabled import reaches a snapshot that is complete |
| StyleLayers.LayersSurvive | src/audit/crawler/style_snapshot.py:168-190 | A text saved without loss never has fewer unnamed layers than the page, and has as many exactly when no import into one is captured in several texts |
| StyleLayers.LayerIsCut | src/audit/crawler/style_snapshot.py:168-190 | A page with one unnamed layer that is saved with two, in a snapshot that is complete |
| ImportConditions.ScanSupports | src/audit/crawler/style_snapshot.py:351-360 | The bracket-counting scan ends at the bracket that closes supports( |
| ImportConditions.ParseImportConditions | src/audit/crawler/style_snapshot.py:338-369 | The parse yields media, supports, layer in that order |
| ImportConditions.ImportConditionsRoundTrip | src/audit/crawler/style_snapshot.py:338-369 | A printed import tail parses back to exactly the conditions written, if and only if its media list does not itself read as a layer or supports that was not written |
| ImportConditions.WrappedByPrintedImport | src/audit/crawler/style_snapshot.py:318-369 | Wrapping with the conditions read back puts every rule under what the import imposes in CSS before its own conditions |
| ImportConditions.FullTailIsRead | src/audit/crawler/style_snapshot.py:338-369 | A tail with layer, supports and media, spelled out, reads as media, supports, layer |
| SheetImports.SplitImports | src/audit/crawler/style_snapshot.py:372-392 | Leading imports are separated and every other import is dropped |
| SheetImports.SplitKeepsMeaning | src/audit/crawler/style_snapshot.py:372-392 | The split means what a browser takes the sheet to mean when no import follows a layer statement |
| SheetImports.SplitFindsAllImports | src/audit/crawler/style_snapshot.py:372-392 | The imports found are those a browser follows exactly then, and otherwise fewer |
| SheetImports.LayerStatementHidesImport | src/audit/crawler/style_snapshot.py:377-378 | A sheet that loses its import |
| SheetFetch.DepthIsIrrelevant | src/audit/crawler/style_snapshot.py:450-479 | Where no import chain is cut, a fetch gives the same text at any depth |
| SheetFetch.FetchKeepsMeaning | src/audit/crawler/style_snapshot.py:467-476 | A fetched text means what its tree of imports means, rule by rule and in order |
| SheetFetch.DirectWhen | src/audit/crawler/style_snapshot.py:450-479 | A sheet can be had exactly when its address answers with one, every import of it can be had one level deeper, no deeper than eight, and the text is not too long |
| SheetLayers.FetchKeepsLayers | src/audit/crawler/style_snapshot.py:467-476 | A fetched text has exactly the unnamed layers of its tree of imports |
| SheetBrowser.FetchIsLiveExactly | src/audit/crawler/style_snapshot.py:450-479 | A fetched text is, item for item or by the rules it means, what a browser makes of its address if and only if no sheet in the tree of imports found hides an import that holds any text or any rule |
| SheetBrowser.FetchIsLive | src/audit/crawler/style_snapshot.py:450-479 | Splitting and fetching together give, item for item, what a browser makes of an address, when no sheet below it imports behind a layer statement |
| SheetBrowser.CacheServes | src/audit/crawler/style_snapshot.py:427-448 | What the callers of one run of the shared cache, with no request raised, were answered is what direct fetches of the page's addresses give |
| SheetBrowser.FetchedPageTells | src/audit/crawler/style_snapshot.py:527-536 | Every answer a page is captured from means what its address holds if and only if no sheet below it hides an import that holds a rule |
| SheetBrowser.HiddenImportIsLost | src/audit/crawler/style_snapshot.py:377-378 | A page whose fetched sheet loses an import, in a snapshot that is complete |
| SheetCacheSteps.StepKeeps | src/audit/crawler/style_snapshot.py:427-448 | Every step keeps: a pending address is held by exactly one call, is not yet done, and waiting calls wait for a pending one |
| SheetCacheSteps.OneRequestEach | src/audit/crawler/style_snapshot.py:415-418 | At most one request for an address is outstanding, in every interleaving, raises included |
| SheetCacheSteps.BytesAreExact | src/audit/crawler/style_snapshot.py:444-446 | The byte count is the total length kept and stays within the maximum |
| SheetCache.FittingIsKept | src/audit/crawler/style_snapshot.py:441-448 | A result that may be kept is kept exactly when its text fits what is left of the bound; a missing sheet takes no room; nothing else kept changes |
| SheetCacheRuns.CacheRefinesDirect | src/audit/crawler/style_snapshot.py:412-479 | Every answer and every kept result is the direct result, or a miss explained by a raised request, kept only for a raise strictly below |
| SheetCacheRuns.CacheIsDirect | src/audit/crawler/style_snapshot.py:412-479 | Without raised requests every concurrent get returns what uncached recursive fetching returns |
| SheetCacheRuns.SomeoneMoves | src/audit/crawler/style_snapshot.py:430-432 | Along any chain of waiting calls import heights fall, so some call can move |
| SheetCacheRuns.NoDeadlock | src/audit/crawler/style_snapshot.py:427-448 | A run that cannot go on has answered every caller |
| SheetCacheMisses.RunKeepsKept | src/audit/crawler/style_snapshot.py:427-446 | What is once kept stays kept, unchanged, for the rest of the scan |
| SheetCacheMisses.WrongIsKeptExactly | src/audit/crawler/style_snapshot.py:415-418 | Some run keeps an answer that direct fetching does not give if and only if the sheet can be had and imports another |
| SheetCacheMisses.WrongIsMissing | src/audit/crawler/style_snapshot.py:436-446 | Whatever wrong answer is kept, it is that the sheet is missing |
| SheetCacheMisses.RaiseIsKept | src/audit/crawler/style_snapshot.py:436-448 | For every sheet with an import, a run in which the import's request raises once keeps just the importing sheet, as missing |
| SheetCacheMisses.RaiseBelowIsRemembered | src/audit/crawler/style_snapshot.py:415-418 | Two sheets at which this happens though the importing one can be had |
| SheetCacheMisses.LongChainIsKept | src/audit/crawler/style_snapshot.py:469-470 | On a chain of nine imports, with no request raised, the sheet fetched at the depth bound is kept as missing though it can be had directly |
| SheetCacheMisses.SelfImportHangs | src/audit/crawler/style_snapshot.py:427-432 | A sheet that imports itself is never answered, though uncached fetching would give up on it |
| SheetCacheEnds.StepUsesWork | src/audit/crawler/style_snapshot.py:427-479 | Every step uses up work measured on the import trees |
| SheetCacheEnds.RunsAreShort | src/audit/crawler/style_snapshot.py:427-479 | No run is longer than its callers' import trees have work |
| SheetTable.Table.Begin | src/audit/crawler/style_snapshot.py:427-435 | A caller gets a kept answer, joins a pending request, or claims the address |
| SheetTable.Table.Settle | src/audit/crawler/style_snapshot.py:441-448 | The request ends; its result is kept exactly if allowed and its text fits what is left of the byte bound, and the count rises by its length |
| RateLimit.RefusalIsInvisible | src/audit/crawler/rate_limit.py:27-40 | Leaving a refused look out changes no other caller's answer |
| RateLimit.WaitIsExact | src/audit/crawler/rate_limit.py:38-40 | After a refusal a token is there from (1 - tokens) / rps seconds later on and not before |
| RateLimit.FreshBucketServes | src/audit/crawler/rate_limit.py:20-37 | Of callers that come at once to a new host the first is served and the kth exactly when k is at most rps |
| RateLimit.SteadyCallersAreServed | src/audit/crawler/rate_limit.py:30-37 | Callers spaced by the time of one token are never refused |
| RateLimit.PolledIsValid | src/audit/crawler/rate_limit.py:30-37 | Tokens stay between zero and capacity |
| RateLimit.EventKeepsValid | src/audit/crawler/rate_limit.py:57-76 | Free permits and callers inside add up to the concurrency of each host |
| RateLimit.ConcurrencyBound | src/audit/crawler/rate_limit.py:70-76 | At most concurrency_per_host callers of a host are inside, in every run |
| RateLimit.RoomIsExact | src/audit/crawler/rate_limit.py:70-75 | A caller can enter exactly while fewer than concurrency_per_host callers of its host are inside |
| RateLimit.WindowBound | src/audit/crawler/rate_limit.py:20-40 | Grants to a host in any window [s, t] of any run are at most max(rps, 1) + (t - s) rps |
| RateLimit.TokenBucket.Look | src/audit/crawler/rate_limit.py:27-40 | One turn of the loop refills, grants or computes the pause |
| RateLimit.HostLimiter.Get | src/audit/crawler/rate_limit.py:57-68 | A host's semaphore and full bucket are made on first use and kept after |
| RateLimit.HostLimiter.TryEnter | src/audit/crawler/rate_limit.py:70-75 | A caller enters exactly when a permit of its host is free |
| RateLimit.HostLimiter.TryTake | src/audit/crawler/rate_limit.py:75 | A caller inside takes a token of its own host's bucket only |
| RateLimit.HostLimiter.Release | src/audit/crawler/rate_limit.py:74-76 | Leaving returns the permit |
| FormEncoding.FieldRoundTrip | src/audit/crawler/url_policy.py:105-106 | A field's characters survive UTF-8 and percent encoding |
| FormEncoding.QueryRoundTrip | src/audit/crawler/url_policy.py:105-106 | Parsing an encoded list of pairs gives the list back, blanks kept |
| FormEncoding.SortCanonical | src/audit/crawler/url_policy.py:106 | Two lists of pairs sort alike exactly when they are the same multiset |
| FormEncoding.KeysAscend | src/audit/crawler/url_policy.py:106 | Sorted pairs stand in the order of their keys' code points, a shorter key first |
| FormEncoding.ValuesAscend | src/audit/crawler/url_policy.py:106 | Pairs with one key stand in the order of their values |
| FormEncoding.AsciiIsQuoted | src/audit/crawler/url_policy.py:106 | Letters, digits and four marks are kept, a space is a plus sign, any other ASCII character an upper-case escape |
| FormEncoding.BlanksAreKept | src/audit/crawler/url_policy.py:105 | A field without an equals sign has a blank value and an empty field is skipped |
| FormEncoding.HexIsRead | src/audit/crawler/url_policy.py:105 | Escapes are read in either letter case |
| UrlNormal.SplitInvertsUnsplit | src/audit/crawler/url_policy.py:90-110 | Splitting undoes joining on cleanly split parts |
| UrlNormal.BreaksAreOverlooked | src/audit/crawler/url_policy.py:90 | A tab or a line break inside a URL makes no difference |
| UrlNormal.SchemeInAnyCase | src/audit/crawler/url_policy.py:91 | A scheme is read whatever its letter case |
| Text.StripDrops | src/audit/crawler/url_policy.py:90 | Spaces, tabs and line breaks around a text go, and nothing else does |
| Text.LettersAreLowered | src/audit/crawler/url_policy.py:91-92 | Each of the 26 letters is lowered to its own small letter |
| UrlCanonical.NormalFormIsExact | src/audit/crawler/url_policy.py:78-110 | Two URLs share a normal form if and only if they agree on scheme, host, port (443 under https and 80 under http when none is written), path, user information, the multiset of decoded query pairs and a fragment that starts with a slash or an exclamation mark and a slash |
| UrlCanonical.PortIsExact | src/audit/crawler/url_policy.py:91-95 | No port is kept when none is written or it is 443 under https or 80 under http, and otherwise the number written is |
| UrlCanonical.NormalizeWritten | src/audit/crawler/url_policy.py:78-110 | The normal form of a URL put together from its parts, spelled out part by part |
| UrlCanonical.NormalizeTwice | src/audit/crawler/url_policy.py:78-110 | Normalizing again changes nothing, if and only if the normal form does not end in a bare path's white space; then it trims just that |
| UrlCanonical.NormalizeSettles | src/audit/crawler/url_policy.py:78-110 | A third pass never changes anything |
| UrlCanonical.IdempotenceFails | src/audit/crawler/url_policy.py:90 | The link that normalizes to a URL whose normal form differs |
| UrlScope.SeedInOwnScope | src/audit/crawler/url_policy.py:189-203 | A crawl's scope never refuses the page it starts from, for every prefix rule, subdomain setting and suffix list |
| UrlScope.ScopeOfNormalForm | src/audit/crawler/url_policy.py:257-293 | Checking the scope before or after normalizing gives the same answer |
| UrlScope.SeedSpellingsAgree | src/audit/crawler/url_policy.py:172-203 | A seed with or without its trailing slash gives one scope |
| UrlScope.PrefixIsDirectory | src/audit/crawler/url_policy.py:148-169 | A path prefix starts and ends with a slash |
| UrlScope.ScopeIsExact | src/audit/crawler/url_policy.py:257-293 | From a directory exactly the web links on the same host, www or not, or on the same registrable domain, that are the directory or below it are followed; a path that only starts with the same letters is refused |
| UrlScope.FileAdmits | src/audit/crawler/url_policy.py:148-169 | From a file exactly its directory and what is below; from a file at the top, the whole host |
| UrlScope.SeedGetsSlash | src/audit/crawler/url_policy.py:172-186 | A seed that reads as a directory gets its slash and any other is left as it is |
| UrlScope.WwwIsDropped | src/audit/crawler/url_policy.py:206-207 | A leading www. is dropped before hosts are compared, and nothing else is |
| Places.HiddenFromInspector | src/audit/extractor/places.py:35-42 | The loop up the parents finds whether an ancestor is a template or a noscript |
| Places.Finder.Of | src/audit/extractor/places.py:55-68 | The answer is the element's place in the whole document, whatever was asked before |
| Places.PlacesSurvivePruning | src/audit/extractor/places.py:1-17 | Counting over the parsed page is counting over the copy the inspector shows, in the same order, exactly when no visible noscript is counted |
| Places.NoscriptIsCounted | src/audit/extractor/places.py:35-68 | A visible noscript is counted though the shown copy has none |
| Places.PlaceNamesElement | src/audit/extractor/places.py:55-68 | The total agrees with the browser's, the index selects exactly the named element, and an element in a hidden subtree has no place |
| ImageRefs.ParseSrcset | src/audit/extractor/html_images.py:135-147 | Every candidate has a first word, so the parse cannot fail, and the words are returned in order |
| ImageRefs.UrlsFromNode | src/audit/extractor/html_images.py:121-129 | The src first, then each srcset candidate |
| ImageRefs.WalkRefs | src/audit/extractor/html_images.py:96-109 | Positions number the references that resolve, without gaps |
| ImageRefs.SourcesAreExact | src/audit/extractor/html_images.py:112-118 | The walk visits every img and every source whose parent is a picture, and no other element |
| ImageRefs.RefsAreExact | src/audit/extractor/html_images.py:96-109 | Every URL written on a visited element that is not blank, a data or a script address and resolves has a position, and nothing else has |
| ImageRefs.SrcComesFirst | src/audit/extractor/html_images.py:121-129 | The trimmed src unless blank, then the srcset candidates in order |
| ImageRefs.SrcsetIsRead | src/audit/extractor/html_images.py:135-147 | Of a srcset as pages write it exactly the URLs are read, in order |
| ImageRefs.ExtractImageRefs | src/audit/extractor/html_images.py:54-70 | The i-th reference of the walk has position i |
| ImageRefs.LocateImageRefs | src/audit/extractor/html_images.py:73-93 | Exactly the walk's positions are located, each at its reference's own element |
| ImageRefs.PositionsAgree | src/audit/extractor/html_images.py:54-109 | A stored position leads to the element whose written URL resolves to the stored one, reports that URL and tag, and its place selects that element in the shown copy |
| Evaluation.ListManualChecks | src/audit/evaluation.py:135-185 | Every criterion is listed in order with its stored outcome or as not started |
| Evaluation.EvaluationCompletionBlockers | src/audit/evaluation.py:188-235 | The blockers name the missing context and each criterion in the way |
| Evaluation.BlockersAreExact | src/audit/evaluation.py:188-235 | There is no blocker exactly when all context is given and every criterion is passed, failed or not tested with a reason |
| Evaluation.BlockersNameCriteria | src/audit/evaluation.py:188-235 | A criterion is named as not started, in need of follow-up or without a reason exactly when it is |
| Evaluation.MissingLabelsSay | src/audit/evaluation.py:188-235 | Each of the five pieces of context is named exactly when it is blank |
| Evaluation.MissingContextIsFirst | src/audit/evaluation.py:188-235 | The missing context comes first among the blockers |
| Evaluation.CompletedStaysDefensible | src/audit/evaluation.py:76-125 | Over every run of the three operations a completed evaluation has no blocker |
| Evaluation.UpdateIsRefusedExactly | src/audit/evaluation.py:290-319 | An update is refused exactly for an unknown criterion or outcome, a missing reason, or taking back a judgement of a completed evaluation |
| Evaluation.UpsertIsRefusedExactly | src/audit/evaluation.py:76-125 | A record is refused exactly for an unknown level or status or for claiming completion without what it claims |
| Evaluation.UpdateStores | src/audit/evaluation.py:320-335 | An accepted update shows the outcome given with its trimmed reason, and no other check, record or evidence changes |
| Evaluation.UpsertStores | src/audit/evaluation.py:76-125 | An accepted upsert shows the record given, and no check changes |
| Evaluation.AttachStores | src/audit/evaluation.py:401-447 | An accepted attachment appends exactly its entry, and no check or record changes |
| Evaluation.LastJudgementStands | src/audit/evaluation.py:290-341 | After any run a criterion shows the last accepted judgement of it, or not started when there was none |
| Evaluation.EvidenceOpensNothing | src/audit/evaluation.py:401-447 | Evidence added to a completed evaluation creates no unjudged criterion |
| Evaluation.OnlyUpsertReopens | src/audit/evaluation.py:290-341 | Only an upsert for the same scan ends a completed evaluation |
| Evaluation.EvaluationStore.UpsertEvaluation | src/audit/evaluation.py:76-125 | Replaces one scan's record by the one given, or refuses and changes nothing |
| Evaluation.EvaluationStore.UpdateManualCheck | src/audit/evaluation.py:290-341 | Stores exactly the outcome given with its trimmed reason and leaves other checks, records and evidence alone, or refuses and changes nothing |
| Evaluation.EvaluationStore.AddManualEvidence | src/audit/evaluation.py:401-447 | Appends one entry, making its row only if there is none, or refuses and changes nothing |
| StatusHistory.NormalizeRationale | src/audit/db/repo.py:551-577 | An accepted note is bounded and not empty, and a decisive status always has one |
| StatusHistory.NoteIsRedacted | src/audit/db/repo.py:551-577 | The note kept is the redacted trimmed text, whole up to 2000 characters and cut to them otherwise; what is refused, and for what |
| StatusHistory.HistoryReplays | src/audit/db/repo.py:601-665 | After any mix of bulk changes and later crawls each finding's log chains from new to its status, with from and to different, and every decision has its reason |
| StatusHistory.ChangedAreAffected | src/audit/db/repo.py:628-665 | As many rows are changed and logged as there are different findings to change, repeated ids included |
| StatusHistory.UpsertKeepsDecisions | src/audit/db/repo.py:498-533 | A later crawl changes no status and no log entry |
| StatusHistory.UpsertSetsExactly | src/audit/db/repo.py:727-784 | A known finding only has its details renewed; an unknown one is added as new |
| StatusHistory.BulkSetsExactly | src/audit/db/repo.py:601-665 | Exactly the findings asked for get the new status, and nothing else of any changes |
| StatusHistory.BulkLogsExactly | src/audit/db/repo.py:601-665 | A finding is logged exactly when its status changes, with both statuses, the actor and the note |
| StatusHistory.FindingTable.UpsertFinding | src/audit/db/repo.py:727-784 | A known finding keeps its status; a new one starts as new |
| StatusHistory.FindingTable.BulkSetStatus | src/audit/db/repo.py:601-724 | The count returned is the rows logged; a refusal changes nothing |
| AuditReport.ProjectRowForStatuses | src/audit/exports/audit_report.py:392-439 | Keeps just the findings stored with the wanted statuses and counts them afresh |
| AuditReport.BucketRowsIntoCards | src/audit/exports/audit_report.py:315-389 | Cards, Appendix B rows and receipts hold what each row owes them; every card and lead is a projection of one of the rows; cards hold open findings only, expert-review findings only once confirmed, the more severe first and then those on more pages |
| AuditReport.WhereFindingsGo | src/audit/exports/audit_report.py:364-385 | Cards get the confirmed findings of expert-review rows and the open ones of likely barriers with a criterion; Appendix B gets every other open one; each as often as its row has it |
| AuditReport.TriagedRowsShowNothing | src/audit/exports/audit_report.py:338-347 | A row whose summary has something triaged and nothing open shows no finding and is received as a whole |
| AuditReport.ReceiptSays | src/audit/exports/audit_report.py:338-363 | A receipt names its row and gives the row's count of each terminal status and of no other |
| AuditReport.OpenFindingsAreConserved | src/audit/exports/audit_report.py:315-389 | Every open finding is in exactly one card or Appendix B row, if and only if no row reads as fully triaged while a finding of it is open |
| AuditReport.TriagedFindingsHaveReceipts | src/audit/exports/audit_report.py:338-363 | Receipts count every triaged finding, status by status, when summaries match what is stored |
| AuditReport.ReportConservesFindings | src/audit/exports/audit_report.py:315-439 | Cards, Appendix B and receipts together account for every finding |
| AuditReport.StaleSummaryHidesFinding | src/audit/exports/audit_report.py:1516-1523 | A row with an out-of-date summary whose open finding is nowhere |
| QualityGate.Count | src/audit/quality_benchmark.py:384-407 | The counting loop gives the figures that `SplitIsExact`, `PositivesAreExact` and `NegativesAreExact` spell out |
| QualityGate.SplitIsExact | src/audit/quality_benchmark.py:384-407 | Surfaced is the number of observations not suppressed, suppressed that of the others |
| QualityGate.PositivesAreExact | src/audit/quality_benchmark.py:391-394 | True positives are the shown barriers, false positives what else was shown |
| QualityGate.NegativesAreExact | src/audit/quality_benchmark.py:395-398 | False negatives are the suppressed barriers, true negatives what else was suppressed |
| QualityGate.MetricsBalance | src/audit/quality_benchmark.py:384-407 | Surfaced and suppressed, and the four cells, add up to the total |
| QualityGate.Evaluate | src/audit/quality_benchmark.py:272-291 | Overall figures and the three groupings |
| QualityGate.GroupIsWith | src/audit/quality_benchmark.py:275-281 | A group holds just the observations with its key, and there is no other group |
| QualityGate.LayerTotal | src/audit/quality_benchmark.py:272-291 | A layer has a group exactly when it has observations, and its total counts them |
| QualityGate.PipelineTotal | src/audit/quality_benchmark.py:272-291 | So has a pipeline |
| QualityGate.RuleTotal | src/audit/quality_benchmark.py:272-291 | So has a rule within its pipeline |
| QualityGate.ReportAddsUp | src/audit/quality_benchmark.py:272-291 | Layers, pipelines and rules each add up to the overall counts |
| QualityGate.GateFailures | src/audit/quality_benchmark.py:294-317 | The failures listed are the overall check's, then each layer's |
| QualityGate.CheckMetricThreshold | src/audit/quality_benchmark.py:410-437 | Appends a failure for each threshold missed |
| QualityGate.LayersPassTogether | src/audit/quality_benchmark.py:410-437 | If every layer passes the false-discovery and recall checks, so do the overall figures |
| QualityGate.GateIsLayers | src/audit/quality_benchmark.py:294-317 | Nothing fails exactly when every layer is present and passes |
| QualityGate.GateIsMet | src/audit/quality_benchmark.py:294-317 | The gate passes exactly when each of the five layers has something shown, a known barrier, fewer wrong of what was shown than the maximum, no less found of the barriers than the minimum, and enough shown and enough negative controls, all counted on the observations |
| QualityGate.MissingLayerIsNamed | src/audit/quality_benchmark.py:307-310 | A layer is named as missing exactly when it has no observations |
| QualityGate.RateFailureIsListed | src/audit/quality_benchmark.py:294-317 | A layer is named for a rate exactly when its own figures miss it |
| QualityGate.RateFailuresSay | src/audit/quality_benchmark.py:410-428 | Which rate failure is given for which figures |
| QualityGate.FloorFailuresAreExact | src/audit/quality_benchmark.py:429-437 | A layer is named for too few shown or too few negative controls exactly when its figures are below that floor |

## Left out

- Crawl.Config: robots.txt and the blocklists are functions of the URL; a page answers the same at every visit, except in `CrawlVisits`.
- CrawlReach.Completeness: nothing for pages past one that can be recorded at the depth limit; `CrawlDepthLimit.MissableExactly` shows why.
- CrawlDepthLimit.DepthsRecordable: runs that die half-way through enqueuing a page's links, for which `CrawlReach.DepthIsASimplePath` holds.
- JobQueue.JobTable.Lease: job kinds other than fetch, the stored error text and row timestamps; times are integers.
- CrawlWorker.WorkerContext.StartRun: another scan's start may free a lease of this scan that is older than 120 seconds though its worker is alive; no step of the transition system does.
- CrawlWorker.WorkerContext: the per-page analysers, counters, screenshots and logging of the orchestrator.
- StyleWalk.Walker: rule text is opaque; the rewriting of addresses inside a rule (the regular expressions of `absolutize_urls` and `strip_charset`) is a function of the rule and its sheet's address.
- StyleSnapshot.CaptureStyles: conditions are compared as written, so two unnamed layers read alike (`StyleLayers` counts them); an import that holds no rule leaves no trace, not even its layer's place in the order of layers.
- StyleSnapshot.BuildSnapshot: a page result that is not an object at all, and the style fingerprint.
- SheetFetch.Direct: a sheet answers the same whenever it is asked; CSS comments and tokens are not lexed.
- SheetCacheRuns.CacheIsDirect: cancelled tasks; import chains longer than eight, where a sheet cut off at the depth bound is kept as missing (`SheetCacheMisses.LongChainIsKept`); and cyclic imports, which can wait for themselves for ever (`SheetCacheMisses.SelfImportHangs`).
- ImportConditions.Parsed: brackets inside CSS strings of a supports condition.
- RateLimit.TokenBucket: floating-point rounding; time and tokens are real numbers.
- UrlNormal.Normalize: bracketed IPv6 hosts, lower-casing beyond ASCII, and the compatibility check on host names.
- UrlScope.BuildScope: the public-suffix lookup is any function of the host.
- Places.Finder: selector lists and combinators other than a plain type and `parent > child`; HTML parsing.
- ImageRefs.WalkRefs: captions, roles, alternative text and snippets carried along with a reference.
- Evaluation.EvaluationStore: the outcome-only workflow, which blanks rationales by design; blocker texts are lists of criteria rather than sentences.
- StatusHistory.NormalizeRationale: the redaction of secrets is any function of the text.
- AuditReport.BucketRowsIntoCards: the wording of cards and receipts; occurrence and page counts come from a database query that is any function of the findings.
- QualityGate.Evaluate: reading and validating the corpus file; ratios are exact, not floating-point.
- Browser and model calls, exports to other formats, the command line, the desktop shell and the web interface.
