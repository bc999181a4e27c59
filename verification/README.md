# Verified model of the ingestion pipeline and of refresh-token rotation

This project models the parts of the anime backend whose correctness spans loops, transactions,
crashes, several runs and several workers, and proves what those parts promise.

* **Cleaning** (`Catalogue`, `Parsers`, `RawIndex`, the modules named Clean, `DetailsOfBatch`,
  `OthersOfBatch` and `RowsOfBatch`): stored responses are
  read in pages by a `(mal_id, resource)` cursor and written to the catalogue in transactional
  batches, with tag and studio names cached in memory. Every response is given a meaning as a set of
  writes, and `CleanMeaning` says column by column what these leave in the tables; batches, repeated
  rows, resumed runs and incremental runs are then compared with cleaning the responses one by one.
* **Run history** (`RunHistory`, `Watermark`, `CleanWorlds`, `CleanScripts`): which run may be resumed
  where, what the start of the last succeeded run says about the rows that need no cleaning, and what
  the catalogue then holds.
* **Fetching** (`Ledger`, `Session`, `FetchJob`, `FetchProtocol`): the task ledger, one worker with its
  stop rules and totals, and several workers with crashes in between.
* **Discovery** (`DiscoveryRuns`): paged lists that insert or reset tasks, resumed after failures.
* **Calling the source** (`SourceAdapter`): rate limiter, circuit breaker and retry loop.
* **Refresh tokens** (`Tokens`, `TokenStories`): rotation, wipe, logout and logout-all as interleaved transactions.

A transaction is a working copy that is committed or dropped; the object store is a map that is never
rolled back; time is a number that grows. Faults are inputs: every method that can fail takes what
goes wrong as a parameter, including a commit that took effect although the caller saw an error.

Conditions the theorems name, and what happens without them:

* `Good` asks that payload ids equal row ids, that tag and studio ids have one name, and that no
  review id belongs to two anime. `TagNamesDependOnBatch` is the exact condition for the names, with
  `RenamedAndBackHappens` as an input for which the batch size matters.
* How a characters row is counted depends on the batch; `SkipCountsDependOnBatch` says exactly when,
  and `EarlyCharactersAreCountedDifferently` is such a batch.
* An incremental run equals a full one exactly when no older row waits for an anime that only the
  recent rows bring (`IncrementalEqualsFull`); `LateEpisodeIsMissed` is a catalogue with such a row.
* A run resumed from a cursor leaves the watermark true exactly when nothing at or before the cursor
  was fetched since the run that left it (`ResumedSuccessIsExact`); `ResumedSuccessMissesARow` is a
  history in which something was.
* A full pass takes up the cursor of any failed run, also of an incremental one, so it reads every row
  exactly when all rows come after that cursor (`FullPassReadsAll`). `FullPassSkipsOlderRow` is a
  history in which neither the failed run nor the succeeded full pass after it reads the first row.
* An interrupted worker's upload thread goes on sending while its task can be claimed again. Nothing
  goes wrong as long as no task is claimed while an upload of it may still arrive
  (`EveryRunStaysInStep`), and every other claim can lead to a done task whose index row does not have
  its object's size (`HastyClaimHarms`, `LateUploadDisagrees`). The code does not wait.
* A logout whose token is rotated between its read and its update reports success while the session
  goes on (`LogoutMissesTheChild`); `LogoutIsExact` says exactly when a logout ends its session.
* A wipe or logout-all ends all sessions of its user exactly when no token committed since its
  statement began is still usable (`SweepEndsAllSessions`); in `RotationSurvivesAWipe` a rotation
  commits meanwhile.

Where code and documentation disagree the code is followed: a task makes at most three attempts
(app/ingestion/repository/task_repository.py:11), not the five of docs/ingestion-run-metrics.md:76,
and the six-hour cap on the backoff is never reached (`BackoffDoubles`).

`dafny verify dfyconfig.toml` checks everything.

## Model

| member | source | states |
|---|---|---|
| Catalogue.Upsert | app/catalogue/repository.py:176-213 | for every chunk size the table and the count of written rows are those of applying the rows one by one; the call fails exactly when one statement would touch a row twice |
| Catalogue.StatementIsRowByRow | app/catalogue/repository.py:197-213 | one statement over distinct keys is the row-by-row fold, in the table and in the rows written |
| Catalogue.StatementReads | app/catalogue/repository.py:191-210 | after an upsert a column reads the new value, and the stored one where the new row lacks the column or brings NULL for a protected one; rows that are not given stay as they are |
| Catalogue.CountedRows | app/catalogue/repository.py:185-213 | with only_if_changed the rows counted are those that are new or read differently afterwards, otherwise every row given |
| Catalogue.StatementCompose | app/catalogue/repository.py:191-213 | two upserts that agree where they overlap are one upsert of their union |
| Catalogue.RepeatWritesNothing | app/catalogue/repository.py:185-189 | a repeated upsert with only_if_changed writes no row and changes nothing |
| Catalogue.InsertLinks | app/catalogue/repository.py:237-243 | the chunked inserts add exactly the given links, and fail exactly when a parent is missing |
| Catalogue.ReplaceLinks | app/catalogue/repository.py:215-244 | for every chunk size: exactly the wanted links for the wanted anime, the count of anime that differed, refused exactly when a new link's parent is missing |
| Catalogue.ReplacedIsDeleteInsert | app/catalogue/repository.py:233-243 | deleting and re-inserting only the changed anime gives what replacing every wanted anime would |
| Catalogue.LinksReplacedExactly | app/catalogue/repository.py:111-138 | each wanted anime ends with its wanted set, every other keeps its links, and doing it again changes no anime |
| Catalogue.ChangedCompose | app/catalogue/repository.py:233-244 | the changed-anime counts of two calls on different anime add up to the count of one call |
| Parsers.FirstNameWins | app/ingestion/parsers/links.py:29-39 | an id is kept exactly when some item has it and a name, with the name of the first such item |
| Parsers.NamedItems | app/ingestion/parsers/links.py:20-39 | the nested loops over several lists give the first-name-wins map of all their items |
| Parsers.ExtractRelations | app/ingestion/parsers/links.py:42-64 | exactly the (relation, anime) pairs of the anime entries of named groups |
| Parsers.LastEpisodeWins | app/ingestion/parsers/episodes.py:13-28 | an episode is stored exactly when an item has its number, with the last such item's fields |
| Parsers.CleanEpisodes | app/ingestion/parsers/episodes.py:21-28 | the loops over pages and items give that map |
| Parsers.EpisodesNameTheirAnime | app/ingestion/parsers/episodes.py:31-53 | every episode row is keyed by the anime id given by the caller and sets exactly the MAL columns |
| Parsers.LastReviewWins | app/ingestion/parsers/reviews.py:24-30 | a review is stored exactly when an item has its id and text, with the last such item's fields |
| Parsers.CleanReviews | app/ingestion/parsers/reviews.py:16-30 | the loop over the items gives that map |
| Parsers.ReviewsNameTheirAnime | app/ingestion/parsers/reviews.py:33-58 | every review row names the anime id given by the caller and sets exactly the review columns |
| CleanSpec.ApplyCompose | app/ingestion/jobs/clean_raw_job.py:230-312 | the writes of two batches that agree compose into the writes of one |
| CleanSpec.NewNamesSuffice | app/ingestion/jobs/clean_raw_job.py:251-265 | upserting only the names that are new or differ from a true cache gives the table that upserting all of them gives |
| CleanSpec.NamesAfterUpsert | app/ingestion/jobs/clean_raw_job.py:198-200 | after the upsert the table's names are the cache plus the names to learn |
| CleanBatch.BatchDeltaIsOnlyNew | app/ingestion/jobs/clean_raw_job.py:251-256 | comparing every name with the cache as it was at batch start loses none of the batch's new names |
| CleanBatch.LastBringsNothingBack | app/ingestion/repository/raw_tenrai_repository.py:39-40 | because details sort before the rows that depend on them, a later response brings no anime to an earlier one |
| CleanBatch.FullDeltaIsFold | app/ingestion/jobs/clean_raw_job.py:220-312 | applying all writes of a batch at once is cleaning its responses one after the other |
| CleanBatch.BatchIsFold | app/ingestion/jobs/clean_raw_job.py:220-312 | a batch, details first and the rest for the anime present by then, gives the catalogue of one-by-one cleaning |
| CleanCounts.WriteCountSum | app/ingestion/jobs/clean_raw_job.py:259-273 | every write count of two batches on different rows adds up to the count of one batch |
| CleanCounts.BatchCountIsSum | app/ingestion/jobs/clean_raw_job.py:180-203 | each count of a batch is the sum of the counts of its responses, each taken on the catalogue the earlier ones leave |
| CleanSkips.ArrivedBefore | app/ingestion/jobs/clean_raw_job.py:278-286 | a response other than characters finds its anime within the batch exactly when the anime's details came before it |
| CleanSkips.SkipCountsDependOnBatch | app/ingestion/jobs/clean_raw_job.py:283-301 | the two skip counts are independent of the batch exactly when no characters row meets its anime in the batch; their sum always is |
| CleanExamples.EarlyCharactersAreCountedDifferently | app/ingestion/jobs/clean_raw_job.py:283-301 | a characters row and its anime's details in one batch, where both skip counts differ from one-by-one cleaning |
| CleanHistory.CleaningIsRepeatable | app/ingestion/jobs/clean_raw_job.py:110-113 | cleaning a response again changes nothing, not even after the responses that follow it |
| CleanHistory.AttemptsEqualOneRun | app/ingestion/jobs/clean_raw_job.py:129-155 | any sequence of failed and resumed runs leaves the catalogue of one uninterrupted run up to the furthest committed row |
| CleanHistory.ResumedRunsEqualOneRun | app/ingestion/run_scripts/one_pass.py:110-125 | once the last run reaches the end, the catalogue is that of a single run, even when committed batches were replayed |
| CleanIncremental.LateRowIsMissed | app/ingestion/jobs/clean_raw_job.py:283-286 | an older row whose anime only the recent rows bring stays unwritten in an incremental run |
| CleanExamples.LateEpisodeIsMissed | app/ingestion/jobs/clean_raw_job.py:283-286 | episodes that were skipped before their anime's details arrived, which the next incremental run leaves out and a full pass writes |
| CleanIncremental.IncrementalEqualsFull | app/ingestion/jobs/clean_raw_job.py:98-161 | over a catalogue that reflects the older rows, cleaning only the recent rows equals cleaning all rows if and only if there is no such row |
| CleanRefreshes.RefreshesEqualFullPasses | app/ingestion/run_scripts/refresh.py:10-13 | any series of incremental refreshes leaves the catalogue of a series of full passes, and after each no row has anything left to write |
| CleanWorlds.SucceededRunLeavesFullPass | app/ingestion/jobs/clean_raw_job.py:98-161 | after any undisturbed history of fetches and of fresh, resumed, failed, lost and succeeded runs, full or incremental, a run that succeeds leaves the catalogue that cleaning every row there is would leave, and no row has anything left to write |
| CleanWorlds.FetchIsSeen | app/ingestion/jobs/fetch_anime_job.py:171-177 | in such a history a fetch puts exactly the new objects under new index rows, and changes nothing else |
| CleanScripts.CleanStage.Clean | app/ingestion/run_scripts/refresh.py:138-144 | a clean stage, fresh, resumed or incremental and whatever fails, takes its cursor and cut-off from the run history and is exactly one run of such a history, in catalogue, index, objects and history; without faults it finishes, and a recorded success leaves what cleaning every row would leave |
| CleanScripts.SameCutOff | app/ingestion/jobs/clean_raw_job.py:114-117 | the cut-off the job takes, the start of the newest clean run that succeeded, is the one the watermark theorems are about |
| CleanColumns.PairSurvives | app/ingestion/parsers/episodes.py:38-48 | a synopsis and its hash stay a matching pair although each is protected from NULL separately (StatementReads says that they are) |
| CleanColumns.RunsOwnTheirColumns | app/catalogue/repository.py:23-29 | no sequence of batches, whatever their rows and caches, changes imdb_score or anilist_score, and stored synopses keep their hashes |
| CleanColumns.BatchUpsertsEpisodes | app/ingestion/jobs/clean_raw_job.py:310-312 | to the episode table each batch of a run is one such upsert |
| CleanColumns.LastSynopsisStays | app/catalogue/repository.py:146-157 | after any number of episode upserts an episode has the last synopsis any of them brought, and its old one when none did |
| CleanColumns.RunsKeepSynopses | app/catalogue/repository.py:146-157 | no sequence of clean batches, whatever their rows, loses a stored synopsis |
| CleanMeaning.DetailsWriteTheAnime | app/ingestion/parsers/details.py:24-74 | a details response with an id and one of three titles writes its anime's row and no other: the first title there is, the synopsis with its own hash, every other column as given with blanks as NULL; columns of other pipelines keep their value |
| CleanMeaning.DetailsReplaceTheLinks | app/ingestion/parsers/links.py:9-64 | afterwards the anime's tags, studios and relations are exactly those some item of the response names, and no other anime's links change |
| CleanMeaning.DetailsNameTagsAndStudios | app/ingestion/parsers/links.py:20-39 | each tag and studio is named as by the first item with its id and a name; the others keep their rows |
| CleanMeaning.StatisticsWriteTheirRow | app/ingestion/parsers/statistics.py:9-24 | statistics with all six list counts write the row of an anime that is there, column by column, and nothing else does |
| CleanMeaning.EpisodesWriteTheirRows | app/ingestion/parsers/episodes.py:13-53 | each episode of an anime that is there gets the fields of the last item with its number over all pages, except that a missing synopsis leaves synopsis and hash alone; the others stay |
| CleanMeaning.ReviewsWriteTheirRows | app/ingestion/parsers/reviews.py:24-58 | each review of an anime that is there gets the fields of the last item with its id and a text, and names that anime |
| CleanMeaning.OtherReviewsStay | app/ingestion/parsers/reviews.py:24-30 | a review that no usable item has stays as it was |
| CleanMeaning.OthersChangeNothing | app/ingestion/jobs/clean_raw_job.py:283-301 | a response that cannot be used, and one other than details whose anime is not there, changes nothing |
| CleanMeaning.OwnTablesOnly | app/ingestion/jobs/clean_raw_job.py:220-312 | a response writes the tables of its own resource and no other |
| CleanColumns.TagNamesDependOnBatch | app/ingestion/jobs/clean_raw_job.py:251-256 | a batch stores the tag names of one-by-one cleaning if and only if it does not rename a tag and later give it its cached name back |
| CleanColumns.RenamedAndBackHappens | app/ingestion/jobs/clean_raw_job.py:251-256 | two payloads and a stored tag for which one batch and two batches end with different names |
| DetailsOfBatch.BatchLinksNamed | app/ingestion/jobs/clean_raw_job.py:246-256 | every tag or studio a batch links is new in the batch or was in the cache |
| DetailsOfBatch.LinkParentsExist | app/ingestion/jobs/clean_raw_job.py:258-274 | when the cache equals the table, every link is inserted after its anime and its tag or studio exist |
| DetailsOfBatch.CleanDetails | app/ingestion/jobs/clean_raw_job.py:230-274 | with true caches the details half fails exactly when one statement names an anime twice; otherwise anime table and count are those of the rows one by one, links and names those of the writes of the details, and all is one write of them when no anime comes twice |
| OthersOfBatch.SortAll | app/ingestion/jobs/clean_raw_job.py:281-301 | the loop collects exactly the rows of the responses whose anime exist, with distinct primary keys, and counts the skipped ones |
| OthersOfBatch.CleanOthers | app/ingestion/jobs/clean_raw_job.py:276-312 | one look at the existing anime is enough: on good rows nothing is refused, and tables and counts are those of the rows' writes |
| RowsOfBatch.SplitDelta | app/ingestion/jobs/clean_raw_job.py:224-228 | writing all details before all other rows asks for the writes of the rows in key order |
| RowsOfBatch.WriteRows | app/ingestion/jobs/clean_raw_job.py:220-228 | a batch gives the catalogue of one-by-one cleaning and the counts of the batch; the names to learn are always the ones that were written |
| RawIndex.RecordedIsRecent | app/ingestion/repository/raw_tenrai_repository.py:54-77 | a response that is recorded again belongs to exactly the incremental runs whose cut-off is not later; every other row stays where it was |
| RawIndex.BeyondIsSuffix | app/ingestion/repository/raw_tenrai_repository.py:45-50 | the rows after a cursor are a suffix of all matching rows in key order |
| RawIndex.BatchIsSlice | app/ingestion/repository/raw_tenrai_repository.py:42-52 | from the last row of a batch, the next batch is the next slice of the matching rows |
| RawIndex.PagingReadsEveryRowOnce | app/ingestion/repository/raw_tenrai_repository.py:26-52 | for every page size paging ends and reads every matching row exactly once in key order |
| CleanJob.CleanAnimeJob.WriteAndCommit | app/ingestion/jobs/clean_raw_job.py:189-203 | a batch that is not committed changes neither catalogue nor caches; after a commit the caches equal their tables |
| CleanJob.CleanAnimeJob.CleanAnime | app/ingestion/jobs/clean_raw_job.py:163-203 | one batch: it goes on exactly when nothing fails and every object is there, with the catalogue and counts of one-by-one cleaning and the cursor at its last row |
| CleanJob.CleanAnimeJob.CleanUntilDone | app/ingestion/jobs/clean_raw_job.py:133-140 | for every batch size the loop ends; what it committed is a prefix of the rows from its start, the cursor at most one batch behind |
| CleanJob.CleanAnimeJob.FullCleanLoop | app/ingestion/jobs/clean_raw_job.py:98-161 | the rows are all in a full pass, else those fetched since the given time or since the start of the newest clean run that succeeded; a finished run has cleaned every one of them from its start as if one by one, its totals are the sums, the caches equal their tables, and its record says where to resume |
| CleanJob.ResponsesAreStored | app/ingestion/jobs/clean_raw_job.py:205-218 | the responses a run cleans are the stored objects of its rows, in their order |
| CleanJob.CleanAnimeJob.FullPassWithRestarts | app/ingestion/run_scripts/one_pass.py:161-166 | runs restarted from the saved cursor with any faults and batch sizes end in the catalogue of one uninterrupted run |
| RunHistory.LatestRunIsNewest | app/ingestion/repository/metrics_repository.py:43-51 | the query gives the newest run of the job, and nothing exactly when there is none |
| RunHistory.LastSucceededIsNewest | app/ingestion/repository/metrics_repository.py:53-64 | the query gives the start of the newest succeeded run of the job, and nothing exactly when none succeeded |
| RunHistory.OutcomeIsRead | app/ingestion/repository/metrics_repository.py:23-64 | the outcome a run records is what the next run of its job reads, whatever other jobs start and record in between; the cut-off moves exactly when the run succeeded |
| Watermark.CleanStaysSound | app/ingestion/jobs/clean_raw_job.py:114-157 | a fresh, failed, lost or succeeded clean run, and a resumed one that was not disturbed, keeps the watermark and the saved cursor true |
| Watermark.WatermarkCovers | app/ingestion/repository/metrics_repository.py:53-64 | over every history in which no resumed run was disturbed, each version still in the index that was fetched before the newest succeeded run began was read by some committed batch |
| Watermark.ResumedSuccessIsExact | app/ingestion/run_scripts/refresh.py:84-101 | a resumed run that succeeds keeps the watermark true if and only if nothing at or before its cursor was fetched since the run that left the cursor |
| Watermark.ResumedSuccessMissesARow | app/ingestion/run_scripts/one_pass.py:110-125 | a full pass fails after one row, that row is fetched again, and the resumed full pass succeeds without reading it |
| Watermark.FailedRefreshContinues | app/ingestion/run_scripts/refresh.py:84-101 | the next refresh within a day reads exactly the rest of a failed refresh's rows under the same cut-off; later, or without a cut-off, it starts afresh |
| Watermark.FailedFullPassContinues | app/ingestion/run_scripts/one_pass.py:110-125 | the next full pass reads exactly the rest of a failed full pass's rows |
| Watermark.FullPassReadsAll | app/ingestion/run_scripts/one_pass.py:120-124 | a full pass reads every row if and only if no cursor is saved or every row comes after it |
| Watermark.FullPassSkipsOlderRow | app/ingestion/run_scripts/one_pass.py:120-124 | an incremental run fails, the full pass after it succeeds, and neither of them reads the first row |
| Ledger.StepKeepsWellFormed | app/ingestion/repository/task_repository.py:94-124 | every outcome keeps pending, failed, done, gone and dead tasks well formed and uses up an attempt or the task |
| Ledger.BackoffDoubles | app/ingestion/repository/task_repository.py:110-117 | a failure uses an attempt and makes the task failed, or dead exactly at the third; the retry time is 60 seconds times two to the attempts, and the cap would need nine |
| Ledger.RefreshKeepsLedger | app/ingestion/repository/task_repository.py:15-17 | inserts and resets keep the ledger well formed and never touch dead or gone tasks |
| Ledger.ResetsCompose | app/ingestion/repository/task_repository.py:24-64 | inserting or resetting two sets of rows is inserting or resetting their union |
| Ledger.NothingListedIsDone | app/ingestion/repository/task_repository.py:36-42 | after a refresh no listed task is done or failed |
| Ledger.RefreshIsExact | app/ingestion/repository/task_repository.py:36-64 | a refresh makes exactly the listed tasks that are missing, done or failed new pending ones, a reset by ids and resources only the done and failed ones there are; every other task stays as it was |
| Ledger.RowsPartition | app/ingestion/repository/task_repository.py:36-64 | inserted, reset and untouched rows are all rows, each once |
| Ledger.CountsSayWhatChanged | app/ingestion/repository/task_repository.py:24-64 | the inserted count is the growth of the ledger, the reset rows are exactly the known tasks that changed, and a plain insert changes no known task |
| Ledger.RepeatChangesNothing | app/ingestion/repository/task_repository.py:24-64 | listing the same rows again inserts nothing, resets nothing and changes nothing |
| Ledger.OutcomeUsesAnAttempt | app/ingestion/repository/task_repository.py:94-131 | each committed outcome lowers the sum of the attempts left over unfinished tasks |
| Ledger.NothingLeft | app/ingestion/repository/task_repository.py:110-124 | with no attempt left every task is done, dead or gone |
| Ledger.ClaimIsFirst | app/ingestion/repository/task_repository.py:75-92 | claim_next gives the first unlocked task in key order that is neither done, dead nor gone and whose retry time, if any, is not to come, or none exactly when there is none |
| Ledger.CountsAddUp | app/ingestion/repository/task_repository.py:66-73 | the counts by status add up to all tasks |
| FetchJob.AnswerDecides | app/ingestion/jobs/fetch_anime_job.py:171-237 | a response makes the task done and writes its index row, a 404 makes it gone, a permanent error dead; a denial, a transient and an unexpected error use an attempt and set the retry time, or make it dead at the third; an open circuit and an interruption leave it as it was |
| FetchJob.RetriesWait | app/ingestion/repository/task_repository.py:77-117 | in every history of a run a task is claimed again only after a failure that was not its third, and not before 60 times two to the number of its failures in seconds have passed |
| FetchJob.CountedOnce | app/ingestion/jobs/fetch_anime_job.py:303-317 | recording one more outcome keeps the totals equal to the history |
| FetchJob.TotalsAddUp | app/ingestion/jobs/fetch_anime_job.py:92-103 | tasks = done + failed + dead + gone = the sum over the resources |
| FetchJob.PutIsHarmless | app/ingestion/storage/raw_store.py:51-67 | overwriting the object of a task that is not done keeps "done means the data is there" |
| FetchJob.SettlingAgrees | app/ingestion/jobs/fetch_anime_job.py:171-177 | storing the object before index row and task are committed keeps "done means the data is there" |
| FetchJob.FetchAnimeJob.FetchEpisodes | app/ingestion/jobs/fetch_anime_job.py:262-274 | all pages in order up to the one without a next page, or the first failure, or a permanent error after 100 pages |
| FetchJob.FetchAnimeJob.FetchAndStore | app/ingestion/jobs/fetch_anime_job.py:170-239 | each answer of the source settles the task as its handler does or stops the run, and moves the two counters |
| FetchJob.FetchAnimeJob.Save | app/ingestion/jobs/fetch_anime_job.py:173-177 | index row and task state are committed together or not at all |
| FetchJob.FetchAnimeJob.FetchJobFromTasks | app/ingestion/jobs/fetch_anime_job.py:156-244 | the first claimable task is settled as the answers say and committed, or the run stops with the ledger unchanged up to one unanswered commit; raw_bytes counts only committed stores |
| FetchJob.FetchAnimeJob.FetchFromTasks | app/ingestion/jobs/fetch_anime_job.py:77-154 | the run ends; its rows and totals are those of its history, every task was due when it was claimed, no task is claimed after either limit, the two limit stops happen exactly at ten and five, a normal end leaves only done, dead and gone tasks and failed ones whose retry time is to come, done tasks keep their data |
| FetchProtocol.CopyIsCurrent | app/ingestion/repository/task_repository.py:110-131 | writing attempts from the worker's own copy of a locked task loses no update |
| FetchProtocol.MoveStaysInStep | app/ingestion/jobs/fetch_anime_job.py:47-55 | every claim, upload, commit, release and reset, and every late upload of a task nobody holds that is not finished, keeps locks, ledger, index and store in step |
| FetchProtocol.MoveStaysParked | app/ingestion/repository/task_repository.py:75-92 | unless a claim picks a task whose earlier upload may still arrive, the tasks of all such uploads stay unfinished and unheld |
| FetchProtocol.EveryRunStaysInStep | app/ingestion/jobs/fetch_anime_job.py:162-244 | in every state several workers can reach a done task has an index row with the size of its object, every index row has an object, and no task is held twice, provided that no task is claimed while an upload of it may still arrive |
| FetchProtocol.HastyClaimHarms | app/ingestion/storage/raw_store.py:55-63 | every claim of a task whose earlier upload may still arrive can lead to a done task whose index row has the wrong size |
| FetchProtocol.LateUploadDisagrees | app/ingestion/jobs/fetch_anime_job.py:235-239 | a run from one pending task: its worker is interrupted while sending, the task is stored again, and the late upload leaves a done task whose index row has the wrong size |
| DiscoveryRuns.WhatIsListed | app/ingestion/jobs/discovery_job.py:249-265 | a task is listed exactly when one of the pages has an entry with its positive id and no excluded type, and the resource is asked for |
| DiscoveryRuns.WhereItEnds | app/ingestion/jobs/discovery_job.py:243-246 | paging ends at the first page without a next page or, if there is a limit, with its number |
| DiscoveryRuns.PagesAreOneStep | app/ingestion/jobs/discovery_job.py:237-288 | page by page the ledger is that of one statement over all listed tasks, each counted once as inserted or reset, and the three counts sum to the distinct rows per page |
| DiscoveryRuns.CountsCompose | app/ingestion/jobs/discovery_job.py:177-182 | inserted and reset counts of two statements add up to those of one over both row sets |
| DiscoveryRuns.DiscoveryJob.CollectRows | app/ingestion/jobs/discovery_job.py:249-265 | each usable anime's tasks once, with anime seen, without id and of excluded type counted |
| DiscoveryRuns.DiscoveryJob.OnePage | app/ingestion/jobs/discovery_job.py:238-277 | a committed page writes its tasks and counts them; a failed page counts no task, and changes the ledger only if its commit was not answered |
| DiscoveryRuns.DiscoveryJob.RunPages | app/ingestion/jobs/discovery_job.py:188-313 | the run covers the pages from its start to the last or max_pages, or records the first page not known to be committed |
| DiscoveryRuns.DiscoveryJob.RunWithRestarts | app/ingestion/jobs/discovery_job.py:158-170 | failing anywhere and resuming at the saved page ends in the ledger of one uninterrupted run, with no listed task done or failed after a refresh |
| DiscoveryRuns.DiscoveryJob.ResetActiveFromCatalogue | app/ingestion/jobs/discovery_job.py:172-186 | for every chunk size the ledger and both counts are those of one statement over all rows, and a refused commit changes nothing |
| DiscoveryRuns.DiscoveryJob.RunJobWeekly | app/ingestion/jobs/discovery_job.py:89-121 | whatever fails, the ledger is that of one reset of the rows reached; a finished run leaves every task of both lists from their saved pages on, and of the active anime, pending, dead or gone |
| DiscoveryRuns.DiscoveryJob.RunWeeklyWithRestarts | app/ingestion/jobs/discovery_job.py:89-121 | after any number of failed weekly runs in any step, a finished one leaves every task of the two whole lists and of the active anime pending, dead or gone, and a run in which nothing fails finishes |
| DiscoveryRuns.WhatAWeekRefreshes | app/ingestion/jobs/discovery_job.py:89-121 | those tasks are, for the resources asked for, of the active anime and of every anime with a positive id and no excluded type on some page of a list up to its end |
| SourceAdapter.RateLimiter.Acquire | app/ingestion/utils/rate_limiter.py:23-34 | recorded acquires are at least 60/rpm seconds apart, whoever calls and whoever is cancelled |
| SourceAdapter.RateBound | app/ingestion/utils/rate_limiter.py:17-34 | every half-open minute holds at most ceiling(rpm) acquires |
| SourceAdapter.CircuitBreaker.Check | app/ingestion/utils/circuit_breaker.py:28-33 | a call is blocked exactly while the breaker is open and its cooldown lasts |
| SourceAdapter.TenraiAdapter.Attempt | app/ingestion/adapters/tenrai.py:68-129 | one request after the limiter; before another one the wait doubles from a second, or is what a 429 asks for |
| SourceAdapter.ResultIsExact | app/ingestion/adapters/tenrai.py:90-134 | transport errors and the statuses 429, 500, 502, 503 and 504 are repeated while attempts are left; the result is the JSON exactly for a 200 with valid JSON, gone for 404, denied for 401 and 403, transient exactly when the attempts are used up, permanent for any other status |
| SourceAdapter.TenraiAdapter.Fetch | app/ingestion/adapters/tenrai.py:67-134 | at most max_attempts requests with that result; between two of them two to the k seconds, or what a 429 asks for, or 30 seconds; requests minus retries rises by exactly one unless the call is interrupted |
| SourceAdapter.TenraiAdapter.Hear | app/ingestion/adapters/tenrai.py:138-156 | an exhausted call adds a failure and at the threshold opens the breaker, an answer, also a 404 or a permanent error, closes it, a denial and an interruption leave it |
| SourceAdapter.TenraiAdapter.Report | app/ingestion/adapters/tenrai.py:138-156 | the breaker is open exactly when the exhausted calls since the last answered one reach the threshold; a denial changes nothing |
| SourceAdapter.TenraiAdapter.Get | app/ingestion/adapters/tenrai.py:136-158 | while open and within the cooldown nothing is sent; otherwise every request is sent after the cooldown of the latest failure |
| Tokens.RotationIsSafe | app/security/service.py:46-82 | committing a rotation keeps one live token per login and one child per token |
| Tokens.CommitIsSafe | app/core/database/database.py:34-43 | whatever a request commits, locks, pending tokens and rows stay consistent |
| Tokens.MoveIsSafe | app/security/repository.py:26-48 | every statement of a refresh, login, logout, logout-all, wipe or cleanup keeps the invariants |
| Tokens.RotationIsSingleUse | app/security/service.py:29-87 | from the empty system on, under every interleaving at most one committed token is minted from a given one, a login has at most one unrevoked token, and tokens keep their login's user and absolute expiry |
| Tokens.NothingIsStuck | app/security/service.py:46-82 | a commit, re-read or mint always finds the rows it needs, because its row is locked or its token was signed |
| Tokens.RunPersists | app/security/repository.py:26-42 | a revoked row keeps its revoked_at for good or is deleted for good |
| Tokens.LosersMintNothing | app/security/service.py:47-70 | a request that found its token spent never mints |
| Tokens.GraceIsExact | app/security/service.py:48-60 | a loser ends without touching a row exactly when the row still exists and was revoked no longer than the grace time ago; otherwise it goes on to the wipe |
| Tokens.WipeIsExact | app/security/repository.py:47-48 | a wipe leaves exactly the rows of other users, unchanged, and of its user the tokens committed after its statement began |
| Tokens.LogoutAllIsExact | app/security/repository.py:35-42 | a logout-all leaves every row, and changes exactly those of its user that were committed when its statement began and are not revoked: to revoked as of then |
| Tokens.CleanupIsExact | app/security/repository.py:65-68 | a cleanup removes exactly the rows that had expired when its statement began |
| Tokens.WipeIsOfItsUser | app/security/service.py:62-64 | a wipe is of the user the spent token was signed for |
| Tokens.LogoutAllIsOfItsUser | app/security/service.py:205-215 | a logout-all starts only from an unrevoked token, and is of the user of its row |
| Tokens.WhoGoesOn | app/security/service.py:41-44 | a refresh without a row, and a logout or logout-all without an unrevoked row, end at once and change nothing |
| Tokens.RotationIsExact | app/security/service.py:46-82 | whatever happens between update and commit, a rotation revokes its token as of the update, adds one usable token of the same user and expiry, and changes no other row |
| Tokens.LogoutWrites | app/security/service.py:181-183 | a logout revokes its token without a time, so that no grace time follows, and changes no other row |
| Tokens.RollbackLeavesNothing | app/core/database/database.py:34-43 | a request can be rolled back until it has ended, which changes no row and frees its locks |
| Tokens.SweepEndsAllSessions | app/security/service.py:188-210 | a wipe or logout-all leaves its user no usable token if and only if every token committed since its statement began has been revoked again |
| TokenStories.RotationSurvivesAWipe | app/security/service.py:62-70 | a run in which a spent token is used again and a rotation commits during the wipe, whose new token of the same login stays usable |
| Tokens.LogoutIsExact | app/security/service.py:176-186 | a logout ends its session exactly when the row it updates is unrevoked or the session had ended anyway |
| TokenStories.LogoutMissesTheChild | app/security/service.py:176-186 | a run in which a rotation between a logout's read and update leaves the session alive |

## Left out

- Tokens are modelled as a state machine over values, not as classes, because the point is the interleaving of requests; object identity and the ORM session are not captured.
- FetchProtocol models several workers on values for the same reason; one worker alone is the class FetchAnimeJob.
- FetchJob.FetchAnimeJob.FetchFromTasks: does not model its row in the run history, its timings, or other workers changing the ledger during the run (FetchProtocol does).
- CleanJob.CleanAnimeJob.FullCleanLoop: does not model a failure before the run row is written, the explicit `since` and `after` of a caller together with other writers, or timings.
- Catalogue.Upsert: every row carries its own columns; the original takes the columns of the first row, which is the same because each parser sets the same columns in every row.
- updated_at and created_at columns.
- Parsing of single fields (dates, scores, HTML, durations, placeholder synopses): payloads carry the scalar values already cleaned. SHA-256 is a free constructor.
- Parsers.ExtractRelations: gives a set; the order of the original list is not kept because only sets are compared and stored.
- The concurrent reads of a batch from the object store: their order does not matter, a missing object stops the run.
- Storing an object is atomic; partial objects are not modelled.
- Foreign keys that cascade when a user or an anime is deleted.
- JWT encoding and decoding, passwords, access tokens and their Redis entries; that token ids are never drawn twice is an assumption of the moves Mint and Login.
- CleanWorlds.SucceededRunLeavesFullPass: does not model an object that was overwritten without its index row (a fetch interrupted before its commit); the row is fetched again before it counts as done.
- DiscoveryRuns.DiscoveryJob.RunWeeklyWithRestarts: the lists and the active anime stay the same between the attempts, and no worker runs in between.
- CleanScripts.CleanStage.Clean: does not model a cursor given on the command line (`--after`).
- The monthly refresh, which is two lists of the kind RunList models, and the overall discovery, which is RunPages without resets.
- The login's check for a session that still lives, which writes nothing; deadlocks between sweeps, which are rollbacks.
- IMDb downloads, users, FastAPI endpoints, Airflow, migrations and the benchmark script.
