# QuantGod backend: verified models

Dafny models of the parts of the QuantGod backend that hold real algorithms, with proofs of what
those parts promise. `dafny verify dfyconfig.toml` checks everything.

| file | what it models |
|---|---|
| `csv_scanner.dfy` | the ledger reader's character scanner and row table |
| `csv_printer.dfy` | a printer after section 2 of RFC 4180, undone by the reader |
| `csv_tail.dfy`, `csv_limits.dfy` | reading only the end of a large ledger, and where that stops being exact |
| `run_cache.dfy` | the single-flight run cache, with loads ending in any order |
| `json_cache.dfy` | the JSON file cache |
| `scheduler.dfy` | deduplication, ranking, round-robin and fill of the tester queue |
| `recovery.dfy` | the run ledger and the candidate drilldown over one task history, and risk |
| `tester_window.dfy` | the weekly tester schedule, written twice |
| `authorization.dfy` | the execution gate and the timed lock |
| `research_stats.dfy` | four ledgers folded into buckets, and the summary by symbol |
| `live_decisions.dfy` | the governance advisor and the promotion gate judging one trade history |
| `dictionaries.dfy` | JavaScript `Map` and Python `dict`: insertion order, a set key keeps its place |
| `sequences.dfy`, `text.dfy`, `numbers.dfy`, `blockers.dfy` | shared vocabulary |

Text is a sequence of code points. A file is its text, and its bytes are counted by UTF-8 width, so a
slice that cuts a character is modelled as the decoder shows it. Times and limits are integers. Money
and scores are exact reals. What the code takes from outside (a clock, a JSON parser, the symbol
registry, lower-casing, time-stamp parsing) is a parameter.

Where the source loops and updates, the model has a method with that loop, proved equal to a
specification function; the main results are lemmas about those functions over all inputs and all runs.

## Results worth knowing

- A limited tail read of a ledger is exact for every ledger with data lines of at most m bytes if and
  only if the bytes it reads are more than m times the limit: lines of up to 2047 bytes are safe for every limit,
  lines of 2048 bytes from a limit of 128 on are not (`ReadsExactlyWhenEnough`, `WideLinesLoseRows`).
- Its records are the file's last records if and only if the line feed at the cut is not inside quotes; quoted
  line breaks elsewhere do no harm (`TailRecordsAreSuffix`). A quoted cut can invent rows
  (`QuotedBreaksInventRows`).
- The run cache is single-flight if and only if its limit has room for every key that is called for; one key
  more, and a load can run beside itself (`SingleFlightExactly`, `TrimmedLoadRunsTwice`). What it serves is
  always fresh and for the right key.
- The JSON cache is transparent if and only if files of one path with equal modification time and size parse
  alike (`CachedReadIsDirectRead`); any two that do not make some read stale (`SameStampReadsStale`).
- The scheduler's queue does not depend on the order of its source records if and only if records that tie at the
  top of one candidate are the same record (`SelectionIgnoresSourceOrder`).
- The guard's schedule stays open for the rest of each closing minute; that is the only difference
  between the two schedules (`SchedulesAgree`).
- Run totals and candidate totals differ by exactly the tasks without a candidate id and the summaries
  of documents without tasks (`TotalsReconcile`); the largest retry counts always agree.
- The research buckets depend on the order of the ledgers' rows: the mapping cache keeps the first spelling of
  each compact symbol form. They do not depend on it if and only if the first ledger with a form spells it one way;
  everything but the broker names does not if and only if those spellings have one canonical name
  (`BucketsIgnoreRowOrder`, `OnlyBrokersFollowRowOrder`, `FirstSpellingWins`).
- The advisor and the gate demote together once three trades have closed (`DemotionMeans`).

## Model

| member | source | states |
|---|---|---|
| CsvScanner.ParseRecords | Dashboard/phase2_api_routes.js:471-504 | the look-ahead loop over quote state computes what the one-character automaton computes, on every text |
| CsvScanner.ParseCsv | Dashboard/phase2_api_routes.js:468-510 | the parser returns the table of the scanned records: trimmed headers, blank records dropped, missing values empty |
| CsvScanner.CsvTableIgnoresBom | Dashboard/phase2_api_routes.js:464-470 | stripping a byte order mark never changes the table, because headers are trimmed of it anyway |
| CsvScanner.CsvRowsOfScan | Dashboard/phase2_api_routes.js:470-509 | the early exit on white-space text loses no row |
| CsvScanner.RunFromRecordStart | Dashboard/phase2_api_routes.js:476-502 | scanning composes at record boundaries: the records of a text are those of its parts |
| CsvScanner.RowAtColumn | Dashboard/phase2_api_routes.js:508-509 | a row's column holds the value at the column's own position unless a later column has its name, and nothing where the record is shorter |
| CsvScanner.TrimMeans | Dashboard/phase2_api_routes.js:506-507 | trimming removes white space at both ends, all of it, and nothing else |
| CsvPrinter.ScanUndoesPrint | Dashboard/phase2_api_routes.js:476-504 | scanning printed records gives them back, for any quoting, LF or CRLF; a final break reads as one more record with one empty field |
| CsvPrinter.ParseUndoesPrint | Dashboard/phase2_api_routes.js:468-510 | parsing a printed table gives its headers and non-blank rows, if and only if the text is not all white space |
| CsvPrinter.RowsHoldTheirCells | Dashboard/phase2_api_routes.js:468-510 | of any printed table the reader gives one row for each line with text, in order; its columns are the trimmed headers, numbered where empty, and each holds the text of its own cell of that line |
| CsvTail.TailCut | Dashboard/phase2_api_routes.js:547-552 | the records of what a cut keeps are the last records of the text if and only if the line feed at the cut is unquoted |
| CsvTail.QuotedCutDiffers | Dashboard/phase2_api_routes.js:476-502 | scanning afresh after a quoted line feed never ends on the record that scanning on ends on |
| CsvTail.CutLosesOneLine | Dashboard/phase2_api_routes.js:536-552 | the cut loses at most one line's bytes and finds a line feed unless less than a line is left |
| CsvTail.ReattachedHeader | Dashboard/phase2_api_routes.js:518-555 | a header line read from the first 64 KB, its line feed unquoted, scans before any other text as the header record and that text |
| CsvTail.MatchingOfSuffix | Dashboard/phase2_api_routes.js:601-618 | symbol, route and day filters keep a suffix a suffix |
| CsvTail.MatchingMeans | Dashboard/phase2_api_routes.js:601-618 | the filters together keep exactly the rows of the symbol and route asked for and not older than the days asked for, in order |
| CsvTail.AnswerMeans | Dashboard/phase2_api_routes.js:601-624 | the answer is the last of those rows: all without a positive limit, else as many as the limit and at most 5000 |
| CsvTail.SmallFilesAreReadWhole | Dashboard/phase2_api_routes.js:531-535 | a file of up to a megabyte is read whole, whatever the limit |
| CsvTail.TailRecordsAreSuffix | Dashboard/phase2_api_routes.js:531-563 | behind its header, the text handed to the parser has the last records of the file if and only if the cut is unquoted |
| CsvTail.TailAnswerIsSuffix | Dashboard/phase2_api_routes.js:531-624 | when the header's and the cut's line feeds are unquoted, the tail answer is a suffix of the full answer under any filters and limit, and equals it exactly when the part read holds enough matching rows |
| CsvTail.TailHoldsEnough | Dashboard/phase2_api_routes.js:23-25 | on non-blank lines of at most m bytes, m times the limit being less than the bytes read, those bytes hold every row or the limit's number of rows |
| CsvTail.TailReadIsExactFor | Dashboard/phase2_api_routes.js:531-563 | for such a limit the tail answer is the full answer |
| CsvTail.TailReadIsExact | Dashboard/phase2_api_routes.js:512-563 | with data lines of at most 2047 bytes every limit gives exactly the rows of the whole file |
| CsvLimits.ReadsExactlyWhenEnough | Dashboard/phase2_api_routes.js:531-563 | for each line length m and limit, all ledgers with unquoted line feeds and non-blank data lines of at most m bytes are read exactly if and only if m times the limit is less than the bytes read |
| CsvLimits.WideLinesLoseRows | Dashboard/phase2_api_routes.js:531-563 | where it is not, a ledger of m-byte lines is answered with the whole lines left in the bytes read, fewer than the limit |
| CsvLimits.QuotedBreaksInventRows | Dashboard/phase2_api_routes.js:531-563 | a file of one long quoted field has one row, and a tail read of it answers as many as the limit, up to 127 |
| CsvLimits.LongHeaderIsCut | Dashboard/phase2_api_routes.js:518-529 | a header line that does not end in the first 64 KB is cut there |
| Dictionaries.LinkedMap.Trim | Dashboard/api_perf_cache.js:19-25 | trimming deletes oldest entries until the limit, at least one, is met: the newest entries stay in order |
| Dictionaries.PutThenTrim | Dashboard/api_perf_cache.js:19-25 | in a map within its limit a write followed by a trim keeps the limit and the entry written |
| RunCache.RunCached | Dashboard/api_perf_cache.js:61-92 | a call joins, serves or launches, and leaves the map as specified |
| RunCache.OnResolve | Dashboard/api_perf_cache.js:77-84 | a finished load stores its value under its key with a fresh expiry, then trims |
| RunCache.OnReject | Dashboard/api_perf_cache.js:85-88 | a failed load deletes its key's entry, whichever it is |
| RunCache.StepKeepsInv | Dashboard/api_perf_cache.js:61-92 | every event keeps: in-flight entries belong to running loads of their key, stored values to finished loads of theirs, and running loads are accounted for |
| RunCache.ServedValueIsFresh | Dashboard/api_perf_cache.js:66-73 | in every run a served value came from a load of the same key that finished at some c with c <= now < c + ttl |
| RunCache.JoinedLoadIsRunning | Dashboard/api_perf_cache.js:66-67 | in every run a joined load is still running and is for the caller's key |
| RunCache.LoadsPerKey | Dashboard/api_perf_cache.js:61-92 | loads running for a key are at most one plus its trimmed in-flight entries; with none trimmed a load is launched only when none runs |
| RunCache.SingleFlightExactly | Dashboard/api_perf_cache.js:61-92 | over all runs with one limit whose calls are for a set of keys, a load is launched only when none of its key runs, if and only if the limit has room for all the keys |
| RunCache.TrimmedLoadRunsTwice | Dashboard/api_perf_cache.js:19-25 | calls for any keys one more than the limit and then for the first again run two loads of the first key at once |
| RunCache.CallAnswersExactly | Dashboard/api_perf_cache.js:61-92 | in every run with room for all called keys, a call joins the running load of its key, or else serves the last finished load of its key while it is fresh, and launches a load exactly when there is neither |
| RunCache.CacheIsBounded | Dashboard/api_perf_cache.js:19-25 | with one limit for all calls the map never outgrows it, and no write is trimmed by its own trim |
| JsonCache.ReadJsonFileCached | Dashboard/api_perf_cache.js:32-59 | one call computes the specified cache and payload |
| JsonCache.CachedReadIsDirectRead | Dashboard/api_perf_cache.js:32-59 | over all runs of permitted writes, every read answers the parse of the file as it is if and only if permitted files of one path with the same time and size parse alike |
| JsonCache.CacheIsBounded | Dashboard/api_perf_cache.js:49-57 | the cache never outgrows its limit and holds every path just read |
| JsonCache.SameStampReadsStale | Dashboard/api_perf_cache.js:37-46 | after any two writes with the same time and size, the first of which was read and parsed, a read answers the first |
| JsonCache.ReadAnswersExactly | Dashboard/api_perf_cache.js:32-59 | in every run with room for all paths read, a read after a successful one answers the same while time and size are unchanged and that read's time to live is not over, and otherwise what the file parses to |
| Scheduler.DedupSources | tools/build_param_lab_auto_scheduler.py:465-485 | the deduplication loop computes its specification |
| Scheduler.DedupKeepsFirstBest | tools/build_param_lab_auto_scheduler.py:465-485 | a candidate survives exactly if some record names it, as the first record of maximal priority |
| Scheduler.SurvivorHasHighestBase | tools/build_param_lab_auto_scheduler.py:431-440 | whatever the evidence, gate records displace retunes and both displace legacy tasks of the same candidate |
| Scheduler.EvidenceAddsUp | tools/build_param_lab_auto_scheduler.py:431-440 | a retune is worth 8, a rank score a tenth of it, the candidate's own before its proposal's, and a report waited for 12 |
| Scheduler.GroupAndRank | tools/build_param_lab_auto_scheduler.py:487-491 | grouping and then sorting each route gives each route's part of the whole ranking |
| Scheduler.SortedIsUnique | tools/build_param_lab_auto_scheduler.py:490-491 | priority and id leave exactly one ranking of a set of records |
| Scheduler.PickBySlots | tools/build_param_lab_auto_scheduler.py:497-510 | the nested loops with their breaks take the first records of the round-robin order |
| Scheduler.FillFromRanking | tools/build_param_lab_auto_scheduler.py:511-520 | the fill takes the best records not yet used, up to the cap |
| Scheduler.BuildQueue | tools/build_param_lab_auto_scheduler.py:465-520 | the whole builder returns the specified selection |
| Scheduler.SelectionIsWorkConserving | tools/build_param_lab_auto_scheduler.py:493-520 | selected ids are distinct, none is invented, and there are min(max tasks, candidates) of them |
| Scheduler.SelectionIsRankClosed | tools/build_param_lab_auto_scheduler.py:497-520 | for every route the selected records, in order, are a prefix of that route's ranking, fill included |
| Scheduler.RankPosition | tools/build_param_lab_auto_scheduler.py:497-510 | after any number of turns a core route's record has been reached exactly when its rank is below the turns its route has had |
| Scheduler.TurnsAreInOrder | tools/build_param_lab_auto_scheduler.py:497-510 | when the slot phase takes a core route's record it has taken every core record of a lower rank, and of the same rank every one of a route listed before |
| Scheduler.CoreRoutesGetTheirHighestScore | tools/build_param_lab_auto_scheduler.py:497-510 | with a task for each core route that has records, each has one in the queue that no surviving record of its route outscores |
| Scheduler.FillTakesTheBest | tools/build_param_lab_auto_scheduler.py:511-520 | every record the fill takes scores higher than every record left out, or the same with a smaller id |
| Scheduler.QueueRunsDownEachRoute | tools/build_param_lab_auto_scheduler.py:487-520 | within a route the queue runs from high scores to low, ties in id order |
| Scheduler.QueueTakesTheBestOfEachRoute | tools/build_param_lab_auto_scheduler.py:487-520 | no record left out scores higher than a queued record of its route |
| Scheduler.SelectionIgnoresSourceOrder | tools/build_param_lab_auto_scheduler.py:465-520 | permuting the source records never changes a selection if and only if records tied at the top of one candidate are the same record |
| Recovery.BuildResultIndex | tools/build_param_lab_run_recovery.py:132-148 | the indexing loop computes its specification |
| Recovery.IndexPrefersReports | tools/build_param_lab_run_recovery.py:132-148 | a key is indexed exactly if a row has it, to the first row with a report or else the first row |
| Recovery.BuildRunRows | tools/build_param_lab_run_recovery.py:217-296 | the nested loops with their running attempt counter compute each run's counts and largest retry |
| Recovery.BuildCandidateDrilldown | tools/build_param_lab_run_recovery.py:393-459 | the nested loops updating candidate rows compute the specified rows |
| Recovery.RunRowByEvidence | tools/build_param_lab_run_recovery.py:217-296 | each count of a run row is the number of the run's tasks whose evidence is of that kind; a run without tasks repeats its summary |
| Recovery.RetryCountMeans | tools/build_param_lab_run_recovery.py:235-289 | a run's retry count is the largest number of earlier attempts its tasks' candidates had |
| Recovery.CandidateRowByEvidence | tools/build_param_lab_run_recovery.py:400-459 | each count of a candidate row is the number of the candidate's tasks over all runs whose evidence is of that kind; runs are listed in order and the latest state is the last task's |
| Recovery.DrilldownIsPerCandidate | tools/build_param_lab_run_recovery.py:400-459 | a candidate has a row exactly if it has an attempt, and the row digests its own attempts only |
| Recovery.TotalsReconcile | tools/build_param_lab_run_recovery.py:217-296 | for every history each run total is the candidate total plus tasks without id plus taskless summaries |
| Recovery.TaskCountsReconcile | tools/build_param_lab_run_recovery.py:217-296 | the same for task counts and attempt counts |
| Recovery.SummariesAgree | tools/build_param_lab_run_recovery.py:393-459 | on complete histories all four state totals and the task totals of the two summaries are equal |
| Recovery.LargestRetriesAgree | tools/build_param_lab_run_recovery.py:235-289 | for every history the largest retry count of a run is the largest number of retries a candidate used |
| Recovery.RiskFallsOnlyOnParse | tools/build_param_lab_run_recovery.py:318-335 | an attempt lowers a candidate's risk exactly when it is parsed and the candidate was not green |
| Recovery.RiskFallsOnlyOnAReport | tools/build_param_lab_run_recovery.py:151-169 | whatever the history, an attempt that lowers a risk has run and is backed by an HTML or native report; agent artifacts alone never lower one |
| Recovery.StateByEvidence | tools/build_param_lab_run_recovery.py:151-169 | an attempt is parsed, malformed, missing or pending if and only if status, parse status, reports and exit code say so: a declared missing report first, then an unparsed one, then a readable one, then an overdue one |
| Recovery.RedMeans | tools/build_param_lab_run_recovery.py:318-335 | red means: last attempt unparsed, and some failure in the history or the budget spent without a parsed report |
| Recovery.YellowMeans | tools/build_param_lab_run_recovery.py:318-335 | yellow means: several attempts, none failed, the last unparsed, and a parsed report or retries left |
| Recovery.ReasonMeans | tools/build_param_lab_run_recovery.py:318-335 | a red candidate's reason names its worst failure, and the spent budget only without any |
| Recovery.CalmReasonMeans | tools/build_param_lab_run_recovery.py:318-335 | without red the reason is a parsed last report, else repeated waiting after several attempts, else a budget not yet used |
| Recovery.ScoreMeans | tools/build_param_lab_run_recovery.py:318-335 | the score of each level is its base plus its weights times the numbers of attempts of each kind |
| Recovery.RetryBudgetAddsUp | tools/build_param_lab_run_recovery.py:461-465 | used and remaining retries of a candidate make up the budget, and used ones are its attempts less one |
| TesterWindow.GuardIsTablePlusClosingMinute | tools/auto_tester_window_guard.py:279-296 | the guard's minute arithmetic is the window table plus the rest of each closing minute |
| TesterWindow.GuardByInstant | tools/auto_tester_window_guard.py:279-296 | the hours the guard is open, in microseconds of the week |
| TesterWindow.PlanIsFound | tools/build_daily_review.py:222-236 | the search ends today or with tomorrow's first window, so its fallback is unreachable |
| TesterWindow.SchedulesAgree | tools/build_daily_review.py:210-236 | at every instant an open plan means an open guard, and they differ exactly in closing minutes |
| TesterWindow.PlanIsNextWindow | tools/build_daily_review.py:210-236 | nothing is open before the returned start, all of the returned window is, and the wait is under 17 h 40 min |
| TesterWindow.WeekRepeats | tools/build_daily_review.py:210-236 | both schedules are the same a week later |
| Authorization.FreshLockPasses | tools/auto_tester_window_guard.py:299-369 | a dashboard lock passes if and only if now is before its clamped expiry and not over two minutes before its creation, directories and task count fit, and no override is asked |
| Authorization.ClampsAreNearest | Dashboard/dashboard_server.js:1371-1381 | minutes and tasks are moved to the nearest allowed number, and default to 90 and 8 |
| Authorization.ValidateQueue | tools/auto_tester_window_guard.py:372-418 | the validation loop lists the specified blockers |
| Authorization.QueuePasses | tools/auto_tester_window_guard.py:372-418 | a queue passes exactly if it is a non-empty list of tester-only tasks and its summary turns nothing on |
| Authorization.AsksForTerminalMeans | tools/auto_tester_window_guard.py:392-403 | a command asks for the terminal exactly if either spelling of the option stands anywhere in it, in any case |
| Authorization.GateOpensExactly | tools/auto_tester_window_guard.py:548-604 | the gate opens if and only if a readable lock grants what is asked, the queue is tester-only, the live snapshot is at rest and not older than the allowed minutes (any future time passes), the machine is complete and the window is open or overridden |
| Authorization.LockHasWriter | Dashboard/dashboard_server.js:1465-1489 | in every run the lock on file is the one some earlier write made |
| Authorization.AuthorizationIsBounded | tools/auto_tester_window_guard.py:548-604 | in every run an open gate implies a lock write less than its clamped minutes, at most 180, ago, an open tester window, a tester-only queue and a live session at rest |
| ResearchStats.CountRow | tools/build_mt5_research_stats.py:352-415 | the loop bodies' field updates add exactly the row's own bucket |
| ResearchStats.CountInto | tools/build_mt5_research_stats.py:178-185 | one turn of a loop looks the symbol up in the mapping cache, fills the cache on a new compact form and counts the row |
| ResearchStats.BuildBuckets | tools/build_mt5_research_stats.py:342-415 | the four loops, sharing one mapping cache, compute the fold of all rows |
| ResearchStats.FoldIsFixed | tools/build_mt5_research_stats.py:178-185 | the fold with the growing cache counts every row under the mapping its symbol has in the end |
| ResearchStats.KeyMeans | tools/build_mt5_research_stats.py:232-250 | two rows share a bucket exactly if canonical name, route, regime and timeframe agree, no route counting as "QuantGod/Other" and no regime as "UNKNOWN" |
| ResearchStats.MergeLaws | tools/build_mt5_research_stats.py:172-175 | counts, sums, name sets and latest times add up in any order and grouping |
| ResearchStats.EveryBucketBalances | tools/build_mt5_research_stats.py:352-415 | wins, losses and flats make up trades; gross profit less gross loss is net; outcome and link classes add up; latest time is the latest of four |
| ResearchStats.TradesOfBucket | tools/build_mt5_research_stats.py:366-385 | wins, losses and flats of a bucket are the numbers of its close rows with net above, below and at zero, and only positive durations are counted |
| ResearchStats.MoneyOfBucket | tools/build_mt5_research_stats.py:366-385 | net, gross profit, gross loss and durations of a bucket are the sums over its close rows, the winning ones and the negated losing ones |
| ResearchStats.EventsOfBucket | tools/build_mt5_research_stats.py:352-415 | events, entries, exits and closed and open links of a bucket are the numbers of its rows that pass each test |
| ResearchStats.LabelsOfBucket | tools/build_mt5_research_stats.py:387-399 | a label counts as positive if it reads as a win, negative if it only reads as a loss, else flat |
| ResearchStats.TimesOfBucket | tools/build_mt5_research_stats.py:352-415 | a bucket's latest time of a ledger is carried by one of its rows of that ledger and no other of them is later |
| ResearchStats.NamesOfBucket | tools/build_mt5_research_stats.py:252-257 | source symbols and sources of a bucket are those of its rows |
| ResearchStats.BucketAddsUpItsRows | tools/build_mt5_research_stats.py:232-258 | a bucket exists exactly if a row has its key and adds up the rows that do |
| ResearchStats.BucketsIgnoreRowOrder | tools/build_mt5_research_stats.py:352-415 | permuting the ledgers leaves every bucket unchanged if and only if the first ledger with symbols of a compact form spells them one way |
| ResearchStats.OnlyBrokersFollowRowOrder | tools/build_mt5_research_stats.py:352-415 | it leaves everything but the broker names unchanged if and only if those symbols have one canonical name |
| ResearchStats.FirstSpellingWins | tools/build_mt5_research_stats.py:178-185 | of two close rows that differ in spelling only, the bucket keeps the first row's broker name alone |
| ResearchStats.SummarizeBySymbol | tools/build_mt5_research_stats.py:303-332 | the summary loop computes its specification |
| ResearchStats.CountsAreConserved | tools/build_mt5_research_stats.py:303-415 | each symbol row counts exactly that symbol's rows of each ledger, and totals over buckets and symbols are the number of rows with a symbol |
| ResearchStats.NetProfitIsConserved | tools/build_mt5_research_stats.py:303-415 | each symbol row's net profit is the sum over that symbol's close rows, and totals over buckets and symbols are the sum over the close rows with a symbol |
| LiveDecisions.SummarizeProfits | tools/build_governance_advisor.py:321-341 | the summary with its backward counting loop is as specified |
| LiveDecisions.SummaryMeans | tools/build_governance_advisor.py:321-341 | wins and losses are the numbers of positive and negative profits, and the win rate is their share in percent |
| LiveDecisions.StreakIsLongestLosingSuffix | tools/build_governance_advisor.py:326-331 | consecutive losses is the length of the longest losing suffix |
| LiveDecisions.NegativeNetIsFactorBelowOne | tools/build_governance_advisor.py:283-288 | net is negative exactly when the profit factor is defined and below one; it is undefined exactly without a loss |
| LiveDecisions.DemotionMeans | tools/build_version_promotion_gate.py:216-228 | the advisor asks for a demotion review exactly when the last two trades lost or three or more together lost; the gate demotes exactly then and on at least three trades |
| LiveDecisions.KeepingAgrees | tools/build_governance_advisor.py:1083-1107 | the advisor keeps a route exactly when the gate does, 45 percent won and open positions are less than 0.5 down |
| LiveDecisions.BlockersMean | tools/build_governance_advisor.py:1083-1107 | each of the advisor's blockers is named exactly when the trades or open positions call for it |

## Left out

- HTTP routing, headers, static files, process spawning, JSON and CSV file writing.
- Decoding of invalid UTF-8, and files that change between a stat and the reads after it.
- TailAnswerIsSuffix: says nothing about a header line over 64 KB or with a quoted line feed, or a tail slice without a line feed.
- Parsing of time stamps, numbers and query strings, and case conversion outside ASCII: parameters, or given in parsed form.
- The order of an object's keys in a parsed row: rows are maps.
- ReadJsonFileCached: one call reads the clock twice and the model reads it once.
- Rounding of money, profit factors and priorities (`round`): exact numbers, so two priorities that differ by less than the rounding step tie in the source and not here.
- The final display sorts of run rows, candidate rows and research rows; totals and maxima do not depend on them.
- The tester-log and account-context override of a candidate's risk, stop reasons, advice texts and ledger columns.
- `load_status_documents`: the histories modelled start from its result.
- The registry's rules for compact forms and canonical names: functions of the symbol; and the bucket metadata taken from the first row.
- Derived research ratios (win rate, coverage, sample state) and the source-symbol lists of the final document.
- LiveBlockers: takes position counts as integers and the trade status in upper case.
- Path resolution, accounts read from files, preset and tester-config validation, and the scripts that call the gate.
- Decisions on routes that are not live, on optimizer proposals, and the promotion counts of the gate document.
- The offline parameter planner's selector: a simpler form of the queue scheduler's.
