# Stateful bookkeeping of TradingbotR1000, modelled and proved in Dafny

The paper-trading bot keeps its state in files, tables and one lock. What keeps
that state consistent is spread over many small guards: who may hold the
console, when a download may be resumed, when an order counts as a duplicate,
which of two sources a fill is counted from, how many shares may still be sold.
This project models those guards and proves what they guarantee together, over
every run and every interleaving.

`dafny verify dfyconfig.toml` checks the whole project.

## How it is organised

The console and its data:

- `Console.dfy`: the single-console protocol (`ConsoleSession`) as a transition
  system over any number of processes. Their atomic actions interleave freely;
  kills, exceptions and signals may strike at every point.
- `LongOnly.dfy`: the long-only guard of manual SELLs, on the broker's listing of
  open orders, and any run at the broker between and after the guard's reads.

Market data:

- `Downloader.dfy`: what a download run makes of the files it finds. `Target` is
  what an undisturbed run would end with; no single write moves it.
- `DownloadRun.dfy`: the run as a class `Disk` whose methods write the files one
  by one and may be killed before each write, proved against the list of writes
  `Writes`; and what any schedule of kills and refused symbols leads to.
- `Restart.dfy`: the job on bar rows, and exactly when killed first runs still end
  with all that the provider has.
- `KeyedRows.dfy`, `Bars.dfy`, `DatasetCheck.dfy`: rows collected by key and
  listed in key order (`merge_rows`), the bar rows of the CSV schema, and the
  validation of a dataset.
- `Resume.dfy`: target selection, the finalisation guard and consolidation.
- `DailyBars.dfy`: the daily refresh of the bar files.
- `Splits.dfy`: split adjustment. `SecurityIds.dfy`: permanent security ids.
- `Symbols.dfy`: `canonical_symbol` and `ibkr_symbol`, which
  `current_reference/PaperTradingR1000/symbol_mapping.py` shares with the
  security master.

Automated orders and fills:

- `OrderStore.dfy`: the order store as a class, its two identities, and the
  duplicate check.
- `Sizing.dfy`: BUY and SELL intents. `Broker.dfy`: the plan processor, and runs
  of plans as sequences of events.
- `Ledger.dfy`, `Sums.dfy`: the two tables of executions and realised P&L.
- `Alerts.dfy`: completion alerts, one call of `process_execution` after another.
  `AlertCalls.dfy`: the steps of any number of calls, interleaved.
- `StoreFile.dfy`: the order store as a file that several processes load and save.
- `Lifecycle.dfy`: when the current position was opened.

`Ordering.dfy`, `Text.dfy`, `Lists.dfy`, `Numbers.dfy` and `Wrappers.dfy` hold what
several modules need: sorting over a strict total order, ASCII strings, filters,
arithmetic, options.

Methods follow the loops and updates of the program and are proved against
specification functions; the theorems are about those functions and about runs
of them. Where a theorem speaks through a definition, a lemma beside the definition
says what it comes to in raw conditions; those that only do that have no row below.
Broker and provider answers, the clock, and which process dies where are inputs, so
every theorem holds for all of them.

## What the code does not guarantee

Some guarantees hold only under a condition. Each has a lemma with the failing
case, and the exact condition as an equivalence where there is one:

- A SIGTERM that arrives inside `stop()`, after the handler is restored, ends a
  console that no longer waits (`Console.SigtermCanEndAStoppingConsole`; what a
  SIGTERM does at every other point is `Console.TermOnlyWhileWaiting`).
- Killed first downloads are made good exactly if no symbol has bars both inside
  and outside the requested range (`Restart.RestartIsExactIffSymbolsAreWhole`).
- A plan that carries one (symbol, side) twice can overwrite a fill
  (`Broker.RepeatedIntentUndoesAFill`) or drop it
  (`Broker.RepricedIntentLosesAFill`); every fill is kept exactly if each placed
  order's key is current in the store and no two share one
  (`Broker.FillsAreKeptIffKeysAreCurrent`).
- The docstring of `process_execution` promises an alert exactly once. A process
  that dies between alert and note alerts again (`Alerts.LostNoteAnnouncesTwice`),
  and so do two processes that check before either notes
  (`AlertCalls.TwoCallersAnnounceTwice`); the exact condition is
  `AlertCalls.OneAlertIffSerialAndNoneLost`.
- A process that dies after the note leaves the order unfilled in the store: as far
  as alerting goes, a noted order is marked filled exactly if the process that
  announced it survived (`Alerts.NotedIsFilledIffSurvivor`).
- The order store is loaded, changed and saved as a whole by several processes; a
  saved fill stays exactly if no other process holds a copy without it
  (`StoreFile.SavedStaysIffNoneStale`).
- Two Flex rows that carry one execution id under different source keys both
  count, in an alert (`Alerts.AlertCountsDistinctRows`) and in the realised P&L
  (`Ledger.EachExecutionCountsOnce`).
- An order with a cancellation pending is invisible to the SELL guard
  (`LongOnly.GuardIsExactIffNothingPendsCancel`), and so is all but the last of
  several orders under one key (`LongOnly.SharedKeyHidesAnOrder`,
  `LongOnly.GuardIsExactIffNothingIsHidden`).
- The SELL guard reads the position and then the open orders; a SELL that fills in
  between gets another past this guard and the position short
  (`LongOnly.FillBetweenReadsGoesShort`). The exact condition is
  `LongOnly.GuardIsSafeIffInStep`.
- A bar file whose mode cannot be set after it was replaced is up to date, but its
  symbol counts as failed (`DailyBars.BarFiles.RefreshSymbol`).
- The position fold shows the net position exactly if no prefix of the trades is
  oversold (`Lifecycle.FoldIsNetIffNeverOversold`; `Lifecycle.FoldIsHeight` says by
  how much it differs).
- Security ids past six digits are given out again (`SecurityIds.DistinctIffNotTaken`).

## Model

| member | source | states |
|---|---|---|
| `Console.SingleSession` | current_reference/PaperTradingR1000/manual_console_lifecycle.py:64-117 | In every interleaving of any number of consoles, with kills, exceptions and signals at any point, at most one live console is between its marker write in `start` and the end of `stop`, and it is exactly the live process the marker names |
| `Console.ActionIsProtected` | current_reference/PaperTradingR1000/manual_console_lifecycle.py:64-70 | While a console executes an action the marker says ACTIVE and names it; any other console that reads the marker is refused, and none is about to signal it or to write the marker |
| `Console.FirstLook` | current_reference/PaperTradingR1000/manual_console_lifecycle.py:67-74 | In any run the first look at the marker refuses exactly when another live console is ACTIVE in it, signals exactly the live console that waits in it, and goes on exactly when no other live console is named, whatever a dead one has left there |
| `Console.SecondLook` | current_reference/PaperTradingR1000/manual_console_lifecycle.py:83-86 | In any run the second look refuses exactly when another live console is named, and writes ACTIVE otherwise |
| `Console.NewcomerGetsIn` | current_reference/PaperTradingR1000/manual_console_lifecycle.py:64-88 | Whatever marker is left, a console that starts while no other live one is named and the lock is free comes to its menu by eight steps of its own, with the marker ACTIVE under its name |
| `Console.NewcomerGetsInAfterAll` | current_reference/PaperTradingR1000/manual_console_lifecycle.py:64-88 | So after any run that has left no console alive, the next one gets in |
| `Console.IdleConsoleIsReplaced` | current_reference/PaperTradingR1000/manual_console_lifecycle.py:64-117 | In any run a console that waits at its menu is replaced by a newcomer: it is signalled, leaves by itself and takes its marker along, and the newcomer comes to its menu |
| `Console.ReadsChoice` | current_reference/PaperTradingR1000/manual_console_lifecycle.py:94-108 | By itself, reading a choice shows MENU_WAIT while it waits and leads back to the menu with the marker ACTIVE again |
| `Console.StopAlone` | current_reference/PaperTradingR1000/manual_console_lifecycle.py:110-117 | By itself, `stop` ends the process, gives the lock back and removes the marker if and only if it names the console |
| `Console.ExceptionLeadsToStop` | current_reference/PaperTradingR1000/manual_console_lifecycle.py:64-117 | In any run an exception outside `stop` leads into it with the lock given back and the marker as it was, through the `finally` block if it strikes the wait |
| `Console.TermOnlyWhileWaiting` | current_reference/PaperTradingR1000/manual_console_lifecycle.py:90-108 | A pending SIGTERM never finds a console in `start`; in the menu loop it diverts the console exactly while `waiting` is set and otherwise changes nothing; it kills only in `stop`, once the handler is removed or `stop` was aborted |
| `Console.SigtermCanEndAStoppingConsole` | current_reference/PaperTradingR1000/manual_console_lifecycle.py:110-113 | A run in which a SIGTERM sent while the console waits arrives after `stop` has restored the previous handler, and kills it although it no longer waits |
| `Console.ReplacesOnlyTheDead` | current_reference/PaperTradingR1000/manual_console_lifecycle.py:71-86 | A console that signalled another goes on to its marker write only after the other is gone, and the other never comes back |
| `Console.PollIsBounded` | current_reference/PaperTradingR1000/manual_console_lifecycle.py:75-81 | Whatever the other processes do, a console leaves the poll for good after at most 31 steps of its own |
| `Console.PollOutcome` | current_reference/PaperTradingR1000/manual_console_lifecycle.py:76-81 | The poll gives up exactly after 30 checks, and goes on exactly when an earlier check finds the other process gone |
| `Console.AfterInv` | current_reference/PaperTradingR1000/manual_console_lifecycle.py:64-117 | The inductive invariant: every action, exception, signal and kill keeps what ties lock, marker, handler and `waiting` to each process |
| `Console.NeverPollsAgain` | current_reference/PaperTradingR1000/manual_console_lifecycle.py:75-86 | A console that has left the poll never returns to it |
| `KeyedRows.MergeRows` | current_reference/PaperTradingR1000/massive_historical_downloader.py:296-306 | The two passes over one dict and the sort compute the override of the first row list by the second, listed in key order |
| `KeyedRows.MergeIsAssociative` | current_reference/PaperTradingR1000/massive_historical_downloader.py:296-306 | Merging is associative |
| `KeyedRows.TableHoldsTheLast` | current_reference/PaperTradingR1000/massive_historical_downloader.py:296-305 | A pass over rows leaves under each key the last row that has it, and no other key |
| `KeyedRows.TableOfListing` | current_reference/PaperTradingR1000/massive_historical_downloader.py:266-306 | Writing a table out in key order and reading it back gives the same table |
| `KeyedRows.ListingOfTable` | current_reference/PaperTradingR1000/massive_historical_downloader.py:296-306 | Rows in strictly increasing key order are the listing of their own table, so the order is canonical |
| `Bars.MergeBarsLaws` | current_reference/PaperTradingR1000/massive_historical_downloader.py:296-306 | `merge_rows` on (ticker, date) rows: keys strictly increase, the incoming row wins and otherwise the existing one stays, merging is associative and idempotent |
| `Bars.ListedByTickerThenDate` | current_reference/PaperTradingR1000/massive_historical_downloader.py:306 | Merged rows are listed by ticker, and each ticker's by date |
| `Bars.MergedBarsAreClean` | current_reference/PaperTradingR1000/massive_historical_downloader.py:296-306 | What `merge_rows` returns has no duplicate and no out-of-order row for the validation |
| `Bars.TableOfFilterRows` | current_reference/PaperTradingR1000/massive_historical_downloader.py:309-319 | Filtering rows by date range restricts the table to the keys whose date is in range |
| `Bars.RowsForSymbolMeaning` | current_reference/PaperTradingR1000/massive_historical_downloader.py:322-326 | A symbol's rows: exactly those of the dataset that carry its symbol, each as often as there, by date, and rows of one date in the order they had |
| `DatasetCheck.Validate` | current_reference/PaperTradingR1000/massive_historical_downloader.py:329-412 | The one-pass validation computes each of its counters, the row and ticker counts and the set of missing symbols, and passes a non-empty dataset exactly when nothing is counted or missing |
| `DatasetCheck.CountRow` | current_reference/PaperTradingR1000/massive_historical_downloader.py:346-398 | What one more row adds to the counters; a row that lacks schema columns counts beside a row with blank required fields |
| `DatasetCheck.NoDuplicatesIffDistinct` | current_reference/PaperTradingR1000/massive_historical_downloader.py:361-364 | The duplicate counter is zero exactly when all keys differ |
| `DatasetCheck.NeighboursDecideOrder` | current_reference/PaperTradingR1000/massive_historical_downloader.py:365-368 | Comparing neighbours only, the out-of-order counter is zero exactly when the whole list is ordered |
| `DatasetCheck.PassesIffWellFormed` | current_reference/PaperTradingR1000/massive_historical_downloader.py:329-412 | The validation passes exactly for datasets with distinct ordered keys, well-formed rows and no missing symbol |
| `DatasetCheck.Passes` | current_reference/PaperTradingR1000/massive_historical_downloader.py:329-412 | The answer that the downloader acts on: true exactly for well-formed datasets |
| `DownloadRun.Disk.RunUntilDone` | current_reference/PaperTradingR1000/massive_historical_downloader.py:691-791 | Any number of runs, each killed before any file write or finished, followed by one left alone, whose provider perhaps answers what it refused before: the disk is what those runs make of it; when the last provider answers in range the output is that of one undisturbed run with it; and every symbol with rows has exactly them in its file |
| `DownloadRun.FinishedAfterRefusals` | current_reference/PaperTradingR1000/massive_historical_downloader.py:691-791 | However often and wherever earlier runs were killed, and whatever the provider refused them, a finished run with a provider that answers writes the same output as if they had never been |
| `DownloadRun.FinishedAfterKills` | current_reference/PaperTradingR1000/massive_historical_downloader.py:691-791 | In particular, with one provider, a finished run after killed ones writes the same output as an undisturbed one |
| `DownloadRun.RunsKeepTarget` | current_reference/PaperTradingR1000/massive_historical_downloader.py:691-791 | No run, wherever it is killed and whatever it is refused, moves what a later run with a provider that answers is heading for |
| `DownloadRun.KilledIsReached` | current_reference/PaperTradingR1000/massive_historical_downloader.py:691-791 | What a run can leave on disk: the old files, a checkpoint with progress that claims nothing but what was claimed before or answered so far, the output beside either, or the output alone |
| `DownloadRun.OnlyAnsweredIsClaimed` | current_reference/PaperTradingR1000/massive_historical_downloader.py:736-760 | A symbol that a run's progress file claims to be complete, and that was not claimed before, was answered by the provider in that run |
| `DownloadRun.LoopFiles` | current_reference/PaperTradingR1000/massive_historical_downloader.py:736-743 | After any turn of the loop, the file of each symbol has its rows as they were in memory after the last turn that downloaded rows for it, and is as it was if there was none |
| `DownloadRun.CheckpointsKeepUp` | current_reference/PaperTradingR1000/massive_historical_downloader.py:749-761 | At every turn of the loop the disk holds a checkpoint with its own progress, fewer than `checkpoint_every` downloads are not in it, and none are after a download of the last entry |
| `DownloadRun.CheckpointCadence` | current_reference/PaperTradingR1000/massive_historical_downloader.py:749-761 | Before the last entry exactly one progress file is written for every `checkpoint_every` downloads; skipped symbols do not count |
| `Downloader.CompletedMeans` | current_reference/PaperTradingR1000/massive_historical_downloader.py:736-748 | The completed record holds exactly the symbols that needed no download and those that were answered, with rows or without |
| `Downloader.FailedMeans` | current_reference/PaperTradingR1000/massive_historical_downloader.py:736-748 | The failed record holds exactly the symbols refused in this run, with that error, and the failures recorded before of symbols that were not asked for |
| `Downloader.TargetMeans` | current_reference/PaperTradingR1000/massive_historical_downloader.py:708-747 | What a whole run makes of the files, row by row: the provider's last bar for the key, field by field, if its symbol is not recorded as complete for this date range and adjustment with rows on disk; else the checkpoint's row, else the output's, if it lies in the range |
| `Downloader.TargetElsewhere` | current_reference/PaperTradingR1000/massive_historical_downloader.py:708-716 | Symbols outside the universe keep the rows that are on disk and in range |
| `DownloadRun.FinishedFiles` | current_reference/PaperTradingR1000/massive_historical_downloader.py:763-790 | A finished run's output holds all rows in memory, each symbol with rows has exactly them in its file and every other file is untouched, and the checkpoint is gone if and only if the output validates |
| `DownloadRun.Disk.RunFullDownload` | current_reference/PaperTradingR1000/massive_historical_downloader.py:691-791 | A run killed before write number n leaves exactly the first n writes of the run on disk, for every n; it finishes exactly if it is not killed before one of them |
| `DownloadRun.Disk.DownloadAll` | current_reference/PaperTradingR1000/massive_historical_downloader.py:708-761 | The loop over the universe: its writes in order up to a kill, and the rows then held in memory |
| `DownloadRun.Disk.DownloadEntry` | current_reference/PaperTradingR1000/massive_historical_downloader.py:737-749 | One downloaded symbol: its rows are merged, the completed and failed records change as the answer says, and its file is written if it has rows |
| `DownloadRun.Disk.DownloadTurn` | current_reference/PaperTradingR1000/massive_historical_downloader.py:719-761 | The loop body: a complete symbol changes and writes nothing, not even a due checkpoint |
| `DownloadRun.Disk.WriteCheckpoint` | current_reference/PaperTradingR1000/massive_historical_downloader.py:751-761 | Checkpoint first, progress second, each only when due |
| `DownloadRun.Disk.ReadFiles` | current_reference/PaperTradingR1000/massive_historical_downloader.py:708-715 | The rows on disk, checkpoint over output, and the symbols that are recorded as complete and have rows |
| `DownloadRun.Disk.Publish` | current_reference/PaperTradingR1000/massive_historical_downloader.py:763-790 | Output, symbol files, then removal of the checkpoint only if the output validates |
| `DownloadRun.Disk.WriteSymbolFiles` | current_reference/PaperTradingR1000/massive_historical_downloader.py:604-613 | One write for each symbol of the universe, in order, up to a kill |
| `Downloader.DownloadSymbolRows` | current_reference/PaperTradingR1000/massive_historical_downloader.py:506-541 | One symbol's rows, merged and keyed; none when the provider refuses |
| `Downloader.CheckpointKeepsTarget` | current_reference/PaperTradingR1000/massive_historical_downloader.py:751-760 | In mid-run, a checkpoint of the rows in memory with the old or the new progress beside it leads a later run to the same final rows, also with a provider that answers more |
| `Downloader.OutputKeepsTarget` | current_reference/PaperTradingR1000/massive_historical_downloader.py:767-790 | The written output, with the stale checkpoint beside it or alone, leads a later run to the same final rows, also with a provider that answers more |
| `Downloader.ProvidedPrefix` | current_reference/PaperTradingR1000/massive_historical_downloader.py:719-747 | What the first symbols provide is what all provide, restricted to them |
| `Restart.BarsJobIsRunnable` | current_reference/PaperTradingR1000/massive_historical_downloader.py:142-195 | The premises hold for every universe of distinct canonical symbols, and that on dates for every provider whose bars lie in the range |
| `Restart.RestartIsExactIffSymbolsAreWhole` | current_reference/PaperTradingR1000/massive_historical_downloader.py:691-791 | Without the premise on dates, from an empty disk: every schedule of kills ends with all that the provider has, if and only if no symbol has bars both inside and outside the range |
| `Restart.OneKillDecides` | current_reference/PaperTradingR1000/massive_historical_downloader.py:708-761 | A single kill, right after the last progress write, already loses rows whenever some symbol has bars on both sides |
| `Restart.RunsStayTrusted` | current_reference/PaperTradingR1000/massive_historical_downloader.py:691-791 | While symbols are whole, every killed run leaves only the provider's rows to be read, and all rows of every symbol that is claimed and present |
| `Symbols.CanonicalSymbolIsCanonical` | r1000_data_integrity/security_master.py:154-159 | The canonical symbol of any string is groups of A-Z and 0-9 with single dots between them, and is never an alias key |
| `Symbols.FixedIffCanonical` | r1000_data_integrity/security_master.py:154-159 | The fixed points are exactly the canonical symbols, and canonicalising is idempotent |
| `Symbols.IbkrRoundTrip` | r1000_data_integrity/security_master.py:154-163 | `canonical_symbol(ibkr_symbol(x)) == canonical_symbol(x)` |
| `Symbols.CanonicalSymbolKeepsLetters` | r1000_data_integrity/security_master.py:154-159 | No letter or digit is lost, added or moved; only separators change |
| `SecurityIds.NextSecurityId` | r1000_data_integrity/security_master.py:314-320 | One more than the highest recognised six-digit number |
| `SecurityIds.AssignSecurityIds` | r1000_data_integrity/security_master.py:323-331 | The holdings get exactly the ids of the assignment that starts at the next number |
| `SecurityIds.AssignedMeaning` | r1000_data_integrity/security_master.py:323-331 | Known symbols keep their ids, every holding has one, new ones have numbers from the next one on |
| `SecurityIds.NumberIsGiven` | r1000_data_integrity/security_master.py:326-330 | The new numbers are consecutive: none is left out |
| `SecurityIds.DistinctIffNotTaken` | r1000_data_integrity/security_master.py:314-331 | Ids stay distinct exactly when no id on record past six digits is one of the new numbers |
| `SecurityIds.SeventhDigitCollides` | r1000_data_integrity/security_master.py:317-329 | The millionth id is not read back, so it is given out again |
| `OrderStore.StoreInvariant` | current_reference/PaperTradingR1000/automated_order_store.py:140-223 | After any run of upserts and updates from an empty store: one order per logical identity ever upserted, no two sharing a logical identity or a key, each history with 1 to 50 entries ending with the current status |
| `OrderStore.IdentityMeans` | current_reference/PaperTradingR1000/automated_order_store.py:92-137 | Two intents have one identity, one logical identity or one signal exactly when the listed parts agree: the logical one leaves the limit price out, the signal also order type and configuration |
| `OrderStore.UpsertedMeans` | current_reference/PaperTradingR1000/automated_order_store.py:140-173 | After an upsert the order of the intent's logical identity carries the intent, with its whole quantity open and nothing filled; it is new, or keeps its creation time, broker ids and average price; no other order changes |
| `OrderStore.UpdatedMeans` | current_reference/PaperTradingR1000/automated_order_store.py:176-223 | A status update changes exactly the order with that key, as the report says, and no other |
| `OrderStore.StatusMeans` | current_reference/PaperTradingR1000/automated_order_store.py:37-64 | Which spellings of a status are the normal ones, filled, and final |
| `OrderStore.Store.UpsertOrderIntent` | current_reference/PaperTradingR1000/automated_order_store.py:140-173 | The two searches, by key and then by logical identity, together update the one order of the logical identity or append a new one |
| `OrderStore.Store.UpdateOrderStatus` | current_reference/PaperTradingR1000/automated_order_store.py:176-223 | Only the order with exactly this key changes; an unknown key changes nothing and is reported |
| `OrderStore.Store.FindOrder` | current_reference/PaperTradingR1000/automated_order_store.py:106-110 | The order with a key is the one of its logical identity, if its key is current |
| `OrderStore.Store.FindLogicalOrder` | current_reference/PaperTradingR1000/automated_order_store.py:113-128 | The order with the intent's logical identity |
| `OrderStore.Store.FindDuplicate` | current_reference/PaperTradingR1000/automated_order_store.py:226-265 | An intent is blocked exactly if the broker shows a position (for a BUY) or an open order, or the store holds any order of its symbol, side, signal date and strategy version that was filled (or, in a dry run, not transmitted) |
| `OrderStore.Store.FindPersisted` | current_reference/PaperTradingR1000/automated_order_store.py:246-265 | The searches by key and by logical identity add nothing to the search by signal |
| `OrderStore.EvidenceStays` | current_reference/PaperTradingR1000/automated_order_store.py:140-223 | Through any run of upserts and updates an order keeps its place, its logical identity and its creation time, and never loses a broker id, an average price, a submission time or a limit price once known |
| `OrderStore.UpsertHistoryGrows` | current_reference/PaperTradingR1000/automated_order_store.py:168-171 | An upsert adds at most one history entry, only for a new status or a reason, and takes out only the oldest |
| `OrderStore.ReportKeepsTheRest` | current_reference/PaperTradingR1000/automated_order_store.py:192-221 | Each field of an order after a report: the report's value if it carries one, else what it was; its entry ends the history |
| `OrderStore.ChangedLogicals` | current_reference/PaperTradingR1000/automated_order_store.py:140-223 | One change keeps the invariant and adds exactly the upserted logical identity |
| `OrderStore.NormalizedIsSame` | current_reference/PaperTradingR1000/automated_order_store.py:92-103 | Canonicalising symbol and side first does not change an intent's identity |
| `Sizing.BuyIntents` | current_reference/PaperTradingR1000/automated_broker.py:59-106 | Each BUY carries its plan at the price rounded to cents and the largest quantity that fits, and is rejected exactly for a blocked scan, no share, or a cost above what cash, available funds and buying power each leave after the accepted ones before it; the accepted ones together cost nothing or at most each of the three + 1e-9 |
| `Sizing.DecisionsMean` | current_reference/PaperTradingR1000/automated_broker.py:59-84 | The single budget that the loop counts down decides every BUY as the three limits would, counting all that was accepted before it |
| `Sizing.TiesGoToEven` | current_reference/PaperTradingR1000/automated_broker.py:74 | A limit price halfway between two cents goes to the even one |
| `Sizing.DecidedWithinBudget` | current_reference/PaperTradingR1000/automated_broker.py:72-84 | The tolerance of 1e-9 never accumulates |
| `Sizing.AcceptedBuyIsLargest` | current_reference/PaperTradingR1000/automated_broker.py:74-84 | An accepted BUY has a positive price within half a cent of the plan's, its cost fits its allocation, and one share more would not |
| `Sizing.QuantityIsLargest` | current_reference/PaperTradingR1000/automated_broker.py:74-77 | A whole number of shares fits the allocation exactly if it is at most the quantity |
| `Sizing.SellIntents` | current_reference/PaperTradingR1000/automated_broker.py:109-140 | A SELL carries its plan, asks for the whole position that was listed last for the symbol among the positive ones, and is rejected exactly when there is none |
| `Broker.FilledIsFinal` | current_reference/PaperTradingR1000/automated_broker.py:226-328 | Over any run of plans, each of which may break off after any step: once an order is filled or partially filled, no later step touches it, and nothing more is transmitted for its symbol, side, signal date and strategy version, whatever its price, type or configuration |
| `Broker.SentIff` | current_reference/PaperTradingR1000/automated_broker.py:252-310 | An intent is transmitted if and only if sizing did not reject it, transmission is permitted, neither broker nor store has it already, and, for a SELL, the guard lets it through |
| `Broker.OnlyAllowedIsSent` | current_reference/PaperTradingR1000/automated_broker.py:226-328 | Over any run nothing transmitted is taken back, and each transmitted intent met those conditions when it went out; no intent that sizing rejected ever does |
| `Broker.CycleStaysAffordable` | current_reference/PaperTradingR1000/automated_broker.py:59-310 | Sizing and transmission together: what one cycle transmits of the sized BUYs costs nothing or at most each of cash, available funds and buying power, plus one tolerance |
| `Broker.HandledRecords` | current_reference/PaperTradingR1000/automated_broker.py:252-310 | A duplicate leaves everything as it was; any other intent is in the store as what became of it: rejected with the reason of sizing or of the guard, not transmitted, or pending with its submission time |
| `Broker.OutcomeMeaning` | current_reference/PaperTradingR1000/automated_broker.py:252-310 | Which list of the report an intent goes to when it is not placed, said by those conditions |
| `Broker.DuplicateMeaning` | current_reference/PaperTradingR1000/automated_order_store.py:226-265 | An intent is a duplicate exactly if the broker shows a long position (for a BUY) or an open order of its side, or the store holds an order of its signal that was filled (or, in a dry run, not transmitted) |
| `Broker.FilledStaysFilled` | current_reference/PaperTradingR1000/automated_broker.py:226-328 | Across any sequence of `process_order_plan` calls with distinct (canonical symbol, side) pairs in each plan: an order filled or partially filled after one call is the same after all later ones, and they transmit nothing for its signal |
| `Broker.PlansAreEvents` | current_reference/PaperTradingR1000/automated_broker.py:226-328 | Such a sequence of calls is a run of events that meets the premise of FilledIsFinal |
| `Broker.PlansAreOncePerCycle` | current_reference/PaperTradingR1000/automated_broker.py:252-328 | Plans with distinct (canonical symbol, side) pairs meet the premise of FilledIsFinal after any earlier run |
| `Broker.RunInv` | current_reference/PaperTradingR1000/automated_broker.py:252-328 | Every order still to be acknowledged belongs to a signal of this cycle, different from the others', with nothing filled for it yet |
| `Broker.RepeatedIntentUndoesAFill` | current_reference/PaperTradingR1000/automated_broker.py:252-328 | Without the premise: a plan that carries one intent twice transmits both, and the second acknowledgement overwrites the fill of the first |
| `Broker.RepricedIntentLosesAFill` | current_reference/PaperTradingR1000/automated_broker.py:252-328 | A plan that carries one intent at two limit prices transmits both, and the fill of the first is dropped: the second has moved the order to its own key |
| `Broker.FillsAreKeptIffKeysAreCurrent` | current_reference/PaperTradingR1000/automated_broker.py:312-328 | Once a plan is placed: every fill that an acknowledgement reports is in the store when all are recorded, whatever the others say, if and only if every placed order's key is current in the store and no two placed orders share one |
| `Broker.PlacedIsUnfilled` | current_reference/PaperTradingR1000/automated_broker.py:252-328 | What any plan places on any store has no fill in the store yet, which is the premise of that equivalence |
| `Broker.Untouched` | current_reference/PaperTradingR1000/automated_broker.py:312-328 | In that case no later acknowledgement changes anything of the filled order |
| `Broker.DistinctSidesKeepFills` | current_reference/PaperTradingR1000/automated_broker.py:252-328 | Plans with distinct (canonical symbol, side) pairs meet the condition, so they keep every fill |
| `Broker.AckedIsRun` | current_reference/PaperTradingR1000/automated_broker.py:312-328 | Recording any acknowledgements for the placed orders is a run of the program |
| `Broker.PlanProcessor.ProcessOrderPlan` | current_reference/PaperTradingR1000/automated_broker.py:226-328 | The plan processor has exactly the effect of the events of one cycle; each of the four lists of its report holds exactly the intents whose outcome it is, in order, the unconfirmed ones among the rejected; without permission nothing is transmitted |
| `Broker.PlanProcessor.ProcessIntent` | current_reference/PaperTradingR1000/automated_broker.py:252-310 | Duplicate check, rejection, dry run, guard and placing of one intent: its effect, and the list it is reported in |
| `Broker.PlanProcessor.AcknowledgeAll` | current_reference/PaperTradingR1000/automated_broker.py:312-328 | Each placed order is acknowledged once, in order; those confirmed are submitted, the others rejected |
| `Broker.CompletedIsRun` | current_reference/PaperTradingR1000/automated_broker.py:226-328 | One plan is a run of the events that FilledIsFinal speaks of |
| `Broker.NothingIsSentUnpermitted` | current_reference/PaperTradingR1000/automated_broker.py:268-281 | Without permission nothing is transmitted and nothing waits for an acknowledgement |
| `Broker.WaitForBrokerAck` | current_reference/PaperTradingR1000/automated_broker.py:169-193 | The acknowledgement is that of the first decisive look: Rejected if that look has errors, else its normalised status; it is Unconfirmed if and only if no look before the deadline has an error, a confirming or a failing status |
| `Ledger.ConfirmationKeepsTotal` | current_reference/PaperTradingR1000/flex_execution_ledger.py:361-437 | When the Flex row of a pending execution arrives, the pending count falls by one and the total P&L stays the same exactly if the row, in range, carries the P&L that was observed |
| `Ledger.RowAdds` | current_reference/PaperTradingR1000/flex_execution_ledger.py:377-395 | What a new Flex row does to the realised P&L: its own amount comes in if it is on or after the start date, and that of a pending notice of its execution goes out |
| `Ledger.NoticeAdds` | current_reference/PaperTradingR1000/flex_execution_ledger.py:385-395 | What a new or changed notice does to it: nothing while Flex confirms it or carries a row of its execution, or before the start date, else its amount |
| `Ledger.NothingCounts` | current_reference/PaperTradingR1000/flex_execution_ledger.py:377-395 | An empty ledger has no realised P&L; with the two laws above this fixes the total of every ledger |
| `Ledger.ReportKeepsTotal` | current_reference/PaperTradingR1000/flex_execution_ledger.py:361-437 | A whole report of such rows keeps the total and lowers the pending count by the number of its rows |
| `Ledger.EachExecutionCountsOnce` | current_reference/PaperTradingR1000/flex_execution_ledger.py:361-437 | In the total, a pending execution counts exactly once, and every execution id counts at most once if and only if no two Flex rows in range carry one id |
| `Ledger.NewRowKeepsOneEach` | current_reference/PaperTradingR1000/flex_execution_ledger.py:181-208 | A newly imported Flex row keeps that so exactly if its execution id is blank or not yet on record |
| `Ledger.RowsCountExecutionsOnce` | current_reference/PaperTradingR1000/flex_execution_ledger.py:181-208 | The shares of Flex rows are at least those of their distinct executions, and equal to them if and only if no two of the rows carry one execution id |
| `Ledger.ExecutionLedger.PnlSummary` | current_reference/PaperTradingR1000/flex_execution_ledger.py:361-437 | The total is confirmed plus pending P&L, and the per-symbol values are each symbol's part and sum to the total; commissions are summed over the same rows and notices |
| `Ledger.ExecutionLedger.ImportFlexXml` | current_reference/PaperTradingR1000/flex_execution_ledger.py:181-208 | Rows with a known source key are ignored; inserted and duplicates add up to the rows given, and the inserted rows are exactly those that are new in the table, each once |
| `Ledger.FirstRowWins` | current_reference/PaperTradingR1000/flex_execution_ledger.py:187-206 | What is in the table stays, and of new rows with one key exactly the first is taken |
| `Ledger.ImportIsIdempotent` | current_reference/PaperTradingR1000/flex_execution_ledger.py:181-208 | Importing a report again changes nothing |
| `Ledger.ExecutionLedger.ObserveExecution` | current_reference/PaperTradingR1000/flex_execution_ledger.py:211-243 | The table after an observation, and whether its notification is still due |
| `Ledger.ObservedMeans` | current_reference/PaperTradingR1000/flex_execution_ledger.py:211-243 | Each field of a notice after an observation: what the report gives, else what was known; Flex confirms for good; first sighting, accounting and notification are not touched |
| `Ledger.ObserveIsIdempotent` | current_reference/PaperTradingR1000/flex_execution_ledger.py:211-243 | Observing the same fill again, at any later time, changes nothing |
| `Ledger.ObserveCommutes` | current_reference/PaperTradingR1000/flex_execution_ledger.py:211-243 | Observations of different executions commute |
| `Ledger.SightingsSettle` | current_reference/PaperTradingR1000/flex_execution_ledger.py:211-243 | After any polling, from the API, Flex or both, an execution's quantity and order depend only on whether it was seen and whether some report named its order |
| `Ledger.PollingOrderIsIrrelevant` | current_reference/PaperTradingR1000/flex_execution_ledger.py:211-243 | Two pollings that saw the same executions, in any order, any number of times and from either source, agree on every order's filled quantity |
| `Ledger.EachFillCountsOnce` | current_reference/PaperTradingR1000/order_completion_alerts.py:94-105 | An order's aggregate counts each of its executions seen exactly once, whether the API, Flex or both reported it |
| `Ledger.ExecutionLedger.RecordCommissionReport` | current_reference/PaperTradingR1000/flex_execution_ledger.py:246-258 | Commission, its currency and P&L, reported or not, replace what is stored of an observed execution, and of no other |
| `AlertCalls.AlertsAreCounted` | current_reference/PaperTradingR1000/order_completion_alerts.py:122-206 | Over any interleaving of the steps of any number of calls, with calls that end anywhere, an order is announced once for each alert whose note was lost, once for each whose note found another there already, once if it gets noted, and once for each call that has yet to write its note |
| `AlertCalls.AlertsAreBounded` | current_reference/PaperTradingR1000/order_completion_alerts.py:122-206 | So once all calls have ended, it was announced at most once if and only if no note was ignored, and none was lost or the only one was |
| `AlertCalls.OneAlertIffSerialAndNoneLost` | current_reference/PaperTradingR1000/order_completion_alerts.py:122-206 | In terms of the schedule, when every call that passes the check sends its alert: at most one alert if and only if no call passes the check while another stands between its check and its note, and no note was lost or the only one was |
| `AlertCalls.OneAlertIffSerial` | current_reference/PaperTradingR1000/order_completion_alerts.py:122-206 | The same at every moment of a run, counting the alerts that are about to be sent |
| `AlertCalls.SerialNeverIgnores` | current_reference/PaperTradingR1000/order_completion_alerts.py:169-182 | Without such overlap no note is ignored, whoever dies |
| `AlertCalls.OverlapAnnouncesTwice` | current_reference/PaperTradingR1000/order_completion_alerts.py:169-182 | From every state in which two calls have passed the check for an order, it is announced twice if they go on, although nobody dies and the order is noted |
| `AlertCalls.TwoCallersAnnounceTwice` | current_reference/PaperTradingR1000/order_completion_alerts.py:135-182 | Two processes that poll one fill reach such a state, from every state in which the fill announces its order |
| `AlertCalls.NotedStaysQuiet` | current_reference/PaperTradingR1000/order_completion_alerts.py:169-182 | An order that is noted, with no call for it past the check, is never announced again, in any interleaving |
| `AlertCalls.FirstNoteStays` | current_reference/PaperTradingR1000/order_completion_alerts.py:74-91 | In any interleaving the first note of an order stays as it was written |
| `AlertCalls.AlertCountsDistinctFills` | current_reference/PaperTradingR1000/order_completion_alerts.py:94-180 | Over any interleaving, whatever is repeated or reordered and whether the API, Flex or both report a fill, an alert on API evidence carries the total of its broker order's distinct executions seen when the call gathered its evidence, which is at least the order's quantity - 1e-7 |
| `AlertCalls.AlertCountsDistinctRows` | current_reference/PaperTradingR1000/order_completion_alerts.py:108-180 | Over any interleaving, an alert on Flex evidence carries the shares of the order's rows imported when the call gathered its evidence, at least the order's quantity - 1e-7, and the total of its distinct executions if and only if no two of those rows carry one execution id |
| `AlertCalls.CallIsSteps` | current_reference/PaperTradingR1000/order_completion_alerts.py:122-206 | The steps of one call in a row have exactly the effect of `process_execution` |
| `AlertCalls.RunIsSerial` | current_reference/PaperTradingR1000/order_completion_alerts.py:122-206 | Calls one after another, as in the rows below, are the interleavings of one caller, and they never overlap |
| `Alerts.AlertsAreCounted` | current_reference/PaperTradingR1000/order_completion_alerts.py:122-206 | For calls one after another, with deaths: an order is announced exactly once for each alert whose note was lost with the process, plus once if it gets noted |
| `Alerts.AlertsAreBounded` | current_reference/PaperTradingR1000/order_completion_alerts.py:122-206 | For calls one after another: at most once if and only if no note was lost, or a single one and the order is still not noted |
| `Alerts.AnnouncedIff` | current_reference/PaperTradingR1000/order_completion_alerts.py:122-180 | An order is announced if and only if a fill comes in for it, it expects shares, it is not noted yet, and its known fills, by Flex rows or by notices, are at least its quantity - 1e-7 |
| `Alerts.AnnouncementIsWritten` | current_reference/PaperTradingR1000/order_completion_alerts.py:174-205 | What the alert says, what its note says, and the order in the store after it: filled, with the evidence's shares and average, nothing more than the rest remaining; every other note and order as it was |
| `Alerts.NoticesAfter` | current_reference/PaperTradingR1000/order_completion_alerts.py:165-185 | Exactly the executions in the evidence are marked notified, once the order is announced and as far as the process gets; every other notice keeps what the observation left |
| `Alerts.LostNoteAnnouncesTwice` | current_reference/PaperTradingR1000/order_completion_alerts.py:174-182 | After a death between alert and note, the same fill polled again sends the same alert again, in every state in which it sends one |
| `Alerts.AnOrderCanBeAnnouncedTwice` | current_reference/PaperTradingR1000/order_completion_alerts.py:174-182 | A concrete such run: an empty desk and a fill of a whole order |
| `Alerts.AnnouncedStaysQuiet` | current_reference/PaperTradingR1000/order_completion_alerts.py:62-91 | For calls one after another: an order noted as announced is never announced again |
| `Alerts.AlertCountsDistinctFills` | current_reference/PaperTradingR1000/order_completion_alerts.py:94-180 | For calls one after another, the total of an alert on API evidence is that of its broker order's distinct executions seen, and covers the order |
| `Alerts.FlexAlertIsCovered` | current_reference/PaperTradingR1000/order_completion_alerts.py:108-180 | For calls one after another, an alert on Flex evidence carries the shares of the order's Flex rows imported so far, which cover the order |
| `Alerts.AlertCountsDistinctRows` | current_reference/PaperTradingR1000/order_completion_alerts.py:108-180 | That total is the one of the order's distinct executions if and only if no two of those rows carry one execution id |
| `Alerts.AlertIsCovered` | current_reference/PaperTradingR1000/order_completion_alerts.py:156-180 | If the last event of a run adds to the alerts, it adds one: for its own order, with the total of the evidence that covers it |
| `Alerts.CompletionDesk.ProcessExecution` | current_reference/PaperTradingR1000/order_completion_alerts.py:122-206 | The effect of one observed fill on notices, completion table, alerts and order store, whether the process survives it, dies right after the alert, or dies after the note with some executions marked; it keeps the order store's invariant and answers True exactly if it announced and survived |
| `Alerts.SurvivorDecides` | current_reference/PaperTradingR1000/order_completion_alerts.py:169-205 | As far as alerting events go, one after another: an order held in the store and not noted before ends noted and marked filled if some announcement of it survives, and as it was if none does |
| `Alerts.NotedIsFilledIffSurvivor` | current_reference/PaperTradingR1000/order_completion_alerts.py:169-205 | So an order noted in such a run is marked filled at its end if and only if it was before, or the process that announced it survived |
| `Alerts.NotedIsNeverFilledLater` | current_reference/PaperTradingR1000/order_completion_alerts.py:169-205 | Once an order is noted as announced, no later alerting event changes it in the order store |
| `Alerts.DeathAfterNoteIsFinal` | current_reference/PaperTradingR1000/order_completion_alerts.py:182-205 | So a death after the note and before the order store is written leaves the order there as it was, as far as alerting events go |
| `StoreFile.StaysIffNoneStale` | current_reference/PaperTradingR1000/reconciliation.py:66-153 | Writers that each load the whole store, change their copy and save it: a saved order stays as it is, whatever they do to other orders, if and only if none of them holds a copy that shows it otherwise |
| `StoreFile.SavedStaysIffNoneStale` | current_reference/PaperTradingR1000/reconciliation.py:66-153 | So what a writer saves, a fill among it, can be lost again exactly when another holds a copy that shows the order otherwise, as reconciliation does while it makes alerting calls |
| `StoreFile.StaleSaveLosesAChange` | current_reference/PaperTradingR1000/reconciliation.py:67-152 | A run in which a writer that loaded first and saves last takes back the change of another |
| `StoreFile.ChangeIsPut` | current_reference/PaperTradingR1000/automated_order_store.py:140-223 | Every upsert and every status update is such a change of one order, or none |
| `Alerts.FlexAggregateMeans` | current_reference/PaperTradingR1000/order_completion_alerts.py:108-119 | What the aggregate means: the shares of exactly the order's Flex rows, an average that times those shares is their cost, and the execution ids on them |
| `Alerts.ApiAggregateMeans` | current_reference/PaperTradingR1000/order_completion_alerts.py:94-105 | The same on API evidence: shares, cost and executions of exactly the order's notices |
| `Alerts.ProcessedIsGood` | current_reference/PaperTradingR1000/order_completion_alerts.py:183-205 | Marking the order filled keeps the order store's invariant |
| `Lifecycle.EntryOfCurrentLong` | current_reference/PaperTradingR1000/position_lifecycle.py:61-75 | For whole shares without an oversold prefix the fold's quantity is the net position, and while it is positive a trade is the fold's entry exactly if it is the BUY that last took the net position up from zero |
| `Lifecycle.FoldIsHeight` | current_reference/PaperTradingR1000/position_lifecycle.py:61-75 | For any trades in whole shares, oversold or not, the fold's quantity is the net position above its lowest point so far |
| `Text.StripMeans` | current_reference/PaperTradingR1000/position_lifecycle.py:17 | Stripping takes away white space at both ends, all of it and nothing else |
| `Lifecycle.FoldFindsOpening` | current_reference/PaperTradingR1000/position_lifecycle.py:61-75 | For any trades in whole shares, the entry is the BUY from the lowest point after which the position never came back to it |
| `Lifecycle.OpeningIsUnique` | current_reference/PaperTradingR1000/position_lifecycle.py:61-75 | There is only one such BUY |
| `Lifecycle.FoldIsNetIffNeverOversold` | current_reference/PaperTradingR1000/position_lifecycle.py:61-75 | For any trades in whole shares, the fold shows the net position if and only if no prefix is oversold |
| `Lifecycle.OversoldShowsShares` | current_reference/PaperTradingR1000/position_lifecycle.py:69-73 | After an oversold prefix the fold can show shares where the net position is none |
| `Lifecycle.FlexEntry` | current_reference/PaperTradingR1000/position_lifecycle.py:61-75 | The loop finds the date of the fold's entry, or nothing when no shares are left |
| `Lifecycle.EntryDateMeans` | current_reference/PaperTradingR1000/position_lifecycle.py:61-75 | Without an oversold prefix, and while shares are held, the entry date is that of the BUY that last took the net position up from zero |
| `Lifecycle.InferCurrentLongEntryDate` | current_reference/PaperTradingR1000/position_lifecycle.py:40-93 | The Flex entry if there is one, else the trade date of the first latest submitted BUY of the symbol, else nothing |
| `Lifecycle.SessionsAreASet` | current_reference/PaperTradingR1000/position_lifecycle.py:96-102 | The holding days do not depend on order or repetition of the sessions |
| `Lifecycle.OneMoreSession` | current_reference/PaperTradingR1000/position_lifecycle.py:96-102 | One more session adds one day exactly if it is a date not counted yet, on or after the entry |
| `LongOnly.NeverShort` | current_reference/PaperTradingR1000/manual_trading_core.py:1240-1291 | Over any run in which a check reads the position, then the listing, then places, with partial fills, cancellations and purchases between any two steps: if at each listing the position read is not above the position then, or not above what open SELLs may still sell, the position always covers the open SELL orders and is never short |
| `LongOnly.AvailableCanBeSold` | current_reference/PaperTradingR1000/manual_trading_core.py:1262-1291 | The guard refuses no more than it must: read and listed at one moment, a SELL of any shares that open SELLs leave available goes out |
| `LongOnly.GuardIsSafeIffInStep` | current_reference/PaperTradingR1000/manual_trading_core.py:1275-1284 | At a covered listing, every quantity that the guard permits on the position it read is permitted on the position then, if and only if that condition holds |
| `LongOnly.OutOfStepUncovers` | current_reference/PaperTradingR1000/manual_trading_core.py:1275-1284 | When it does not, a SELL that the guard lets through leaves the open SELLs uncovered |
| `LongOnly.FillBetweenReadsGoesShort` | current_reference/PaperTradingR1000/manual_trading_core.py:1275-1284 | A run in which a SELL fills between the two reads and the position ends ten shares short |
| `LongOnly.OpenSellIsTrueSum` | current_reference/PaperTradingR1000/manual_trading_core.py:1240-1259 | However often the broker repeats its orders, `_open_sell_remaining` is exactly the sum over the open SELL orders, each once |
| `LongOnly.SellAmountMeans` | current_reference/PaperTradingR1000/manual_trading_core.py:1240-1259 | What an order counts for: nothing unless it is an unfinished SELL of the contract, else its remainder, or quantity less fills when none is given, and never less than nothing |
| `LongOnly.KeyMeans` | current_reference/PaperTradingR1000/manual_trading_core.py:732-749 | When two entries are one order: by permanent id, else by order id, else by contract, side, type, quantity and price |
| `LongOnly.GroupMeaning` | current_reference/PaperTradingR1000/manual_trading_core.py:762-773 | An order is open exactly if it is listed and none of its entries says otherwise, and its last entry stands for it |
| `LongOnly.UniqueActiveOpenTrades` | current_reference/PaperTradingR1000/manual_trading_core.py:762-773 | The grouping keeps exactly the open orders, each with its last entry |
| `LongOnly.OpenSellRemaining` | current_reference/PaperTradingR1000/manual_trading_core.py:1240-1259 | The sum over the open orders that the listing shows |
| `LongOnly.ValidateLongOnlySell` | current_reference/PaperTradingR1000/manual_trading_core.py:1262-1291 | A SELL is let through exactly if its quantity is positive, the position is long, and the quantity is at most what open SELLs leave of it; each refusal has its own reason, in that order |
| `LongOnly.LiquidatePosition` | current_reference/PaperTradingR1000/manual_trading_core.py:1519-1552 | A liquidation goes out exactly for a long position without open SELL and a selection that is not zero, for the smaller of the selected and the current quantity; each refusal has its own reason |
| `LongOnly.AvailableAfter` | current_reference/PaperTradingR1000/manual_trading_core.py:1262-1291 | Fills, cancellations and purchases between listing and placing never take from the available shares |
| `LongOnly.GuardIsExactIffNothingPendsCancel` | current_reference/PaperTradingR1000/manual_trading_core.py:752-773 | The guard sees all that unfinished SELLs could still sell exactly when no order with a cancellation pending has anything left |
| `LongOnly.FillAfterPendingCancelGoesShort` | current_reference/PaperTradingR1000/manual_trading_core.py:752-773 | If such an order fills after all, the position can become short |
| `LongOnly.GuardIsExactIffNothingIsHidden` | current_reference/PaperTradingR1000/manual_trading_core.py:732-773 | For any listing of distinct orders the guard finds no more than what they may still sell, and all of it if and only if every entry hidden behind its key has nothing left to sell |
| `LongOnly.SharedKeyHidesAnOrder` | current_reference/PaperTradingR1000/manual_trading_core.py:732-773 | Of two orders listed under one key the guard sees the last one at most |
| `Resume.AnalyzeDataset` | tools/resume_massive_history.py:208-298 | The download targets are exactly the universe symbols, in universe order, that are not validated-complete or are recorded as failed; and what the missing, untrusted and incomplete sets hold |
| `Resume.DownloadedAgainIff` | tools/resume_massive_history.py:271-298 | A universe symbol is a target if and only if no download recorded it as complete, some download recorded it as failed, or its rows in the range, by date, are not accepted: those of its own file if the resumed download completed it, else the dataset's, else the file's |
| `Resume.WantedIff` | tools/resume_massive_history.py:295-298 | The sets that the code puts together select exactly those symbols |
| `Resume.FinalizeGuard` | tools/resume_massive_history.py:593-594 | There are no targets exactly when every universe symbol validated and none is recorded as failed |
| `Resume.FinalizeOutput` | tools/resume_massive_history.py:586-620 | The output is rewritten exactly when asked for and allowed by that guard, and then from the files of all universe symbols |
| `Resume.ConsolidatedAt` | tools/resume_massive_history.py:443-467 | A completed symbol with a non-empty file has exactly the file's dated rows, the last for each date; every other symbol keeps the base rows, the last for each key |
| `Resume.ConsolidateRowsWithSymbolFiles` | tools/resume_massive_history.py:443-467 | The consolidated table, listed in (symbol, date) order |
| `Resume.ListedOnceInOrder` | tools/resume_massive_history.py:467 | Each (symbol, date) is listed once, in strictly increasing order |
| `DailyBars.BarFiles.Refresh` | current_reference/PaperTradingR1000/ibkr_daily_bar_refresh.py:134-208 | Every targeted symbol is counted once as updated, already current (exactly if its file can be read and was so when the refresh began) or failed; files change only by being rewritten up to the expected session; if trading may proceed, every symbol reaches that session but at most ten, whose contracts did not qualify |
| `DailyBars.BarFiles.RefreshSymbol` | current_reference/PaperTradingR1000/ibkr_daily_bar_refresh.py:134-177 | A symbol is already current exactly if its file can be read and reached the expected session before; otherwise reply and file faults decide: refused, latest date missed, not written, rewritten, or rewritten but counted as failed because its mode could not be set; a file changes only to one with strictly increasing dates, every dated row kept, and the expected session as its latest |
| `DailyBars.NoAdditionsNeverSucceed` | current_reference/PaperTradingR1000/ibkr_daily_bar_refresh.py:167-175 | Without additions the latest date is never the expected one, so the success branch without additions is unreachable |
| `DailyBars.ByDateMeans` | current_reference/PaperTradingR1000/ibkr_daily_bar_refresh.py:139 | Of a file's rows those without a date are dropped, and of the rows of a date the last one stays |
| `DailyBars.AddedKeeps` | current_reference/PaperTradingR1000/ibkr_daily_bar_refresh.py:147-165 | Adding the broker's bars loses and changes nothing, and adds no date after the expected session |
| `DailyBars.AddedMeans` | current_reference/PaperTradingR1000/ibkr_daily_bar_refresh.py:147-165 | Every quoted date that is not on file and not after the expected session is added, with the first quote for it, and no other date |
| `DailyBars.LatestDecides` | current_reference/PaperTradingR1000/ibkr_daily_bar_refresh.py:138-143 | Comparing the latest date decides whether any date reaches the expected session |
| `Splits.CorrectedOutputCheck` | tools/validate_historical_bars_against_corporate_actions.py:445-476 | For any splits, the three issue counts of the adjusted bars are those of the raw bars |
| `Splits.FactorIgnoresOrder` | tools/validate_historical_bars_against_corporate_actions.py:459-463 | The adjustment factor does not depend on the order of the splits |
| `Splits.OneMoreSplit` | tools/validate_historical_bars_against_corporate_actions.py:447-464 | A split with `split_to` shares for each `split_from` divides the factor of every earlier day accordingly and leaves later days alone; a row that does not parse counts for nothing; without splits the factor is one |
| `Splits.FactorIsPositive` | tools/validate_historical_bars_against_corporate_actions.py:448-463 | The adjustment factor is positive |
| `Splits.SplitsArePositive` | tools/validate_historical_bars_against_corporate_actions.py:448-455 | Only usable split rows count, and their factors are positive |
| `Splits.TurnoverIsConserved` | tools/validate_historical_bars_against_corporate_actions.py:464-468 | Adjusted price times adjusted volume is raw price times raw volume |
| `Splits.AdjustmentIsFaithful` | tools/validate_historical_bars_against_corporate_actions.py:464-475 | Adjusting a bar neither hides nor makes an issue |

## Left out

- Network, sockets, XML and CSV parsing, Excel, web routes: broker, provider and file contents are inputs.
- The console as an object: several processes interleave inside its methods, so it is a state machine on values, and `waiting`, handler and program counter are fields of a process record.
- Console process identity: (pid, start_ticks) is taken to be unique and readable, so a process whose start ticks cannot be read, or that runs under another user or name, is not modelled; the SIGTERM handler in place before `start` is taken to be the default action.
- Floating point: prices, quantities and P&L are exact rationals with the code's tolerances, so rounding of binary fractions is not modelled.
- Digests: sha256 of an order identity is taken to be injective, so the identity itself is the key.
- Text outside ASCII: upper case, white space and digits are the ASCII ones.
- Dates of the downloader: which date texts parse into the range is a parameter, as are the rules for one row in the validation.
- `run_full_download`: its report files, backup of the output and engine universe are written but never read again, so only the output, checkpoint, progress and symbol files are modelled.
- Backups and reports of the resume tool, and its per-symbol download loop: the analysis, the guard and the consolidation are modelled.
- Termination of repeated resume runs: failures in the legacy progress file are read again in every run.
- `process_order_plan`: an exception ends a cycle after a whole step; a failure between recording an order and placing it has the same effect on the store. Permission checks, connection and the written report are not modelled.
- `acquire_order_intent_guard` in `order_safety.py`: its refusal of a SELL is an input, and the second check that it makes before a manual SELL, which also reads the position before the open orders, is not modelled.
- Order store entries: cycle id, allocation and signal text of an intent, and the quantities inside history entries, are carried but never read by the modelled code.
- `_find_automated_order`: the order found for a fill is an input.
- `reconciliation.py` as a writer of orders: that it loads the store early and saves it late is modelled; the statuses and quantities it writes itself (without a history entry, or past the cap of 50) are not.
- Alerting calls and the order store: an alerting call loads, changes and saves the store in one step of `AlertCalls`; what overlapping loads and saves do is in `StoreFile`.
- The plan processor's order store: within one plan the store is not changed by other processes.
- `order_history`: paging and grouping for display.
- `pnl_summary`: the dates it shows beside its sums.
- `_latest_completed_ibkr_date`: the expected session is an input.
- `classify_split_event` and the gap checks: thresholds over floating-point logarithms.
- Log output, audit trail, health checks, scheduler and mobile requests.
- Lifecycle.FlexEntry: an error while reading the ledger, which falls back to the order store, is not modelled.
- Splits.CorrectedOutputCheck: a factor that underflows to zero in floating point cannot occur in exact arithmetic, so that branch is never taken.
