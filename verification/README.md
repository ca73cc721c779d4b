# tokenusage in Dafny: count every message once

This project models the token-accounting pipeline of the repository and proves that
its totals are exact. Watchers re-read transcripts, cut what they find into batches,
spool what they cannot deliver and send things again without restraint; the server must
still end with each message counted once, its rollups equal to the group-by of its
detail table, and its prices applied to the right days.

## How it is laid out

| files | part |
|---|---|
| `Types`, `Text`, `Order`, `Dedup`, `GroupSum`, `Regroup` | records, byte strings, sorted key lists, first-writer-wins tables, group-by and grouping what is already grouped |
| `Rollup`, `StoreSpec`, `Store`, `Repair`, `Columns`, `Concurrent`, `RebuildAborts` | the server's tables as an incrementally maintained view: inserts, rebuilds, the Codex repair, what each column then holds, their interleavings, and when one of them fails |
| `TailScan`, `Rescan`, `Codex`, `CodexReparse`, `CodexTotals`, `CodexPatch`, `Dsh` | the transcript parsers as state machines |
| `CodexLog`, `DshLog` | what a log says, read off its lines and not off those machines |
| `Delivery`, `Batching`, `NoLoss`, `ExactlyOnce`, `Feeding`, `InOrder`, `FleetOrder`, `Overtaking`, `Watcher`, `EndToEnd` | the protocol between watcher and server, its invariants, what a spool changes, the watcher's code as a refinement of the protocol, and the composition with the parsers |
| `Prices`, `Pricer`, `PriceSync`, `Billing` | the versioned price table, the in-memory fallback, the sync, the three usage queries |

Code that changes state is a class or a method with loops, proved against a
specification function; queries, parsers' line rules and protocol steps are functions
and datatypes. `dafny verify dfyconfig.toml` checks everything.

## Main results

* `EndToEnd.EveryMessageOnce`, `EveryBillOnce`: for any fleet of tailed and re-parsed
  transcripts and any run of growth, replacement, lost, half-landed and refused requests,
  spooling, replay, crashes and restarts, with other watchers sending at any moment, a
  caught-up server reports in both rollups and in every bill what one clean parse of
  everything the files held gives. Rows of an equal new key have to agree in the columns
  the rollups read only, so a resumed session may repeat a message under another session
  id; where they agree in every column, the detail tables are equal too (`EveryRowOnce`).
  No file may be replaced before it was read to its end. The watcher's own tick, `Watcher.RunOnce`, is a run of that protocol.
* `FleetOrder.SpoollessFleet`, `Overtaking.OnceIffAgreeing`: what the agreement is for.
  Without a spool only keys that several files or watchers have need to agree: under its
  own, a tailed file is stored as its clean parse whatever its records say. With a spool,
  for every batch size, every schedule of one growing file whose lines do not contradict
  themselves reads like its clean parse if and only if its records of an equal
  new key read alike.
* `NoLoss.NothingLost`: in every reachable state, everything below a checkpoint offset
  (in memory or on disk) is stored, spooled, or in a batch the server, asked again,
  answered with 400, 404, 410, 413 or 422. Nothing else makes a watcher drop a batch
  (`Watcher.Uploader.FlushOne`).
* `Watcher.RunOnce`, `WalkReadsAll`: a tick reads every transcript it can, and one in which
  no request fails ends caught up if nothing was appended meanwhile, all files parse and
  nothing was turned away before: the state the results above are about is reached.
* `Columns.DailyColumns`, `InsertedUsage`, `RepairedColumns`: what each column of a rollup,
  a detail row and a repaired row holds, in terms of the records themselves.
* `Concurrent.StepRefines` and `AlwaysExact`: no interleaving of ingests, rebuilds and
  repairs shows a rollup that is not exact; a rebuild can abort, and then changes nothing.
  `RebuildAborts.AbortsIff` and `UndisturbedRebuild` say when.
* `CodexReparse.ReparseConverges` and `AlwaysConvergesIff`: re-sending whole Codex files
  is harmless exactly when the file name carries a session id.
* `CodexTotals.Telescopes`, `ExactIff`, `ServerTotals`: cumulative counters turned into
  charges add back up, on every log, and at the server less what repeated stamps lose.
* `CodexPatch.ScriptRoundTrip`, `HeredocRoundTrip`: patches rendered, escaped and embedded
  in a script, as arguments of calls or inside a literal anywhere in raw text, are read as
  each would be alone, and with every path and count as written if and only if no moved
  file changes lines (`RecoversIff`, `ScriptRecoversIff`, `HeredocRecoversIff`).
* `CodexLog.LogEdits`, `LogCharges`, `DshLog.LogEdits`: the edits are exactly the files of
  the recorded and confirmed patches, or the calls an answer confirms, and the charges the
  growth of the counters, each with the columns its lines give it.
* `Billing.QueriesAgree`, `ClockIsPerMessage`, `AggregateIsPerMessage`: grouping before
  pricing bills every message at its own day's price, and each of its columns at that
  column's rate (`OneMessageSummary`, `OneMessageClock`, `Pricer.ColumnCosts`).
* `Prices.FastLookupExact`, `HistoryKept`, `StaysReadyIff`, `StaysCoveredIff`,
  `SeededIsPriced`, `Pricer.SeedAgreesIff`, `PriceSync.ResyncWritesNothing`: lookups name
  one row, a price change leaves the past alone, and later days priced exactly if it comes
  in time, and a second sync writes nothing.

## Assumptions about the environment

* A file with an unchanged inode only grows, and a replaced file gets an inode no
  checkpoint still holds for that path.
* A file is not replaced between the stat and the read of one scan; it may grow there.
* A request of another watcher takes effect as a whole or with its usage only; why it may
  be taken as one step is `Concurrent.StepRefines`.
* Spool file names are distinct, and a rename is atomic.
* The batch size is at least 1.
* A 2xx reply means both statements of the request committed.
* PostgreSQL at READ COMMITTED follows the rules written at the head of `Concurrent.dfy`.
* JSON: a strict prefix of a line decodes to nothing or to what the line decodes to
  (`Rescan.WellWritten`); a dsh log's decompressed text only grows (`Dsh.Appended`).

## Where the code and its comments part

* `internal/server/store.go:558-562` says concurrent upserts to the same keys block. A row
  the DELETE did not see has no lock to wait for, and the rebuild then fails on a unique
  violation: because an insert created the group in between
  (`RebuildAborts.ViolationReachable`), or because an overlapping rebuild put a row of a
  new id in the place of the one seen (`OverlapReachable`). These are the only ways
  (`AbortsIff`), and nothing is counted twice.
* `internal/server/store.go:375-377` describes a price change as close-and-insert. When
  the new valid_from is one the prefix already has, the conflict clause updates a row that
  stays closed and the prefix is left without an active price, for good if that is the
  epoch (`Prices.StaysReadyIff`, `CollisionExample`, `NeverHeals`).
* `internal/server/store.go:522-525` wants a price for every day. The old row is closed by
  the database's clock and the new one starts by the caller's: a whole day that lies
  between the two, and only such a day, has none (`Prices.CoveredIff`, `LateGap`).
* `internal/watcher/parsers/codex.go:32-33` relies on the primary key to drop re-sent
  records. For edits this needs the session id to come from the file name: `result()`
  stamps all edits with the id known at the end (`CodexReparse.AlwaysConvergesIff`).
* The spool lets a later batch overtake an earlier one, so the record that wins a key need
  not be the first in the file (`Overtaking.OnceIffAgreeing`, with the limits named there);
  with the buffer directory left empty it is (`FleetOrder.AloneIsClean`).
* Where a total falls below one taken over before, an older total written again is charged
  a second time (`CodexTotals.RepeatCharged`, exact in `RepeatsIgnoredIff`).
* The in-memory table honours an empty prefix, the SQL lookup does not
  (`Pricer.SeedAgreesIff`).
* A moved file's patch lines are not counted: its `*** Move to:` line ends the section
  (`CodexPatch.RecoversIff`).

## Model

| member | source | states |
|---|---|---|
| Dedup.AbsorbGrows | internal/server/store.go:82-97 | ON CONFLICT DO NOTHING never changes a stored row, and the table gains exactly the keys of the batch, each with a row of the batch |
| Dedup.AbsorbIsFirst | internal/server/store.go:82-97 | a table after a batch is the first occurrence per key of the batch, overridden by what was already stored |
| Dedup.AbsorbAppend | internal/server/store.go:82-97 | inserting two batches in turn is inserting their concatenation |
| Dedup.AcceptedAdds | internal/server/store.go:129-158 | accepted counts of two sends add up to the accepted count of one |
| Dedup.ResendConverges | internal/server/store.go:82-97 | a batch whose first occurrences agree with a later batch leaves no trace once the later one is in |
| Dedup.OrderIrrelevantIff | internal/server/store.go:82-97 | two batches may arrive in either order if and only if every key they share and the table lacks starts with the same row in both |
| Dedup.AgreeDetermines | internal/server/store.go:82-97 | for any reading of rows under which equal new keys read alike, any table that keeps what was there and adds exactly the batch's keys, each with a row of the batch, reads like the table of one clean insert |
| GroupSum.GroupByUnion | internal/server/store.go:98-131 | adding the group-by of the new rows to the group-by of the old ones gives the group-by of all rows, in every group and column |
| GroupSum.GroupByInsert | internal/server/store.go:98-110 | one more row bumps exactly its own group |
| Rollup.UsageLawful | internal/server/store.go:111-128 | the five sums, the count and the NULL-ignoring LEAST and GREATEST form a commutative aggregate, so row order never shows |
| Rollup.FreshIsExact | internal/server/store.go:589-602 | aggregating only the rows of a range of UTC days gives the full aggregate cut to those days |
| Rollup.RebuiltExact | internal/server/store.go:580-607 | a rebuild makes the requested days exact whatever they held and leaves every other day alone |
| Rollup.RebuiltRestores | internal/server/store_repair.go:110-116 | a rollup exact outside the rebuilt days becomes exact everywhere |
| StoreSpec.InsertUsageKeepsView | internal/server/store.go:59-132 | rolling up only the accepted rows keeps usage_daily equal to the group-by of usage_detail, with duplicates inside the batch, across batches, or none |
| StoreSpec.InsertEditsKeepsView | internal/server/store.go:161-213 | the same for edit_daily and edit_detail |
| StoreSpec.InsertUsageAppend | internal/server/store.go:140-156 | two requests leave every table as one request with both batches does |
| StoreSpec.InsertEditsAppend | internal/server/store.go:219-235 | the same for edit requests |
| StoreSpec.InsertTwice | internal/server/store.go:140-156 | re-sending a stored batch changes no table at all |
| Store.InsertNew | internal/server/store.go:82-97 | the row-by-row insert yields the first-writer-wins table and returns exactly the rows that are new |
| Store.GroupRows | internal/server/store.go:98-110 | the loop over the returned rows computes their group-by |
| Store.UpsertRolls | internal/server/store.go:111-128 | upserting group by group, in any order, merges the deltas into the rollup |
| Store.Store.Insert | internal/server/store.go:140-156 | detail and rollup move together to the state of the specification; accepted is the growth of the detail table, accepted plus duplicates the records with an id |
| Store.Store.InsertEdits | internal/server/store.go:219-235 | the same for edit records |
| Store.Store.RebuildDaily | internal/server/store.go:563-607 | the days of from and to, inclusive, are replaced by the recomputed aggregate; nothing else changes; the row count is the aggregate's |
| Store.Store.FreshDaily | internal/server/store.go:589-602 | the timestamp-range scan computes the group-by of exactly the rows of those UTC days |
| Columns.DailyColumns | internal/server/store.go:98-128 | a usage_daily row is there if and only if some message has its UTC day, user, machine, tool and model; it counts them, its first and last time are the least and the greatest of theirs, and each of its five sums is that of their column |
| Columns.EditDailyColumns | internal/server/store.go:190-209 | an edit_daily row likewise: the number of the edits of its key, their added and their removed lines |
| Columns.InsertedUsage | internal/server/store.go:59-97 | a request leaves stored rows as they were and adds one for every other key of a record with a message id, whose columns are those of the first such record, under the sender's user and machine, tools without a name as claude-code, one-hour writes no more than the writes |
| Columns.InsertedEdits | internal/server/store.go:161-189 | the same for edits and their event ids, languages without a name as other |
| Repair.ReportIdentities | internal/server/store_repair.go:147-176 | Parsed = Matched + MissingDB, DatabaseRows = Matched + MissingSource, and a range is reported if and only if something changed |
| Repair.UpdateTouches | internal/server/store_repair.go:178-189 | a row changes if and only if it is a matched in-scope Codex row that differs, and then only in its four token columns |
| Columns.RepairedColumns | internal/server/store_repair.go:118-145 | the Codex rows of the given user and machine whose key a parsed record carries get the four token columns of the first such record; no row comes, goes or changes otherwise |
| Repair.RepairKeepsView | internal/server/store_repair.go:110-116 | rebuilding only the days from the first to the last changed timestamp restores the exact rollup on all days |
| Repair.RepairIdempotent | internal/server/store_repair.go:147-189 | a second run on the same source reports nothing changed and would write nothing |
| Repair.VerdictMeans | internal/server/store_repair.go:100-108 | an applied repair is refused exactly when a scoped row is missing from the source, and writes exactly when the source is complete and something differs; the no-range error cannot occur |
| Repair.QueryStats | internal/server/store_repair.go:147-176 | the counted report is the relation the identities are proved about, range bounds and token sums included |
| Repair.SumsForetell | internal/server/store_repair.go:171-175 | from a complete source the sums cover every scoped row, and the new sums reported before the repair are the old and new sums of a report made after it |
| Columns.ReportedSums | internal/server/store_repair.go:171-175 | the reported sums are those of the input and output columns of the matched rows, before and after the repair, and of their cache reads after it |
| Repair.RepairCodexUsage | internal/server/store_repair.go:35-66 | a dry run, an incomplete source or an unchanged one leaves the store as it was; an applied run leaves the repaired tables |
| Repair.HistoryKeepsView | internal/server/store.go:59-132 | after any sequence of inserts, edit inserts, rebuilds and applied repairs both rollups equal the group-by of their detail |
| Concurrent.StepKeepsInv | internal/server/store.go:563-607 | every step of every open insert, rebuild or repair keeps the invariant: exact committed rollup, disjoint locks, every open transaction ready to commit exactly |
| Concurrent.StepRefines | internal/server/store.go:554-607 | seen from outside, an insert happens as a whole at its commit on the tables as they then are, a repair likewise, and a rebuild, committed or aborted, changes no aggregate |
| Concurrent.AlwaysExact | internal/server/store.go:558-562 | over every interleaving the committed rollup equals the group-by of the committed detail: no double count, no lost delta |
| RebuildAborts.StepKeepsIds | internal/server/store.go:580-607 | every step keeps track of the rows a rebuild saw at its DELETE: each is locked as seen, or gone, or replaced under another id, and no open transaction will commit an id that was seen |
| RebuildAborts.AbortsIff | internal/server/store.go:589-602 | in every reachable state a rebuild's insert of a group violates the unique key if and only if the group's live row is not the one its DELETE saw: new since, or of another id |
| RebuildAborts.UndisturbedRebuild | internal/server/store.go:580-607 | over every run from its DELETE on in which no step brings a row of a new id into its days, the rebuild cannot fail |
| RebuildAborts.ViolationReachable | internal/server/store.go:558-562 | an insert that creates a group between the DELETE and the insert is not blocked and makes the rebuild abort |
| RebuildAborts.OverlapReachable | internal/server/store.go:558-562 | with no insert at all: of two overlapping rebuilds of one day the later one aborts on a group that was there all the time |
| TailScan.LineLengthIsFirst | internal/watcher/parsers/claudecode.go:58-60 | the line read ends at the first newline, and no line is read when there is none |
| TailScan.ReadLines | internal/watcher/parsers/claudecode.go:57-74 | the read loop returns what the complete lines yield and stops just past the last newline |
| TailScan.Scan | internal/watcher/parsers/claudecode.go:24-76 | one scan is the specification's, unchanged files included |
| TailScan.TailEqualsWhole | internal/watcher/parsers/claudecode.go:32-75 | for every schedule of appends, with scans cutting lines anywhere, the concatenated results are one reading up to the final offset; the offset stays on a line boundary, never falls, and passes every line complete at the stat |
| TailScan.FreshTailEqualsWhole | internal/watcher/parsers/pi.go:41-87 | from a file never seen, the schedule yields exactly one whole-file scan |
| TailScan.RotatedTailEqualsWhole | internal/watcher/parsers/claudecode.go:36-37 | a file replaced after it was read to its end: over every schedule of scans of the old content and of the new, the results are one whole reading of each |
| TailScan.TruncatedTailEqualsWhole | internal/watcher/parsers/claudecode.go:38-40 | a file truncated below what was read and written anew under its inode: over every schedule of scans of both contents, the results are one whole reading of each |
| TailScan.LinesAre | internal/watcher/parsers/claudecode.go:57-68 | the lines of a content are whole lines, joined they are all of it up to its last newline, and no newline is behind them |
| TailScan.ContentYields | internal/watcher/parsers/claudecode.go:57-75 | a content yields what the extractor makes of its first line, then what the rest yields; a last line without its newline nothing |
| TailScan.ReadingPasses | internal/watcher/parsers/claudecode.go:57-75 | a reading from any offset ends behind every complete line |
| Rescan.EventsPrefix | internal/watcher/parsers/codex.go:112-123 | however a growing file is cut, the events of the shorter reading are a prefix of those of the longer one |
| Rescan.PiecesAre | internal/watcher/parsers/codex.go:112-123 | the pieces read are the whole file, each a line; only the last may lack its newline |
| Rescan.DecodedAre | internal/watcher/parsers/codex.go:178-182 | the events are those of the pieces that decode, in their order, and no other |
| Codex.CodexScan.Emit | internal/watcher/parsers/codex.go:178-281 | one line moves the parser state exactly as the transition function says |
| Codex.CodexScan.CountTokens | internal/watcher/parsers/codex.go:230-279 | the clipped deltas, the skip of repeated totals and the record appended |
| Codex.CodexScan.AddPatchApplyEnd | internal/watcher/parsers/codex.go:301-337 | a successful structured result is recorded once, unless its call is already known |
| Codex.CodexScan.Result | internal/watcher/parsers/codex.go:139-164 | one edit per file of every confirmed patch, in patch order |
| Codex.SortedChanges | internal/watcher/parsers/codex.go:311-332 | the changed files come out in path order, whatever order the map is enumerated in |
| Order.BelowIff | internal/watcher/parsers/codex.go:315 | one path is before another if and only if they agree up to a place where the first ends or has the smaller byte |
| Codex.ParseCodexFile | internal/watcher/parsers/codex.go:98-124 | the read loop computes the parse of the whole file, a last line without newline included |
| CodexLog.ConfirmedIff | internal/watcher/parsers/codex.go:209-217 | a call is confirmed if and only if some output with its nonempty id succeeded, or a successful applied patch with files has it and no earlier line named the call |
| CodexLog.RecordedPatches | internal/watcher/parsers/codex.go:196-209 | the recorded patches are exactly the lines that record one, a call with files or the first such mention in an applied patch, in log order, each with the id, the stamp and the files of its line |
| CodexLog.LogEdits | internal/watcher/parsers/codex.go:139-164 | one edit for every file of every patch that is recorded and confirmed anywhere in the log, in line and file order, with the session, time, language, counts and event id of its line, and no other |
| CodexLog.LogCharges | internal/watcher/parsers/codex.go:218-281 | one charge for every count line that exceeds the totals charged last in some counter, in log order: the growth of each counter, input less its cached part, in the session and the model the lines before it name |
| CodexLog.SessionOf | internal/watcher/parsers/codex.go:186-190 | the session is the id in the file name, or else the first one a meta line gives |
| CodexLog.ModelOf | internal/watcher/parsers/codex.go:191-195 | the model is that of the last turn so far that names one |
| CodexLog.AppliedFiles | internal/watcher/parsers/codex.go:301-337 | an applied patch counts one file per change with lines to count, in path order, under its path after a move: the lines of a new file, the plus and minus lines of a diff without its header |
| CodexLog.ItoaIsDecimal | internal/watcher/parsers/codex.go:151 | the index in an event id is written in decimal |
| CodexReparse.RunGrows | internal/watcher/parsers/codex.go:127-135 | usage, patches and confirmations only grow, and a session id once set stays |
| CodexReparse.EventIdInjective | internal/watcher/parsers/codex.go:151 | an event id names one call and one file of it, whatever the call id contains |
| CodexReparse.MoreConfirmed | internal/watcher/parsers/codex.go:139-164 | calls confirmed later add events in the middle of the list, yet the first edit under every id stays the first |
| CodexReparse.EditsConvergeIff | internal/watcher/parsers/codex.go:139-164 | of two parses of a growing log the longer keeps the shorter one's stored edits if and only if there were none or the session id has not changed |
| CodexReparse.AlwaysConvergesIff | internal/watcher/parsers/codex.go:98-110 | it does so for every log if and only if the file name carries a session id |
| CodexReparse.NamelessIff | internal/watcher/parsers/codex.go:584-591 | the only file names without a session id are the empty one and .jsonl |
| CodexReparse.NamedSession | internal/watcher/parsers/codex.go:580-591 | whatever stands before the last five dash-separated parts of a name is cut off, and they are the session id; fewer parts are the id as they are |
| CodexReparse.ResendAbsorbs | internal/watcher/parsers/codex.go:31-33 | sending the parse of an earlier state of the file first leaves no trace in any table |
| CodexReparse.ReparseConverges | internal/watcher/parsers/codex.go:44-56 | for any sequence of growing states, each parsed and sent in full, the server ends as after one parse of the final file |
| CodexReparse.CodexSource | internal/watcher/parsers/codex.go:44-56 | the Codex parser meets the convergence condition of the delivery theorems |
| CodexTotals.Telescopes | internal/watcher/parsers/codex.go:227-279 | for every log: charged output is the final counter plus what accepted totals fell by; cache reads likewise; input plus cache reads adds the excess of cached growth over input growth |
| CodexTotals.SteadyIsExact | internal/watcher/parsers/codex.go:227-279 | with counters that never fall and cached input growing no faster than input, the charges equal the final counters |
| CodexTotals.ExactIff | internal/watcher/parsers/codex.go:227-279 | the charges equal the last accepted counters if and only if no accepted total fell and cached input never outgrew input |
| CodexTotals.NeverNegative | internal/watcher/parsers/codex.go:238-258 | no charge has a negative column |
| CodexTotals.RepeatIgnored | internal/watcher/parsers/codex.go:235-237 | where no total taken over fell, any total of the log written again, there or anywhere later, changes nothing |
| CodexTotals.RepeatsIgnoredIff | internal/watcher/parsers/codex.go:235-258 | repeats of any total after any prefix of the log are all harmless if and only if no total taken over is below the one before it in any counter |
| CodexTotals.RepeatCharged | internal/watcher/parsers/codex.go:235-258 | after a fall an older total is charged again: a log of 10 and then 5 input tokens ends at 15 billed |
| CodexTotals.ServerTotals | internal/watcher/parsers/codex.go:267-279 | for a session the server does not know, the sums it stores are those of the log less the charges under a stamp that was charged before |
| CodexTotals.StampsKeepAllIff | internal/watcher/parsers/codex.go:267-279 | nothing is lost that way if and only if no two charged lines carry one time stamp |
| CodexPatch.ParseApplyPatch | internal/watcher/parsers/codex.go:356-374 | the loop over lines computes the per-file counts of the specification |
| Text.SplitIsJoin | internal/watcher/parsers/codex.go:359 | splitting cuts a text at every newline and nowhere else |
| Text.Trimmed | internal/watcher/parsers/codex.go:362 | trimming cuts off the six ASCII white space characters at either end and nothing else |
| CodexPatch.EnvelopeRoundTrip | internal/watcher/parsers/codex.go:339-374 | reading a rendered envelope recovers every path, and both counts of every section that is not a move; deletions give nothing, a move its path without counts |
| CodexPatch.RecoversIff | internal/watcher/parsers/codex.go:362-366 | what is read equals what was written, moved files with their counts included, if and only if no moved file changes lines |
| CodexPatch.UnescapeJs | internal/watcher/parsers/codex.go:459-473 | the loop decodes every escape of the text |
| CodexPatch.JsStringLiteral | internal/watcher/parsers/codex.go:430-455 | the loop returns the literal's contents and the bytes consumed, 0 when it is missing or not terminated |
| CodexPatch.LiteralWritten | internal/watcher/parsers/codex.go:430-455 | a written literal is read back whole and consumed exactly, blanks and both quotes included |
| CodexPatch.UnescapeEscaped | internal/watcher/parsers/codex.go:457-473 | unescaping a text that was escaped for any quote, with anything behind it, gives the text back and goes on behind it |
| CodexPatch.UnicodeEscape | internal/watcher/parsers/codex.go:489-495 | four hexadecimal digits in either case after a backslash and a u are the UTF-8 bytes of the code point they write, a surrogate those of the replacement character |
| CodexPatch.OtherEscape | internal/watcher/parsers/codex.go:479-500 | a backslash before any other character stands for that character, a u without four digits included; one at the end for itself |
| CodexPatch.CodexPatchEnvelopes | internal/watcher/parsers/codex.go:393-424 | the three shapes of a call, tried in order; the loop over calls terminates |
| CodexPatch.ScriptRead | internal/watcher/parsers/codex.go:400-414 | every apply_patch call of a script is found, in order, and nothing else |
| CodexPatch.CallRead | internal/watcher/parsers/codex.go:400-414 | after any text without a call, one call of a script with any literal gives that text if it holds an envelope marker and nothing otherwise, and reading goes on behind the literal |
| CodexPatch.NothingWithoutMarker | internal/watcher/parsers/codex.go:393-399 | an input in which Begin Patch does not stand as it is gives nothing, however it is escaped, unless the tool is apply_patch itself |
| CodexPatch.ScriptRoundTrip | internal/watcher/parsers/codex.go:381-424 | any number of patches embedded in a script come back, in order, as each would be read alone |
| CodexPatch.ScriptRecoversIff | internal/watcher/parsers/codex.go:381-424 | with every path and count as written if and only if no moved file in them changes lines |
| CodexPatch.HeredocRoundTrip | internal/watcher/parsers/codex.go:418-423 | a raw script around one escaped literal, which carries any text with an envelope in it, is read like the envelope alone, as long as no call in the script yields an envelope and nothing around it opens a section |
| CodexPatch.PlainHeredoc | internal/watcher/parsers/codex.go:386-387 | for a script without a backslash outside the literal, whatever quotes the patch and the script hold |
| CodexPatch.HeredocRecoversIff | internal/watcher/parsers/codex.go:418-423 | with every path and count as written if and only if no moved file changes lines |
| CodexPatch.DirectRoundTrip | internal/watcher/parsers/codex.go:394-396 | so does the form whose whole input is the envelope |
| Dsh.ParseDeepseekHarnessFile | internal/watcher/parsers/deepseekharness.go:103-209 | the loop computes the parse; a file that does not decompress gives no result |
| Dsh.ResultsExtend | internal/watcher/parsers/deepseekharness.go:122-209 | usage and edits of a log are prefixes of those of every extension |
| Dsh.PendingIsOpen | internal/watcher/parsers/deepseekharness.go:155-184 | the map holds exactly the recorded calls not answered since, each as last made |
| Dsh.MatchedOnce | internal/watcher/parsers/deepseekharness.go:178-184 | a call is answered at most once and a result answers at most one call |
| Dsh.EditsAreMatches | internal/watcher/parsers/deepseekharness.go:155-197 | the edits are exactly the matched pairs: a recorded call and the first later result with its id, if not an error, with nothing about the id between, one edit each, with the content of the call |
| DshLog.LogEdits | internal/watcher/parsers/deepseekharness.go:155-197 | read off the log: the edits are one per write or edit call that adds or removes a line and is answered without an error before its id is named again, in the order of the answers, with the lines of its content or of its new and old text, and the session header before the answer |
| DshLog.LogUsage | internal/watcher/parsers/deepseekharness.go:134-154 | one record per message with an id and a model, in log order, with its four counts and the session header before it |
| Dsh.DshSource | internal/watcher/parsers/deepseekharness.go:44-56 | the parser meets the convergence condition of the delivery theorems |
| Batching.BatchesPartition | cmd/watcher/cli/run.go:242-268 | the windows are all records, in order, none empty, none over the batch size |
| Batching.BatchSizeInvisible | cmd/watcher/cli/run.go:213-223 | for every batch size the server ends as if the scan had been one request |
| NoLoss.StepKeepsInv | cmd/watcher/cli/run.go:168-234 | every step keeps the invariant: what lies below a checkpoint offset is stored, spooled or rejected, and what lies below a pending offset may also be in flight |
| NoLoss.StepKeepsExcused | internal/watcher/uploader.go:171-240 | every step keeps: whatever Flush dropped, or is about to, was in a replayed batch that got one of those five answers |
| NoLoss.NothingLost | cmd/watcher/cli/run.go:186-233 | in every reachable state, requests of other watchers in between included, for the checkpoint in memory and the one on disk: the offset is a line boundary within the file, and every keyed record before it is stored, spooled, or in a replayed batch the server answered with 400, 404, 410, 413 or 422 |
| ExactlyOnce.StepKeepsSound | internal/watcher/uploader.go:137-190 | every step keeps the converse: the server holds only rows of what was once written to a file or sent by another watcher, and its rollups are exact |
| ExactlyOnce.StepKeepsRetired | internal/watcher/parsers/claudecode.go:36-37 | a file replaced while its entry stood at its end loses nothing, at that step or at any later one |
| ExactlyOnce.CaughtUpKeys | cmd/watcher/cli/run.go:168-234 | unless a file was replaced before it was read to its end, a caught-up server holds exactly the keys of a clean parse of all current and replaced contents and of what other watchers sent, on top of what it had, each with a row that was sent |
| ExactlyOnce.OnceUnder | internal/server/store.go:82-97 | for any reading of the rows under which those of an equal new key, of files and other watchers alike, read alike, the caught-up server reads like the one state a single clean send after the others' leads to |
| ExactlyOnce.EffectivelyOnce | cmd/watcher/cli/run.go:168-234 | where they are equal in every column, it is that state |
| ExactlyOnce.AggregateOnce | internal/server/store.go:98-128 | every commutative aggregate of the detail is that of the clean send, if records of an equal new key agree in the columns it reads |
| ExactlyOnce.RollupsOnce | internal/server/store.go:98-128 | so both rollups are those of the clean send, session ids and project paths aside |
| InOrder.StepKeepsOrder | cmd/watcher/cli/run.go:213-233 | without a spool, every step keeps, under keys only one tailed file has, the tables those of a prefix of the file's records, with no checkpoint entry behind or ahead of what they hold |
| InOrder.PrefixAlways | cmd/watcher/cli/run.go:213-233 | in every reachable state without a spool, whatever other files and watchers send, the server holds under such keys a prefix of the file's records, inserted in order, for every batch size |
| FleetOrder.AloneIsClean | cmd/watcher/cli/run.go:213-233 | caught up, it holds under the keys of one file exactly the clean parse, whatever the file's records say |
| FleetOrder.SpoollessFleet | cmd/watcher/cli/run.go:55-57 | without a spool any fleet ends reading like its clean parse if only the keys that several files or watchers have carry rows that read alike |
| FleetOrder.SpoollessIsClean | cmd/watcher/cli/run.go:55-57 | one tailed file alone ends as exactly its clean parse, rollups included, with no condition on its records |
| Overtaking.Overtakes | internal/watcher/uploader.go:117-190 | for every batch size: if the batches of some line bring a row under a key that reads otherwise than the clean send's, there is a run, ending caught up, that stores another row than the clean one |
| Overtaking.OnePerLine | internal/watcher/parsers/claudecode.go:109-143 | a line that yields at most one record of a kind does not contradict itself |
| Overtaking.OnceIffAgreeing | internal/watcher/uploader.go:63-84 | with a spool, for every batch size and every reading of the rows: all schedules of one growing file whose lines do not contradict themselves end reading like its clean parse if and only if its records of an equal new key read alike |
| EndToEnd.FleetValid | internal/watcher/parsers/codex.go:44-56 | tailed, Codex and dsh transcripts together meet the assumptions of the delivery theorems |
| EndToEnd.TranscriptYields | internal/watcher/scanner.go:86-105 | what a file of each kind yields: a tailed one its extractor's findings line by line, the others their parse, nothing if unreadable |
| EndToEnd.EveryMessageOnce | cmd/watcher/cli/run.go:168-234 | once caught up, under every schedule of one watcher and all others, both rollups are what one clean parse of everything the files held, in any order, sent once after the others' requests, would have made them, if rows of an equal new key agree in the columns the rollups read |
| EndToEnd.EveryRowOnce | cmd/watcher/cli/run.go:168-234 | if they agree in every column, so are the detail tables |
| EndToEnd.EveryMessageUnbuffered | cmd/watcher/cli/run.go:55-57 | with the buffer directory left empty the rollups are those of the clean parse if rows agree under the keys that several files or watchers have |
| EndToEnd.EveryBillOnce | internal/server/store.go:630-763 | the summary, the heatmap and the clock view in any zone, for any user, range and price table, are those of the clean parse |
| Watcher.Server.HandleIngest | internal/server/api.go:40-92 | 200 is answered for a request that lands wholly; 401, 400 and 500 for a missing key, an unreadable body and a failing insert, with nothing landed, and 500 with its usage landed if only the edits fail |
| Watcher.Uploader.Post | internal/watcher/uploader.go:86-115 | for every fate of the request, what comes back and what of it is then in the tables; success is reported only for a request that landed in full |
| Watcher.Uploader.SpoolBody | internal/watcher/uploader.go:117-129 | a batch is added under a name not in use, or, if the directory cannot be written, nothing changes |
| Watcher.Uploader.SendRequest | internal/watcher/uploader.go:63-84 | delivered exactly if the request lands and its answer arrives, and the server then holds the batch; spooled exactly if not, there is a buffer directory and it can be written, and exactly this batch is added; failed otherwise, and the tick is over |
| Watcher.Uploader.FlushOne | internal/watcher/uploader.go:171-240 | a batch is kept and the replay ends for a lost request or answer, 401, 403, 408, 429, any 5xx, a failing insert and every other refusal but five; 400, 404, 410, 413 and 422 drop it and the replay goes on, as it does when the batch landed in full, which drops nothing |
| Watcher.Uploader.Flush | internal/watcher/uploader.go:137-202 | the replay is a run of the protocol and adds or alters no spooled batch; if nothing fails the spool ends empty and nothing was dropped |
| Watcher.ScanAll | internal/watcher/scanner.go:41-124 | the walk reads every file on it that can be read: its state is pending unless it does not parse, its findings are merged; an unreadable file is in neither |
| Watcher.WalkReadsAll | internal/watcher/scanner.go:86-105 | so every tailed file that can be read has its state pending, past all that was complete before, a re-parsed one too if it parses, and whatever its content yields between its entry and that state is among the findings |
| Watcher.SendUsage | cmd/watcher/cli/run.go:242-268 | windows are sent in order until one is not durable |
| Watcher.SendEdits | cmd/watcher/cli/run.go:219-223 | edit windows follow, and durable means all of them were |
| Watcher.Advance | cmd/watcher/cli/run.go:227-233 | every pending state is set and then saved, or the save fails and the disk keeps the old map |
| Watcher.Restart | internal/watcher/checkpoint.go:24-40 | a new process goes on from the last saved map, a crash step of the protocol, wherever the old one stopped |
| Watcher.RunOnce | cmd/watcher/cli/run.go:168-234 | a tick, whatever fails in it, is a run of the protocol, so the theorems above hold after it; the checkpoint moves by every pending state if all batches were durable and not at all otherwise; if no request fails, every file gets past all that was complete in it or does not parse; and if nothing was appended meanwhile, all files parse and none of their records was turned away before, the watcher has caught up |
| Prices.FastLookupExact | internal/server/store.go:696-715 | a row satisfies the enumerated-prefix query with LIMIT 1 if and only if it is the one row a scan of all matching prefixes, longest and latest first, names |
| Prices.OneWinner | internal/server/store.go:703-715 | the primary key leaves LIMIT 1 no choice |
| Prices.PriceStore.FindActive | internal/server/store.go:392-405 | finds the active row of a prefix if and only if there is one |
| Prices.PriceStore.UpsertPrice | internal/server/store.go:380-468 | the table becomes the specification's, keeps at most one active row per prefix, and true is returned exactly when the active rates differ |
| Prices.PriceStore.SeedDefaultPrices | internal/server/store.go:526-552 | an empty table gets every default at the epoch, in any order; any other table is left alone |
| Prices.FirstPrice | internal/server/store.go:431-467 | a prefix without an active price gets one that holds since the epoch, with manual as the default source |
| Prices.Repriced | internal/server/store.go:392-467 | what becomes of an active price: equal rates change nothing, a seeded placeholder is replaced in its place, any other is kept and closed now while the new one starts at the given time or else at the caller's |
| Prices.UpsertKeepsAtMostOne | internal/server/store.go:380-468 | no write leaves two active rows for a prefix |
| Prices.StaysReadyIff | internal/server/store.go:439-467 | every known prefix keeps exactly one active row if and only if the inserted valid_from is new to the prefix |
| Prices.CollisionExample | internal/server/store.go:439-467 | the failing case on a concrete table |
| Prices.NeverHeals | internal/server/store.go:431-434 | a prefix with a closed row at the epoch and no active one never gets an active one back |
| Prices.WritesStayReady | internal/server/store.go:380-468 | over every history of writes with fresh times, every known prefix has exactly one active row |
| Prices.SeededReady | internal/server/store.go:526-552 | the seeded table starts that way |
| Prices.CoveredIff | internal/server/store.go:431-467 | a replacement leaves every day of its prefix priced if and only if no whole day lies between the close and the start |
| Prices.TimelyIff | internal/server/store.go:431-441 | that is, if and only if it starts by the end of the first day that begins at or after the close |
| Prices.StaysCoveredIff | internal/server/store.go:431-467 | over every history of fresh writes on a database clock that never runs back, a prefix keeps a price for every day throughout if and only if each of its replacements is in time |
| Prices.LateGap | internal/server/store.go:431-467 | the failing case for every close and every start that leaves a whole day between them, on a concrete table |
| Prices.SeededCoveredIff | internal/server/store.go:522-552 | the seeded table is a start for that |
| Prices.SeededIsPriced | internal/server/store.go:522-525 | after any history of fresh writes whose replacements of a seeded prefix are in time, every model that starts with the prefix has a price on every day from the epoch on |
| Prices.HistoryKept | internal/server/store.go:375-377 | a price change leaves the lookup for every model unchanged, row and rates, on every day that ended before it |
| Prices.NewPriceRules | internal/server/store.go:703-715 | from the day whose end reaches its start the new price is used for every model no longer prefix covers |
| Pricer.FirstIsLongest | internal/server/pricing.go:105-111 | the first match in any length-ranked list is the longest match |
| Pricer.Pricer.Reindex | internal/server/pricing.go:86-94 | for every map order and every order of ties the list is ranked by length and holds exactly the keys |
| Pricer.Pricer.Quote | internal/server/pricing.go:103-112 | with the exact-match shortcut, the quoted rate is that of the longest key that starts the model, or none |
| Pricer.Pricer.Cost | internal/server/pricing.go:100-126 | the cost is that of the longest match, column by column at its own rate per million, one-hour writes at the larger of the two write rates, or 0 |
| Pricer.ColumnCosts | internal/server/pricing.go:115-125 | tokens of one column alone cost that column's rate, whatever the other rates are; one-hour writes, being writes, the larger of the two write rates |
| Pricer.QuoteUnique | internal/server/pricing.go:86-112 | the quote does not depend on map order or ties |
| Pricer.SeedAgrees | internal/server/store.go:522-552 | on a table holding only the seed the SQL lookup gives the same rates for every model and day from the epoch on |
| Pricer.SeedAgreesIff | internal/server/store.go:703-715 | it does so for all models and days if and only if no rate is registered for the empty prefix |
| PriceSync.OneDateForm | internal/server/pricesync.go:259-260 | the two date forms exclude each other |
| PriceSync.PathDropped | internal/server/pricesync.go:252-257 | whatever path leads to a name is dropped |
| PriceSync.DateDropped | internal/server/pricesync.go:252-260 | so is a date of either form after a dash |
| PriceSync.OnlyDates | internal/server/pricesync.go:252-260 | and nothing else |
| PriceSync.NormalizedHasNoSlash | internal/server/pricesync.go:248-257 | no slash survives normalization |
| PriceSync.Choose | internal/server/pricesync.go:106-131 | one name per family of eligible names: highest rank, smallest key among equals |
| PriceSync.SelectPriceRows | internal/server/pricesync.go:100-147 | exactly one row per eligible family, strictly sorted, each its winner's |
| PriceSync.SelectedRow | internal/server/pricesync.go:100-171 | each row has the rates of one entry times a million, absent ones 0, and its name as the source; no entry of the family has more of the cache prices, writes before one-hour writes before reads, nor the same and a barer or smaller name |
| PriceSync.FamilySelected | internal/server/pricesync.go:108-131 | every named family with an entry that can price tokens has a row |
| PriceSync.SelectionOrderFree | internal/server/pricesync.go:93-99 | the rows are a function of the table, for every enumeration order of the map |
| PriceSync.ResyncWritesNothing | internal/server/pricesync.go:66-84 | syncing an unchanged table again writes nothing |
| Regroup.Fibration | internal/server/store.go:717-726 | valuing groups and adding them gives what valuing every row and adding gives, for any additive valuation |
| Regroup.GroupTwice | internal/server/store.go:631-645 | grouping what is already grouped is grouping the rows |
| Billing.PricedAdds | internal/server/store.go:647-660 | the sum-of-products cost, premium included, is additive in the tokens |
| Billing.ClockIsPerMessage | internal/server/store.go:717-763 | for every time zone each weekday-hour slot bills exactly its messages, each on its own local date |
| Billing.AggregatedIsDetail | internal/server/store.go:631-645 | collapsing machines in an exact rollup counts what the detail holds |
| Billing.AggregateIsPerMessage | internal/server/store.go:630-660 | every row of the summary bills exactly its messages, each on its own day |
| Billing.ActivityIsDetail | internal/server/store.go:300-311 | the heatmap's days count the detail's tokens and messages |
| Billing.OneMessageSummary | internal/server/store.go:630-660 | a store of one message has one summary row, on its UTC day and for its user, tool and model, that bills its input, output, cache write and cache read tokens once each and each column at its rate |
| Billing.OneMessageClock | internal/server/store.go:717-763 | and one clock slot, the weekday and hour of its local time, that bills it on its local date |
| Billing.WhereCommutes | internal/server/store.go:641-644 | over midnight-aligned ranges and any user, filtering the rollup is rolling up the filtered detail |
| Billing.WhereSplits | internal/server/store.go:730-735 | the filter keeps the rows of the user, all for an empty one; ranges that meet split the range they make up, the seam in the later; no bounds keep everything |
| Billing.QueriesAgree | internal/server/store.go:296-311 | the summary, the clock view in UTC and the messages priced one by one have the same totals, and the heatmap the same tokens and messages |

## Left out

- The opencode parser (`internal/watcher/parsers/opencode.go`): its shared millisecond watermark gives no clean guarantee.
- `Backfill`, `received_at`, `fetched_at`, and the fallback of unreadable timestamps to the scan time: they depend on the clock and are no part of record equality.
- 64-bit overflow: token counts and sums are unbounded integers.
- Floating point: rates and costs are reals, so `curIn == p.InputPer1M` is exact equality.
- JSON, zstd, HTTP, SQL planning and PostgreSQL itself: parameters and the stated isolation rules.
- A file truncated and regrown past the old offset under the same inode, and lines lost to rotation before a scan: the code cannot see them, and the first is excluded by assumption.
- The per-line field mapping of the Claude Code and pi parsers: the theorems hold for every per-line extractor.
- `codexOutputText`, `codexOutputSucceeded` and `lastExitCode`: whether an output reports success is a parameter of the event.
- API keys, the login of a request and all read handlers beyond the meaning of their queries.
- `LangAggregate`, CLI commands, installers, retry backoff and the dashboard: input, output or easy members.
- Watcher.ScanAll: visits the files one after the other; the goroutine per source, which share nothing but the merged result, are not modelled.
- Watcher.Uploader.Flush: visits the spool in any order, the program in name order; counters that only feed a log line are dropped.
- Watcher.Restart: a checkpoint file that cannot be parsed is not modelled.
- EndToEnd.EveryMessageOnce: requires that no file was replaced before it was read to its end, since lines lost that way are never sent, and that records of an equal new key agree in the columns the rollups read; which record wins otherwise depends on the schedule.
- Overtaking.OnceIffAgreeing: exact for one growing file whose lines do not contradict themselves; two contradicting records of one line can share a request, which no schedule parts, so the condition is then sufficient only.
- FleetOrder.SpoollessFleet: a re-parsed file that repeats a key with other rows needs them to read alike, as between files; only tailed ones are free.
- Watcher.RunOnce: a method, so it sees no request of another watcher during the tick; the protocol it is a run of allows them between any two steps.
- Codex.CodexScan.Emit: whether a tool output reports success is a flag of the decoded event.
- Prices.PriceStore.UpsertPrice: runs alone; two concurrent upserts of one prefix are not modelled.
- CodexPatch.HeredocRoundTrip: the literal is escaped as a printer would; an envelope pasted raw, with line breaks of its own, into a template literal is not covered.
- CodexPatch.ParseApplyPatch: paths are trimmed of ASCII white space only.
- Concurrent.StepRefines: edit tables have no rebuild and are not interleaved.
- Billing.ClockIsPerMessage: a time zone is any function from instants to local times.
