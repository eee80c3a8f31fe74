# Wodify sheets sync: queue reconciliation

A Dafny model of the reconciliation pass of `wodify_sync.py`. The script
keeps a Google spreadsheet of coach rosters in line with a "Sync Queue" tab.
Each coach has a sheet of client rows (`Assigned Coach`, `Client Name`,
`Coach's Pay Rate`). Each queue row asks for a client (`Full Name`) to be
placed with a coach (`New Tag`), and its `Synced` cell gets a check mark once
the row is handled.

The spreadsheet is pure data here:

- the workbook is a map from sheet title to its data rows (`Roster.Sheets`);
- the queue is a sequence of `Reconcile.QueueRow`;
- the run's counters are `Reconcile.Counters(added, removed, synced)`.

The pass is modelled in five modules:

- `Text` holds Python's `strip()`, `lower()` and `startswith` on cells. A
  client's identity is `Normalize(name) = Lower(Strip(name))`.
- `Settings` holds the shipped coach list, the pay table, the fallback pay
  `$100.00`, the tag prefix `Coach: ` and the check mark.
- `Roster` holds the row filter that removes a client from a sheet
  (`FilterOut`) and the roster index (`BuildIndex`). The index maps each
  normalized client name to the last scanned coach sheet holding it.
  `LastHolder` is an independent reference definition of that index.
- `Reconcile` handles one queue row. `Classify` sorts it into already
  synced, malformed or actionable. For an actionable row, the index is
  rebuilt from the current sheets (`OldCoach`). If the index places the
  client on the requested coach's sheet, the dedupe branch runs
  (`DedupeBranch`). Otherwise the move branch runs (`MoveBranch`).
- `Walker` folds `ProcessRow` over the queue (`Walk`, `Run`). Later rows see
  the sheets as earlier rows left them.

Two parameters stand for what the store does. `Attempt.addOk` says whether
the append to the new coach's sheet goes through. `Attempt.removeOk` says
whether the rewrite of the old coach's sheet goes through; when it does not,
that sheet is left as it was. A walk receives one `Attempt` per queue row.
An append also fails when no sheet has the tag's title, because the script
looks that sheet up inside the same handler.

Points of the script's behaviour worth knowing:

- The index is rebuilt for every queue row, not once per run.
- The tag prefix `Coach: ` is matched case-sensitively after `strip()`.
- Pay is not coerced to a number; it is the table entry or `$100.00`.
- Nothing is retried.
- The check mark always goes to column E, whatever the header says.
- In the dedupe branch, `removed` counts sheets rewritten, not rows deleted.
- A move deletes every row of the client from the old sheet, not one row.
- The "stale index" case cannot occur. The index is built from the sheets
  just before the move, so the old sheet always holds the client
  (`Reconcile.MoveRelocates`).
- A client may stay on more than one coach sheet
  (`Reconcile.MoveKeepsOtherCopies`).
- The dedupe test compares the index's pick, the last configured sheet
  holding the client, with the requested coach. A client on the requested
  sheet and on a later scanned sheet takes the move branch, so the requested
  sheet gets a second row for it (`Reconcile.DuplicateIsAppendedAgain`).

## Model

| member | source | states |
|---|---|---|
| `Text.Strip` | wodify_sync.py:45-50 | Python's `strip()`; its meaning is stated by `Text.StripSpec` and `Text.StripUnique` |
| `Text.Lower` | wodify_sync.py:67 | Python's `lower()` on ASCII letters; stated by `Text.LowerSpec` |
| `Text.Normalize` | wodify_sync.py:65-67 | a client's identity key, `lower()` of the stripped name; stated by `Text.NormalizeSpec` |
| `Text.StripSpec` | wodify_sync.py:49-50 | `strip()` returns a slice of the cell that neither starts nor ends with whitespace; only whitespace is cut around it |
| `Text.StripUnique` | wodify_sync.py:49-50 | any trimmed slice with only whitespace around it is the result of `strip()`, so the slice above is unique |
| `Text.StripIdempotent` | wodify_sync.py:65 | stripping a stripped name changes nothing |
| `Text.LowerSpec` | wodify_sync.py:67 | `lower()` keeps the length and lower-cases each character on its own |
| `Text.LowerKeepsSpaces` | wodify_sync.py:67 | after `lower()` no ASCII capital remains, and whitespace stays exactly where it was |
| `Text.LowerIdempotent` | wodify_sync.py:80 | lower-casing twice is lower-casing once |
| `Text.NormalizeSpec` | wodify_sync.py:65-67 | a client key has no surrounding whitespace and is as long as the stripped name, so it is blank exactly when the name is blank |
| `Text.NormalizeIdempotent` | wodify_sync.py:80 | a key normalizes to itself |
| `Text.NormalizeStrip` | wodify_sync.py:69 | the lookup key `full_name.lower()` of the stripped queue name equals the normalized raw cell |
| `Text.JohnDoe` | wodify_sync.py:80 | `" John Doe "` and `"john doe"` are the same client |
| `Settings.ShippedSheetsArePaidTags` | wodify_sync.py:8-25 | every shipped coach sheet carries the `Coach: ` prefix and has a pay entry; Olivia Hill is paid `$250.00`; an unlisted coach gets `$100.00` |
| `Settings.PayFor` | wodify_sync.py:95 | the pay for a new row: the table entry for the coach, or `$100.00` when the table has none |
| `Roster.FilterOut` | wodify_sync.py:80 | no surviving row belongs to the client, and the result is never longer than the sheet |
| `Roster.FilterOutContents` | wodify_sync.py:80 | every row of the client is deleted; every other row keeps its exact multiplicity |
| `Roster.FilterOutAppend` | wodify_sync.py:80 | filtering distributes over concatenation, so surviving rows keep their relative order |
| `Roster.FilterOutSingle` | wodify_sync.py:80 | a single row is dropped exactly when it belongs to the client |
| `Roster.FilterOutAbsent` | wodify_sync.py:115 | a sheet without the client comes back unchanged |
| `Roster.FilterOutIdempotent` | wodify_sync.py:80 | removing a client twice is removing it once |
| `Roster.FilterOutShrinks` | wodify_sync.py:80-81 | a sheet holding the client comes back strictly shorter, so the length test fires |
| `Roster.FilterOutChanged` | wodify_sync.py:81 | the length test `len(filtered) != len(rows)` holds exactly when the sheet changed, which is exactly when it held the client |
| `Roster.FilterOutKeepsOthers` | wodify_sync.py:115 | removing one client leaves every other client on the sheet |
| `Roster.IndexSheet` | wodify_sync.py:64-67 | records one sheet's non-blank clients in the index; stated by `Roster.IndexSheetSpec` |
| `Roster.BuildIndex` | wodify_sync.py:60-67 | the roster index over the configured sheets in order; stated by `Roster.IndexIsLastHolder` |
| `Roster.IndexSheetSpec` | wodify_sync.py:64-67 | after one sheet's rows a key is indexed iff it was before or is a non-blank client of the sheet, and the sheet overrides the earlier entry |
| `Roster.LastHolderSpec` | wodify_sync.py:61-67 | the reference holder is a scanned sheet holding the client with no later scanned sheet holding it, and exists iff some sheet holds the client |
| `Roster.IndexIsLastHolder` | wodify_sync.py:60-67 | the built index has a key iff it is non-blank and some scanned sheet holds it, and maps it to the last scanned sheet holding it |
| `Roster.IndexedSheetHolds` | wodify_sync.py:60-69 | a client the index places on a sheet is on that sheet, the sheet is configured, and no later configured sheet holds the client |
| `Reconcile.Classify` | wodify_sync.py:45-55 | sorts a queue row into synced, malformed or actionable; stated by `Reconcile.ClassifySpec` |
| `Reconcile.Mark` | wodify_sync.py:126 | writes the check mark into the `Synced` cell; stated by `Reconcile.MarkSyncs` |
| `Reconcile.ClassifySpec` | wodify_sync.py:45-55 | a row is skipped as synced iff its stripped `Synced` cell is the check mark, and acted on iff it is not synced, its stripped name is non-blank and its stripped tag starts with `Coach: ` |
| `Reconcile.MarkSyncs` | wodify_sync.py:126 | a marked row reads as synced, marking changes only the `Synced` cell, and it changes an unsynced row |
| `Reconcile.DedupeSheets` | wodify_sync.py:76-86 | the dedupe loop: every rewritten sheet is still a sheet of the workbook; its effect is stated by the two lemmas below |
| `Reconcile.DedupeSheetsContents` | wodify_sync.py:76-86 | the dedupe loop filters the client out of every configured sheet other than the new coach's, and leaves every other sheet untouched |
| `Reconcile.DedupeSheetsCount` | wodify_sync.py:76-86 | the dedupe loop counts the distinct sheets that held the client, even if a title is listed twice |
| `Reconcile.DedupeBranch` | wodify_sync.py:72-91 | the dedupe branch; stated by `Reconcile.DedupeBranchSpec` |
| `Reconcile.DedupeBranchSpec` | wodify_sync.py:72-91 | no configured sheet other than the new coach's holds the client; every other sheet, the new coach's included, is left as it was; `removed` grows by the number of sheets that held it; `synced` grows by one; the row is marked |
| `Reconcile.MoveBranch` | wodify_sync.py:93-128 | the move branch; stated by `Reconcile.MoveBranchSpec` |
| `Reconcile.MoveBranchSpec` | wodify_sync.py:93-128 | a failed append changes nothing. A landed append adds one row at the end of the new sheet and one to `added`, filters the old sheet only when its rewrite goes through, adds one to `removed` only if that sheet held the client, marks the row and adds one to `synced` |
| `Reconcile.OldCoach` | wodify_sync.py:59-69 | the index yields no coach for a blank key or a client no configured sheet holds, and otherwise the last configured sheet holding the client (`LastHolder`); that sheet exists and holds the client |
| `Reconcile.ProcessRow` | wodify_sync.py:44-128 | a synced or malformed row changes nothing. An untouched row means nothing changed. A changed row is an actionable row newly marked, with `synced` up by one. Counters never shrink, and `added` never outgrows `synced`. A landed append always marks the row |
| `Reconcile.AlreadyPlacedDedupes` | wodify_sync.py:72-91 | a client the index already places with the requested coach keeps that sheet as it was, is left on no other configured sheet, adds nothing and is marked synced |
| `Reconcile.FailedAddChangesNothing` | wodify_sync.py:106-108 | when the append fails, the sheets, the queue row and the counters are unchanged and the row stays unsynced |
| `Reconcile.MoveRelocates` | wodify_sync.py:93-128 | a landed append puts `[new_coach, full_name, pay]` at the end of the new sheet, with the table pay or `$100.00`. When the old sheet's rewrite goes through, the client leaves that sheet and `removed` grows by exactly one. All other sheets are untouched and the row is marked synced |
| `Reconcile.DuplicateIsAppendedAgain` | wodify_sync.py:60-121 | a client on "Coach: A" and on the later "Coach: B", queued for "Coach: A", is appended to "Coach: A" a second time, removed from "Coach: B", and every counter grows by one |
| `Reconcile.MoveKeepsOtherCopies` | wodify_sync.py:111-121 | a copy of the client on a sheet other than the index's pick survives the move, next to the new row |
| `Walker.Walk` | wodify_sync.py:41-128 | the loop over the queue: the workbook keeps its sheet titles and the queue its length; its effect is stated by the lemmas below |
| `Walker.WalkMarksOnly` | wodify_sync.py:44-128 | a walk changes a queue row only by marking an actionable row; a synced row is never touched, so the mark is never cleared |
| `Walker.WalkCounters` | wodify_sync.py:37-128 | `synced` grows by the number of rows that gained the mark; `added` and `removed` never shrink; `added` grows no more than `synced` |
| `Walker.Run` | wodify_sync.py:36-41 | a run from zero counters keeps the workbook's sheets and the queue's length, its `synced` count is the number of newly marked rows, and `added` is at most `synced` |
| `Walker.WalkMarksLanded` | wodify_sync.py:41-128 | after a walk, every actionable row whose append landed carries the check mark |
| `Walker.WalkLeavesOnlyFailedAdds` | wodify_sync.py:41-128 | after a walk, each row is synced or malformed unless it is actionable and its append did not land |
| `Walker.SettledWalkIsNoOp` | wodify_sync.py:44-55 | a walk over synced or malformed rows changes no sheet, no cell and no counter |
| `Walker.RerunIsNoOp` | wodify_sync.py:41-128 | if every append of a run lands, a second run over the queue it leaves changes nothing |

## Left out

- Store access is left out: authorization, worksheet lookup, `get_all_records`,
  `get_all_values`, `clear`, `update_values` and A1 cell addressing. The model
  reads and writes the in-memory map and sequences instead.
- The first empty row for the append is found with `get_all_values`. It is
  modelled as appending after the last data row.
- Marking writes column E. The model sets the `Synced` field, so it assumes
  `Synced` is column E.
- `print` logging and the summary text are left out. Only the three counters
  are kept.
- The `Timestamp` cell is left out; it is read but never used.
- Exceptions are reduced to two booleans per row, `Attempt.addOk` and
  `Attempt.removeOk`. A rewrite that fails after `clear()` succeeds would
  leave the sheet empty; that is not modelled.
- The dedupe branch's rewrites and the marking write sit outside any handler.
  If they fail, the script aborts. The model assumes they succeed.
- `get_all_records` turns numeric-looking cells into numbers and drops blank
  rows. On a numeric cell, `strip()` would raise. The model treats every cell
  as a string.
- Text.Lower: lower-cases ASCII letters only. Python's `str.lower()` also
  folds other letters, and a few of them change length. The model does not
  follow Unicode case tables.
- Every configured coach sheet must exist before a walk starts
  (`Reconcile.Ready`). The script looks each one up only when it reaches an
  actionable row, outside any handler, and aborts there with the earlier
  rows' writes already made. That partial run before the abort is not
  modelled.
- At most one coach sheet per client is not guaranteed by the script.
  `Reconcile.MoveKeepsOtherCopies` shows a copy that survives, so no such
  invariant is claimed.
