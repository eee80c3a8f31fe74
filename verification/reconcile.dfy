/**
 The reconciliation of one Sync Queue row against the coach sheets: the row is
 skipped (already synced or malformed), or the roster index places the client
 on the requested coach's sheet and it is removed from every other coach
 sheet, or the client is appended to the requested coach's sheet and removed
 from the sheet the roster index had placed it on.
 */
module Reconcile {

  import opened Text
  import opened Optional
  import opened Settings
  import opened Roster

  /** One row of the Sync Queue sheet: its `Full Name`, `New Tag` and `Synced`
      cells (a missing cell reads as the empty string). */
  datatype QueueRow = QueueRow(fullName: string, newTag: string, synced: string)

  /** The run's three counters, printed in the end-of-run summary. */
  datatype Counters = Counters(added: nat, removed: nat, synced: nat)

  /** Whether the store accepts the writes made for one queue row: appending to
      the new coach's sheet, and rewriting the old coach's sheet. */
  datatype Attempt = Attempt(addOk: bool, removeOk: bool)

  /** The workbook, the queue row and the counters after one row is handled. */
  datatype Step = Step(sheets: Sheets, row: QueueRow, counters: Counters)

  /** How the script classifies a queue row before touching any sheet. */
  datatype Verdict = AlreadySynced | Malformed | Actionable(fullName: string, newCoach: string)

  /** The workbook holds every configured coach sheet; the script aborts when a
      configured sheet is missing, since it looks them up outside any handler. */
  predicate Ready(cfg: Config, sheets: Sheets) {
    HasSheets(sheets, cfg.coachSheets)
  }

  /** The row's `Synced` cell, stripped, is the check mark. */
  predicate IsSynced(q: QueueRow) {
    Strip(q.synced) == SyncedMark
  }

  function Classify(q: QueueRow): Verdict {
    if IsSynced(q) then AlreadySynced
    else
      var name := Strip(q.fullName);
      var tag := Strip(q.newTag);
      if name == [] || !StartsWith(tag, CoachPrefix) then Malformed
      else Actionable(name, tag)
  }

  /** A row is acted on exactly when it is not yet synced, its name is not
      blank and its tag starts with the coach prefix; the name and coach it
      is acted on are the stripped cells, and the name key is non-blank. */
  lemma {:induction false} ClassifySpec(q: QueueRow)
    ensures Classify(q) == AlreadySynced <==> IsSynced(q)
    ensures Classify(q).Actionable? <==>
      !IsSynced(q) && Strip(q.fullName) != [] && StartsWith(Strip(q.newTag), CoachPrefix)
    ensures Classify(q).Actionable? ==>
      && Classify(q).fullName == Strip(q.fullName)
      && Classify(q).newCoach == Strip(q.newTag)
      && Lower(Classify(q).fullName) != []
      && Lower(Classify(q).fullName) == Normalize(q.fullName)
  {
    LowerSpec(Strip(q.fullName));
  }

  /** Writes the check mark into the row's `Synced` cell. */
  function Mark(q: QueueRow): QueueRow {
    q.(synced := SyncedMark)
  }

  /** A marked row reads as synced, and marking changes only the `Synced` cell. */
  lemma {:induction false} MarkSyncs(q: QueueRow)
    ensures IsSynced(Mark(q))
    ensures Mark(q).fullName == q.fullName && Mark(q).newTag == q.newTag
    ensures !IsSynced(q) ==> Mark(q) != q
  {
    assert Trimmed(SyncedMark);
    StripTrimmed(SyncedMark);
  }

  // ---------------------------------------------------------------------------
  // The "already placed" branch
  // ---------------------------------------------------------------------------

  /** The configured sheets other than `keep` that hold the client `key`. */
  function Strays(sheets: Sheets, names: seq<string>, keep: string, key: string): set<string> {
    set s | s in names && s in sheets && s != keep && Holds(sheets[s], key)
  }

  /** Removes the client `key` from each named sheet other than `keep`, in
      order, rewriting a sheet only when filtering shortened it, and counts
      the rewritten sheets. */
  function DedupeSheets(sheets: Sheets, names: seq<string>, keep: string, key: string): (r: (Sheets, nat))
    requires HasSheets(sheets, names)
    ensures r.0.Keys == sheets.Keys
    decreases |names|
  {
    if names == [] then (sheets, 0)
    else
      var c := names[0];
      var rows := sheets[c];
      var filtered := FilterOut(rows, key);
      assert HasSheets(sheets, names[1..]) by {
        forall i | 0 <= i < |names[1..]|
          ensures names[1..][i] in sheets
        {
          assert names[1..][i] == names[i + 1];
        }
      }
      if c != keep && |filtered| != |rows| then
        var r := DedupeSheets(sheets[c := filtered], names[1..], keep, key);
        (r.0, r.1 + 1)
      else
        DedupeSheets(sheets, names[1..], keep, key)
  }

  /** Dropping the first name of a non-empty list of sheet names keeps all of
      them available in the workbook. */
  lemma {:induction false} HasSheetsTail(sheets: Sheets, names: seq<string>)
    requires HasSheets(sheets, names) && names != []
    ensures HasSheets(sheets, names[1..])
    ensures forall s :: s in names <==> s == names[0] || s in names[1..]
  {
    assert names == [names[0]] + names[1..];
    forall i | 0 <= i < |names[1..]|
      ensures names[1..][i] in sheets
    {
      assert names[1..][i] == names[i + 1];
    }
  }

  /** After the dedupe pass every named sheet other than `keep` is filtered and
      every other sheet is untouched. */
  lemma {:induction false} DedupeSheetsContents(sheets: Sheets, names: seq<string>, keep: string, key: string)
    requires HasSheets(sheets, names)
    ensures forall s :: s in sheets ==>
      DedupeSheets(sheets, names, keep, key).0[s] ==
        if s in names && s != keep then FilterOut(sheets[s], key) else sheets[s]
    decreases |names|
  {
    if names != [] {
      var c := names[0];
      var rows := sheets[c];
      HasSheetsTail(sheets, names);
      FilterOutChanged(rows, key);
      if c != keep && Holds(rows, key) {
        DedupeSheetsContents(sheets[c := FilterOut(rows, key)], names[1..], keep, key);
        FilterOutIdempotent(rows, key);
      } else {
        DedupeSheetsContents(sheets, names[1..], keep, key);
        if c != keep {
          FilterOutAbsent(rows, key);
        }
      }
    }
  }

  /** The dedupe pass counts the distinct sheets that held the client, however
      often a name is listed. */
  lemma {:induction false} DedupeSheetsCount(sheets: Sheets, names: seq<string>, keep: string, key: string)
    requires HasSheets(sheets, names)
    ensures DedupeSheets(sheets, names, keep, key).1 == |Strays(sheets, names, keep, key)|
    decreases |names|
  {
    if names != [] {
      var c := names[0];
      var rows := sheets[c];
      var tail := names[1..];
      HasSheetsTail(sheets, names);
      FilterOutChanged(rows, key);
      if c != keep && Holds(rows, key) {
        var sheets1 := sheets[c := FilterOut(rows, key)];
        DedupeSheetsCount(sheets1, tail, keep, key);
        assert !Holds(FilterOut(rows, key), key);
        assert Strays(sheets1, tail, keep, key) == Strays(sheets, names, keep, key) - {c};
      } else {
        DedupeSheetsCount(sheets, tail, keep, key);
        assert Strays(sheets, tail, keep, key) == Strays(sheets, names, keep, key);
      }
    }
  }

  /** The roster index places the client on the requested coach's sheet
      (the last configured sheet holding it is that one): remove it from
      every other configured coach sheet, count the sheets rewritten, and mark
      the queue row synced. */
  function DedupeBranch(cfg: Config, sheets: Sheets, row: QueueRow, fullName: string, newCoach: string, c: Counters): Step
    requires Ready(cfg, sheets)
  {
    var pass := DedupeSheets(sheets, cfg.coachSheets, newCoach, Lower(fullName));
    Step(pass.0, Mark(row), Counters(c.added, c.removed + pass.1, c.synced + 1))
  }

  /** The dedupe branch leaves the client on no configured sheet other than
      the new coach's, leaves every other sheet (the new coach's included) as
      it was, adds one removal per sheet that held the client, one to
      `synced`, and marks the row. */
  lemma {:induction false} DedupeBranchSpec(cfg: Config, sheets: Sheets, row: QueueRow, fullName: string, newCoach: string, c: Counters)
    requires Ready(cfg, sheets)
    ensures var r := DedupeBranch(cfg, sheets, row, fullName, newCoach, c);
      && r.sheets.Keys == sheets.Keys
      && (forall s :: s in sheets ==>
            r.sheets[s] == if s in cfg.coachSheets && s != newCoach then FilterOut(sheets[s], Lower(fullName)) else sheets[s])
      && (forall i :: 0 <= i < |cfg.coachSheets| && cfg.coachSheets[i] != newCoach ==>
            !Holds(r.sheets[cfg.coachSheets[i]], Lower(fullName)))
      && r.counters == Counters(c.added, c.removed + |Strays(sheets, cfg.coachSheets, newCoach, Lower(fullName))|, c.synced + 1)
      && r.row == Mark(row)
  {
    DedupeSheetsContents(sheets, cfg.coachSheets, newCoach, Lower(fullName));
    DedupeSheetsCount(sheets, cfg.coachSheets, newCoach, Lower(fullName));
  }

  // ---------------------------------------------------------------------------
  // The "move" branch
  // ---------------------------------------------------------------------------

  /** The appended row lands only if the store accepts it and the sheet titled
      by the tag exists: the lookup of that sheet raises inside the same
      handler as the write. */
  predicate AddLands(titles: set<string>, newCoach: string, att: Attempt) {
    att.addOk && newCoach in titles
  }

  /** The old coach's sheet is cleaned only if there is an old coach (a
      non-empty title) and the store accepts the rewrite. */
  predicate CleansOld(oldCoach: Option<string>, att: Attempt) {
    oldCoach.Some? && oldCoach.value != "" && att.removeOk
  }

  /** The row the script appends for a client moved to `newCoach`. */
  function NewRow(cfg: Config, fullName: string, newCoach: string): ClientRow {
    ClientRow(newCoach, fullName, PayFor(cfg, newCoach))
  }

  /** The roster index places the client elsewhere or nowhere (it may still be
      on the requested coach's sheet, if a later sheet also holds it): append
      it there, then remove it from the sheet the index placed it on, then
      mark the queue row synced. A failed append abandons the row untouched. */
  function MoveBranch(cfg: Config, sheets: Sheets, row: QueueRow, fullName: string, newCoach: string,
                      oldCoach: Option<string>, att: Attempt, c: Counters): Step
    requires oldCoach.Some? ==> oldCoach.value in sheets
    requires oldCoach != Some(newCoach)
  {
    if !AddLands(sheets.Keys, newCoach, att) then Step(sheets, row, c)
    else
      var grown := sheets[newCoach := sheets[newCoach] + [NewRow(cfg, fullName, newCoach)]];
      var c1 := c.(added := c.added + 1);
      if CleansOld(oldCoach, att) then
        var rows := grown[oldCoach.value];
        var filtered := FilterOut(rows, Lower(fullName));
        if |filtered| != |rows| then
          Step(grown[oldCoach.value := filtered], Mark(row), c1.(removed := c1.removed + 1, synced := c1.synced + 1))
        else
          Step(grown, Mark(row), c1.(synced := c1.synced + 1))
      else
        Step(grown, Mark(row), c1.(synced := c1.synced + 1))
  }

  /** A failed append changes nothing. A landed append puts one new row at the
      end of the new coach's sheet and adds one to `added`; the old coach's
      sheet is filtered only when its rewrite goes through, and `removed`
      grows only if that sheet held the client; every other sheet is left as
      it was; the row is marked and `synced` grows by one. */
  lemma {:induction false} MoveBranchSpec(cfg: Config, sheets: Sheets, row: QueueRow, fullName: string, newCoach: string,
                       oldCoach: Option<string>, att: Attempt, c: Counters)
    requires oldCoach.Some? ==> oldCoach.value in sheets
    requires oldCoach != Some(newCoach)
    ensures var r := MoveBranch(cfg, sheets, row, fullName, newCoach, oldCoach, att, c);
      !AddLands(sheets.Keys, newCoach, att) ==> r == Step(sheets, row, c)
    ensures var r := MoveBranch(cfg, sheets, row, fullName, newCoach, oldCoach, att, c);
      AddLands(sheets.Keys, newCoach, att) ==>
      && r.sheets.Keys == sheets.Keys
      && r.sheets[newCoach] == sheets[newCoach] + [NewRow(cfg, fullName, newCoach)]
      && r.row == Mark(row)
      && r.counters.added == c.added + 1
      && r.counters.synced == c.synced + 1
      && (forall s :: s in sheets && s != newCoach && !(CleansOld(oldCoach, att) && s == oldCoach.value) ==>
            r.sheets[s] == sheets[s])
      && (CleansOld(oldCoach, att) ==>
            && r.sheets[oldCoach.value] == FilterOut(sheets[oldCoach.value], Lower(fullName))
            && r.counters.removed == c.removed + if Holds(sheets[oldCoach.value], Lower(fullName)) then 1 else 0)
      && (!CleansOld(oldCoach, att) ==> r.counters.removed == c.removed)
  {
    if oldCoach.Some? {
      FilterOutChanged(sheets[oldCoach.value], Lower(fullName));
    }
  }

  // ---------------------------------------------------------------------------
  // One queue row
  // ---------------------------------------------------------------------------

  /** The coach sheet the freshly rebuilt roster index places client `key` on:
      none for a blank key or a client no configured sheet holds, otherwise the
      last configured sheet holding the client. */
  function OldCoach(cfg: Config, sheets: Sheets, key: string): (prior: Option<string>)
    requires Ready(cfg, sheets)
    ensures prior == if key == [] then None else LastHolder(sheets, cfg.coachSheets, key)
    ensures prior.Some? ==> prior.value in cfg.coachSheets && prior.value in sheets && Holds(sheets[prior.value], key)
  {
    var idx := BuildIndex(sheets, cfg.coachSheets);
    IndexIsLastHolder(sheets, cfg.coachSheets, key);
    if key in idx then
      IndexedSheetHolds(sheets, cfg.coachSheets, key);
      Some(idx[key])
    else None
  }

  /** Handles one queue row: skip it, dedupe, or move the client. */
  function ProcessRow(cfg: Config, sheets: Sheets, row: QueueRow, att: Attempt, c: Counters): (r: Step)
    requires Ready(cfg, sheets)
    ensures r.sheets.Keys == sheets.Keys
    ensures !Classify(row).Actionable? ==> r == Step(sheets, row, c)
    ensures r.row == row ==> r == Step(sheets, row, c)
    ensures r.row != row ==> r.row == Mark(row) && Classify(row).Actionable? && r.counters.synced == c.synced + 1
    ensures r.counters.added >= c.added && r.counters.removed >= c.removed && r.counters.synced >= c.synced
    ensures r.counters.added - c.added <= r.counters.synced - c.synced
    ensures Classify(row).Actionable? && AddLands(sheets.Keys, Classify(row).newCoach, att) ==> r.row == Mark(row)
  {
    match Classify(row)
    case Actionable(fullName, newCoach) =>
      MarkSyncs(row);
      var prior := OldCoach(cfg, sheets, Lower(fullName));
      if prior == Some(newCoach) then
        DedupeBranchSpec(cfg, sheets, row, fullName, newCoach, c);
        DedupeBranch(cfg, sheets, row, fullName, newCoach, c)
      else
        MoveBranchSpec(cfg, sheets, row, fullName, newCoach, prior, att, c);
        MoveBranch(cfg, sheets, row, fullName, newCoach, prior, att, c)
    case _ => Step(sheets, row, c)
  }

  /** A row already placed on its coach's sheet leaves that sheet as it was,
      leaves the client on no other configured coach sheet, counts one removal
      per sheet it had to rewrite, adds nothing and is marked synced. */
  lemma {:induction false} AlreadyPlacedDedupes(cfg: Config, sheets: Sheets, row: QueueRow, att: Attempt, c: Counters)
    requires Ready(cfg, sheets)
    requires Classify(row).Actionable?
    requires OldCoach(cfg, sheets, Lower(Classify(row).fullName)) == Some(Classify(row).newCoach)
    ensures var key, coach := Normalize(row.fullName), Classify(row).newCoach;
      var r := ProcessRow(cfg, sheets, row, att, c);
      && r.sheets[coach] == sheets[coach]
      && Holds(r.sheets[coach], key)
      && (forall i :: 0 <= i < |cfg.coachSheets| && cfg.coachSheets[i] != coach ==>
            !Holds(r.sheets[cfg.coachSheets[i]], key))
      && r.counters == Counters(c.added, c.removed + |Strays(sheets, cfg.coachSheets, coach, key)|, c.synced + 1)
      && IsSynced(r.row)
  {
    ClassifySpec(row);
    MarkSyncs(row);
    var v := Classify(row);
    DedupeBranchSpec(cfg, sheets, row, v.fullName, v.newCoach, c);
  }

  /** A failed append abandons the row: no sheet, cell or counter changes, and
      the row is retried on the next run. */
  lemma {:induction false} FailedAddChangesNothing(cfg: Config, sheets: Sheets, row: QueueRow, att: Attempt, c: Counters)
    requires Ready(cfg, sheets)
    requires Classify(row).Actionable?
    requires OldCoach(cfg, sheets, Lower(Classify(row).fullName)) != Some(Classify(row).newCoach)
    requires !AddLands(sheets.Keys, Classify(row).newCoach, att)
    ensures ProcessRow(cfg, sheets, row, att, c) == Step(sheets, row, c)
    ensures !IsSynced(ProcessRow(cfg, sheets, row, att, c).row)
  {
    var v := Classify(row);
    MoveBranchSpec(cfg, sheets, row, v.fullName, v.newCoach, OldCoach(cfg, sheets, Lower(v.fullName)), att, c);
  }

  /** A successful move appends exactly one row for the client, with the
      configured or default pay, at the end of the new coach's sheet; removes
      every row of the client from the old coach's sheet when that rewrite goes
      through, counting one removal, since the freshly built index never
      points at a sheet without the client; and marks the row synced. */
  lemma {:induction false} MoveRelocates(cfg: Config, sheets: Sheets, row: QueueRow, att: Attempt, c: Counters)
    requires Ready(cfg, sheets)
    requires Classify(row).Actionable?
    requires OldCoach(cfg, sheets, Lower(Classify(row).fullName)) != Some(Classify(row).newCoach)
    requires AddLands(sheets.Keys, Classify(row).newCoach, att)
    ensures var key, coach := Normalize(row.fullName), Classify(row).newCoach;
      var prior := OldCoach(cfg, sheets, key);
      var r := ProcessRow(cfg, sheets, row, att, c);
      && r.sheets[coach] == sheets[coach] + [ClientRow(coach, Strip(row.fullName), PayFor(cfg, coach))]
      && Holds(r.sheets[coach], key)
      && r.counters.added == c.added + 1
      && r.counters.synced == c.synced + 1
      && IsSynced(r.row)
      && (CleansOld(prior, att) ==>
            && r.sheets[prior.value] == FilterOut(sheets[prior.value], key)
            && !Holds(r.sheets[prior.value], key)
            && r.counters.removed == c.removed + 1)
      && (!CleansOld(prior, att) ==> r.counters.removed == c.removed)
      && (forall s :: s in sheets && s != coach && !(CleansOld(prior, att) && s == prior.value) ==>
            r.sheets[s] == sheets[s])
  {
    ClassifySpec(row);
    MarkSyncs(row);
    var key, coach := Normalize(row.fullName), Classify(row).newCoach;
    var r := ProcessRow(cfg, sheets, row, att, c);
    var v := Classify(row);
    MoveBranchSpec(cfg, sheets, row, v.fullName, v.newCoach, OldCoach(cfg, sheets, Lower(v.fullName)), att, c);
    var appended := NewRow(cfg, Strip(row.fullName), coach);
    assert r.sheets[coach][|r.sheets[coach]| - 1] == appended;
    assert Matches(appended, key) by {
      NormalizeStrip(row.fullName);
    }
  }

  /** A move cleans only the sheet the index picked: a copy of the client on
      any other sheet survives next to the new row, so a run does not by
      itself keep each client on at most one coach sheet. */
  lemma {:induction false} MoveKeepsOtherCopies(cfg: Config, sheets: Sheets, row: QueueRow, att: Attempt, c: Counters, other: string)
    requires Ready(cfg, sheets)
    requires Classify(row).Actionable?
    requires OldCoach(cfg, sheets, Lower(Classify(row).fullName)) != Some(Classify(row).newCoach)
    requires AddLands(sheets.Keys, Classify(row).newCoach, att)
    requires other in sheets && other != Classify(row).newCoach
    requires OldCoach(cfg, sheets, Lower(Classify(row).fullName)) != Some(other)
    requires Holds(sheets[other], Normalize(row.fullName))
    ensures var r := ProcessRow(cfg, sheets, row, att, c);
      && Holds(r.sheets[other], Normalize(row.fullName))
      && Holds(r.sheets[Classify(row).newCoach], Normalize(row.fullName))
  {
    MoveRelocates(cfg, sheets, row, att, c);
    ClassifySpec(row);
  }


  /** The dedupe test compares the index's pick with the requested coach, not
      the requested sheet's contents: a client on "Coach: A" and on the later
      scanned "Coach: B", queued for "Coach: A", is moved. "Coach: A" gains a
      second row for the client, "Coach: B" is cleaned, and all three counters
      grow by one. */
  lemma {:induction false} DuplicateIsAppendedAgain()
    ensures var cfg := Config(["Coach: A", "Coach: B"], map[]);
      var x := ClientRow("Coach: A", "x", "$1");
      var y := ClientRow("Coach: B", "x", "$1");
      var sheets := map["Coach: A" := [x], "Coach: B" := [y]];
      var r := ProcessRow(cfg, sheets, QueueRow("x", "Coach: A", ""), Attempt(true, true), Counters(0, 0, 0));
      && r.sheets["Coach: A"] == [x, ClientRow("Coach: A", "x", DefaultPay)]
      && r.sheets["Coach: B"] == []
      && r.counters == Counters(1, 1, 1)
  {
    var cfg := Config(["Coach: A", "Coach: B"], map[]);
    var x := ClientRow("Coach: A", "x", "$1");
    var y := ClientRow("Coach: B", "x", "$1");
    var sheets := map["Coach: A" := [x], "Coach: B" := [y]];
    var row := QueueRow("x", "Coach: A", "");
    SampleClassify();
    SampleOldCoach();
    MoveRelocates(cfg, sheets, row, Attempt(true, true), Counters(0, 0, 0));
    assert FilterOut([y], "x") == [] by {
      FilterOutSingle(y, "x");
    }
  }

  /** In the example above the index places client "x" on "Coach: B", the
      later of the two sheets holding it. */
  lemma {:induction false} SampleOldCoach()
    ensures Normalize("x") == "x"
    ensures var x := ClientRow("Coach: A", "x", "$1");
      var y := ClientRow("Coach: B", "x", "$1");
      OldCoach(Config(["Coach: A", "Coach: B"], map[]), map["Coach: A" := [x], "Coach: B" := [y]], "x") == Some("Coach: B")
  {
    var y := ClientRow("Coach: B", "x", "$1");
    StripTrimmed("x");
    assert "x"[1..] == [];
    assert Lower("x") == [LowerChar('x')] + Lower("x"[1..]);
    assert Normalize("x") == "x";
    assert Matches([y][0], "x");
  }

  /** The queue row of the example above is actionable for client "x" and
      coach "Coach: A". */
  lemma {:induction false} SampleClassify()
    ensures Classify(QueueRow("x", "Coach: A", "")) == Actionable("x", "Coach: A")
  {
    StripTrimmed("x");
    StripTrimmed("Coach: A");
    assert Strip("") == "";
    assert StartsWith("Coach: A", CoachPrefix);
  }

}
