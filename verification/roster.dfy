/**
 The coach sheets as pure data, the row filter the sync applies to a sheet
 when it removes a client, and the roster index: the map from a client's
 normalized name to the coach sheet it was found in.
 */
module Roster {

  import opened Text
  import opened Optional

  /** One data row of a coach sheet: its `Assigned Coach`, `Client Name` and
      `Coach's Pay Rate` cells. */
  datatype ClientRow = ClientRow(assignedCoach: string, clientName: string, payRate: string)

  /** Every sheet of the workbook by title, each as its data rows below the
      header row. */
  type Sheets = map<string, seq<ClientRow>>

  /** Every sheet named in `names` exists in the workbook. */
  predicate HasSheets(sheets: Sheets, names: seq<string>) {
    forall i :: 0 <= i < |names| ==> names[i] in sheets
  }

  /** The row belongs to the client whose lower-cased, stripped name is `key`. */
  predicate Matches(r: ClientRow, key: string) {
    Normalize(r.clientName) == key
  }

  /** Some row of the sheet belongs to the client `key`. */
  predicate Holds(rows: seq<ClientRow>, key: string) {
    exists j :: 0 <= j < |rows| && Matches(rows[j], key)
  }

  // ---------------------------------------------------------------------------
  // Removing a client from a sheet
  // ---------------------------------------------------------------------------

  /** A client is held by a non-empty sheet exactly when it owns the first row
      or is held by the rest. */
  lemma {:induction false} HoldsCons(rows: seq<ClientRow>, key: string)
    requires rows != []
    ensures Holds(rows, key) <==> Matches(rows[0], key) || Holds(rows[1..], key)
  {
    if Holds(rows[1..], key) {
      var j :| 0 <= j < |rows[1..]| && Matches(rows[1..][j], key);
      assert rows[j + 1] == rows[1..][j];
    }
    if Holds(rows, key) && !Matches(rows[0], key) {
      var j :| 0 <= j < |rows| && Matches(rows[j], key);
      assert rows[1..][j - 1] == rows[j];
    }
  }

  /** The rows of a sheet whose client is not `key`: the list comprehension the
      script writes back after clearing the sheet. */
  function FilterOut(rows: seq<ClientRow>, key: string): (r: seq<ClientRow>)
    ensures |r| <= |rows|
    ensures forall j :: 0 <= j < |r| ==> !Matches(r[j], key)
    decreases |rows|
  {
    if rows == [] then []
    else
      var rest := FilterOut(rows[1..], key);
      var r := (if Matches(rows[0], key) then [] else [rows[0]]) + rest;
      assert forall j :: 0 <= j < |r| ==> !Matches(r[j], key) by {
        forall j | 0 <= j < |r|
          ensures !Matches(r[j], key)
        {
          if !Matches(rows[0], key) && j > 0 {
            assert r[j] == rest[j - 1];
          }
        }
      }
      r
  }

  /** Filtering deletes every copy of each row of the client and keeps every
      copy of every other row. */
  lemma {:induction false} FilterOutContents(rows: seq<ClientRow>, key: string)
    ensures forall x :: Matches(x, key) ==> multiset(FilterOut(rows, key))[x] == 0
    ensures forall x :: !Matches(x, key) ==> multiset(FilterOut(rows, key))[x] == multiset(rows)[x]
    decreases |rows|
  {
    if rows != [] {
      FilterOutContents(rows[1..], key);
      assert rows == [rows[0]] + rows[1..];
    }
  }

  /** Filtering distributes over concatenation, so it keeps the surviving rows
      in their original relative order. */
  lemma {:induction false} FilterOutAppend(a: seq<ClientRow>, b: seq<ClientRow>, key: string)
    ensures FilterOut(a + b, key) == FilterOut(a, key) + FilterOut(b, key)
    decreases |a|
  {
    if a == [] {
      assert a + b == b;
    } else {
      assert (a + b)[1..] == a[1..] + b;
      FilterOutAppend(a[1..], b, key);
    }
  }

  /** A single row is dropped exactly when it belongs to the client. */
  lemma {:induction false} FilterOutSingle(x: ClientRow, key: string)
    ensures FilterOut([x], key) == if Matches(x, key) then [] else [x]
  {
    assert [x][1..] == [];
  }

  /** A sheet without the client comes back unchanged. */
  lemma {:induction false} FilterOutAbsent(rows: seq<ClientRow>, key: string)
    requires !Holds(rows, key)
    ensures FilterOut(rows, key) == rows
    decreases |rows|
  {
    if rows != [] {
      HoldsCons(rows, key);
      FilterOutAbsent(rows[1..], key);
      assert rows == [rows[0]] + rows[1..];
    }
  }

  /** Removing a client twice is removing it once. */
  lemma {:induction false} FilterOutIdempotent(rows: seq<ClientRow>, key: string)
    ensures FilterOut(FilterOut(rows, key), key) == FilterOut(rows, key)
  {
    FilterOutAbsent(FilterOut(rows, key), key);
  }

  /** A sheet holding the client loses at least one row. */
  lemma {:induction false} FilterOutShrinks(rows: seq<ClientRow>, key: string)
    requires Holds(rows, key)
    ensures |FilterOut(rows, key)| < |rows|
    decreases |rows|
  {
    HoldsCons(rows, key);
    if !Matches(rows[0], key) {
      FilterOutShrinks(rows[1..], key);
    }
  }

  /** The script's test `len(filtered) != len(rows)` detects exactly the sheets
      that held the client, and a sheet that passes it comes back unchanged. */
  lemma {:induction false} FilterOutChanged(rows: seq<ClientRow>, key: string)
    ensures |FilterOut(rows, key)| != |rows| <==> FilterOut(rows, key) != rows
    ensures FilterOut(rows, key) != rows <==> Holds(rows, key)
  {
    if Holds(rows, key) {
      FilterOutShrinks(rows, key);
    } else {
      FilterOutAbsent(rows, key);
    }
  }

  /** Removing one client leaves every other client where it was. */
  lemma {:induction false} FilterOutKeepsOthers(rows: seq<ClientRow>, key: string, other: string)
    requires other != key
    ensures Holds(FilterOut(rows, key), other) <==> Holds(rows, other)
  {
    var r := FilterOut(rows, key);
    FilterOutContents(rows, key);
    if Holds(rows, other) {
      var j :| 0 <= j < |rows| && Matches(rows[j], other);
      assert rows[j] in multiset(rows);
      assert rows[j] in multiset(r);
      assert rows[j] in r;
    }
    if Holds(r, other) {
      var j :| 0 <= j < |r| && Matches(r[j], other);
      assert r[j] in multiset(r);
      assert r[j] in multiset(rows);
      assert r[j] in rows;
    }
  }

  // ---------------------------------------------------------------------------
  // The roster index
  // ---------------------------------------------------------------------------

  /** Records every non-blank client of one sheet as belonging to `coach`,
      overwriting earlier entries. */
  function IndexSheet(acc: map<string, string>, coach: string, rows: seq<ClientRow>): map<string, string>
    decreases |rows|
  {
    if rows == [] then acc
    else
      var name := Strip(rows[0].clientName);
      IndexSheet(if name != [] then acc[Lower(name) := coach] else acc, coach, rows[1..])
  }

  /** After one sheet, a key is indexed exactly when it was before or names a
      client on the sheet, and then the sheet overrides the earlier entry. */
  lemma {:induction false} IndexSheetSpec(acc: map<string, string>, coach: string, rows: seq<ClientRow>, k: string)
    ensures k in IndexSheet(acc, coach, rows) <==> k in acc || (k != [] && Holds(rows, k))
    ensures k in IndexSheet(acc, coach, rows) ==>
      IndexSheet(acc, coach, rows)[k] == if k != [] && Holds(rows, k) then coach else acc[k]
    decreases |rows|
  {
    if rows != [] {
      var name := Strip(rows[0].clientName);
      var acc' := if name != [] then acc[Lower(name) := coach] else acc;
      HoldsCons(rows, k);
      NormalizeSpec(rows[0].clientName);
      IndexSheetSpec(acc', coach, rows[1..], k);
    }
  }

  /** The last of the named sheets that holds client `key`, if any: the
      reference meaning of the roster index. */
  function LastHolder(sheets: Sheets, names: seq<string>, key: string): Option<string>
    requires HasSheets(sheets, names)
    decreases |names|
  {
    if names == [] then None
    else
      var last := names[|names| - 1];
      if Holds(sheets[last], key) then Some(last) else LastHolder(sheets, names[..|names| - 1], key)
  }

  /** The last holder is one of the scanned sheets that holds the client and no
      later scanned sheet does; there is one exactly when some sheet holds it. */
  lemma {:induction false} LastHolderSpec(sheets: Sheets, names: seq<string>, key: string)
    requires HasSheets(sheets, names)
    ensures LastHolder(sheets, names, key).Some? <==> exists i :: 0 <= i < |names| && Holds(sheets[names[i]], key)
    ensures LastHolder(sheets, names, key).Some? ==>
      exists i :: && 0 <= i < |names| && names[i] == LastHolder(sheets, names, key).value
                  && Holds(sheets[names[i]], key)
                  && forall i' :: i < i' < |names| ==> !Holds(sheets[names[i']], key)
    decreases |names|
  {
    if names != [] {
      var last := names[|names| - 1];
      var front := names[..|names| - 1];
      assert HasSheets(sheets, front) by {
        forall i | 0 <= i < |front|
          ensures front[i] in sheets
        {
          assert front[i] == names[i];
        }
      }
      LastHolderSpec(sheets, front, key);
      var r := LastHolder(sheets, names, key);
      if Holds(sheets[last], key) {
        assert names[|names| - 1] == last;
      } else {
        if r.Some? {
          var i :| && 0 <= i < |front| && front[i] == r.value && Holds(sheets[front[i]], key)
                   && forall i' :: i < i' < |front| ==> !Holds(sheets[front[i']], key);
          assert names[i] == front[i];
          forall i' | i < i' < |names|
            ensures !Holds(sheets[names[i']], key)
          {
            if i' < |front| {
              assert names[i'] == front[i'];
            }
          }
        }
        if exists i :: 0 <= i < |names| && Holds(sheets[names[i]], key) {
          var i :| 0 <= i < |names| && Holds(sheets[names[i]], key);
          assert front[i] == names[i];
        }
        if exists i :: 0 <= i < |front| && Holds(sheets[front[i]], key) {
          var i :| 0 <= i < |front| && Holds(sheets[front[i]], key);
          assert names[i] == front[i];
        }
      }
    }
  }

  /** The roster index built from the named sheets, scanned in order, each row
      in order, each non-blank client recorded under its normalized name. */
  function BuildIndex(sheets: Sheets, names: seq<string>): map<string, string>
    requires HasSheets(sheets, names)
    decreases |names|
  {
    if names == [] then map[]
    else
      var front := names[..|names| - 1];
      var last := names[|names| - 1];
      assert HasSheets(sheets, front) by {
        forall i | 0 <= i < |front|
          ensures front[i] in sheets
        {
          assert front[i] == names[i];
        }
      }
      IndexSheet(BuildIndex(sheets, front), last, sheets[last])
  }

  /** The index records a key exactly when it is a non-blank name held by some
      scanned sheet, and records the last scanned sheet holding it. */
  lemma {:induction false} IndexIsLastHolder(sheets: Sheets, names: seq<string>, key: string)
    requires HasSheets(sheets, names)
    ensures key in BuildIndex(sheets, names) <==> key != [] && LastHolder(sheets, names, key).Some?
    ensures key in BuildIndex(sheets, names) ==> BuildIndex(sheets, names)[key] == LastHolder(sheets, names, key).value
    decreases |names|
  {
    if names != [] {
      var front := names[..|names| - 1];
      var last := names[|names| - 1];
      assert HasSheets(sheets, front) by {
        forall i | 0 <= i < |front|
          ensures front[i] in sheets
        {
          assert front[i] == names[i];
        }
      }
      IndexIsLastHolder(sheets, front, key);
      IndexSheetSpec(BuildIndex(sheets, front), last, sheets[last], key);
    }
  }

  /** A client the index places on a sheet is really on that sheet, the sheet
      is one of the scanned ones, and no later scanned sheet holds the client. */
  lemma {:induction false} IndexedSheetHolds(sheets: Sheets, names: seq<string>, key: string)
    requires HasSheets(sheets, names)
    requires key in BuildIndex(sheets, names)
    ensures key != []
    ensures exists i :: && 0 <= i < |names| && names[i] == BuildIndex(sheets, names)[key]
                        && Holds(sheets[names[i]], key)
                        && forall i' :: i < i' < |names| ==> !Holds(sheets[names[i']], key)
  {
    IndexIsLastHolder(sheets, names, key);
    LastHolderSpec(sheets, names, key);
  }

}
