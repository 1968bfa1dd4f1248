/** `append_log` of multiaccount.py: one CSV file per account, opened in
    append mode, with the header row written only when the file did not
    exist before the call. */
module Audit {

  datatype Status = Success | Failed

  /** One send attempt as it is logged. */
  datatype Record = Record(target: string, status: Status, timestamp: string, message: string, imageSent: bool)

  function StatusText(s: Status): string
  {
    match s
    case Success => "success"
    case Failed => "failed"
  }

  /** The header written on file creation (its first column is headed
      "username" although the rows hold the target). */
  const HeaderRow: seq<string> := ["username", "status", "timestamp", "message", "image_sent"]

  /** The row `append_log` writes for a record; `str(image_sent)` gives
      "True" or "False". Every row has as many fields as the header and no
      row is the header, since its status field is never "status". */
  function CsvRow(rec: Record): (row: seq<string>)
    ensures |row| == |HeaderRow|
    ensures row[0] == rec.target && row[2] == rec.timestamp && row[3] == rec.message
    ensures row[1] == "success" <==> rec.status == Success
    ensures row[1] == "failed" <==> rec.status == Failed
    ensures row[4] == if rec.imageSent then "True" else "False"
    ensures row != HeaderRow
  {
    [rec.target, StatusText(rec.status), rec.timestamp, rec.message, if rec.imageSent then "True" else "False"]
  }

  function CsvRows(recs: seq<Record>): (rows: seq<seq<string>>)
    ensures |rows| == |recs|
    ensures forall i :: 0 <= i < |recs| ==> rows[i] == CsvRow(recs[i])
  {
    if recs == [] then [] else CsvRows(recs[..|recs| - 1]) + [CsvRow(recs[|recs| - 1])]
  }

  /** The rows that appending `recs` one by one adds to a file that already
      existed (`existed`) or not. */
  function NewRows(existed: bool, recs: seq<Record>): (rows: seq<seq<string>>)
    ensures |rows| == |recs| + if existed || recs == [] then 0 else 1
    ensures |rows| > |recs| ==> rows[0] == HeaderRow
  {
    if recs == [] || existed then CsvRows(recs) else [HeaderRow] + CsvRows(recs)
  }

  /** What the appends write: after the header, if any, the rows of the
      records in the order they were appended, row for record. */
  lemma NewRowsContents(existed: bool, recs: seq<Record>)
    ensures var rows := NewRows(existed, recs);
      forall i :: 0 <= i < |recs| ==> rows[|rows| - |recs| + i] == CsvRow(recs[i])
  {
    var rows, body := NewRows(existed, recs), CsvRows(recs);
    if |rows| > |recs| {
      assert rows == [HeaderRow] + body;
      forall i | 0 <= i < |recs| ensures rows[|rows| - |recs| + i] == CsvRow(recs[i]) {
        assert rows[1 + i] == body[i];
      }
    } else {
      assert rows == body;
    }
  }

  /** One more append adds one row, plus the header if nothing created the file yet. */
  lemma NewRowsSnoc(existed: bool, recs: seq<Record>, rec: Record)
    ensures NewRows(existed, recs + [rec]) == NewRows(existed, recs) + NewRows(existed || recs != [], [rec])
  {
    assert (recs + [rec])[..|recs|] == recs;
    var rows, row := CsvRows(recs), CsvRows([rec]);
    assert CsvRows(recs + [rec]) == rows + row;
    assert row == [CsvRow(rec)] by {
      assert [rec][..0] == [];
    }
    if existed || recs != [] {
      assert NewRows(existed || recs != [], [rec]) == row;
      if !existed {
        assert NewRows(existed, recs + [rec]) == [HeaderRow] + (rows + row);
        assert [HeaderRow] + (rows + row) == ([HeaderRow] + rows) + row;
      }
    }
  }

  /** Rows are produced record by record: `CsvRows` distributes over concatenation. */
  lemma CsvRowsAppend(a: seq<Record>, b: seq<Record>)
    ensures CsvRows(a + b) == CsvRows(a) + CsvRows(b)
  {
    var l, r := CsvRows(a + b), CsvRows(a) + CsvRows(b);
    forall i | 0 <= i < |l| ensures l[i] == r[i] {
      if i < |a| {
        assert (a + b)[i] == a[i];
      } else {
        assert (a + b)[i] == b[i - |a|];
      }
    }
  }

  /** Appending two runs of records one after the other adds the rows of
      the first run, then those of the second on a file that now exists if
      either it did or the first run created it. */
  lemma NewRowsAppend(existed: bool, a: seq<Record>, b: seq<Record>)
    ensures NewRows(existed, a + b) == NewRows(existed, a) + NewRows(existed || a != [], b)
  {
    CsvRowsAppend(a, b);
    if a == [] {
      assert a + b == b;
      assert CsvRows(a) == [];
    } else if !existed {
      assert [HeaderRow] + (CsvRows(a) + CsvRows(b)) == ([HeaderRow] + CsvRows(a)) + CsvRows(b);
    }
  }

  /** The same for a file that already held `rows` before the first run. */
  lemma FileAppend(rows: seq<seq<string>>, existed: bool, a: seq<Record>, b: seq<Record>)
    ensures rows + NewRows(existed, a) + NewRows(existed || a != [], b) == rows + NewRows(existed, a + b)
  {
    var x, y := NewRows(existed, a), NewRows(existed || a != [], b);
    NewRowsAppend(existed, a, b);
    assert rows + x + y == rows + (x + y);
  }

  /** The header-once rule: a file created by these appends starts with the
      header and holds it nowhere else; a file that existed never gets it. */
  lemma HeaderOnce(recs: seq<Record>)
    ensures recs != [] ==> NewRows(false, recs)[0] == HeaderRow
    ensures forall i :: 1 <= i < |NewRows(false, recs)| ==> NewRows(false, recs)[i] != HeaderRow
    ensures HeaderRow !in NewRows(true, recs)
  {
    var rows := NewRows(false, recs);
    forall i | 1 <= i < |rows| ensures rows[i] != HeaderRow {
      assert rows[i] == CsvRow(recs[i - 1]);
    }
  }

  /** One account's log file. `created` says whether it exists; `rows` is
      its content as CSV rows. */
  class LogFile {
    const owner: string
    var created: bool
    var rows: seq<seq<string>>

    ghost predicate Valid()
      reads this
    {
      !created ==> rows == []
    }

    /** `logs_multi/dm_log_<owner>.csv` before any run wrote it. */
    constructor Absent(owner: string)
      ensures Valid() && this.owner == owner && !created && rows == []
    {
      this.owner := owner;
      created := false;
      rows := [];
    }

    /** The same file left by an earlier run. */
    constructor Existing(owner: string, rows: seq<seq<string>>)
      ensures Valid() && this.owner == owner && created && this.rows == rows
    {
      this.owner := owner;
      created := true;
      this.rows := rows;
    }

    /** `append_log(owner, ...)`: append the record's row, preceded by the
        header if the file did not exist. */
    method Append(rec: Record)
      requires Valid()
      modifies this
      ensures Valid() && created
      ensures rows == old(rows) + NewRows(old(created), [rec])
    {
      var newFile := !created;
      if newFile {
        rows := rows + [HeaderRow];
      }
      rows := rows + [CsvRow(rec)];
      created := true;
      assert CsvRows([rec]) == [CsvRow(rec)] by {
        assert [rec][..0] == [];
      }
    }
  }
}
