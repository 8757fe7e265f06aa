/**
 * The battery history table, kept in memory. Each query's meaning comes from
 * its SQL text: ORDER BY createDate DESC, WHERE cycleCount = ?, LIMIT 1,
 * DELETE ... WHERE id = ?, and an AUTOINCREMENT primary key.
 */
module BatteryRecordDatabase {
  import opened Wrappers
  import opened Decimal

  /** One history row; the nullable columns are options. */
  datatype BatteryDataRecord = BatteryDataRecord(
    id: int,
    createDate: int,
    recordType: int,
    cycleCount: int,
    nominalChargeCapacity: Option<int>,
    designCapacity: Option<int>,
    maximumCapacity: Option<string>)

  /** Newest first: createDate never increases along the sequence. */
  predicate DateDescending(s: seq<BatteryDataRecord>) {
    forall i, j :: 0 <= i < j < |s| ==> s[i].createDate >= s[j].createDate
  }

  /** Places a row into a newest-first sequence, ahead of every row not newer than it. */
  function InsertByDate(sorted: seq<BatteryDataRecord>, r: BatteryDataRecord): (res: seq<BatteryDataRecord>)
    ensures |res| == |sorted| + 1
    ensures res[0] == r || (sorted != [] && res[0] == sorted[0])
    ensures multiset(res) == multiset(sorted) + multiset{r}
  {
    if sorted == [] then [r]
    else if sorted[0].createDate <= r.createDate then [r] + sorted
    else
      assert sorted == [sorted[0]] + sorted[1..];
      [sorted[0]] + InsertByDate(sorted[1..], r)
  }

  /** Inserting into a newest-first sequence keeps it newest first. */
  lemma {:induction false} InsertKeepsDescending(sorted: seq<BatteryDataRecord>, r: BatteryDataRecord)
    requires DateDescending(sorted)
    ensures DateDescending(InsertByDate(sorted, r))
  {
    var res := InsertByDate(sorted, r);
    if sorted != [] {
      if sorted[0].createDate <= r.createDate {
        forall i, j | 0 <= i < j < |res| ensures res[i].createDate >= res[j].createDate {
          if i > 0 {
            assert res[i] == sorted[i - 1] && res[j] == sorted[j - 1];
          } else {
            assert res[j] == sorted[j - 1];
          }
        }
      } else {
        var rest := InsertByDate(sorted[1..], r);
        InsertKeepsDescending(sorted[1..], r);
        assert res == [sorted[0]] + rest;
        forall i, j | 0 <= i < j < |res| ensures res[i].createDate >= res[j].createDate {
          if i > 0 {
            assert res[i] == rest[i - 1] && res[j] == rest[j - 1];
          } else {
            assert res[j] == rest[j - 1];
            assert rest[0] == r || rest[0] == sorted[1];
            assert sorted[0].createDate >= rest[0].createDate >= rest[j - 1].createDate;
          }
        }
      }
    }
  }

  /** `ORDER BY createDate DESC`: the rows newest first (the order among equal dates is the engine's choice). */
  function SortByDate(rows: seq<BatteryDataRecord>): (res: seq<BatteryDataRecord>)
    ensures multiset(res) == multiset(rows)
    ensures DateDescending(res)
  {
    if rows == [] then []
    else
      var last := |rows| - 1;
      assert rows == rows[..last] + [rows[last]];
      var sorted := SortByDate(rows[..last]);
      InsertKeepsDescending(sorted, rows[last]);
      InsertByDate(sorted, rows[last])
  }

  /** `WHERE cycleCount = c`, in table order. */
  function WithCycleCount(rows: seq<BatteryDataRecord>, c: int): (res: seq<BatteryDataRecord>)
    ensures forall x :: x in res <==> x in rows && x.cycleCount == c
  {
    if rows == [] then []
    else
      assert rows == [rows[0]] + rows[1..];
      (if rows[0].cycleCount == c then [rows[0]] else []) + WithCycleCount(rows[1..], c)
  }

  /** The rows `DELETE ... WHERE id = ?` keeps, in table order. */
  function WithoutId(rows: seq<BatteryDataRecord>, id: int): (res: seq<BatteryDataRecord>)
    ensures forall x :: x in res <==> x in rows && x.id != id
  {
    if rows == [] then []
    else
      assert rows == [rows[0]] + rows[1..];
      (if rows[0].id != id then [rows[0]] else []) + WithoutId(rows[1..], id)
  }

  /** Deleting by id keeps every other row, each as many times as before. */
  lemma {:induction false} WithoutIdKeepsOthers(rows: seq<BatteryDataRecord>, id: int, x: BatteryDataRecord)
    requires x.id != id
    ensures multiset(WithoutId(rows, id))[x] == multiset(rows)[x]
  {
    if rows != [] {
      WithoutIdKeepsOthers(rows[1..], id, x);
      assert rows == [rows[0]] + rows[1..];
    }
  }

  /** With distinct ids, deleting an id that is present removes exactly one row, and one that is absent removes none. */
  lemma {:induction false} WithoutIdRemovesOne(rows: seq<BatteryDataRecord>, id: int)
    requires IdsDistinct(rows)
    ensures (exists k :: 0 <= k < |rows| && rows[k].id == id) ==> |WithoutId(rows, id)| == |rows| - 1
    ensures (forall k :: 0 <= k < |rows| ==> rows[k].id != id) ==> WithoutId(rows, id) == rows
  {
    if rows != [] {
      HeadIdUnique(rows);
      WithoutIdRemovesOne(rows[1..], id);
      if rows[0].id == id {
        forall k | 0 <= k < |rows[1..]| ensures rows[1..][k].id != id {
          assert rows[1..][k] in rows[1..];
        }
        assert WithoutId(rows, id) == WithoutId(rows[1..], id);
      } else {
        assert WithoutId(rows, id) == [rows[0]] + WithoutId(rows[1..], id);
        if exists k :: 0 <= k < |rows| && rows[k].id == id {
          var k :| 0 <= k < |rows| && rows[k].id == id;
          assert rows[1..][k - 1] == rows[k];
        }
        if forall k :: 0 <= k < |rows| ==> rows[k].id != id {
          forall k | 0 <= k < |rows[1..]| ensures rows[1..][k].id != id {
            assert rows[1..][k] == rows[k + 1];
          }
          assert rows == [rows[0]] + rows[1..];
        }
      }
    }
  }

  /** Selecting by cycle count keeps every matching row, each as many times as in the table. */
  lemma {:induction false} WithCycleCountKeepsMatches(rows: seq<BatteryDataRecord>, c: int, x: BatteryDataRecord)
    requires x.cycleCount == c
    ensures multiset(WithCycleCount(rows, c))[x] == multiset(rows)[x]
  {
    if rows != [] {
      WithCycleCountKeepsMatches(rows[1..], c, x);
      assert rows == [rows[0]] + rows[1..];
    }
  }

  /** `ORDER BY createDate DESC LIMIT 1`: absent exactly for no rows, otherwise a newest row. */
  function Newest(rows: seq<BatteryDataRecord>): (r: Option<BatteryDataRecord>)
    ensures r.None? <==> rows == []
    ensures r.Some? ==> r.value in rows && forall x :: x in rows ==> x.createDate <= r.value.createDate
  {
    var sorted := SortByDate(rows);
    if sorted == [] then None
    else
      assert forall x :: x in rows ==> x in multiset(sorted);
      assert sorted[0] in multiset(rows);
      Some(sorted[0])
  }

  /** The header row: the six column titles, comma-separated. */
  const CsvHeader: string :=
    "ID," + "CreateDate," + "CycleCount," + "NominalChargeCapacity," + "DesignCapacity," + "MaximumCapacity" + "\n"

  /** One exported line; missing capacities print as 0 and a missing health text as N/A. */
  function CsvLine(r: BatteryDataRecord, formatDate: int -> string): string {
    IntToDecimal(r.id) + "," + formatDate(r.createDate) + "," + IntToDecimal(r.cycleCount) + "," +
    IntToDecimal(r.nominalChargeCapacity.GetOr(0)) + "," + IntToDecimal(r.designCapacity.GetOr(0)) + "," +
    r.maximumCapacity.GetOr("N/A") + "\n"
  }

  lemma CsvLinesExtend(records: seq<BatteryDataRecord>, i: nat, formatDate: int -> string)
    requires i < |records|
    ensures CsvHeader + CsvLines(records[..i + 1], formatDate) == CsvHeader + CsvLines(records[..i], formatDate) + CsvLine(records[i], formatDate)
  {
    assert records[..i + 1][..i] == records[..i];
  }

  /** The exported lines of some rows, in the given order. */
  function CsvLines(records: seq<BatteryDataRecord>, formatDate: int -> string): string {
    if records == [] then ""
    else CsvLines(records[..|records| - 1], formatDate) + CsvLine(records[|records| - 1], formatDate)
  }

  function NewlineCount(s: string): (n: nat)
    ensures n <= |s|
  {
    if s == [] then 0 else NewlineCount(s[..|s| - 1]) + (if s[|s| - 1] == '\n' then 1 else 0)
  }

  lemma {:induction false} NewlineCountAppend(a: string, b: string)
    ensures NewlineCount(a + b) == NewlineCount(a) + NewlineCount(b)
    decreases |b|
  {
    if b != [] {
      assert (a + b)[..|a + b| - 1] == a + b[..|b| - 1];
      NewlineCountAppend(a, b[..|b| - 1]);
    } else {
      assert a + b == a;
    }
  }

  lemma {:induction false} NoNewlineCount(s: string)
    requires '\n' !in s
    ensures NewlineCount(s) == 0
  {
    if s != [] {
      NoNewlineCount(s[..|s| - 1]);
    }
  }

  /** An integer's decimal form holds neither a line break nor a comma. */
  lemma DecimalHasNoSeparator(n: int)
    ensures '\n' !in IntToDecimal(n) && ',' !in IntToDecimal(n)
  {
    DecimalRoundTrip(n);
  }

  /** The position of the first `sep` in `s`. */
  function IndexOf(s: string, sep: char): (i: nat)
    requires sep in s
    ensures i < |s| && s[i] == sep
    ensures forall j :: 0 <= j < i ==> s[j] != sep
  {
    if s[0] == sep then 0 else IndexOf(s[1..], sep) + 1
  }

  /** The fields of a line cut at every `sep`, as a CSV reader cuts them. */
  function Split(s: string, sep: char): (r: seq<string>)
    ensures |r| >= 1
    decreases |s|
  {
    if sep !in s then [s]
    else
      var i := IndexOf(s, sep);
      [s[..i]] + Split(s[i + 1..], sep)
  }

  /** A first field without the separator is cut off whole. */
  lemma SplitAfterField(a: string, sep: char, b: string)
    requires sep !in a
    ensures Split(a + [sep] + b, sep) == [a] + Split(b, sep)
  {
    var s := a + [sep] + b;
    assert s[|a|] == sep;
    var i := IndexOf(s, sep);
    assert s[..i] == a;
    assert s[i + 1..] == b;
  }

  /**
   * Reading an exported line back: cut at its commas, fields 0, 2, 3 and 4
   * are decimals that parse to the row's id, cycle count and capacities
   * (a missing capacity as 0), and field 1 is the date text.  When the health
   * text has no comma either, the line has exactly six fields.
   */
  lemma CsvLineFields(r: BatteryDataRecord, formatDate: int -> string)
    requires ',' !in formatDate(r.createDate)
    ensures var fields := Split(CsvLine(r, formatDate), ',');
      && |fields| >= 6
      && IsDecimal(fields[0]) && ParseDecimal(fields[0]) == r.id
      && fields[1] == formatDate(r.createDate)
      && IsDecimal(fields[2]) && ParseDecimal(fields[2]) == r.cycleCount
      && IsDecimal(fields[3]) && ParseDecimal(fields[3]) == r.nominalChargeCapacity.GetOr(0)
      && IsDecimal(fields[4]) && ParseDecimal(fields[4]) == r.designCapacity.GetOr(0)
      && (',' !in r.maximumCapacity.GetOr("N/A") ==>
            |fields| == 6 && fields[5] == r.maximumCapacity.GetOr("N/A") + "\n")
  {
    var f := r.maximumCapacity.GetOr("N/A") + "\n";
    var fields := Split(CsvLine(r, formatDate), ',');
    CsvLineSplit(r, formatDate);
    assert fields[5..] == Split(f, ',');
    DecimalRoundTrip(r.id);
    DecimalRoundTrip(r.cycleCount);
    DecimalRoundTrip(r.nominalChargeCapacity.GetOr(0));
    DecimalRoundTrip(r.designCapacity.GetOr(0));
    if ',' !in r.maximumCapacity.GetOr("N/A") {
      assert ',' !in f;
    }
  }

  /** Cut at its commas, a line yields the four numbers and the date text, then the cut health text. */
  lemma CsvLineSplit(r: BatteryDataRecord, formatDate: int -> string)
    requires ',' !in formatDate(r.createDate)
    ensures Split(CsvLine(r, formatDate), ',') ==
      [IntToDecimal(r.id), formatDate(r.createDate), IntToDecimal(r.cycleCount),
       IntToDecimal(r.nominalChargeCapacity.GetOr(0)), IntToDecimal(r.designCapacity.GetOr(0))] +
      Split(r.maximumCapacity.GetOr("N/A") + "\n", ',')
  {
    DecimalHasNoSeparator(r.id);
    DecimalHasNoSeparator(r.cycleCount);
    DecimalHasNoSeparator(r.nominalChargeCapacity.GetOr(0));
    DecimalHasNoSeparator(r.designCapacity.GetOr(0));
    SplitFiveFields(IntToDecimal(r.id), formatDate(r.createDate), IntToDecimal(r.cycleCount),
                    IntToDecimal(r.nominalChargeCapacity.GetOr(0)), IntToDecimal(r.designCapacity.GetOr(0)),
                    r.maximumCapacity.GetOr("N/A") + "\n");
    CsvLineJoined(r, formatDate);
  }

  /** A line is its five leading fields and the health text with the line break, joined by commas. */
  lemma CsvLineJoined(r: BatteryDataRecord, formatDate: int -> string)
    ensures CsvLine(r, formatDate) ==
      IntToDecimal(r.id) + "," + formatDate(r.createDate) + "," + IntToDecimal(r.cycleCount) + "," +
      IntToDecimal(r.nominalChargeCapacity.GetOr(0)) + "," + IntToDecimal(r.designCapacity.GetOr(0)) + "," +
      (r.maximumCapacity.GetOr("N/A") + "\n")
  {
  }

  /** Five leading fields without commas are cut off whole and in order; the rest is cut on its own. */
  lemma SplitFiveFields(a: string, b: string, c: string, d: string, e: string, f: string)
    requires ',' !in a && ',' !in b && ',' !in c && ',' !in d && ',' !in e
    ensures Split(a + "," + b + "," + c + "," + d + "," + e + "," + f, ',') == [a, b, c, d, e] + Split(f, ',')
  {
    var t4 := e + [','] + f;
    var t3 := d + [','] + t4;
    var t2 := c + [','] + t3;
    var t1 := b + [','] + t2;
    var line := a + "," + b + "," + c + "," + d + "," + e + "," + f;
    assert line == a + [','] + t1;
    SplitAfterField(a, ',', t1);
    SplitAfterField(b, ',', t2);
    SplitAfterField(c, ',', t3);
    SplitAfterField(d, ',', t4);
    SplitAfterField(e, ',', f);
    PrependFive(a, b, c, d, e, Split(f, ','));
  }

  lemma PrependFive(a: string, b: string, c: string, d: string, e: string, rest: seq<string>)
    ensures [a] + ([b] + ([c] + ([d] + ([e] + rest)))) == [a, b, c, d, e] + rest
  {
  }

  /** A text field without line breaks. */
  predicate SingleLine(s: string) {
    '\n' !in s
  }

  /** Each row's line ends with exactly one line break when its date text and health text have none. */
  lemma CsvLineIsOneLine(r: BatteryDataRecord, formatDate: int -> string)
    requires SingleLine(formatDate(r.createDate))
    requires r.maximumCapacity.Some? ==> SingleLine(r.maximumCapacity.value)
    ensures NewlineCount(CsvLine(r, formatDate)) == 1
  {
    var a := IntToDecimal(r.id);
    var b := formatDate(r.createDate);
    var c := IntToDecimal(r.cycleCount);
    var d := IntToDecimal(r.nominalChargeCapacity.GetOr(0));
    var e := IntToDecimal(r.designCapacity.GetOr(0));
    var f := r.maximumCapacity.GetOr("N/A");
    DecimalHasNoSeparator(r.id);
    DecimalHasNoSeparator(r.cycleCount);
    DecimalHasNoSeparator(r.nominalChargeCapacity.GetOr(0));
    DecimalHasNoSeparator(r.designCapacity.GetOr(0));
    var body := a + "," + b + "," + c + "," + d + "," + e + "," + f;
    assert '\n' !in body;
    NoNewlineCount(body);
    assert CsvLine(r, formatDate) == body + "\n";
    NewlineCountAppend(body, "\n");
  }

  lemma HeaderIsOneLine()
    ensures NewlineCount(CsvHeader) == 1
  {
    var fields := "ID," + "CreateDate," + "CycleCount," + "NominalChargeCapacity," + "DesignCapacity," + "MaximumCapacity";
    assert '\n' !in "ID," && '\n' !in "CreateDate," && '\n' !in "CycleCount,";
    assert '\n' !in "NominalChargeCapacity," && '\n' !in "DesignCapacity," && '\n' !in "MaximumCapacity";
    NoNewlineCount(fields);
    NewlineCountAppend(fields, "\n");
  }

  /** The export holds the header line and then exactly one line per row. */
  lemma {:induction false} CsvLineCount(records: seq<BatteryDataRecord>, formatDate: int -> string)
    requires forall r :: r in records ==> SingleLine(formatDate(r.createDate))
    requires forall r :: r in records && r.maximumCapacity.Some? ==> SingleLine(r.maximumCapacity.value)
    ensures NewlineCount(CsvHeader + CsvLines(records, formatDate)) == |records| + 1
  {
    if records == [] {
      assert CsvHeader + CsvLines(records, formatDate) == CsvHeader;
      HeaderIsOneLine();
    } else {
      var init := records[..|records| - 1];
      var last := records[|records| - 1];
      assert forall r :: r in init ==> r in records;
      CsvLineCount(init, formatDate);
      CsvLineIsOneLine(last, formatDate);
      CsvLinesExtend(records, |records| - 1, formatDate);
      assert records[..|records| - 1 + 1] == records;
      NewlineCountAppend(CsvHeader + CsvLines(init, formatDate), CsvLine(last, formatDate));
    }
  }

  /** The history table. Ids come from an AUTOINCREMENT key: every id ever issued is below `nextId`. */
  class BatteryRecordDatabaseManager {
    var rows: seq<BatteryDataRecord>
    var nextId: int

    /** Ids are positive, distinct and below the next id to issue. */
    ghost predicate Valid()
      reads this
    {
      nextId >= 1 && IdsBelow(rows, nextId) && IdsDistinct(rows)
    }

    /** `CREATE TABLE IF NOT EXISTS` on a new database: an empty table. */
    constructor ()
      ensures Valid() && rows == [] && nextId == 1
    {
      rows := [];
      nextId := 1;
    }

    /** `fetchAllRecords`: every row, newest first, read one result row at a time. */
    method FetchAllRecords() returns (records: seq<BatteryDataRecord>)
      ensures records == SortByDate(rows)
      ensures multiset(records) == multiset(rows) && DateDescending(records)
    {
      records := [];
      var i := 0;
      while i < |rows|
        invariant 0 <= i <= |rows|
        invariant records == SortByDate(rows[..i])
      {
        assert rows[..i + 1][..i] == rows[..i];
        records := InsertByDate(records, rows[i]);
        i := i + 1;
      }
      assert rows[..i] == rows;
    }

    /** `getRecordCount` */
    method GetRecordCount() returns (count: int)
      ensures count == |rows|
    {
      count := |rows|;
    }

    /**
     * `insertRecord`: on success one row is appended, stamped with the current
     * time and a fresh id; absent capacities are stored as 0 and the health
     * text column is left NULL. The record's own id and date are ignored.
     */
    method InsertRecord(record: BatteryDataRecord, now: int, engineOk: bool) returns (ok: bool)
      requires Valid()
      modifies this
      ensures Valid() && ok == engineOk
      ensures ok ==> rows == old(rows) + [BatteryDataRecord(old(nextId), now, record.recordType, record.cycleCount,
                                                            Some(record.nominalChargeCapacity.GetOr(0)),
                                                            Some(record.designCapacity.GetOr(0)), None)]
      ensures ok ==> nextId == old(nextId) + 1
      ensures !ok ==> rows == old(rows) && nextId == old(nextId)
    {
      if !engineOk {
        return false;
      }
      var row := BatteryDataRecord(nextId, now, record.recordType, record.cycleCount,
                                   Some(record.nominalChargeCapacity.GetOr(0)),
                                   Some(record.designCapacity.GetOr(0)), None);
      rows := rows + [row];
      nextId := nextId + 1;
      return true;
    }

    /** `deleteRecord(byID:)`: removes the row with that id, if any; every other row stays, in order. */
    method DeleteRecord(id: int, engineOk: bool) returns (ok: bool)
      requires Valid()
      modifies this
      ensures Valid() && ok == engineOk && nextId == old(nextId)
      ensures rows == if ok then WithoutId(old(rows), id) else old(rows)
    {
      if !engineOk {
        return false;
      }
      var kept := WithoutId(rows, id);
      KeptIdsStayValid(rows, id, nextId);
      rows := kept;
      return true;
    }

    /** `getLatestRecord` */
    method GetLatestRecord() returns (latest: Option<BatteryDataRecord>)
      ensures latest == Newest(rows)
      ensures latest.None? <==> rows == []
      ensures latest.Some? ==> latest.value in rows && forall x :: x in rows ==> x.createDate <= latest.value.createDate
    {
      latest := Newest(rows);
    }

    /** `getRecord(byCycleCount:)`: a newest row with that cycle count, or none when there is no such row. */
    method GetRecordByCycleCount(cycleCount: int) returns (record: Option<BatteryDataRecord>)
      ensures record == Newest(WithCycleCount(rows, cycleCount))
      ensures record.None? <==> forall x :: x in rows ==> x.cycleCount != cycleCount
      ensures record.Some? ==> record.value in rows && record.value.cycleCount == cycleCount
      ensures record.Some? ==> forall x :: x in rows && x.cycleCount == cycleCount ==> x.createDate <= record.value.createDate
    {
      var matching := WithCycleCount(rows, cycleCount);
      record := Newest(matching);
    }

    /**
     * `exportToCSV`: nothing when the table is empty or the file cannot be
     * written, otherwise the header and one line per row in fetch order.
     */
    method ExportToCsv(formatDate: int -> string, writeOk: bool) returns (csv: Option<string>)
      ensures rows == [] ==> csv.None?
      ensures rows != [] && writeOk ==> csv == Some(CsvHeader + CsvLines(SortByDate(rows), formatDate))
      ensures rows != [] && !writeOk ==> csv.None?
    {
      var records := FetchAllRecords();
      if records == [] {
        return None;
      }
      var csvText := CsvHeader;
      var i := 0;
      while i < |records|
        invariant 0 <= i <= |records|
        invariant csvText == CsvHeader + CsvLines(records[..i], formatDate)
      {
        CsvLinesExtend(records, i, formatDate);
        csvText := csvText + CsvLine(records[i], formatDate);
        i := i + 1;
      }
      assert records[..i] == records;
      if !writeOk {
        return None;
      }
      return Some(csvText);
    }

    /** `deleteAllRecords`: the table is empty afterwards; the id counter is not reset. */
    method DeleteAllRecords(engineOk: bool)
      requires Valid()
      modifies this
      ensures Valid() && nextId == old(nextId)
      ensures rows == if engineOk then [] else old(rows)
    {
      if engineOk {
        rows := [];
      }
    }
  }

  /** Every id is positive and below the next one the counter issues. */
  ghost predicate IdsBelow(rows: seq<BatteryDataRecord>, nextId: int) {
    forall i :: 0 <= i < |rows| ==> 1 <= rows[i].id < nextId
  }

  ghost predicate IdsDistinct(rows: seq<BatteryDataRecord>) {
    forall i, j :: 0 <= i < j < |rows| ==> rows[i].id != rows[j].id
  }

  /** Removing rows keeps the remaining ids positive, distinct and below the counter. */
  lemma KeptIdsStayValid(rows: seq<BatteryDataRecord>, id: int, nextId: int)
    requires IdsBelow(rows, nextId) && IdsDistinct(rows)
    ensures IdsBelow(WithoutId(rows, id), nextId) && IdsDistinct(WithoutId(rows, id))
  {
    var res := WithoutId(rows, id);
    forall i | 0 <= i < |res| ensures 1 <= res[i].id < nextId {
      assert res[i] in rows;
    }
    KeptIdsDistinct(rows, id);
  }

  lemma {:induction false} KeptIdsDistinct(rows: seq<BatteryDataRecord>, id: int)
    requires IdsDistinct(rows)
    ensures IdsDistinct(WithoutId(rows, id))
  {
    if rows != [] {
      var tail := WithoutId(rows[1..], id);
      HeadIdUnique(rows);
      KeptIdsDistinct(rows[1..], id);
      if rows[0].id != id {
        assert WithoutId(rows, id) == [rows[0]] + tail;
        ConsIdsDistinct(rows[0], tail);
      } else {
        assert WithoutId(rows, id) == tail;
      }
    }
  }

  /** In a table with distinct ids, the rest of the table is distinct and never repeats the first id. */
  lemma HeadIdUnique(rows: seq<BatteryDataRecord>)
    requires rows != [] && IdsDistinct(rows)
    ensures IdsDistinct(rows[1..])
    ensures forall x :: x in rows[1..] ==> x.id != rows[0].id
  {
    forall i, j | 0 <= i < j < |rows[1..]| ensures rows[1..][i].id != rows[1..][j].id {
      assert rows[1..][i] == rows[i + 1] && rows[1..][j] == rows[j + 1];
    }
    forall x | x in rows[1..] ensures x.id != rows[0].id {
      var k :| 0 <= k < |rows[1..]| && rows[1..][k] == x;
      assert rows[k + 1] == x;
    }
  }

  /** A row whose id is new to a distinct-id list keeps the ids distinct when put in front. */
  lemma ConsIdsDistinct(r: BatteryDataRecord, rows: seq<BatteryDataRecord>)
    requires IdsDistinct(rows)
    requires forall x :: x in rows ==> x.id != r.id
    ensures IdsDistinct([r] + rows)
  {
    var res := [r] + rows;
    forall i, j | 0 <= i < j < |res| ensures res[i].id != res[j].id {
      assert res[j] == rows[j - 1];
      if i > 0 {
        assert res[i] == rows[i - 1];
      } else {
        assert rows[j - 1] in rows;
      }
    }
  }
}
