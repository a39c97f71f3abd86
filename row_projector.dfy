/**
  `preprocess_case_data(all_data, processed_data)`: turns every collected case
  record into one output row with a fixed set of columns, each read from one
  record key with "" as the default, and appends the rows to
  `processed_data`; `None` entries are skipped.
 */
module RowProjector {
  import opened Optional
  import opened Records

  /** One output column: its name and the record key it is read from. */
  datatype Column = Column(name: string, source: string)

  /** The columns, in the order of the row's dictionary literal. */
  const COLUMNS: seq<Column> := [
    Column("case_num", "caseno"),
    Column("parcel number", "parcel_id"),
    Column("decendent_first_name", "decendent_first_name"),
    Column("decendent_middle_name", "decendent_middle_name"),
    Column("decendent_last_name", "decendent_last_name"),
    Column("sub_type", "case_subtype"),
    Column("case_link", "case_url"),
    Column("d_property_address", "decendent_address"),
    Column("d_property_city", "decendent_city"),
    Column("d_property_state", "decendent_state"),
    Column("d_property_zip", "decendent_zip"),
    Column("view_state_link", "view_state_link"),
    Column("admin_first_name", "admin_first_name"),
    Column("admin_middle_name", "admin_middle_name"),
    Column("admin_last_name", "admin_last_name"),
    Column("admin_address", "admin_address"),
    Column("admin_city", "admin_city"),
    Column("admin_state", "admin_state"),
    Column("admin_zip", "admin_zip"),
    Column("admin_phone", "admin_phone"),
    Column("att_first_name", "attorney_first_name"),
    Column("att_middle_name", "attorney_middle_name"),
    Column("att_last_name", "attorney_last_name"),
    Column("att_phone", "attorney_phone"),
    Column("att_email", "attorney_email"),
    Column("beds", "bedrooms"),
    Column("bathrooms", "bathrooms"),
    Column("Tot Fin Area", "Tot Fin Area"),
    Column("Yr Built", "Year built"),
    Column("transfer date", "Transfer Date"),
    Column("transfer price", "Transfer Price")
  ]

  function ColumnNames(columns: seq<Column>): set<string>
  {
    set c | c in columns :: c.name
  }

  /** The row a dictionary literal with entries `columns` builds from `item`;
      as in a literal, a later entry with the same name would win. */
  function ProjectColumns(item: Record, columns: seq<Column>): Record
    decreases |columns|
  {
    if columns == [] then map[]
    else
      var last := columns[|columns| - 1];
      ProjectColumns(item, columns[..|columns| - 1])[last.name := Get(item, last.source)]
  }

  /** The output row of one record. */
  function Project(item: Record): Record
  {
    ProjectColumns(item, COLUMNS)
  }

  /** The rows of the non-`None` records, in order. */
  function ProjectAll(allData: seq<Option<Record>>): seq<Record>
    decreases |allData|
  {
    if allData == [] then []
    else
      var before := ProjectAll(allData[..|allData| - 1]);
      match allData[|allData| - 1]
      case None => before
      case Some(item) => before + [Project(item)]
  }

  function CountPresent(allData: seq<Option<Record>>): nat
    decreases |allData|
  {
    if allData == [] then 0
    else CountPresent(allData[..|allData| - 1]) + (if allData[|allData| - 1].Some? then 1 else 0)
  }

  predicate DistinctNames(columns: seq<Column>)
  {
    forall i, j :: 0 <= i < j < |columns| ==> columns[i].name != columns[j].name
  }

  // ---------------------------------------------------------------------------
  // One row

  /** A row has exactly the column names as keys, never a record key. */
  lemma {:induction false} ProjectColumnsKeys(item: Record, columns: seq<Column>)
    ensures ProjectColumns(item, columns).Keys == ColumnNames(columns)
    decreases |columns|
  {
    if columns != [] {
      var n := |columns| - 1;
      ProjectColumnsKeys(item, columns[..n]);
      assert columns == columns[..n] + [columns[n]];
      assert ColumnNames(columns) == ColumnNames(columns[..n]) + {columns[n].name};
    }
  }

  /** Dropping the last column keeps the names distinct, and the dropped
      name is not among the rest. */
  lemma DistinctBeforeLast(columns: seq<Column>)
    requires DistinctNames(columns) && columns != []
    ensures DistinctNames(columns[..|columns| - 1])
    ensures columns[|columns| - 1].name !in ColumnNames(columns[..|columns| - 1])
  {
    var n := |columns| - 1;
    var before := columns[..n];
    forall i, j | 0 <= i < j < n ensures before[i].name != before[j].name {
      assert before[i] == columns[i] && before[j] == columns[j];
    }
    forall c | c in before ensures c.name != columns[n].name {
      var i :| 0 <= i < n && before[i] == c;
      assert columns[i] == c;
    }
  }

  /** With distinct names, a row has one key per column. */
  lemma {:induction false} ProjectColumnsCount(item: Record, columns: seq<Column>)
    requires DistinctNames(columns)
    ensures |ProjectColumns(item, columns).Keys| == |columns|
    decreases |columns|
  {
    if columns != [] {
      var n := |columns| - 1;
      DistinctBeforeLast(columns);
      ProjectColumnsCount(item, columns[..n]);
      ProjectColumnsKeys(item, columns[..n]);
    }
  }

  /** With distinct names, each column holds its source key's value, or ""
      when the record lacks that key. */
  lemma {:induction false} ProjectColumnsValue(item: Record, columns: seq<Column>, j: int)
    requires DistinctNames(columns) && 0 <= j < |columns|
    ensures var row := ProjectColumns(item, columns);
            columns[j].name in row && row[columns[j].name] == Get(item, columns[j].source)
    decreases |columns|
  {
    var n := |columns| - 1;
    if j < n {
      var before := columns[..n];
      DistinctBeforeLast(columns);
      assert before[j] == columns[j];
      ProjectColumnsValue(item, before, j);
      assert columns[j].name != columns[n].name;
    }
  }

  /** The empty record gives a row of empty strings, whatever the columns. */
  lemma {:induction false} ProjectColumnsEmpty(columns: seq<Column>)
    ensures forall name :: name in ProjectColumns(map[], columns) ==> ProjectColumns(map[], columns)[name] == ""
    decreases |columns|
  {
    if columns != [] {
      ProjectColumnsEmpty(columns[..|columns| - 1]);
    }
  }

  /** Columns `ilo..ihi` have names apart from those of the later columns among `jlo..jhi`. */
  predicate Apart(columns: seq<Column>, ilo: int, ihi: int, jlo: int, jhi: int)
    requires 0 <= ilo <= ihi <= |columns| && 0 <= jlo <= jhi <= |columns|
  {
    forall i, j :: ilo <= i < ihi && jlo <= j < jhi && i < j ==> columns[i].name != columns[j].name
  }

  // The distinctness of the 31 names, in blocks of eight columns.

  lemma ColumnsApart00()
    ensures Apart(COLUMNS, 0, 8, 0, 8)
  {
  }

  lemma ColumnsApart01()
    ensures Apart(COLUMNS, 0, 8, 8, 16)
  {
  }

  lemma ColumnsApart02()
    ensures Apart(COLUMNS, 0, 8, 16, 24)
  {
  }

  lemma ColumnsApart03()
    ensures Apart(COLUMNS, 0, 8, 24, 31)
  {
  }

  lemma ColumnsApart11()
    ensures Apart(COLUMNS, 8, 12, 8, 16)
  {
  }

  lemma ColumnsApart11Tail()
    ensures Apart(COLUMNS, 12, 16, 12, 16)
  {
  }

  lemma ColumnsApart12()
    ensures Apart(COLUMNS, 8, 16, 16, 24)
  {
  }

  lemma ColumnsApart13()
    ensures Apart(COLUMNS, 8, 16, 24, 31)
  {
  }

  lemma ColumnsApart22()
    ensures Apart(COLUMNS, 16, 24, 16, 24)
  {
  }

  lemma ColumnsApart23()
    ensures Apart(COLUMNS, 16, 24, 24, 31)
  {
  }

  lemma ColumnsApart33()
    ensures Apart(COLUMNS, 24, 31, 24, 31)
  {
  }

  /** The 31 column names are pairwise distinct. */
  lemma ColumnsDistinct()
    ensures |COLUMNS| == 31 && DistinctNames(COLUMNS)
  {
    ColumnsApart00();
    ColumnsApart01();
    ColumnsApart02();
    ColumnsApart03();
    ColumnsApart11();
    ColumnsApart11Tail();
    ColumnsApart12();
    ColumnsApart13();
    ColumnsApart22();
    ColumnsApart23();
    ColumnsApart33();
  }

  /** A row has the 31 column names as its keys, and each column holds the
      value of its source key, or "" when the record lacks it. */
  lemma ProjectRow(item: Record)
    ensures Project(item).Keys == ColumnNames(COLUMNS) && |Project(item)| == 31
    ensures forall j :: 0 <= j < |COLUMNS| ==>
              COLUMNS[j].name in Project(item) && Project(item)[COLUMNS[j].name] == Get(item, COLUMNS[j].source)
  {
    ColumnsDistinct();
    ProjectColumnsKeys(item, COLUMNS);
    ProjectColumnsCount(item, COLUMNS);
    forall j | 0 <= j < |COLUMNS|
      ensures COLUMNS[j].name in Project(item) && Project(item)[COLUMNS[j].name] == Get(item, COLUMNS[j].source)
    {
      ProjectColumnsValue(item, COLUMNS, j);
    }
  }

  /** A row depends only on the source keys: records that agree on them give
      the same row. */
  lemma {:induction false} ProjectColumnsSources(a: Record, b: Record, columns: seq<Column>)
    requires forall c :: c in columns ==> Get(a, c.source) == Get(b, c.source)
    ensures ProjectColumns(a, columns) == ProjectColumns(b, columns)
    decreases |columns|
  {
    if columns != [] {
      var n := |columns| - 1;
      assert columns[n] in columns;
      assert forall c :: c in columns[..n] ==> c in columns;
      ProjectColumnsSources(a, b, columns[..n]);
    }
  }

  /** The empty record gives a row of 31 empty strings. */
  lemma ProjectEmpty()
    ensures |Project(map[])| == 31
    ensures forall name :: name in Project(map[]) ==> Project(map[])[name] == ""
  {
    ColumnsDistinct();
    ProjectColumnsCount(map[], COLUMNS);
    ProjectColumnsEmpty(COLUMNS);
  }

  // ---------------------------------------------------------------------------
  // All rows

  lemma {:induction false} ProjectAllAppend(a: seq<Option<Record>>, b: seq<Option<Record>>)
    ensures ProjectAll(a + b) == ProjectAll(a) + ProjectAll(b)
    decreases |b|
  {
    if b == [] {
      assert a + b == a;
    } else {
      var n := |b| - 1;
      assert (a + b)[..|a + b| - 1] == a + b[..n];
      assert (a + b)[|a + b| - 1] == b[n];
      ProjectAllAppend(a, b[..n]);
    }
  }

  /** One row per non-`None` record. */
  lemma {:induction false} ProjectAllLength(allData: seq<Option<Record>>)
    ensures |ProjectAll(allData)| == CountPresent(allData)
    decreases |allData|
  {
    if allData != [] {
      ProjectAllLength(allData[..|allData| - 1]);
    }
  }

  /** Every row is the row of some record of the input. */
  lemma {:induction false} ProjectAllFrom(allData: seq<Option<Record>>, k: int)
    requires 0 <= k < |ProjectAll(allData)|
    ensures exists i :: 0 <= i < |allData| && allData[i].Some? && ProjectAll(allData)[k] == Project(allData[i].value)
    decreases |allData|
  {
    var n := |allData| - 1;
    var before := allData[..n];
    if k < |ProjectAll(before)| {
      ProjectAllFrom(before, k);
      var i :| 0 <= i < |before| && before[i].Some? && ProjectAll(before)[k] == Project(before[i].value);
      assert allData[i] == before[i];
    } else {
      assert allData[n].Some? && ProjectAll(allData)[k] == Project(allData[n].value);
    }
  }

  /** Without `None` entries, row `i` is the row of record `i`. */
  lemma {:induction false} ProjectAllPresent(allData: seq<Option<Record>>)
    requires forall i :: 0 <= i < |allData| ==> allData[i].Some?
    ensures |ProjectAll(allData)| == |allData|
    ensures forall i :: 0 <= i < |allData| ==> ProjectAll(allData)[i] == Project(allData[i].value)
    decreases |allData|
  {
    if allData != [] {
      var n := |allData| - 1;
      var before := allData[..n];
      assert forall i :: 0 <= i < n ==> before[i] == allData[i];
      ProjectAllPresent(before);
    }
  }

  // ---------------------------------------------------------------------------
  // The list the rows are appended to

  /** The `processed_data` list. */
  class RowTable {
    var rows: seq<Record>

    constructor ()
      ensures rows == []
    {
      rows := [];
    }
  }

  /** `preprocess_case_data(all_data, processed_data)`: appends one row per
      non-`None` record, in order, after the rows already there. */
  method PreprocessCaseData(allData: seq<Option<Record>>, processed: RowTable)
    modifies processed
    ensures processed.rows == old(processed.rows) + ProjectAll(allData)
  {
    for i := 0 to |allData|
      invariant processed.rows == old(processed.rows) + ProjectAll(allData[..i])
    {
      assert allData[..i + 1][..i] == allData[..i];
      match allData[i] {
        case None =>
        case Some(item) =>
          processed.rows := processed.rows + [Project(item)];
      }
    }
    assert allData[..|allData|] == allData;
  }
}
