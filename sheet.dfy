/**
 * The record table as the page sees it: the columns and rows of what it reads
 * from the spreadsheet, the fallback of load_data and the concatenation that
 * save_data writes back.
 */
module Sheet {
  import opened Options

  /** One practice attempt: the four values the page writes per save. */
  datatype Record = Record(date: string, unit: string, level: string, time: real)

  /** A DataFrame of records: its column labels in order and its rows in order. */
  datatype Frame = Frame(columns: seq<string>, rows: seq<Record>)

  const DateColumn: string := "日付"
  const UnitColumn: string := "単元"
  const LevelColumn: string := "レベル"
  const TimeColumn: string := "タイム"

  /** The keys of an entry, in the order the page builds it. */
  const RecordColumns: seq<string> := [DateColumn, UnitColumn, LevelColumn, TimeColumn]

  /** The empty four-column table load_data falls back to. */
  const EmptyFrame: Frame := Frame(RecordColumns, [])

  /** DataFrame.empty: either axis has length zero. */
  predicate IsEmpty(f: Frame)
  {
    |f.columns| == 0 || |f.rows| == 0
  }

  /** A read table that load_data passes through unchanged. */
  predicate Usable(f: Frame)
  {
    !IsEmpty(f) && DateColumn in f.columns
  }

  /**
   * load_data: `read` is the outcome of reading the worksheet, None when the
   * read raised. The result is the read table exactly when it is non-empty and
   * has a date column, and the empty four-column table in every other case.
   */
  function LoadData(read: Option<Frame>): (r: Frame)
    ensures r == EmptyFrame || Usable(r)
    ensures Usable(r) ==> read == Some(r)
    ensures read.Some? && Usable(read.value) ==> r == read.value
  {
    match read
    case None => EmptyFrame
    case Some(df) => if IsEmpty(df) || DateColumn !in df.columns then EmptyFrame else df
  }

  /** The labels of `want`, in order, that `have` lacks. */
  function MissingColumns(have: seq<string>, want: seq<string>): (r: seq<string>)
    ensures forall c | c in r :: c in want && c !in have
    ensures forall c | c in want && c !in have :: c in r
    ensures (forall c | c in want :: c in have) ==> r == []
  {
    if want == [] then []
    else (if want[0] in have then [] else [want[0]]) + MissingColumns(have, want[1..])
  }

  /**
   * pd.concat([df, pd.DataFrame([entry])], ignore_index=True): the old rows
   * followed by the entry; the old columns keep their order and any column of
   * the entry the table lacked is added after them.
   */
  function AppendEntry(df: Frame, entry: Record): (r: Frame)
    ensures |r.rows| == |df.rows| + 1
    ensures r.rows[..|df.rows|] == df.rows && r.rows[|df.rows|] == entry
    ensures |r.columns| >= |df.columns| && r.columns[..|df.columns|] == df.columns
    ensures forall c | c in RecordColumns :: c in r.columns
    ensures forall c | c in r.columns :: c in df.columns || c in RecordColumns
    ensures Usable(r)
  {
    var r := Frame(df.columns + MissingColumns(df.columns, RecordColumns), df.rows + [entry]);
    assert DateColumn in RecordColumns;
    r
  }

  /** A table with all four columns gains no column from an append. */
  lemma AppendKeepsFullColumns(df: Frame, entry: Record)
    requires forall c | c in RecordColumns :: c in df.columns
    ensures AppendEntry(df, entry).columns == df.columns
  {
  }

  /**
   * Read after write: loading what save_data wrote gives it back unchanged,
   * its last row being the new entry.
   */
  lemma ReadAfterWrite(df: Frame, entry: Record)
    ensures LoadData(Some(AppendEntry(df, entry))) == AppendEntry(df, entry)
    ensures var rows := LoadData(Some(AppendEntry(df, entry))).rows; rows[|rows| - 1] == entry
  {
  }

  /**
   * Saving on top of the fallback table writes a sheet of exactly one row,
   * whatever the sheet held before the read failed or came back malformed.
   */
  lemma SaveOnFallbackWritesOneRow(read: Option<Frame>, entry: Record)
    requires LoadData(read) == EmptyFrame
    ensures AppendEntry(LoadData(read), entry) == Frame(RecordColumns, [entry])
  {
    AppendKeepsFullColumns(EmptyFrame, entry);
  }
}
