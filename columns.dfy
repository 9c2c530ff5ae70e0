/**
 * Column shaping in `process_spreadsheets` (backend/app.py): the 70-column
 * rule, the two inserted columns, the normalisation of column labels and the
 * rename map. A DataFrame is its column labels and its rows of cells; how
 * pandas parses a CSV file into one is not modelled.
 */
module Columns {
  import opened Wrappers

  /** A cell of a DataFrame or a table row: `None` is a missing value, NULL once inserted. */
  type Cell = Option<string>

  datatype Table = Table(columns: seq<string>, rows: seq<seq<Cell>>)

  /** Every row has one cell per column. */
  predicate Rectangular(t: Table) {
    forall k :: 0 <= k < |t.rows| ==> |t.rows[k]| == |t.columns|
  }

  /** A pandas DataFrame, rectangular by construction. */
  type DataFrame = t: Table | Rectangular(t) witness Table([], [])

  /** The number of columns every uploaded spreadsheet must have. */
  const RequiredColumns := 70

  // ------------------------------------------------------ label normalisation

  predicate IsUpper(c: char) {
    'A' <= c <= 'Z'
  }

  /** `c.lower()` for an ASCII character. */
  function LowerChar(c: char): (d: char)
    ensures !IsUpper(d)
    ensures !IsUpper(c) ==> d == c
  {
    if IsUpper(c) then (c as int - 'A' as int + 'a' as int) as char else c
  }

  /** `s.lower()` on ASCII: no upper-case letter is left, and a string without one is unchanged. */
  function Lower(s: string): (r: string)
    ensures |r| == |s|
    ensures forall c :: c in r ==> !IsUpper(c)
    ensures (forall c :: c in s ==> !IsUpper(c)) ==> r == s
    decreases |s|
  {
    if s == [] then []
    else
      assert s == [s[0]] + s[1..];
      [LowerChar(s[0])] + Lower(s[1..])
  }

  /**
   * `s.replace(from, to)` for a one-character `from`: every character of the
   * result is a character of `s` other than `from` or one of `to`, and a string
   * without `from` is unchanged.
   */
  function Replace(s: string, from: char, to: string): (r: string)
    ensures forall c :: c in r ==> (c in s && c != from) || c in to
    ensures from !in s ==> r == s
    decreases |s|
  {
    if s == [] then []
    else
      assert s == [s[0]] + s[1..];
      (if s[0] == from then to else [s[0]]) + Replace(s[1..], from, to)
  }

  /**
   * The label lowered, then spaces to `_`, then `%` to `percent`, then `-` dropped:
   * the result holds no space, no `%`, no `-` and no upper-case letter.
   */
  function NormalizeColumn(col: string): (r: string)
    ensures ' ' !in r && '%' !in r && '-' !in r
    ensures forall c :: c in r ==> !IsUpper(c)
  {
    var lowered := Lower(col);
    var underscored := Replace(lowered, ' ', "_");
    var percent := Replace(underscored, '%', "percent");
    assert forall c :: c in "percent" ==> !IsUpper(c) && c != ' ';
    Replace(percent, '-', "")
  }

  /** Replacing in a concatenation replaces in each half. */
  lemma {:induction false} ReplaceAppend(a: string, b: string, from: char, to: string)
    ensures Replace(a + b, from, to) == Replace(a, from, to) + Replace(b, from, to)
    decreases |a|
  {
    if a != [] {
      var piece := if a[0] == from then to else [a[0]];
      var ab := a + b;
      assert ab[0] == a[0] && ab[1..] == a[1..] + b;
      assert Replace(ab, from, to) == piece + Replace(a[1..] + b, from, to);
      ReplaceAppend(a[1..], b, from, to);
      assert Replace(a, from, to) == piece + Replace(a[1..], from, to);
    } else {
      assert a + b == b;
    }
  }

  /** What backend/app.py:76 does to one character: a space becomes `_`, `%` becomes `percent`, `-` is dropped, and a letter is lowered. */
  function NormalizeChar(c: char): string {
    if c == ' ' then "_"
    else if c == '%' then "percent"
    else if c == '-' then ""
    else [LowerChar(c)]
  }

  /** A label normalised one character at a time. */
  function NormalizeEach(col: string): string
    decreases |col|
  {
    if col == [] then [] else NormalizeChar(col[0]) + NormalizeEach(col[1..])
  }

  /** The chain of backend/app.py:76 on a one-character label. */
  lemma NormalizeOneChar(c: char)
    ensures Replace(Replace(Replace([LowerChar(c)], ' ', "_"), '%', "percent"), '-', "") == NormalizeChar(c)
  {
    var d := LowerChar(c);
    assert [d][0] == d && [d][1..] == [];
    if d == ' ' {
      assert Replace([d], ' ', "_") == "_";
    } else if d == '%' {
      assert Replace([d], '%', "percent") == "percent";
      assert '-' !in "percent";
    } else if d == '-' {
      assert Replace([d], '-', "") == "";
    }
  }

  /**
   * The chained `str` calls of backend/app.py:76 act on every character independently:
   * the normalised label is the concatenation of the normalised characters.
   */
  lemma {:induction false} NormalizeColumnPerChar(col: string)
    ensures NormalizeColumn(col) == NormalizeEach(col)
    decreases |col|
  {
    if col != [] {
      var head := [LowerChar(col[0])];
      var rest := Lower(col[1..]);
      assert Lower(col) == head + rest;
      ReplaceAppend(head, rest, ' ', "_");
      var r1 := Replace(head, ' ', "_");
      var s1 := Replace(rest, ' ', "_");
      ReplaceAppend(r1, s1, '%', "percent");
      var r2 := Replace(r1, '%', "percent");
      var s2 := Replace(s1, '%', "percent");
      ReplaceAppend(r2, s2, '-', "");
      NormalizeOneChar(col[0]);
      NormalizeColumnPerChar(col[1..]);
    }
  }

  /** A label that is already lower case and holds no space, `%` or `-` is left as it is. */
  lemma NormalizeKeepsCleanLabel(col: string)
    requires ' ' !in col && '%' !in col && '-' !in col
    requires forall c :: c in col ==> !IsUpper(c)
    ensures NormalizeColumn(col) == col
  {
  }

  /** Normalising a label twice gives the same label as normalising it once. */
  lemma NormalizeIdempotent(col: string)
    ensures NormalizeColumn(NormalizeColumn(col)) == NormalizeColumn(col)
  {
    NormalizeKeepsCleanLabel(NormalizeColumn(col));
  }

  /** The comprehension of backend/app.py:76 over all labels, in order. */
  function NormalizeColumns(cols: seq<string>): (r: seq<string>)
    ensures |r| == |cols|
    ensures forall i :: 0 <= i < |cols| ==> r[i] == NormalizeColumn(cols[i])
  {
    seq(|cols|, i requires 0 <= i < |cols| => NormalizeColumn(cols[i]))
  }

  // ---------------------------------------------------------------- renames

  /** `column_renames`: two of its five entries map a label to itself. */
  const ColumnRenames: map<string, string> := map[
    "property_county" := "county",
    "rank" := "rank_number",
    "tax_delinquent_year" := "tax_delinquency_year",
    "tax_delinquent_first_seen" := "tax_delinquent_first_seen",
    "tax_delinquent_last_updated" := "tax_delinquent_last_updated"
  ]

  /**
   * The rename map applied to one label: a label that is not a key stays as it
   * is, and no label the map would change is left afterwards.
   */
  function RenameColumn(col: string): (r: string)
    ensures col !in ColumnRenames ==> r == col
    ensures r !in {"property_county", "rank", "tax_delinquent_year"}
  {
    if col in ColumnRenames then ColumnRenames[col] else col
  }

  /** Renaming twice gives the same label as renaming once. */
  lemma RenameIdempotent(col: string)
    ensures RenameColumn(RenameColumn(col)) == RenameColumn(col)
  {
    RenameChangesOnlyThree(RenameColumn(col));
  }

  /** The rename changes exactly three labels; the other two keys and every other label stay as they are. */
  lemma RenameChangesOnlyThree(col: string)
    ensures RenameColumn(col) != col <==> col in {"property_county", "rank", "tax_delinquent_year"}
  {
  }

  /** The rename map applied to all labels, in order. */
  function RenameColumns(cols: seq<string>): (r: seq<string>)
    ensures |r| == |cols|
    ensures forall i :: 0 <= i < |cols| ==> r[i] == RenameColumn(cols[i])
  {
    seq(|cols|, i requires 0 <= i < |cols| => RenameColumn(cols[i]))
  }

  // ------------------------------------------------------- DataFrame edits

  /**
   * `df.insert(loc, name, value)`: a new column at position `loc` holding
   * `value` in every row. pandas raises an error instead when `name` is already
   * a label of `df`.
   */
  function InsertColumn(df: DataFrame, loc: nat, name: string, value: string): (r: Option<DataFrame>)
    requires loc <= |df.columns|
    ensures r.None? <==> name in df.columns
    ensures r.Some? ==>
      && r.value.columns == df.columns[..loc] + [name] + df.columns[loc..]
      && |r.value.rows| == |df.rows|
      && forall k :: 0 <= k < |df.rows| ==> r.value.rows[k] == df.rows[k][..loc] + [Some(value)] + df.rows[k][loc..]
  {
    if name in df.columns then None
    else
      var rows := seq(|df.rows|, k requires 0 <= k < |df.rows| => df.rows[k][..loc] + [Some(value)] + df.rows[k][loc..]);
      Some(Table(df.columns[..loc] + [name] + df.columns[loc..], rows))
  }

  /** `df.columns = cols`: new labels, one per existing column. */
  function WithColumns(df: DataFrame, cols: seq<string>): (r: DataFrame)
    requires |cols| == |df.columns|
    ensures r.columns == cols && r.rows == df.rows
  {
    Table(cols, df.rows)
  }

  // ------------------------------------------------------- column selection

  /** What `df[name]` selects: no column (`KeyError`), one column (a Series) or several (a DataFrame). */
  datatype Selection = NoSuchLabel | OneColumn(index: nat) | SeveralColumns

  /** The first position whose label is `name`. */
  function IndexOf(cols: seq<string>, name: string): (i: nat)
    requires name in cols
    ensures i < |cols| && cols[i] == name && name !in cols[..i]
    decreases |cols|
  {
    if cols[0] == name then 0
    else
      var i := IndexOf(cols[1..], name);
      assert cols[..i + 1] == [cols[0]] + cols[1..][..i];
      i + 1
  }

  /** Two positions hold the label `name`. */
  predicate Repeated(cols: seq<string>, name: string) {
    exists i, j :: 0 <= i < j < |cols| && cols[i] == name && cols[j] == name
  }

  /**
   * `df[name]` over the labels `cols`: no column when no label is `name`, the
   * one column when exactly one is, and several when two or more are.
   */
  function Select(cols: seq<string>, name: string): (s: Selection)
    ensures s == NoSuchLabel <==> name !in cols
    ensures s.OneColumn? ==>
      && s.index < |cols| && cols[s.index] == name
      && forall j :: 0 <= j < |cols| && cols[j] == name ==> j == s.index
    ensures s == SeveralColumns <==> Repeated(cols, name)
  {
    if name !in cols then NoSuchLabel
    else if Repeated(cols, name) then SeveralColumns
    else
      var i := IndexOf(cols, name);
      OneColumn(i)
  }

  /** The selection of a label that sits two positions further on. */
  function ShiftedTwo(s: Selection): Selection {
    match s
    case OneColumn(i) => OneColumn(i + 2)
    case other => other
  }

  // ------------------------------------------------------- one file, a batch

  /**
   * Why a file is not processed: the wrong column count, which the route
   * answers with a 400, or one of the errors raised outside every `try`: an
   * inserted label already present (`df.insert`), a smallint column the range
   * check cannot compare, or a date column missing or present more than once
   * once the labels are shaped.
   */
  datatype Rejection = WrongColumnCount | DuplicateColumn(name: string) | UnusableSmallintColumn | UnusableDateColumn

  /** `smallint_columns`, in the order the range check visits them. */
  const SmallintColumns: seq<string> := [
    "tax_delinquency_year", "tax_delinquency", "prior_deed_transfer", "preforeclosure", "phantom", "invol_lien",
    "stack_count", "rank_number", "year_built", "baths", "beds", "vacant"
  ]

  /** `date_columns`: the labels every shaped file must have, in the order the loop visits them. */
  const DateColumns: seq<string> := [
    "prediction_date", "last_sale_date", "first_seen", "last_updated", "invol_lien_first_seen",
    "invol_lien_last_updated", "phantom_first_seen", "phantom_last_updated", "mortgage_original_due_date",
    "mortgage_default_date", "notice_of_sale_auction_date", "preforeclosure_first_seen",
    "preforeclosure_last_updated", "prior_deed_transfer_first_seen", "prior_deed_transfer_last_updated",
    "tax_delinquent_last_updated", "vacancy_date", "vacancy_first_seen", "vacancy_last_updated",
    "owner_last_exported_date", "property_last_exported_date"
  ]

  /** A cell that still holds a value once `""` and `"NaN"` have been replaced with `None`. */
  predicate HasValue(c: Cell) {
    c.Some? && c.value != "" && c.value != "NaN"
  }

  /**
   * The range check of one smallint column gets through: the label is absent,
   * or it selects one column with at least one value. Over several columns
   * `max()` gives a Series, and over a column without a value `pd.NA`; the
   * comparison in the `if` raises on either.
   */
  predicate RangeCheckPasses(df: DataFrame, col: string) {
    match Select(df.columns, col)
    case NoSuchLabel => true
    case OneColumn(i) => exists k :: 0 <= k < |df.rows| && HasValue(df.rows[k][i])
    case SeveralColumns => false
  }

  /** The loop over `smallint_columns` gets through. */
  predicate SmallintsPass(df: DataFrame) {
    forall j :: 0 <= j < |SmallintColumns| ==> RangeCheckPasses(df, SmallintColumns[j])
  }

  /**
   * Every label of `wanted` selects exactly one column: a missing one raises
   * `KeyError`, and `pd.to_datetime` of several columns raises `ValueError`.
   */
  predicate SelectsEach(cols: seq<string>, wanted: seq<string>) {
    forall j :: 0 <= j < |wanted| ==> Select(cols, wanted[j]).OneColumn?
  }

  /** Neither inserted label is one of the labels the two loops look up. */
  lemma NamesNotLookedUp()
    ensures forall j :: 0 <= j < |SmallintColumns| ==> SmallintColumns[j] != "source_name" && SmallintColumns[j] != "list"
    ensures forall j :: 0 <= j < |DateColumns| ==> DateColumns[j] != "source_name" && DateColumns[j] != "list"
  {
  }

  /**
   * What a processed file looks like next to the uploaded one: `source_name`
   * and `list` first, then the uploaded labels normalised and renamed, in
   * order; every row starts with the two names, then the uploaded cells.
   */
  ghost predicate ShapedFrom(out: Table, df: Table, sourceName: string, listName: string) {
    && |out.columns| == |df.columns| + 2
    && out.columns[0] == "source_name"
    && out.columns[1] == "list"
    && (forall i :: 0 <= i < |df.columns| ==> out.columns[i + 2] == RenameColumn(NormalizeColumn(df.columns[i])))
    && |out.rows| == |df.rows|
    && forall k :: 0 <= k < |df.rows| ==> out.rows[k] == [Some(sourceName), Some(listName)] + df.rows[k]
  }

  /**
   * The labelling part of the loop body: the column-count check, the two
   * inserts, the normalisation and the rename. It succeeds exactly when the
   * file has 70 columns and neither `source_name` nor `list` among them.
   */
  function LabelFile(df: DataFrame, sourceName: string, listName: string): (r: Result<DataFrame, Rejection>)
    ensures |df.columns| != RequiredColumns ==> r == Err(WrongColumnCount)
    ensures r.Ok? <==> |df.columns| == RequiredColumns && "source_name" !in df.columns && "list" !in df.columns
  {
    if |df.columns| != RequiredColumns then Err(WrongColumnCount)
    else
      match InsertColumn(df, 0, "source_name", sourceName)
      case None => Err(DuplicateColumn("source_name"))
      case Some(withSource) =>
        match InsertColumn(withSource, 1, "list", listName)
        case None => Err(DuplicateColumn("list"))
        case Some(withList) =>
          var named := WithColumns(withList, NormalizeColumns(withList.columns));
          Ok(WithColumns(named, RenameColumns(named.columns)))
  }

  /** A labelled file has the two name columns first, then the uploaded columns normalised and renamed. */
  lemma LabelFileShaped(df: DataFrame, sourceName: string, listName: string)
    requires LabelFile(df, sourceName, listName).Ok?
    ensures ShapedFrom(LabelFile(df, sourceName, listName).value, df, sourceName, listName)
  {
    var withSource := InsertColumn(df, 0, "source_name", sourceName).value;
    var withList := InsertColumn(withSource, 1, "list", listName).value;
    BothInsertsShape(df, sourceName, listName, withSource, withList, LabelFile(df, sourceName, listName).value);
  }

  /**
   * One pass of the loop body over an uploaded file: the labelling, the
   * smallint range check, then the conversion of every date column (the value
   * conversions themselves are not modelled). A file is processed exactly when
   * it is labelled and gets through both loops.
   */
  function ShapeFile(df: DataFrame, sourceName: string, listName: string): (r: Result<DataFrame, Rejection>)
    ensures |df.columns| != RequiredColumns ==> r == Err(WrongColumnCount)
    ensures r.Ok? ==> |df.columns| == RequiredColumns && "source_name" !in df.columns && "list" !in df.columns
  {
    match LabelFile(df, sourceName, listName)
    case Err(e) => Err(e)
    case Ok(out) =>
      if !SmallintsPass(out) then Err(UnusableSmallintColumn)
      else if !SelectsEach(out.columns, DateColumns) then Err(UnusableDateColumn)
      else Ok(out)
  }

  /**
   * A labelled file is processed, unchanged, exactly when it gets through the
   * range check and every date column selects one column; otherwise the first
   * loop that raises decides the rejection.
   */
  lemma ShapeFileChecks(df: DataFrame, sourceName: string, listName: string)
    requires LabelFile(df, sourceName, listName).Ok?
    ensures ShapeFile(df, sourceName, listName).Ok? <==>
      SmallintsPass(LabelFile(df, sourceName, listName).value) &&
      SelectsEach(LabelFile(df, sourceName, listName).value.columns, DateColumns)
    ensures ShapeFile(df, sourceName, listName).Ok? ==> ShapeFile(df, sourceName, listName) == LabelFile(df, sourceName, listName)
    ensures !SmallintsPass(LabelFile(df, sourceName, listName).value) ==>
      ShapeFile(df, sourceName, listName) == Err(UnusableSmallintColumn)
    ensures (SmallintsPass(LabelFile(df, sourceName, listName).value) &&
             !SelectsEach(LabelFile(df, sourceName, listName).value.columns, DateColumns)) ==>
      ShapeFile(df, sourceName, listName) == Err(UnusableDateColumn)
  {
  }

  /** A processed file has the two name columns first, then the uploaded columns normalised and renamed. */
  lemma ShapeFileShaped(df: DataFrame, sourceName: string, listName: string)
    requires ShapeFile(df, sourceName, listName).Ok?
    ensures ShapedFrom(ShapeFile(df, sourceName, listName).value, df, sourceName, listName)
  {
    LabelFileShaped(df, sourceName, listName);
  }

  /** The uploaded labels as backend/app.py:76 and the rename leave them, in order. */
  function ShapedLabels(cols: seq<string>): (r: seq<string>)
    ensures |r| == |cols|
    ensures forall i :: 0 <= i < |cols| ==> r[i] == RenameColumn(NormalizeColumn(cols[i]))
  {
    RenameColumns(NormalizeColumns(cols))
  }

  /** The labels of a shaped frame: the two names, then the uploaded labels normalised and renamed. */
  lemma ShapedColumns(out: Table, df: Table, sourceName: string, listName: string)
    requires ShapedFrom(out, df, sourceName, listName)
    ensures out.columns == ["source_name", "list"] + ShapedLabels(df.columns)
  {
    var labels := ShapedLabels(df.columns);
    forall i | 0 <= i < |out.columns|
      ensures out.columns[i] == (["source_name", "list"] + labels)[i]
    {
      if i >= 2 {
        assert out.columns[i] == RenameColumn(NormalizeColumn(df.columns[i - 2]));
      }
    }
  }

  /**
   * Behind the two name columns, any other label selects what it selects
   * among the uploaded labels alone, two positions further on.
   */
  lemma SelectBehindNames(labels: seq<string>, name: string)
    requires name != "source_name" && name != "list"
    ensures Select(["source_name", "list"] + labels, name) == ShiftedTwo(Select(labels, name))
  {
    var s := Select(labels, name);
    if s == NoSuchLabel {
      NoneBehindNames(labels, name);
    } else if s.OneColumn? {
      OneBehindNames(labels, name, s.index);
    } else {
      SeveralBehindNames(labels, name);
    }
  }

  /** A label absent from the uploaded labels is absent behind the two names too. */
  lemma NoneBehindNames(labels: seq<string>, name: string)
    requires name != "source_name" && name != "list"
    requires name !in labels
    ensures name !in ["source_name", "list"] + labels
  {
    var all := ["source_name", "list"] + labels;
    forall j | 0 <= j < |all|
      ensures all[j] != name
    {
      if j >= 2 {
        assert all[j] == labels[j - 2];
      }
    }
  }

  /** A label at the single position `i` of the uploaded labels sits at the single position `i + 2` behind the names. */
  lemma OneBehindNames(labels: seq<string>, name: string, i: nat)
    requires name != "source_name" && name != "list"
    requires Select(labels, name) == OneColumn(i)
    ensures Select(["source_name", "list"] + labels, name) == OneColumn(i + 2)
  {
    var all := ["source_name", "list"] + labels;
    assert all[i + 2] == name;
    forall j | 0 <= j < |all| && all[j] == name
      ensures j == i + 2
    {
      assert j >= 2;
      assert all[j] == labels[j - 2];
    }
  }

  /** A label that occurs twice among the uploaded labels occurs twice behind the names. */
  lemma SeveralBehindNames(labels: seq<string>, name: string)
    requires Select(labels, name) == SeveralColumns
    ensures Select(["source_name", "list"] + labels, name) == SeveralColumns
  {
    var all := ["source_name", "list"] + labels;
    var a, b :| 0 <= a < b < |labels| && labels[a] == name && labels[b] == name;
    assert all[a + 2] == name && all[b + 2] == name;
    assert all[a + 2] == labels[a] && all[b + 2] == labels[b];
  }

  /**
   * The two name columns in front change nothing about the range check or the
   * date lookups: they pass on the framed columns exactly when they pass on the
   * uploaded columns under the same labels.
   */
  lemma ChecksBehindNames(out: DataFrame, df: DataFrame, labels: seq<string>, sourceName: string, listName: string)
    requires |labels| == |df.columns|
    requires out.columns == ["source_name", "list"] + labels
    requires |out.rows| == |df.rows|
    requires forall k :: 0 <= k < |df.rows| ==> out.rows[k] == [Some(sourceName), Some(listName)] + df.rows[k]
    ensures SmallintsPass(out) <==> SmallintsPass(WithColumns(df, labels))
    ensures SelectsEach(out.columns, DateColumns) <==> SelectsEach(labels, DateColumns)
  {
    NamesNotLookedUp();
    forall j | 0 <= j < |SmallintColumns|
      ensures RangeCheckPasses(out, SmallintColumns[j]) <==> RangeCheckPasses(WithColumns(df, labels), SmallintColumns[j])
    {
      RangeCheckBehindNames(out, df, labels, sourceName, listName, SmallintColumns[j]);
    }
    forall j | 0 <= j < |DateColumns|
      ensures Select(out.columns, DateColumns[j]).OneColumn? <==> Select(labels, DateColumns[j]).OneColumn?
    {
      SelectBehindNames(labels, DateColumns[j]);
    }
  }

  /** The range check of one column, on the framed columns and on the uploaded ones under the same labels. */
  lemma RangeCheckBehindNames(out: DataFrame, df: DataFrame, labels: seq<string>, sourceName: string, listName: string, col: string)
    requires |labels| == |df.columns|
    requires out.columns == ["source_name", "list"] + labels
    requires |out.rows| == |df.rows|
    requires forall k :: 0 <= k < |df.rows| ==> out.rows[k] == [Some(sourceName), Some(listName)] + df.rows[k]
    requires col != "source_name" && col != "list"
    ensures RangeCheckPasses(out, col) <==> RangeCheckPasses(WithColumns(df, labels), col)
  {
    SelectBehindNames(labels, col);
    var s := Select(labels, col);
    if s.OneColumn? {
      var i := s.index;
      if exists k :: 0 <= k < |df.rows| && HasValue(df.rows[k][i]) {
        var k :| 0 <= k < |df.rows| && HasValue(df.rows[k][i]);
        assert out.rows[k][i + 2] == df.rows[k][i];
      }
      if exists k :: 0 <= k < |out.rows| && HasValue(out.rows[k][i + 2]) {
        var k :| 0 <= k < |out.rows| && HasValue(out.rows[k][i + 2]);
        assert out.rows[k][i + 2] == df.rows[k][i];
      }
    }
  }

  /**
   * A file is processed exactly when it has 70 columns, neither `source_name`
   * nor `list` among them, and its own columns under their normalised and
   * renamed labels pass the range check and hold every date column once.
   */
  lemma ShapeFileAccepts(df: DataFrame, sourceName: string, listName: string)
    ensures ShapeFile(df, sourceName, listName).Ok? <==>
      && |df.columns| == RequiredColumns && "source_name" !in df.columns && "list" !in df.columns
      && SmallintsPass(WithColumns(df, ShapedLabels(df.columns)))
      && SelectsEach(ShapedLabels(df.columns), DateColumns)
  {
    if LabelFile(df, sourceName, listName).Ok? {
      var out := LabelFile(df, sourceName, listName).value;
      LabelFileShaped(df, sourceName, listName);
      ShapedColumns(out, df, sourceName, listName);
      ShapeFileChecks(df, sourceName, listName);
      ChecksBehindNames(out, df, ShapedLabels(df.columns), sourceName, listName);
    }
  }

  /** The two inserts, the normalisation and the rename together give a `ShapedFrom` frame. */
  lemma BothInsertsShape(df: DataFrame, sourceName: string, listName: string, withSource: DataFrame, withList: DataFrame, out: DataFrame)
    requires InsertColumn(df, 0, "source_name", sourceName) == Some(withSource)
    requires InsertColumn(withSource, 1, "list", listName) == Some(withList)
    requires out.columns == RenameColumns(NormalizeColumns(withList.columns)) && out.rows == withList.rows
    ensures ShapedFrom(out, df, sourceName, listName)
  {
    InsertedColumns(df, sourceName, listName, withSource, withList);
    InsertedRows(df, sourceName, listName, withSource, withList);
    SourceNameLabelFirst(df.columns, withList.columns, out.columns);
    ListLabelSecond(df.columns, withList.columns, out.columns);
    forall i | 0 <= i < |df.columns|
      ensures out.columns[i + 2] == RenameColumn(NormalizeColumn(df.columns[i]))
    {
      UploadedLabelFollows(withList.columns[..2], df.columns, withList.columns, out.columns, i);
    }
  }

  /** After shaping, the first label is `source_name`. */
  lemma SourceNameLabelFirst(cols: seq<string>, inserted: seq<string>, out: seq<string>)
    requires inserted == ["source_name", "list"] + cols
    requires out == RenameColumns(NormalizeColumns(inserted))
    ensures out[0] == "source_name"
  {
    InsertedLabelStays(inserted[0]);
  }

  /** After shaping, the second label is `list`. */
  lemma ListLabelSecond(cols: seq<string>, inserted: seq<string>, out: seq<string>)
    requires inserted == ["source_name", "list"] + cols
    requires out == RenameColumns(NormalizeColumns(inserted))
    ensures out[1] == "list"
  {
    InsertedLabelStays(inserted[1]);
  }

  /** After shaping, the uploaded label at position `i` follows the two names, normalised and renamed. */
  lemma UploadedLabelFollows(head: seq<string>, cols: seq<string>, inserted: seq<string>, out: seq<string>, i: nat)
    requires |head| == 2 && inserted == head + cols && i < |cols|
    requires out == RenameColumns(NormalizeColumns(inserted))
    ensures out[i + 2] == RenameColumn(NormalizeColumn(cols[i]))
  {
    var named := NormalizeColumns(inserted);
    assert named[i + 2] == NormalizeColumn(cols[i]);
  }

  /** After both inserts the labels are `source_name`, `list`, then the uploaded ones. */
  lemma InsertedColumns(df: DataFrame, sourceName: string, listName: string, withSource: DataFrame, withList: DataFrame)
    requires InsertColumn(df, 0, "source_name", sourceName) == Some(withSource)
    requires InsertColumn(withSource, 1, "list", listName) == Some(withList)
    ensures withList.columns == ["source_name", "list"] + df.columns
  {
    assert withSource.columns == ["source_name"] + df.columns;
  }

  /** After both inserts every row starts with the two names, then the uploaded cells. */
  lemma InsertedRows(df: DataFrame, sourceName: string, listName: string, withSource: DataFrame, withList: DataFrame)
    requires InsertColumn(df, 0, "source_name", sourceName) == Some(withSource)
    requires InsertColumn(withSource, 1, "list", listName) == Some(withList)
    ensures |withList.rows| == |df.rows|
    ensures forall k :: 0 <= k < |df.rows| ==> withList.rows[k] == [Some(sourceName), Some(listName)] + df.rows[k]
  {
    forall k | 0 <= k < |df.rows|
      ensures withList.rows[k] == [Some(sourceName), Some(listName)] + df.rows[k]
    {
      assert withSource.rows[k] == [Some(sourceName)] + df.rows[k];
    }
  }

  /** The two inserted labels survive normalisation and renaming unchanged. */
  lemma InsertedLabelStays(name: string)
    requires name == "source_name" || name == "list"
    ensures RenameColumn(NormalizeColumn(name)) == name
  {
    NormalizeKeepsCleanLabel(name);
  }

  // ---------------------------------------------------------- the batch

  /** Applies `f` to every element in order and stops at the first error: all the results, or that error. */
  function Traverse<A, B, E>(xs: seq<A>, f: A -> Result<B, E>): (r: Result<seq<B>, E>)
    ensures r.Ok? <==> forall i :: 0 <= i < |xs| ==> f(xs[i]).Ok?
    ensures r.Ok? ==> |r.value| == |xs| && forall i :: 0 <= i < |xs| ==> f(xs[i]) == Ok(r.value[i])
    decreases |xs|
  {
    if xs == [] then Ok([])
    else
      var init := xs[..|xs| - 1];
      assert forall i :: 0 <= i < |init| ==> init[i] == xs[i];
      match Traverse(init, f)
      case Err(e) => Err(e)
      case Ok(done) =>
        match f(xs[|xs| - 1])
        case Err(e) => Err(e)
        case Ok(y) => Ok(done + [y])
  }

  /** Once a prefix is rejected, the whole sequence is rejected the same way: later elements are never looked at. */
  lemma {:induction false} TraverseKeepsRejection<A, B, E>(xs: seq<A>, k: nat, f: A -> Result<B, E>)
    requires k <= |xs|
    requires Traverse(xs[..k], f).Err?
    ensures Traverse(xs, f) == Traverse(xs[..k], f)
    decreases |xs| - k
  {
    if k < |xs| {
      var longer := xs[..k + 1];
      assert longer[..k] == xs[..k];
      TraverseKeepsRejection(xs, k + 1, f);
    } else {
      assert xs[..k] == xs;
    }
  }

  /** A rejection is the error of the first element that fails, every earlier element passing. */
  lemma {:induction false} TraverseFirstRejection<A, B, E>(xs: seq<A>, f: A -> Result<B, E>)
    requires Traverse(xs, f).Err?
    ensures exists i ::
      && 0 <= i < |xs|
      && f(xs[i]) == Err(Traverse(xs, f).error)
      && (forall j :: 0 <= j < i ==> f(xs[j]).Ok?)
    decreases |xs|
  {
    var init := xs[..|xs| - 1];
    assert forall i :: 0 <= i < |init| ==> init[i] == xs[i];
    if Traverse(init, f).Err? {
      TraverseFirstRejection(init, f);
      var i :| 0 <= i < |init|
        && f(init[i]) == Err(Traverse(init, f).error)
        && forall j :: 0 <= j < i ==> f(init[j]).Ok?;
      assert xs[i] == init[i];
    }
  }

  /** The loop body under the request's two names. */
  function ShapeWith(sourceName: string, listName: string): DataFrame -> Result<DataFrame, Rejection> {
    df => ShapeFile(df, sourceName, listName)
  }

  /**
   * The loop over `uploaded_files` as a whole: every file processed, in upload
   * order, or the rejection of the first file that fails.
   */
  function ShapeAll(files: seq<DataFrame>, sourceName: string, listName: string): (r: Result<seq<DataFrame>, Rejection>)
    ensures r.Ok? <==> forall i :: 0 <= i < |files| ==> ShapeFile(files[i], sourceName, listName).Ok?
    ensures r.Ok? ==>
      && |r.value| == |files|
      && forall i :: 0 <= i < |files| ==> ShapeFile(files[i], sourceName, listName) == Ok(r.value[i])
  {
    Traverse(files, ShapeWith(sourceName, listName))
  }

  /** One more file: a rejected prefix stays rejected, otherwise the file's own result decides. */
  lemma ShapeAllStep(files: seq<DataFrame>, sourceName: string, listName: string)
    requires files != []
    ensures ShapeAll(files, sourceName, listName) ==
      match ShapeAll(files[..|files| - 1], sourceName, listName)
      case Err(e) => Err(e)
      case Ok(done) =>
        match ShapeFile(files[|files| - 1], sourceName, listName)
        case Err(e) => Err(e)
        case Ok(df) => Ok(done + [df])
  {
  }

  /** Once a prefix of the files is rejected, the whole batch is rejected the same way: later files are never looked at. */
  lemma ShapeAllKeepsRejection(files: seq<DataFrame>, k: nat, sourceName: string, listName: string)
    requires k <= |files|
    requires ShapeAll(files[..k], sourceName, listName).Err?
    ensures ShapeAll(files, sourceName, listName) == ShapeAll(files[..k], sourceName, listName)
  {
    TraverseKeepsRejection(files, k, ShapeWith(sourceName, listName));
  }

  /** A rejected batch is rejected for the first file that fails, every earlier file passing. */
  lemma ShapeAllFirstRejection(files: seq<DataFrame>, sourceName: string, listName: string)
    requires ShapeAll(files, sourceName, listName).Err?
    ensures exists i ::
      && 0 <= i < |files|
      && ShapeFile(files[i], sourceName, listName) == Err(ShapeAll(files, sourceName, listName).error)
      && (forall j :: 0 <= j < i ==> ShapeFile(files[j], sourceName, listName).Ok?)
  {
    TraverseFirstRejection(files, ShapeWith(sourceName, listName));
  }

  /**
   * The first file without 70 columns rejects the batch with the column-count
   * error, provided every earlier file passed.
   */
  lemma FirstWrongWidthRejects(files: seq<DataFrame>, i: nat, sourceName: string, listName: string)
    requires i < |files| && |files[i].columns| != RequiredColumns
    requires forall j :: 0 <= j < i ==> ShapeFile(files[j], sourceName, listName).Ok?
    ensures ShapeAll(files, sourceName, listName) == Err(WrongColumnCount)
  {
    var prefix := files[..i + 1];
    assert prefix[..i] == files[..i];
    assert forall j :: 0 <= j < i ==> files[..i][j] == files[j];
    ShapeAllKeepsRejection(files, i + 1, sourceName, listName);
  }
}
