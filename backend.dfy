/**
 * The two spreadsheet routes of the Flask backend (backend/app.py):
 * `process_spreadsheets` validates the upload, shapes every file, replaces
 * the contents of `audantic_raw_list` with the shaped rows, counts and
 * stores the unique rows, and keeps them in the process-wide
 * `uniques_list_df`; `download_uniques_list` hands that list out.
 * The database is part of the `Server` state; whether the database calls
 * fail is a parameter.
 */
module Backend {
  import opened Wrappers
  import opened Columns
  import opened Uniques

  /** What a route sends back. */
  datatype Response =
    | Json(status: int, message: string, uniqueCount: Option<nat>, error: Option<string>)
      /** The rows sent as a CSV download under a file name. */
    | CsvAttachment(fileName: string, rows: seq<Record>)
      /** An exception raised outside every `try`: Flask's own "500 Internal Server Error" page. */
    | UncaughtError

  const NoFilesUploaded := Json(400, "No files uploaded.", None, None)
  const NamesMissing := Json(400, "Source name or list name not provided.", None, None)
  const WrongColumnCountResponse := Json(400, "The spreadsheet must contain exactly 70 columns.", None, None)
  const NoValidFilesProcessed := Json(400, "No valid files processed.", None, None)
  const SuccessMessage := "Spreadsheets processed successfully."
  const NoUniquesList := Json(404, "No uniques list available.", None, None)
  const UniquesFileName := "uniques_list.csv"

  /** The exceptions the database calls of `process_spreadsheets` can raise, most specific first. */
  datatype DbFailure =
    | NumericValueOutOfRange(detail: string)
    | DataError(pgerror: string)
    | OtherException(detail: string)

  /** The handlers of the `try` around the database work. */
  function FailureResponse(f: DbFailure): (resp: Response)
    ensures resp.Json? && resp.uniqueCount.None?
    ensures resp.status == (if f.OtherException? then 500 else 400)
    ensures resp.error == Some(if f.DataError? then f.pgerror else f.detail)
  {
    match f
    case NumericValueOutOfRange(detail) => Json(400, "Numeric value out of range error.", None, Some(detail))
    case DataError(pgerror) => Json(400, "Data error occurred while processing the spreadsheets.", None, Some(pgerror))
    case OtherException(detail) => Json(500, "An error occurred while processing the spreadsheets.", None, Some(detail))
  }

  /** `if not value`: a form field counts only when it is present and non-empty. */
  predicate Provided(value: Option<string>) {
    value.Some? && value.value != ""
  }

  /** The rows of one frame as table rows, in frame order. */
  function FrameRecords(df: DataFrame): (records: seq<Record>)
    ensures |records| == |df.rows|
    ensures forall k :: 0 <= k < |df.rows| ==> records[k] == Record(df.columns, df.rows[k])
  {
    seq(|df.rows|, k requires 0 <= k < |df.rows| => Record(df.columns, df.rows[k]))
  }

  /** The number of data rows across the uploaded files. */
  function TotalRows(files: seq<DataFrame>): nat
    decreases |files|
  {
    if files == [] then 0
    else TotalRows(files[..|files| - 1]) + |files[|files| - 1].rows|
  }

  /** The rows of the files before file `i`, and those of file `i`, are among the rows of all of them. */
  lemma {:induction false} TotalRowsPrefix(files: seq<DataFrame>, i: nat)
    requires i < |files|
    ensures TotalRows(files[..i]) + |files[i].rows| <= TotalRows(files)
    decreases |files|
  {
    var init := files[..|files| - 1];
    if i < |init| {
      TotalRowsPrefix(init, i);
      assert init[..i] == files[..i];
    } else {
      assert files[..i] == init;
    }
  }

  /**
   * The processed frames concatenated and inserted one row at a time: one
   * table row per frame row, each with its own frame's column list, and
   * nothing else.
   */
  function Records(frames: seq<DataFrame>): (records: seq<Record>)
    ensures |records| == TotalRows(frames)
    ensures forall r :: r in records <==>
      exists i, k :: 0 <= i < |frames| && 0 <= k < |frames[i].rows| && r == Record(frames[i].columns, frames[i].rows[k])
    decreases |frames|
  {
    if frames == [] then []
    else
      var init := frames[..|frames| - 1];
      var last := frames[|frames| - 1];
      assert forall i :: 0 <= i < |init| ==> init[i] == frames[i];
      Records(init) + FrameRecords(last)
  }

  /** Row `k` of file `i` is inserted after the rows of the files before it, with file `i`'s own columns. */
  lemma {:induction false} RecordsAt(frames: seq<DataFrame>, i: nat, k: nat)
    requires i < |frames| && k < |frames[i].rows|
    ensures TotalRows(frames[..i]) + k < |Records(frames)|
    ensures Records(frames)[TotalRows(frames[..i]) + k] == Record(frames[i].columns, frames[i].rows[k])
    decreases |frames|
  {
    var init := frames[..|frames| - 1];
    if i < |init| {
      RecordsAt(init, i, k);
      TotalRowsPrefix(init, i);
      assert init[..i] == frames[..i];
    } else {
      assert frames[..i] == init;
    }
  }

  /** What one successful request leaves in the database and in `uniques_list_df`. */
  datatype Commit = Commit(rawList: seq<Record>, uniquesList: seq<Record>)

  /** The response of `process_spreadsheets` and, when it succeeds, what it commits. */
  datatype Reply = Reply(response: Response, commit: Option<Commit>)

  /**
   * `process_spreadsheets` as a whole. A request commits exactly when files were
   * uploaded, both names were given, every file passed and the database work
   * raised nothing; it then answers 200 with the size of the new uniques list.
   */
  function Process(files: seq<DataFrame>, sourceName: Option<string>, listName: Option<string>,
                   masterList: seq<Record>, failure: Option<DbFailure>): (r: Reply)
    ensures files == [] ==> r == Reply(NoFilesUploaded, None)
    ensures files != [] && !(Provided(sourceName) && Provided(listName)) ==> r == Reply(NamesMissing, None)
    ensures r.commit.Some? <==>
      && files != []
      && Provided(sourceName) && Provided(listName)
      && ShapeAll(files, sourceName.value, listName.value).Ok?
      && failure.None?
    ensures r.commit.Some? ==>
      var rawList := Records(ShapeAll(files, sourceName.value, listName.value).value);
      r.commit.value == Commit(rawList, UniqueRows(rawList, masterList))
    ensures r.commit.Some? ==> r.response == Json(200, SuccessMessage, Some(|r.commit.value.uniquesList|), None)
    ensures r.commit.None? ==> !(r.response.Json? && r.response.status == 200)
  {
    if files == [] then Reply(NoFilesUploaded, None)
    else if !Provided(sourceName) || !Provided(listName) then Reply(NamesMissing, None)
    else
      match ShapeAll(files, sourceName.value, listName.value)
      case Err(WrongColumnCount) => Reply(WrongColumnCountResponse, None)
      case Err(_) => Reply(UncaughtError, None)
      case Ok(frames) =>
        match failure
        case Some(f) => Reply(FailureResponse(f), None)
        case None =>
          var rawList := Records(frames);
          UniqueCountIsListSize(rawList, masterList);
          Reply(Json(200, SuccessMessage, Some(UniqueCount(rawList, masterList)), None),
                Some(Commit(rawList, UniqueRows(rawList, masterList))))
  }

  /** The first two columns of a shaped frame hold the source name and the list name on every row. */
  predicate Tagged(df: DataFrame, sourceName: string, listName: string) {
    && |df.columns| >= 2
    && df.columns[0] == "source_name"
    && df.columns[1] == "list"
    && forall k :: 0 <= k < |df.rows| ==> df.rows[k][0] == Some(sourceName) && df.rows[k][1] == Some(listName)
  }

  lemma LookupFirst(columns: seq<string>, values: seq<Cell>, name: string)
    requires |columns| >= 1 && |values| >= 1 && columns[0] == name
    ensures Lookup(columns, values, name) == values[0]
  {
  }

  lemma LookupSecond(columns: seq<string>, values: seq<Cell>, name: string)
    requires |columns| >= 2 && |values| >= 2 && columns[1] == name && columns[0] != name
    ensures Lookup(columns, values, name) == values[1]
  {
    assert columns[..1] == [columns[0]];
  }

  /** Every row of a tagged frame answers the source name and the list name when asked for them. */
  lemma {:induction false} TaggedRecords(frames: seq<DataFrame>, sourceName: string, listName: string)
    requires forall i :: 0 <= i < |frames| ==> Tagged(frames[i], sourceName, listName)
    ensures forall r :: r in Records(frames) ==>
      Field(r, "source_name") == Some(sourceName) && Field(r, "list") == Some(listName)
    decreases |frames|
  {
    if frames != [] {
      var last := frames[|frames| - 1];
      TaggedRecords(frames[..|frames| - 1], sourceName, listName);
      forall r | r in FrameRecords(last)
        ensures Field(r, "source_name") == Some(sourceName) && Field(r, "list") == Some(listName)
      {
        var k :| 0 <= k < |last.rows| && FrameRecords(last)[k] == r;
        assert |last.rows[k]| == |last.columns|;
        LookupFirst(last.columns, last.rows[k], last.columns[0]);
        LookupSecond(last.columns, last.rows[k], last.columns[1]);
      }
    }
  }

  /** A processed file is tagged with the names it was processed under. */
  lemma ShapedIsTagged(df: DataFrame, sourceName: string, listName: string)
    requires ShapeFile(df, sourceName, listName).Ok?
    ensures Tagged(ShapeFile(df, sourceName, listName).value, sourceName, listName)
  {
    ShapeFileShaped(df, sourceName, listName);
  }

  /**
   * Every row that a successful request puts into `audantic_raw_list` carries
   * the request's source name and list name.
   */
  lemma RawListRowsTagged(files: seq<DataFrame>, sourceName: string, listName: string)
    requires ShapeAll(files, sourceName, listName).Ok?
    ensures forall r :: r in Records(ShapeAll(files, sourceName, listName).value) ==>
      Field(r, "source_name") == Some(sourceName) && Field(r, "list") == Some(listName)
  {
    var frames := ShapeAll(files, sourceName, listName).value;
    forall i | 0 <= i < |frames|
      ensures Tagged(frames[i], sourceName, listName)
    {
      ShapedIsTagged(files[i], sourceName, listName);
    }
    TaggedRecords(frames, sourceName, listName);
  }

  /** `audantic_raw_list` ends up with exactly as many rows as the uploaded files have between them. */
  lemma {:induction false} RawListSize(files: seq<DataFrame>, sourceName: string, listName: string)
    requires ShapeAll(files, sourceName, listName).Ok?
    ensures |Records(ShapeAll(files, sourceName, listName).value)| == TotalRows(files)
    decreases |files|
  {
    if files != [] {
      var init := files[..|files| - 1];
      var last := files[|files| - 1];
      ShapeAllStep(files, sourceName, listName);
      var done := ShapeAll(init, sourceName, listName).value;
      var shaped := ShapeFile(last, sourceName, listName).value;
      var frames := ShapeAll(files, sourceName, listName).value;
      assert frames == done + [shaped];
      assert frames[..|frames| - 1] == done;
      RawListSize(init, sourceName, listName);
      ShapeFileShaped(last, sourceName, listName);
      assert |Records(frames)| == |Records(done)| + |shaped.rows|;
    }
  }

  /** A request rejected for a wrong column count answers with that message, whatever the database would have done. */
  lemma WrongWidthAnswer(files: seq<DataFrame>, i: nat, sourceName: string, listName: string,
                         masterList: seq<Record>, failure: Option<DbFailure>)
    requires sourceName != "" && listName != ""
    requires i < |files| && |files[i].columns| != RequiredColumns
    requires forall j :: 0 <= j < i ==> ShapeFile(files[j], sourceName, listName).Ok?
    ensures Process(files, Some(sourceName), Some(listName), masterList, failure) == Reply(WrongColumnCountResponse, None)
  {
    FirstWrongWidthRejects(files, i, sourceName, listName);
  }

  /** `max()` of one column, as far as the comparison after it is concerned: whether some row holds a value. */
  method ColumnHasValue(df: DataFrame, i: nat) returns (found: bool)
    requires i < |df.columns|
    ensures found <==> exists k :: 0 <= k < |df.rows| && HasValue(df.rows[k][i])
  {
    for k := 0 to |df.rows|
      invariant forall j :: 0 <= j < k ==> !HasValue(df.rows[j][i])
    {
      if HasValue(df.rows[k][i]) {
        return true;
      }
    }
    return false;
  }

  /**
   * The loop over `smallint_columns`: a label that is present must select one
   * column, and that column must hold a value for the comparison to get through.
   */
  method RangeCheckAll(df: DataFrame) returns (passed: bool)
    ensures passed <==> SmallintsPass(df)
  {
    for j := 0 to |SmallintColumns|
      invariant forall m :: 0 <= m < j ==> RangeCheckPasses(df, SmallintColumns[m])
    {
      var selection := Select(df.columns, SmallintColumns[j]);
      if selection.SeveralColumns? {
        return false;
      }
      if selection.OneColumn? {
        var hasValue := ColumnHasValue(df, selection.index);
        if !hasValue {
          return false;
        }
      }
    }
    return true;
  }

  /** The loop over the date columns: each label of `wanted` in turn must select exactly one column. */
  method LookUpAll(cols: seq<string>, wanted: seq<string>) returns (found: bool)
    ensures found <==> SelectsEach(cols, wanted)
  {
    for k := 0 to |wanted|
      invariant forall j :: 0 <= j < k ==> Select(cols, wanted[j]).OneColumn?
    {
      if !Select(cols, wanted[k]).OneColumn? {
        return false;
      }
    }
    return true;
  }

  /**
   * The body of the loop over `uploaded_files`, statement by statement: the
   * column-count check, the two `df.insert` calls (a clash raises), the
   * normalisation and the rename, the smallint range check, then the date columns.
   */
  method ShapeUpload(df: DataFrame, sourceName: string, listName: string) returns (r: Result<DataFrame, Rejection>)
    ensures r == ShapeFile(df, sourceName, listName)
  {
    if |df.columns| != RequiredColumns {
      return Err(WrongColumnCount);
    }
    var withSource := InsertColumn(df, 0, "source_name", sourceName);
    if withSource.None? {
      return Err(DuplicateColumn("source_name"));
    }
    var withList := InsertColumn(withSource.value, 1, "list", listName);
    if withList.None? {
      return Err(DuplicateColumn("list"));
    }
    var named := WithColumns(withList.value, NormalizeColumns(withList.value.columns));
    var out := WithColumns(named, RenameColumns(named.columns));
    assert LabelFile(df, sourceName, listName) == Ok(out);
    var passed := RangeCheckAll(out);
    if !passed {
      return Err(UnusableSmallintColumn);
    }
    var found := LookUpAll(out.columns, DateColumns);
    if !found {
      return Err(UnusableDateColumn);
    }
    r := Ok(out);
  }

  /**
   * The loop over `uploaded_files`: each file is shaped and appended to
   * `processed_files`; the first file that fails ends the request.
   */
  method ShapeUploads(uploadedFiles: seq<DataFrame>, sourceName: string, listName: string)
    returns (r: Result<seq<DataFrame>, Rejection>)
    ensures r == ShapeAll(uploadedFiles, sourceName, listName)
  {
    var processedFiles: seq<DataFrame> := [];
    var i := 0;
    while i < |uploadedFiles|
      invariant 0 <= i <= |uploadedFiles|
      invariant ShapeAll(uploadedFiles[..i], sourceName, listName) == Ok(processedFiles)
    {
      assert uploadedFiles[..i + 1][..i] == uploadedFiles[..i];
      var shaped := ShapeUpload(uploadedFiles[i], sourceName, listName);
      if shaped.Err? {
        ShapeAllKeepsRejection(uploadedFiles, i + 1, sourceName, listName);
        return Err(shaped.error);
      }
      processedFiles := processedFiles + [shaped.value];
      i := i + 1;
    }
    assert uploadedFiles[..i] == uploadedFiles;
    r := Ok(processedFiles);
  }

  /** The Flask process: the tables it works on and its global `uniques_list_df`. */
  class Server {
    /** The `audantic_raw_list` table. */
    var rawList: seq<Record>
    /** The `my_master_list` table, which these routes only read. */
    var masterList: seq<Record>
    /** The `uniques_list` table, `None` while it does not exist. */
    var uniquesTable: Option<seq<Record>>
    /** The global `uniques_list_df`. */
    var uniquesListDf: Option<seq<Record>>

    /** Once set, `uniques_list_df` is the `uniques_list` table and holds the unique rows of the raw list. */
    ghost predicate Valid()
      reads this
    {
      uniquesListDf.Some? ==>
        && uniquesTable == uniquesListDf
        && uniquesListDf.value == UniqueRows(rawList, masterList)
    }

    /** A freshly started process over a database in any state; `uniques_list_df = None`. */
    constructor (rawList: seq<Record>, masterList: seq<Record>, uniquesTable: Option<seq<Record>>)
      ensures Valid()
      ensures this.rawList == rawList && this.masterList == masterList && this.uniquesTable == uniquesTable
      ensures uniquesListDf == None
    {
      this.rawList := rawList;
      this.masterList := masterList;
      this.uniquesTable := uniquesTable;
      uniquesListDf := None;
    }

    /**
     * `POST /process_spreadsheets`. The files are the parsed uploads; `failure`
     * says whether the database work raises. On every error nothing changes; on
     * success the raw list holds exactly the shaped rows (the truncate drops what
     * was there) and the uniques list is rebuilt from it.
     */
    method ProcessSpreadsheets(uploadedFiles: seq<DataFrame>, sourceName: Option<string>, listName: Option<string>,
                               failure: Option<DbFailure>) returns (resp: Response)
      requires Valid()
      modifies this`rawList, this`uniquesTable, this`uniquesListDf
      ensures Valid()
      ensures resp == Process(uploadedFiles, sourceName, listName, old(masterList), failure).response
      ensures resp != NoValidFilesProcessed
      ensures match Process(uploadedFiles, sourceName, listName, old(masterList), failure).commit
        case None =>
          rawList == old(rawList) && uniquesTable == old(uniquesTable) && uniquesListDf == old(uniquesListDf)
        case Some(c) =>
          rawList == c.rawList && uniquesTable == Some(c.uniquesList) && uniquesListDf == Some(c.uniquesList)
    {
      if uploadedFiles == [] {
        return NoFilesUploaded;
      }
      if !Provided(sourceName) || !Provided(listName) {
        return NamesMissing;
      }
      var shaped := ShapeUploads(uploadedFiles, sourceName.value, listName.value);
      if shaped.Err? {
        if shaped.error.WrongColumnCount? {
          return WrongColumnCountResponse;
        }
        return UncaughtError;
      }
      var processedFiles := shaped.value;
      // The upload list is non-empty and every file was kept, so the
      // "No valid files processed." branch of the route cannot be taken.
      assert processedFiles != [];

      if failure.Some? {
        return FailureResponse(failure.value);
      }
      rawList := Records(processedFiles);
      var uniqueCount := UniqueCount(rawList, masterList);
      uniquesTable := Some(UniqueRows(rawList, masterList));
      uniquesListDf := uniquesTable;
      resp := Json(200, SuccessMessage, Some(uniqueCount), None);
    }

    /** `GET /download_uniques_list`: the stored list as `uniques_list.csv`, or 404 before any successful upload. */
    method DownloadUniquesList() returns (resp: Response)
      requires Valid()
      ensures uniquesListDf.None? ==> resp == NoUniquesList
      ensures uniquesListDf.Some? ==>
        resp == CsvAttachment(UniquesFileName, UniqueRows(rawList, masterList))
    {
      if uniquesListDf.Some? {
        resp := CsvAttachment(UniquesFileName, uniquesListDf.value);
      } else {
        resp := NoUniquesList;
      }
    }
  }
}
