/**
 * The file-staging component of the client (src/components/FileUpload.js).
 *
 * Step 1 stages raw lists in `files` and posts them with a source name and a
 * list name; step 2 stages skiptraced lists in `filesToUpload`, reads every
 * new batch as text to show a row count per file in `fileDisplayInfo`, and
 * posts them with a date. Browser reads and network requests are inputs: a
 * file carries the outcome of reading it, and a submit handler is given the
 * way its POST settled.
 */
module FileUpload {
  import opened Wrappers

  // ------------------------------------------------------------------ data

  /** What `FileReader.readAsText` reports for a file: `onload` with its text, or `onerror`. */
  datatype ReadOutcome = Loaded(text: string) | ReadFailed

  /** A browser `File`: its name and the outcome of reading it as text. */
  datatype FileHandle = FileHandle(name: string, read: ReadOutcome)

  /** The `{ fileName, rowCount }` record listed for each step-2 file. */
  datatype FileInfo = FileInfo(fileName: string, rowCount: nat)

  /** One `formData.append(name, value)` entry; a multipart body is the sequence of them in append order. */
  datatype Part = FilePart(name: string, file: FileHandle) | FieldPart(name: string, value: string)

  /** The POST handed to axios: target URL, `Authorization` header and multipart body. */
  datatype Request = Request(url: string, authorization: string, body: seq<Part>)

  /** `error.response.data`: the server's JSON error body, whose `message` may be missing. */
  datatype ErrorBody = ErrorBody(message: Option<string>)

  /** How an axios POST settles. */
  datatype Settled<T> =
    | Resolved(data: T)                       // 2xx: `response.data`
    | Rejected(status: int, body: ErrorBody)  // `error.response` is set
    | NoResponse                              // `error.request` is set, no response came
    | SetupFailed(reason: string)             // neither: the request was never sent

  /** Success body of `POST /process_spreadsheets`. */
  datatype SpreadsheetsResult = SpreadsheetsResult(uniqueCount: int, message: string)

  /** Success body of `POST /process_skiptraced`. */
  datatype SkiptracedResult = SkiptracedResult(standardization: string, mergeStatus: string)

  // ------------------------------------------------------------- row count

  /** `parts.join(sep)`. */
  function Join(parts: seq<string>, sep: char): string
    requires |parts| >= 1
    decreases |parts|
  {
    if |parts| == 1 then parts[0] else parts[0] + [sep] + Join(parts[1..], sep)
  }

  /** `s.split(sep)` for a one-character separator: the runs of `s` between separators (`"".split(sep)` is `[""]`). */
  function Split(s: string, sep: char): (parts: seq<string>)
    ensures |parts| >= 1
    decreases |s|
  {
    if s == [] then [""]
    else
      var rest := Split(s[1..], sep);
      if s[0] == sep then [""] + rest else [[s[0]] + rest[0]] + rest[1..]
  }

  /** Splitting gives one more part than there are separators. */
  lemma {:induction false} SplitCount(s: string, sep: char)
    ensures |Split(s, sep)| == multiset(s)[sep] + 1
    decreases |s|
  {
    if s != [] {
      SplitCount(s[1..], sep);
      assert s == [s[0]] + s[1..];
    }
  }

  /** No part holds the separator. */
  lemma {:induction false} SplitPartsClean(s: string, sep: char)
    ensures forall i :: 0 <= i < |Split(s, sep)| ==> sep !in Split(s, sep)[i]
    decreases |s|
  {
    if s != [] {
      var rest := Split(s[1..], sep);
      SplitPartsClean(s[1..], sep);
      if s[0] != sep {
        var parts := [[s[0]] + rest[0]] + rest[1..];
        forall i | 0 <= i < |parts| ensures sep !in parts[i] {
          if i == 0 { assert parts[0] == [s[0]] + rest[0]; } else { assert parts[i] == rest[i]; }
        }
      }
    }
  }

  /** Joining the parts with the separator gives `s` back. */
  lemma {:induction false} SplitJoin(s: string, sep: char)
    ensures Join(Split(s, sep), sep) == s
    decreases |s|
  {
    if s != [] {
      var rest := Split(s[1..], sep);
      SplitJoin(s[1..], sep);
      assert s == [s[0]] + s[1..];
      if s[0] == sep {
        assert ([""] + rest)[1..] == rest;
      } else {
        var parts := [[s[0]] + rest[0]] + rest[1..];
        assert parts[1..] == rest[1..];
        if |rest| > 1 {
          calc {
            Join(parts, sep);
            ([s[0]] + rest[0]) + [sep] + Join(rest[1..], sep);
            [s[0]] + (rest[0] + [sep] + Join(rest[1..], sep));
            [s[0]] + Join(rest, sep);
          }
        }
      }
    }
  }

  /**
   * The number of parts of a split on `'\n'`, minus one: the number of newline characters.
   * No header row is discounted, and a last line without a newline is not counted.
   */
  function RowCount(contents: string): (rows: nat)
    ensures rows == multiset(contents)['\n']
  {
    SplitCount(contents, '\n');
    |Split(contents, '\n')| - 1
  }

  /** Two inputs worked through: the empty text has no rows, and `"a\nb\nc\n"` has three. */
  lemma RowCountExamples()
    ensures RowCount("") == 0
    ensures RowCount("a\nb\nc\n") == 3
  {
    var line := "a\n";
    assert multiset(line)['\n'] == 1 by { assert line == ['a'] + ['\n']; }
    var lines := line + ['b', '\n'] + ['c', '\n'];
    assert lines == "a\nb\nc\n";
    assert multiset(lines)['\n'] == 3;
  }

  // ------------------------------------------------------ removal by index

  /** The index filter of `handleRemoveFile`: drops the element at `index`, if there is one. */
  function FilterOutIndex<T>(s: seq<T>, index: int): (r: seq<T>)
    ensures 0 <= index < |s| ==> r == s[..index] + s[index + 1..]
    ensures !(0 <= index < |s|) ==> r == s
    decreases |s|
  {
    if s == [] then []
    else
      var init := s[..|s| - 1];
      assert s == init + [s[|s| - 1]];
      FilterOutIndex(init, index) + (if index == |s| - 1 then [] else [s[|s| - 1]])
  }

  /** After the filter, the element at position `k` is the one that was at `k`, or at `k + 1` once past the removed index. */
  lemma FilterOutIndexShifts<T>(s: seq<T>, index: int, k: int)
    requires 0 <= k < |FilterOutIndex(s, index)|
    ensures FilterOutIndex(s, index)[k] == s[if 0 <= index <= k then k + 1 else k]
  {
  }

  // ------------------------------------------------------------ enrichment

  /** The metadata derived from a file that was read: its name and its row count. */
  function InfoOf(file: FileHandle): FileInfo
    requires file.read.Loaded?
  {
    FileInfo(file.name, RowCount(file.read.text))
  }

  /**
   * `Promise.all(files.map(read))`: the per-file metadata in input order when
   * every read succeeds, and nothing when any read fails.
   */
  function ReadBatch(batch: seq<FileHandle>): (infos: Option<seq<FileInfo>>)
    ensures infos.Some? <==> forall i :: 0 <= i < |batch| ==> batch[i].read.Loaded?
    ensures infos.Some? ==>
      |infos.value| == |batch| &&
      forall i :: 0 <= i < |batch| ==>
        batch[i].read.Loaded? && infos.value[i] == FileInfo(batch[i].name, RowCount(batch[i].read.text))
    decreases |batch|
  {
    if batch == [] then Some([])
    else
      match batch[0].read
      case ReadFailed => None
      case Loaded(text) =>
        match ReadBatch(batch[1..])
        case None => None
        case Some(rest) => Some([FileInfo(batch[0].name, RowCount(text))] + rest)
  }

  // -------------------------------------------------------------- envelopes

  /** A fresh `FormData` with one `files` entry appended per file, in order. */
  method FileParts(files: seq<FileHandle>) returns (formData: seq<Part>)
    ensures |formData| == |files|
    ensures forall i :: 0 <= i < |files| ==> formData[i] == FilePart("files", files[i])
  {
    formData := [];
    for i := 0 to |files|
      invariant |formData| == i
      invariant forall j :: 0 <= j < i ==> formData[j] == FilePart("files", files[j])
    {
      formData := formData + [FilePart("files", files[i])];
    }
  }

  /** The step-1 body: one `files` part per staged file in list order, then `source_name`, then `list_name`. */
  ghost predicate IsSpreadsheetsBody(body: seq<Part>, files: seq<FileHandle>, sourceName: string, listName: string) {
    && |body| == |files| + 2
    && (forall i :: 0 <= i < |files| ==> body[i] == FilePart("files", files[i]))
    && body[|files|] == FieldPart("source_name", sourceName)
    && body[|files| + 1] == FieldPart("list_name", listName)
  }

  /** The step-2 body: one `files` part per staged file in list order, then `skip_traced_date`. */
  ghost predicate IsSkiptracedBody(body: seq<Part>, files: seq<FileHandle>, skipTracedDate: string) {
    && |body| == |files| + 1
    && (forall i :: 0 <= i < |files| ==> body[i] == FilePart("files", files[i]))
    && body[|files|] == FieldPart("skip_traced_date", skipTracedDate)
  }

  /** `` `Bearer ${token}` `` for `token = localStorage.getItem('token')`; a missing token prints as `null`. */
  function BearerHeader(token: Option<string>): (header: string)
    ensures |header| >= 7 && header[..7] == "Bearer "
    ensures token.Some? ==> header[7..] == token.value
    ensures token.None? ==> header[7..] == "null"
  {
    "Bearer " + match token case Some(t) => t case None => "null"
  }

  // ---------------------------------------------------------------- alerts

  const SpreadsheetsErrorPrefix := "Error processing spreadsheets: "
  const PleaseTryAgain := " Please try again."
  const NoResponseAlert := "No response received from the server." + PleaseTryAgain
  const GenericAlert := "An error occurred." + PleaseTryAgain
  const SkiptracedErrorAlert := "An error occurred while processing the skiptraced data."

  /** How a template literal prints an optional string: a missing one prints as `undefined`. */
  function TemplateText(v: Option<string>): string {
    match v case Some(s) => s case None => "undefined"
  }

  /** The alert `handleSubmit` raises for a settled POST; none on success. */
  function SpreadsheetsAlert(settled: Settled<SpreadsheetsResult>): Option<string> {
    match settled
    case Resolved(_) => None
    case Rejected(_, body) => Some(SpreadsheetsErrorPrefix + TemplateText(body.message))
    case NoResponse => Some(NoResponseAlert)
    case SetupFailed(_) => Some(GenericAlert)
  }

  /** What a reader of a step-1 alert can tell about the failure. */
  datatype FailureKind = ServerRejected(message: string) | NoServerResponse | OtherFailure

  /** Reads a step-1 alert back: the server's message after the prefix, the no-response text, or anything else. */
  function ReadAlert(alert: string): FailureKind {
    if |SpreadsheetsErrorPrefix| <= |alert| && alert[..|SpreadsheetsErrorPrefix|] == SpreadsheetsErrorPrefix
    then ServerRejected(alert[|SpreadsheetsErrorPrefix|..])
    else if alert == NoResponseAlert then NoServerResponse
    else OtherFailure
  }

  /**
   * Step 1 tells its three failure classes apart: the alert of a rejection
   * carries exactly the server's message, the alert of a missing response is
   * the no-response text, and any other failure gets the generic text.
   */
  lemma SpreadsheetsAlertClassifies(settled: Settled<SpreadsheetsResult>)
    ensures SpreadsheetsAlert(settled).None? <==> settled.Resolved?
    ensures settled.Rejected? ==>
      ReadAlert(SpreadsheetsAlert(settled).value) == ServerRejected(TemplateText(settled.body.message))
    ensures settled.NoResponse? ==> ReadAlert(SpreadsheetsAlert(settled).value) == NoServerResponse
    ensures settled.SetupFailed? ==> ReadAlert(SpreadsheetsAlert(settled).value) == OtherFailure
  {
    var p := SpreadsheetsErrorPrefix;
    match settled
    case Rejected(_, body) =>
      var a := p + TemplateText(body.message);
      assert a[..|p|] == p && a[|p|..] == TemplateText(body.message);
    case NoResponse =>
      assert NoResponseAlert[..|p|] != p by { assert NoResponseAlert[..|p|][0] == 'N'; }
    case SetupFailed(_) =>
      assert GenericAlert[..|p|] != p by { assert GenericAlert[..|p|][0] == 'A'; }
      assert GenericAlert != NoResponseAlert by { assert GenericAlert[0] == 'A' && NoResponseAlert[0] == 'N'; }
    case Resolved(_) =>
  }

  /** The alert `handleSkiptracedSubmit` raises: one fixed text for every kind of failure. */
  function SkiptracedAlert(settled: Settled<SkiptracedResult>): (alert: Option<string>)
    ensures alert.None? <==> settled.Resolved?
  {
    if settled.Resolved? then None else Some(SkiptracedErrorAlert)
  }

  /** Step 2 does not classify failures: a rejection, a missing response and a setup error all raise the same alert. */
  lemma SkiptracedFailuresLookAlike(a: Settled<SkiptracedResult>, b: Settled<SkiptracedResult>)
    requires !a.Resolved? && !b.Resolved?
    ensures SkiptracedAlert(a) == SkiptracedAlert(b) == Some(SkiptracedErrorAlert)
  {
  }

  // ------------------------------------------------------------- component

  /** The state slots of the `FileUpload` component and its event handlers. */
  class Component {
    var files: seq<FileHandle>
    var sourceName: string
    var listName: string
    var result: Option<SpreadsheetsResult>
    var skiptracedDate: string
    var skiptracedResult: Option<SkiptracedResult>
    var filesToUpload: seq<FileHandle>
    var fileDisplayInfo: seq<FileInfo>

    /** The step-2 lists are parallel: entry `i` of `fileDisplayInfo` is the metadata of `filesToUpload[i]`. */
    ghost predicate Valid()
      reads this
    {
      && |filesToUpload| == |fileDisplayInfo|
      && forall i :: 0 <= i < |filesToUpload| ==>
           filesToUpload[i].read.Loaded? && fileDisplayInfo[i] == InfoOf(filesToUpload[i])
    }

    /** The initial `useState` values. */
    constructor ()
      ensures Valid()
      ensures files == [] && sourceName == "" && listName == "" && result == None
      ensures skiptracedDate == "" && skiptracedResult == None
      ensures filesToUpload == [] && fileDisplayInfo == []
    {
      files, sourceName, listName, result := [], "", "", None;
      skiptracedDate, skiptracedResult := "", None;
      filesToUpload, fileDisplayInfo := [], [];
    }

    /** `handleFileChange`: the step-1 picker replaces the staged list with its selection. */
    method HandleFileChange(selected: seq<FileHandle>)
      requires Valid()
      modifies this`files
      ensures Valid()
      ensures files == selected
    {
      files := selected;
    }

    /** `handleDrop`: dropped files go after the staged ones, in drop order. */
    method HandleDrop(dropped: seq<FileHandle>)
      requires Valid()
      modifies this`files
      ensures Valid()
      ensures files == old(files) + dropped
      ensures files[..|old(files)|] == old(files)
    {
      files := files + dropped;
    }

    /**
     * `handleFileProcessing`: the batch is merged only if every read
     * succeeds, both step-2 lists growing by the batch in input order;
     * otherwise neither list changes.
     */
    method HandleFileProcessing(batch: seq<FileHandle>)
      requires Valid()
      modifies this`filesToUpload, this`fileDisplayInfo
      ensures Valid()
      ensures (forall i :: 0 <= i < |batch| ==> batch[i].read.Loaded?) ==>
        && filesToUpload == old(filesToUpload) + batch
        && |fileDisplayInfo| == |old(fileDisplayInfo)| + |batch|
        && fileDisplayInfo[..|old(fileDisplayInfo)|] == old(fileDisplayInfo)
      ensures (exists i :: 0 <= i < |batch| && batch[i].read.ReadFailed?) ==>
        filesToUpload == old(filesToUpload) && fileDisplayInfo == old(fileDisplayInfo)
    {
      var fileInfos := ReadBatch(batch);
      if fileInfos.Some? {
        var infos := fileInfos.value;
        filesToUpload := filesToUpload + batch;
        fileDisplayInfo := fileDisplayInfo + infos;
        forall i | 0 <= i < |filesToUpload|
          ensures filesToUpload[i].read.Loaded? && fileDisplayInfo[i] == InfoOf(filesToUpload[i])
        {
          if i >= |old(filesToUpload)| {
            assert filesToUpload[i] == batch[i - |old(filesToUpload)|];
          }
        }
      }
    }

    /** `handleSkiptraceDrop`: a drop on the step-2 target enriches the dropped files. */
    method HandleSkiptraceDrop(dropped: seq<FileHandle>)
      requires Valid()
      modifies this`filesToUpload, this`fileDisplayInfo
      ensures Valid()
      ensures ReadBatch(dropped).Some? ==> filesToUpload == old(filesToUpload) + dropped
      ensures ReadBatch(dropped).None? ==> filesToUpload == old(filesToUpload) && fileDisplayInfo == old(fileDisplayInfo)
    {
      HandleFileProcessing(dropped);
    }

    /** `handleSkiptracedFileChange`: the step-2 picker enriches its selection, appending like a drop. */
    method HandleSkiptracedFileChange(selected: seq<FileHandle>)
      requires Valid()
      modifies this`filesToUpload, this`fileDisplayInfo
      ensures Valid()
      ensures ReadBatch(selected).Some? ==> filesToUpload == old(filesToUpload) + selected
      ensures ReadBatch(selected).None? ==> filesToUpload == old(filesToUpload) && fileDisplayInfo == old(fileDisplayInfo)
    {
      HandleFileProcessing(selected);
    }

    /**
     * `handleRemoveFile`: the same index is filtered out of the step-1 list and
     * out of both step-2 lists, whichever list's button was pressed; an index
     * past the end of a list leaves that list as it was.
     */
    method HandleRemoveFile(index: int)
      requires Valid()
      modifies this`files, this`filesToUpload, this`fileDisplayInfo
      ensures Valid()
      ensures files == FilterOutIndex(old(files), index)
      ensures filesToUpload == FilterOutIndex(old(filesToUpload), index)
      ensures fileDisplayInfo == FilterOutIndex(old(fileDisplayInfo), index)
    {
      files := FilterOutIndex(files, index);
      ghost var before, infosBefore := filesToUpload, fileDisplayInfo;
      filesToUpload := FilterOutIndex(filesToUpload, index);
      fileDisplayInfo := FilterOutIndex(fileDisplayInfo, index);
      forall k | 0 <= k < |filesToUpload|
        ensures filesToUpload[k].read.Loaded? && fileDisplayInfo[k] == InfoOf(filesToUpload[k])
      {
        FilterOutIndexShifts(before, index, k);
        FilterOutIndexShifts(infosBefore, index, k);
      }
    }

    /** The `onChange` of the source-name input. */
    method HandleSourceNameChange(value: string)
      modifies this`sourceName
      ensures sourceName == value
    {
      sourceName := value;
    }

    /** The `onChange` of the list-name input. */
    method HandleListNameChange(value: string)
      modifies this`listName
      ensures listName == value
    {
      listName := value;
    }

    /** The `onChange` of the skiptraced-date input. */
    method HandleSkiptracedDateChange(value: string)
      modifies this`skiptracedDate
      ensures skiptracedDate == value
    {
      skiptracedDate := value;
    }

    /** The `FormData` of `handleSubmit`: the staged step-1 files, then the two names, with no minimum file count. */
    method SpreadsheetsFormData() returns (body: seq<Part>)
      ensures IsSpreadsheetsBody(body, files, sourceName, listName)
    {
      body := FileParts(files);
      body := body + [FieldPart("source_name", sourceName)];
      body := body + [FieldPart("list_name", listName)];
    }

    /** The `FormData` of `handleSkiptracedSubmit`: the staged step-2 files, then the date. */
    method SkiptracedFormData() returns (body: seq<Part>)
      ensures IsSkiptracedBody(body, filesToUpload, skiptracedDate)
    {
      body := FileParts(filesToUpload);
      body := body + [FieldPart("skip_traced_date", skiptracedDate)];
    }

    /**
     * `handleSubmit`: posts the step-1 envelope with the stored token. A
     * success stores the response body in `result`; a failure raises the
     * alert of its class and leaves `result` as it was.
     */
    method HandleSubmit(apiUrl: string, token: Option<string>, settled: Settled<SpreadsheetsResult>)
      returns (request: Request, alert: Option<string>)
      modifies this`result
      ensures request.url == apiUrl + "/process_spreadsheets"
      ensures request.authorization == BearerHeader(token)
      ensures IsSpreadsheetsBody(request.body, files, sourceName, listName)
      ensures result == if settled.Resolved? then Some(settled.data) else old(result)
      ensures alert == SpreadsheetsAlert(settled)
    {
      var formData := SpreadsheetsFormData();
      request := Request(apiUrl + "/process_spreadsheets", BearerHeader(token), formData);
      match settled {
        case Resolved(data) =>
          result := Some(data);
          alert := None;
        case Rejected(_, body) =>
          alert := Some(SpreadsheetsErrorPrefix + TemplateText(body.message));
        case NoResponse =>
          alert := Some(NoResponseAlert);
        case SetupFailed(_) =>
          alert := Some(GenericAlert);
      }
    }

    /**
     * `handleSkiptracedSubmit`: posts the step-2 envelope. A success stores the
     * response body in `skiptracedResult`; every failure raises the same alert
     * and leaves `skiptracedResult` as it was.
     */
    method HandleSkiptracedSubmit(apiUrl: string, token: Option<string>, settled: Settled<SkiptracedResult>)
      returns (request: Request, alert: Option<string>)
      modifies this`skiptracedResult
      ensures request.url == apiUrl + "/process_skiptraced"
      ensures request.authorization == BearerHeader(token)
      ensures IsSkiptracedBody(request.body, filesToUpload, skiptracedDate)
      ensures skiptracedResult == if settled.Resolved? then Some(settled.data) else old(skiptracedResult)
      ensures alert == SkiptracedAlert(settled)
    {
      var formData := SkiptracedFormData();
      request := Request(apiUrl + "/process_skiptraced", BearerHeader(token), formData);
      if settled.Resolved? {
        skiptracedResult := Some(settled.data);
        alert := None;
      } else {
        alert := Some(SkiptracedErrorAlert);
      }
    }

    /** `{result && (...)}`: the step-1 result panel, with its download control, shows only once a submit has succeeded. */
    function ShowsSpreadsheetsResult(): (shown: bool)
      reads this
      ensures shown <==> result.Some?
    {
      result != None
    }

    /** `{skiptracedResult && (...)}`: the step-2 result panel shows only once a step-2 submit has succeeded. */
    function ShowsSkiptracedResult(): (shown: bool)
      reads this
      ensures shown <==> skiptracedResult.Some?
    {
      skiptracedResult != None
    }
  }
}
