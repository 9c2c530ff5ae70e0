# Spreadsheet upload pipeline — a Dafny model

This project models the two sequential cores of a small lead-list tool.

**The client's staging component** (`src/components/FileUpload.js`), in module `FileUpload`, class `Component`:
- Step 1 stages raw spreadsheets in `files` and posts them to `/process_spreadsheets` with a source name and a list name.
- Step 2 stages skiptraced spreadsheets in `filesToUpload`. It reads every new batch as text to list a row count per file in `fileDisplayInfo`, and posts the files to `/process_skiptraced` with a date.
- The handlers are methods that change the component's fields.
- The row count, the batch read and the alert texts are functions.
- A `FileReader` read is an input: each `FileHandle` carries the outcome of reading it.
- An axios POST is an input too: a submit handler is given the way the request settled (`Settled`), and it returns the request it built and the alert it raises.

**The backend's upload route** (`backend/app.py`, `process_spreadsheets` and `download_uniques_list`):
- Module `Columns` has the 70-column rule, the two inserted columns (`source_name`, `list`), the label normalisation and the rename map, for one file (`ShapeFile`) and for the whole upload (`ShapeAll`).
- Module `Uniques` states the `NOT EXISTS` query as a filter over rows with `Option` cells for NULL:
  - `UniqueRows` is the table `uniques_list`;
  - `UniqueCount` is the `COUNT(*)` query.
- Module `Backend` holds the route itself:
  - `Process` is the whole request as a function;
  - class `Server` holds the tables `audantic_raw_list`, `my_master_list` and `uniques_list`, and the global `uniques_list_df`;
  - `Server.ProcessSpreadsheets` is the handler, with the loop over the uploaded files in `ShapeUploads`.
- A DataFrame is its labels and its rows of cells. Parsing the upload into one is not modelled.
- Whether the database work raises is a parameter (`DbFailure`).

Module `Wrappers` holds `Option` and `Result`.

Behaviour of the code worth noting:
- The row count is `split('\n').length - 1`, the number of newline characters. No header row is discounted, so `"a\nb\nc\n"` counts 3 (`RowCountExamples`).
- A failed submit leaves `result` / `skiptracedResult` as it was. It is neither cleared nor replaced.
- The rename map has five entries. Two of them map a label to itself: `tax_delinquent_first_seen` and `tax_delinquent_last_updated`. So exactly three labels change (`RenameChangesOnlyThree`).
- Several errors are raised before the `try` that guards the database work. Each makes the request fail with Flask's generic 500 page (`UncaughtError`) and not with a JSON message:
  - an uploaded file that already has a column called `source_name` or `list` makes `df.insert` raise;
  - the smallint range check compares `max()` and `min()` of each smallint column that is present. The comparison raises when the label selects several columns, since `max()` is then a Series. It also raises when the column holds no value at all, since `max()` is then `pd.NA`. A file with no data rows and a `vacant` column is such a case;
  - `df[column]` for a date column raises `KeyError` when the label is missing, and `pd.to_datetime` raises when the label selects several columns.
- Normalisation and renaming can make two labels equal, e.g. `Last Sale Date` next to `last_sale_date`, or `tax_delinquent_year` next to `Tax Delinquency Year`. When that label is watched by one of the two loops, the file fails as above (`Select`, `RangeCheckPasses`, `SelectsEach`).
- Together with the 70-column rule, the files must therefore carry each of the 21 date labels exactly once.
- The branch answering "No valid files processed." cannot be taken. The upload list is non-empty by then, and a file either passes or ends the request. `ProcessSpreadsheets` asserts that `processed_files` is non-empty at that point, and its contract says that response is never given.

## Model

| member | source | states |
|---|---|---|
| `FileUpload.Split` | src/components/FileUpload.js:32 | `split` on one separator always yields at least one part |
| `FileUpload.SplitCount` | src/components/FileUpload.js:32 | the number of parts is the number of separators plus one |
| `FileUpload.SplitPartsClean` | src/components/FileUpload.js:32 | no part contains the separator |
| `FileUpload.SplitJoin` | src/components/FileUpload.js:32 | joining the parts with the separator gives the text back, so `Split` is a faithful `split` |
| `FileUpload.RowCount` | src/components/FileUpload.js:32 | the row count is exactly the number of `'\n'` characters in the text (so never negative) |
| `FileUpload.RowCountExamples` | src/components/FileUpload.js:32 | `""` has 0 rows; `"a\nb\nc\n"` has 3 (no header discount) |
| `FileUpload.FilterOutIndex` | src/components/FileUpload.js:99-101 | `filter((_, i) => i !== index)` removes exactly position `index` when it is in range, and changes nothing otherwise |
| `FileUpload.FilterOutIndexShifts` | src/components/FileUpload.js:99-101 | the remaining elements keep their relative order: position `k` holds the old `k`, or `k + 1` past the removed index |
| `FileUpload.ReadBatch` | src/components/FileUpload.js:27-40 | `Promise.all` of the reads succeeds iff every read succeeds; then it yields one `{fileName, rowCount}` per file, in input order, not completion order |
| `FileUpload.FileParts` | src/components/FileUpload.js:108-110 | the `forEach` appends one `files` part per file, in list order |
| `FileUpload.SpreadsheetsAlertClassifies` | src/components/FileUpload.js:122-139 | step 1 raises no alert exactly on success. A rejection's alert carries exactly the server's `message` after the prefix. No response gives the no-response text. Anything else gives the generic text. The three classes are distinguishable |
| `FileUpload.SpreadsheetsAlert` | src/components/FileUpload.js:124-138 | the step-1 alert by class of failure: none on success, the prefix and the server's `message` on a rejection, the no-response text, or the generic text; `SpreadsheetsAlertClassifies` is its partner |
| `FileUpload.BearerHeader` | src/components/FileUpload.js:115-118 | the header is `Bearer ` followed by the stored token, or by the text `null` when no token is stored |
| `FileUpload.SkiptracedAlert` | src/components/FileUpload.js:78-81 | step 2 raises an alert exactly when the POST fails |
| `FileUpload.SkiptracedFailuresLookAlike` | src/components/FileUpload.js:80 | step 2 does not classify errors: every kind of failure raises the same text |
| `FileUpload.Component.constructor` | src/components/FileUpload.js:6-14 | the initial state: empty lists and strings, no results; the step-2 lists are parallel |
| `FileUpload.Component.HandleFileChange` | src/components/FileUpload.js:16-18 | the step-1 picker replaces `files` with its selection |
| `FileUpload.Component.HandleDrop` | src/components/FileUpload.js:91-96 | dropped files are appended after the staged ones in drop order; earlier entries are unchanged |
| `FileUpload.Component.HandleFileProcessing` | src/components/FileUpload.js:26-46 | all reads succeed: both step-2 lists grow by the batch in input order, with each file's metadata its name and row count. Any read fails: neither list changes. The lists stay parallel |
| `FileUpload.Component.HandleSkiptraceDrop` | src/components/FileUpload.js:48-53 | a drop on the step-2 target merges the dropped batch all-or-nothing |
| `FileUpload.Component.HandleSkiptracedFileChange` | src/components/FileUpload.js:55-58 | the step-2 picker appends its selection all-or-nothing (it does not replace) |
| `FileUpload.Component.HandleRemoveFile` | src/components/FileUpload.js:98-102 | the same index is removed from `files`, `filesToUpload` and `fileDisplayInfo`, whichever list's button was pressed; an out-of-range index changes nothing; the step-2 lists stay parallel |
| `FileUpload.Component.HandleSourceNameChange` | src/components/FileUpload.js:169 | the source-name input sets `sourceName` |
| `FileUpload.Component.HandleListNameChange` | src/components/FileUpload.js:177 | the list-name input sets `listName` |
| `FileUpload.Component.HandleSkiptracedDateChange` | src/components/FileUpload.js:211 | the date input sets `skiptracedDate` |
| `FileUpload.Component.SpreadsheetsFormData` | src/components/FileUpload.js:107-112 | the step-1 body is one `files` part per staged file in order, then `source_name`, then `list_name`, with no minimum file count |
| `FileUpload.Component.SkiptracedFormData` | src/components/FileUpload.js:62-68 | the step-2 body is one `files` part per staged file in order, then `skip_traced_date` |
| `FileUpload.Component.HandleSubmit` | src/components/FileUpload.js:104-140 | posts the step-1 body to `/process_spreadsheets` with `Bearer <token>`. On success `result` is the response body; on failure `result` keeps its old value and the alert is the one of its class |
| `FileUpload.Component.HandleSkiptracedSubmit` | src/components/FileUpload.js:61-82 | posts the step-2 body to `/process_skiptraced`. On success `skiptracedResult` is the response body; on failure it keeps its old value and the fixed alert is raised |
| `FileUpload.Component.ShowsSpreadsheetsResult` | src/components/FileUpload.js:181-188 | the step-1 result panel is shown exactly when a result is stored |
| `FileUpload.Component.ShowsSkiptracedResult` | src/components/FileUpload.js:215-221 | the step-2 result panel is shown exactly when a step-2 result is stored |
| `Columns.LowerChar` | backend/app.py:76 | `lower()` leaves no upper-case letter and leaves other characters alone |
| `Columns.Lower` | backend/app.py:76 | `lower()` keeps the length, leaves no upper-case letter, and is the identity on lower-case text |
| `Columns.Replace` | backend/app.py:76 | after `replace(from, to)` every character is a character of the input other than `from`, or a character of `to`; with no `from` the text is unchanged |
| `Columns.NormalizeColumn` | backend/app.py:76 | a normalised label holds no space, `%`, `-` or upper-case letter |
| `Columns.ReplaceAppend` | backend/app.py:76 | `replace` on a concatenation is the concatenation of the replaced halves |
| `Columns.NormalizeOneChar` | backend/app.py:76 | on one character, the chained calls give: `' '` to `_`, `%` to `percent`, `-` deleted, letters lowered |
| `Columns.NormalizeColumnPerChar` | backend/app.py:76 | the chained `lower`/`replace` calls equal the character-by-character reference `NormalizeEach` |
| `Columns.NormalizeKeepsCleanLabel` | backend/app.py:76 | a label already lower-case and free of space, `%` and `-` is unchanged |
| `Columns.NormalizeIdempotent` | backend/app.py:76 | normalising twice gives the same label as normalising once |
| `Columns.NormalizeColumns` | backend/app.py:76 | the comprehension keeps the number of labels, and position `i` holds label `i` normalised |
| `Columns.RenameColumn` | backend/app.py:77-84 | a label that is not a key of `column_renames` stays as it is, and no renamed label is `property_county`, `rank` or `tax_delinquent_year` |
| `Columns.RenameIdempotent` | backend/app.py:77-84 | renaming twice gives the same label as renaming once |
| `Columns.RenameChangesOnlyThree` | backend/app.py:77-84 | the rename changes a label iff it is `property_county`, `rank` or `tax_delinquent_year`; every other label, including the two self-mapped keys, is left alone |
| `Columns.RenameColumns` | backend/app.py:84 | the rename keeps the number of labels, and position `i` holds label `i` renamed |
| `Columns.InsertColumn` | backend/app.py:74-75 | `df.insert(loc, name, value)` fails iff `name` is already a column. Otherwise the labels get `name` at `loc` and every row gets `value` at `loc` |
| `Columns.WithColumns` | backend/app.py:76 | assigning `df.columns` changes the labels only |
| `Columns.LabelFile` | backend/app.py:71-84 | a file without 70 columns is rejected with the column-count error; the labelling succeeds iff the file has 70 columns and no `source_name` or `list` column |
| `Columns.LabelFileShaped` | backend/app.py:74-84 | a labelled file has 72 columns: `source_name`, `list`, then its own labels normalised and renamed, in order. Every row starts with the two names, then the uploaded cells |
| `Columns.Select` | backend/app.py:94-96 | `df[name]` selects no column iff no label is `name`; one column, at the single position holding `name`, iff exactly one label is `name`; several iff two positions hold `name` |
| `Columns.IndexOf` | backend/app.py:94-96 | the first position holding a label that is present |
| `Columns.RangeCheckPasses` | backend/app.py:93-101 | the range check of one smallint column gets through iff the label is absent, or selects one column in which some row holds a value other than missing, `""` or `"NaN"` |
| `Columns.SelectsEach` | backend/app.py:114-115 | the date loop gets through iff every date label selects exactly one column |
| `Columns.NamesNotLookedUp` | backend/app.py:90-113 | neither `source_name` nor `list` is a smallint or a date label |
| `Columns.ShapeFile` | backend/app.py:71-116 | a file without 70 columns is rejected with the column-count error; an accepted file had 70 columns and no `source_name` or `list` column |
| `Columns.ShapeFileChecks` | backend/app.py:93-116 | a labelled file is accepted, unchanged, iff it gets through the smallint range check and every date label selects one column. A failed range check is the rejection when it fails, since that loop runs first; otherwise a failed date lookup is |
| `Columns.ShapeFileAccepts` | backend/app.py:71-116 | a file is accepted iff it has 70 columns, none called `source_name` or `list`, and its own columns under their normalised and renamed labels pass the range check and hold every date label exactly once |
| `Columns.ShapedLabels` | backend/app.py:76-84 | the uploaded labels normalised and renamed, position by position |
| `Columns.ShapedColumns` | backend/app.py:74-84 | the labels of an accepted file are `source_name`, `list`, then the shaped uploaded labels |
| `Columns.SelectBehindNames` | backend/app.py:74-75 | behind the two inserted columns, any other label selects what it selects among the uploaded labels, two positions further on |
| `Columns.NoneBehindNames` | backend/app.py:74-75 | a label absent from the uploaded labels is absent after the inserts |
| `Columns.OneBehindNames` | backend/app.py:74-75 | a label at one position `i` of the uploaded labels sits at the one position `i + 2` after the inserts |
| `Columns.SeveralBehindNames` | backend/app.py:74-75 | a label repeated among the uploaded labels is repeated after the inserts |
| `Columns.RangeCheckBehindNames` | backend/app.py:74-101 | the range check of one smallint label gives the same outcome before and after the inserts |
| `Columns.ChecksBehindNames` | backend/app.py:74-116 | the inserts change neither the outcome of the range check nor that of the date lookups |
| `Columns.ShapeFileShaped` | backend/app.py:74-84 | an accepted file has 72 columns: `source_name`, `list`, then its own labels normalised and renamed, in order. Every row starts with the two names, then the uploaded cells |
| `Columns.BothInsertsShape` | backend/app.py:74-84 | the two inserts, the normalisation and the rename together give that shape |
| `Columns.SourceNameLabelFirst` | backend/app.py:74 | after shaping, column 0 is `source_name` |
| `Columns.ListLabelSecond` | backend/app.py:75 | after shaping, column 1 is `list` |
| `Columns.UploadedLabelFollows` | backend/app.py:76-84 | after shaping, column `i + 2` is uploaded label `i` normalised and renamed |
| `Columns.InsertedColumns` | backend/app.py:74-75 | after both inserts the labels are `source_name`, `list`, then the uploaded labels |
| `Columns.InsertedRows` | backend/app.py:74-75 | after both inserts every row is the two names followed by its uploaded cells |
| `Columns.InsertedLabelStays` | backend/app.py:76-84 | `source_name` and `list` survive normalisation and renaming unchanged |
| `Columns.Traverse` | backend/app.py:67-122 | a loop that processes each element in order and stops at the first error succeeds iff every element does, with one result per element in order |
| `Columns.TraverseKeepsRejection` | backend/app.py:67-72 | once a prefix is rejected, the later elements do not change the outcome |
| `Columns.TraverseFirstRejection` | backend/app.py:67-122 | a rejection is the error of the first failing element, all earlier ones passing |
| `Columns.ShapeAllStep` | backend/app.py:67-122 | one more file: a rejected prefix stays rejected, otherwise that file's own result is appended or ends the loop |
| `Columns.ShapeAll` | backend/app.py:65-122 | the upload is accepted iff every file is accepted. Then `processed_files` has one frame per upload, in upload order |
| `Columns.ShapeAllKeepsRejection` | backend/app.py:67-72 | once a prefix of the upload is rejected, later files decide nothing |
| `Columns.ShapeAllFirstRejection` | backend/app.py:67-84 | a rejected upload is rejected with the error of the first failing file, every earlier file passing |
| `Columns.FirstWrongWidthRejects` | backend/app.py:67-72 | the first file without 70 columns, after files that all pass, rejects the upload with the column-count error |
| `Uniques.Lookup` | backend/app.py:143 | a column not in the INSERT's column list reads as NULL; a named column reads as the value of its first occurrence |
| `Uniques.Matches` | backend/app.py:150-157 | the subquery's condition for one master row: equal street address, city and `owner_1_first_name` under SQL equality, and a non-NULL `phone1` |
| `Uniques.IsUnique` | backend/app.py:150-157 | `NOT EXISTS`: no master row matches the raw row |
| `Uniques.UniqueCount` | backend/app.py:147-160 | the `COUNT(*)` query: the number of positions of `audantic_raw_list` holding a unique row; `UniqueCountIsListSize` is its partner |
| `Uniques.Filter` | backend/app.py:166-179 | the rows kept by the `WHERE NOT EXISTS` clause, in table order: no more than there were, and exactly those that satisfy the clause |
| `Uniques.UniqueRows` | backend/app.py:166-179 | `uniques_list` is `audantic_raw_list` filtered by the `NOT EXISTS` predicate, so it has no more rows |
| `Uniques.UniqueRowsMembers` | backend/app.py:166-179 | a row is in `uniques_list` iff it is in `audantic_raw_list` and no master row matches it |
| `Uniques.CountWhereSnoc` | backend/app.py:147-158 | counting over one more row adds one exactly when that row satisfies the predicate |
| `Uniques.CountIsFilterLength` | backend/app.py:147-179 | counting the positions that satisfy a predicate gives the length of the filtered sequence |
| `Uniques.UniqueCountIsListSize` | backend/app.py:147-179 | `unique_count` equals the number of rows of `uniques_list`, since both queries use the same predicate |
| `Uniques.NullKeyRowsKept` | backend/app.py:153-155 | a raw row with a NULL street address, city or first owner's first name is always kept, because NULL equals nothing |
| `Uniques.DroppedIffMatched` | backend/app.py:150-157 | a raw row is dropped iff some master row with a non-NULL `phone1` equals it on street address, city and `owner_1_first_name` |
| `Backend.FailureResponse` | backend/app.py:192-200 | a numeric-range or data error answers 400 and any other exception 500; the error field is the exception text, or `pgerror` for a data error; no count |
| `Backend.Provided` | backend/app.py:62 | `not value` fails for a missing field and for the empty string, so a name counts only when present and non-empty |
| `Backend.Records` | backend/app.py:138-144 | the concatenation inserted by `executemany` has as many rows as the frames together, and a table row is inserted iff it is some frame's row with that frame's column list |
| `Backend.RecordsAt` | backend/app.py:138-144 | row `k` of file `i` is inserted at position `TotalRows(files before i) + k`, with file `i`'s column list, so multiplicity and order follow the files |
| `Backend.TotalRowsPrefix` | backend/app.py:138-144 | the rows of the files before file `i` plus those of file `i` are no more than all the rows |
| `Backend.FrameRecords` | backend/app.py:141-144 | one inserted row per frame row, in order, with the frame's column list |
| `Backend.Process` | backend/app.py:59-190 | no files: 400 "No files uploaded." before the names are checked. Files but a missing or empty name: 400. The request commits iff files were given, both names are non-empty, every file passes and the database raises nothing. It then commits the rows of the processed frames as the raw list and their unique rows as the uniques list, and answers 200 with `unique_count` equal to the size of that uniques list. Every other outcome is a non-200 answer |
| `Backend.TaggedRecords` | backend/app.py:74-75 | every row of frames that start with the two name columns reads back the source name and the list name |
| `Backend.LookupFirst` | backend/app.py:143 | the value of the first column is the row's first cell |
| `Backend.LookupSecond` | backend/app.py:143 | the value of the second column, when the first has another name, is the row's second cell |
| `Backend.ShapedIsTagged` | backend/app.py:74-84 | an accepted file's first two columns are `source_name` and `list`, with the request's names in every row |
| `Backend.RawListRowsTagged` | backend/app.py:135-144 | every row a successful request inserts into `audantic_raw_list` carries the request's `source_name` and `list` |
| `Backend.RawListSize` | backend/app.py:135-144 | after the truncate and the insert, `audantic_raw_list` has exactly as many rows as the uploaded files together |
| `Backend.WrongWidthAnswer` | backend/app.py:67-72 | the first file without 70 columns, after passing files, answers 400 with the column-count message and commits nothing, whatever the database would do |
| `Backend.ColumnHasValue` | backend/app.py:96-100 | whether some row of the column holds a value, which decides whether `max()` is a number or `pd.NA` |
| `Backend.RangeCheckAll` | backend/app.py:93-101 | the loop over `smallint_columns` gets through iff `SmallintsPass` holds |
| `Backend.LookUpAll` | backend/app.py:114-115 | the loop over the date columns gets through iff every one of them selects exactly one column |
| `Backend.ShapeUpload` | backend/app.py:71-116 | the body of the loop, statement by statement, computes exactly `ShapeFile` |
| `Backend.ShapeUploads` | backend/app.py:65-122 | the loop over `uploaded_files` computes exactly `ShapeAll`: all frames in order, or the first rejection |
| `Backend.Server.constructor` | backend/app.py:44 | a fresh process has `uniques_list_df = None` over a database in any state |
| `Backend.Server.ProcessSpreadsheets` | backend/app.py:49-200 | answers `Process`'s response, never "No valid files processed.". On any error nothing changes. On success `audantic_raw_list` holds exactly the concatenation of the processed files, whatever it held before, and `uniques_list` and `uniques_list_df` both hold its unique rows |
| `Backend.Server.DownloadUniquesList` | backend/app.py:205-216 | 404 "No uniques list available." until a successful upload has set `uniques_list_df`; afterwards `uniques_list.csv` with the unique rows of the current raw table |

## Left out

- React rendering, markup and CSS are not modelled. Of the rendering, only the two result guards are.
- `localStorage`, `FileReader`, `FormData` and axios are not modelled. The token, each file's read outcome and the way each POST settles are inputs.
- `process.env.REACT_APP_API_URL` is not modelled; it is the `apiUrl` parameter.
- Overlapping batches and reentrant submits are not modelled. Each handler is one atomic step.
- `preventDefault`, `stopPropagation`, `dropEffect` and the two drag-over handlers are left out. They change no state and only affect the browser.
- `skiptracedFiles` / `setSkiptracedFiles` are left out: the component declares them and never uses them.
- Console logging is left out.
- The login route and `Login.js` are not part of this model (bcrypt and JWT).
- `FileDownload.js`, the routing and the logout are not part of this model.
- The `/process_skiptraced` route is not part of this model. Only the client's request to it is. backend/app.py defines no such route, so the step-2 POST would be answered 404 by this backend.
- `pd.read_csv` is not modelled: the uploaded files come in as already-parsed DataFrames.
- These value clean-ups are not modelled, since they follow pandas' own semantics: the `""`/`"NaN"` replacements, the `Int64` casts, the date coercion and formatting, and the `NA`/`NaN` to `None` replacement (backend/app.py:86-120). The rows of a processed file keep the uploaded cells. So a source or list name `"NaN"`, which line 88 would turn into NULL, stays as it is.
- Of the smallint range check (backend/app.py:93-101), only the two ways it raises are modelled. A value out of range only prints, so it changes nothing.
- An `Int64` cast that raises on a value that is not a whole number is not modelled. Neither is a cast of an integer column whose label selects several columns; the model takes that cast not to raise.
- `pd.concat` over frames with different labels is not modelled as pandas does it, with a column union and NaN fill. Each inserted row keeps its own frame's column list, and a column it lacks reads as NULL.
- Records, UniqueRows: SQL tables are unordered. The model keeps rows in insertion order, and `unique_count`/`uniques_list` do not depend on that order.
- The connection, `commit` and `close` are not modelled, nor the `uniques_list` table as it reaches the client via `pd.read_sql_query`. A database exception is the `failure` parameter, and it is taken to happen before any table or the global changes. The real code could, in principle, set `uniques_list_df` and then fail at `commit`.
- Which database error arises from which data (a value out of range, an unknown column, a type the column does not accept) is not modelled.
- The CSV serialisation of the uniques list and the `send_file` headers are not modelled. The attachment carries the rows and the file name.
- `@jwt_required()` on both routes (backend/app.py:47,203) is not modelled: every request is taken to carry a valid token, so the 401/422 answers of a missing or bad token never arise.
- Backend.Server.DownloadUniquesList: the 500 answer of `download_uniques_list` is not modelled. The model takes `send_file` to accept `attachment_filename`, which holds for Flask before 2.2. Flask 2.2 and later raise `TypeError` there, which the route answers with its 500 message; the Flask version is not pinned.
- Columns.Lower: `str.lower()` is modelled for ASCII letters only. Other Unicode case mappings are left out.
