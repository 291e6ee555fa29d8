# ASCReaderApp in Dafny

ASCReaderApp is a Swing desktop viewer for ASC exports from glucose meters and
insulin devices. It reads a text file line by line. It picks up three patient
fields from header lines ("Patient ID:", "Patient Name:", a line naming the
"Glucose Limits"). After a data-section marker ("YYMMDD HHMM" or "Data:") it
turns each line of the form `YYMMDD HHMM glucose insulin carbs event status`
into a seven-column reading. The readings are shown 100 per page, with
previous/next buttons and a page label.

This project models that core and proves properties of it:

- `wrappers.dfy` (`Wrappers`): `Option`, standing for Java's `null` results.
- `text.dfy` (`JavaText`): the String and regex behaviour the parser relies on.
  This covers `trim`, `startsWith`, `contains`, `\s`, `\d`, `.` and `split("\\s+")`.
- `parser.dfy` (`AscParser`): `parseDataLine` as a function and the scan loop of
  `parseASCFile` as a step function folded over the lines. One loop iteration
  (`Step`) is specified by `ClassificationPriority` (the id, name,
  glucose-limits and marker rules and blank lines), `DataRule` (when the data
  rule applies), `StepRecords` and `DroppedLineChangesNothing` (what a data line
  does to the records), `StepDataSection` (the section flag) and `StepField` (the
  patient fields). It also holds an
  independent reference for the records (`Expected`, which decides each line's
  contribution from the file alone) and the lemmas connecting the two.
- `paging.dfy` (`Paging`): the page slice, the page count, the page label
  numbers and the button flags.
- `session.dfy` (`ReaderSession`): the window's state as a value. It defines
  what loading, clearing and the two page buttons do to that state, and the
  patient summary label.
- `app.dfy` (`ReaderApp`): class `ASCReaderApp`, with the source's fields and the
  handlers as methods that update them in place. Each handler (the constructor,
  `LoadASCFile`, `ClearAllData`, `PreviousPage`, `NextPage`) is proved to produce
  the state the matching `ReaderSession` function describes, and keeps the
  invariant `Valid()`: the page is a real page, the table shows exactly that
  page, and the page label and buttons describe it. The helpers they call
  (`ParseASCFile`, `ScanLine`, `UpdatePatientInfo`, `UpdateTableWithCurrentPage`,
  `UpdatePaginationControls`) are each proved against the function of the model
  that specifies them.

The date conversion `SimpleDateFormat("yyMMdd")` → `"dd/MM/yyyy"` is a parameter
`conv: string -> Option<string>`; `None` stands for a `ParseException`. The file
reader is a `Source(lines, ioError)`: the lines it delivers, then either the end
of the file or an `IOException`. A file that cannot be opened is `Source([], true)`.

Three behaviours of the code might surprise a reader. The model keeps them as written:

- A load that fails part-way (the reader throws) has already overwritten any
  patient field named in the lines read so far. Records, page and table keep
  their old values, and so do the patient label and the page label; the status
  label switches to its error text and an error dialog appears, neither of which
  is modelled (see "## Left out") (`ReaderSession.Load`,
  `ReaderApp.ASCReaderApp.LoadASCFile`).
- A load never resets the patient fields. A field the new file does not name
  keeps the value from the previous file (`ReaderSession.LoadKeepsAbsentField`).
- Whether a date such as `241399` is rejected depends on the date converter.
  `SimpleDateFormat` is lenient by default and rolls the month over instead of
  throwing. So the model states "dropped exactly when the conversion fails"
  (`AscParser.BadDateExample` assumes a converter that rejects it).

## Model

| member | source | states |
|---|---|---|
| JavaText.TrimSpec | src/ASCReaderApp.java:176 | `Trim` cuts a run of characters at or below U+0020 from each end and nothing else: its result is an infix of the line with only such characters before and after it, starting and ending above U+0020, empty exactly when every character is at or below U+0020 |
| JavaText.TrimUnique | src/ASCReaderApp.java:176 | any infix with only characters at or below U+0020 on either side that itself starts and ends above U+0020 (or is empty) is `Trim` of the line: the description pins `trim` down |
| JavaText.TrimIdempotent | src/ASCReaderApp.java:184 | trimming an already trimmed line changes nothing |
| JavaText.Tokens | src/ASCReaderApp.java:217 | every piece `split("\\s+")` yields is non-empty and holds no whitespace |
| JavaText.TokensOfJoinWords | src/ASCReaderApp.java:217 | splitting words joined by single spaces gives back exactly those words |
| AscParser.DataPatternTokens | src/ASCReaderApp.java:203-227 | a line matching `\d{6}\s+\d{4}.*` splits into at least two tokens; the first is its six date digits, the second starts with its four time digits |
| AscParser.ParseDataLine | src/ASCReaderApp.java:215-252 | a reading is produced exactly when the line has at least three tokens and its date converts; otherwise `null` |
| AscParser.RecordShape | src/ASCReaderApp.java:222-246 | a reading has seven columns: the converted date, the time `HH:MM` cut from the four time digits with no range check, and tokens 2 to 6 verbatim or "N/A" |
| AscParser.DataPatternOf | src/ASCReaderApp.java:203 | six digits, a space, four digits and a tail free of line terminators match `DataPattern`, the model of `\d{6}\s+\d{4}.*`, with the time digits at position 7 |
| AscParser.Classify | src/ASCReaderApp.java:179-203 | a line classified as data matches the data pattern |
| AscParser.DataRule | src/ASCReaderApp.java:179-203 | a trimmed line is classified as data exactly when it matches the data pattern and none of the id, name, glucose-limits and marker rules claims it |
| AscParser.ClassificationPriority | src/ASCReaderApp.java:179-201 | the first rule that applies wins: id line, name line, glucose-limits line, marker line; a blank line changes nothing |
| AscParser.DroppedLineChangesNothing | src/ASCReaderApp.java:203-207 | a data line outside the data section, or one `parseDataLine` rejects, leaves the parse state unchanged |
| AscParser.StepDataSection | src/ASCReaderApp.java:198-201 | only a marker line opens the data section, and nothing closes it |
| AscParser.StepRecords | src/ASCReaderApp.java:203-207 | a line either appends exactly its own reading or leaves the records alone |
| AscParser.ParseFile | src/ASCReaderApp.java:171-212 | records are returned exactly when the reader does not throw |
| AscParser.PrefixStep | src/ASCReaderApp.java:175-209 | the loop (`ParseLines`) takes the file's lines in order: the state after k lines is one `Step` past the state after k - 1 |
| AscParser.ParseLinesAppend | src/ASCReaderApp.java:175-209 | scanning a file in two pieces equals scanning it in one |
| AscParser.InertLineInvisible | src/ASCReaderApp.java:179-181 | a line that leaves the state unchanged can be removed from the file without changing the outcome |
| AscParser.SectionAfterPrefix | src/ASCReaderApp.java:173-201 | after k lines the data section is open exactly when one of them was a marker |
| AscParser.ContributionQualifying | src/ASCReaderApp.java:203-207 | the reference `Contribution`/`Expected`: a line contributes exactly when an earlier line is a marker, the data rule claims it, it has at least three tokens and its date converts, and then it contributes exactly its reading |
| AscParser.ParsePrefix | src/ASCReaderApp.java:175-209 | after k lines the records are exactly the lines' contributions, in file order |
| AscParser.ParseRecordsAreQualifyingLines | src/ASCReaderApp.java:166-213 | the records of a whole parse are the qualifying lines' readings, in file order, with no reordering or deduplication |
| AscParser.NoRecordsBeforeMarker | src/ASCReaderApp.java:203 | no line before the first marker contributes a record |
| AscParser.StepField | src/ASCReaderApp.java:183-196 | a line that names a patient field sets it to the line's value (possibly empty, as for a bare "Patient ID:"); it never changes a field the line does not name |
| AscParser.WrittenValueTrimmed | src/ASCReaderApp.java:183-196 | the value a line writes into a patient field is already trimmed |
| AscParser.FieldKeptWhenAbsent | src/ASCReaderApp.java:183-196 | a field no line names keeps the value it had before the parse |
| AscParser.LastOccurrenceWins | src/ASCReaderApp.java:183-196 | the last line naming a field decides its value |
| AscParser.PatientIdExample | src/ASCReaderApp.java:183-185 | "Patient ID: ABC123" sets the id to "ABC123" |
| AscParser.WrittenLineRoundTrip | src/ASCReaderApp.java:203-246 | columns written as a single-spaced device line are read back as those columns, or rejected exactly when there are fewer than three or the date does not convert |
| AscParser.FullLineExample | src/ASCReaderApp.java:217-246 | the line 240115 0930 120 4.5 30 EVT1 OK gives all seven columns |
| AscParser.ShortLineExample | src/ASCReaderApp.java:230-242 | "240115 0930 120" fills insulin, carbs, event code and status with "N/A" |
| AscParser.BadDateExample | src/ASCReaderApp.java:222-224 | a data line whose date does not convert yields no reading |
| Paging.TotalPages | src/ASCReaderApp.java:317 | the page count is the ceiling of n / 100: enough pages for n records, no spare page, 0 exactly for no records |
| Paging.PageSlice | src/ASCReaderApp.java:306-311 | the table rows are at most 100 records, each the record at `startIndex` plus its row number; there are `endIndex - startIndex` of them when `startIndex` is inside the list, none otherwise |
| Paging.PageSize | src/ASCReaderApp.java:306-311 | a valid page of a non-empty list holds 1 to 100 records, every page but the last exactly 100, and is the list infix from 100 p to min(100 p + 100, n) |
| Paging.PagesPrefix | src/ASCReaderApp.java:306-311 | the first k pages, in order, are the first min(100 k, n) records |
| Paging.PagesCoverRecords | src/ASCReaderApp.java:306-311 | all pages in order are the whole record list: nothing lost, repeated or reordered |
| Paging.ControlsDescribePage | src/ASCReaderApp.java:316-333 | `Controls`, the label and flags of `updatePaginationControls`: the label counts pages from 1, its first record is `startIndex + 1` and its last `endIndex`, so it names exactly the records on the page; previous is enabled exactly when p > 0, next exactly when records follow the page; an empty list disables both |
| Paging.TwoHundredFiftyRecords | src/ASCReaderApp.java:316-333 | 250 records make 3 pages; page 3 reads 201-250 of 250 with next disabled |
| ReaderSession.Load | src/ASCReaderApp.java:144-164 | a successful load shows page 0 of the new records; a failed one keeps records and page; the page invariant is preserved |
| ReaderSession.Clear | src/ASCReaderApp.java:284-296 | clearing returns to the state of a new window |
| ReaderSession.Previous | src/ASCReaderApp.java:335-340 | previous keeps the page invariant and changes only the page |
| ReaderSession.Next | src/ASCReaderApp.java:342-348 | next keeps the page invariant and changes only the page |
| ReaderSession.InitialValid | src/ASCReaderApp.java:31-37 | `Initial`, the field initialisers: a new window holds no records, page 0 and no patient, and meets the page invariant |
| ReaderSession.LoadedRecords | src/ASCReaderApp.java:148-149 | after a successful load the records are the qualifying lines' readings and the table shows the first 100 of them |
| ReaderSession.LoadKeepsAbsentField | src/ASCReaderApp.java:183-196 | a patient field the new file does not name survives the load, whether it succeeds or fails |
| ReaderSession.LoadTakesLastOccurrence | src/ASCReaderApp.java:183-196 | after a load, the file's last line naming a field decides it |
| ReaderSession.ClearIdempotent | src/ASCReaderApp.java:284-296 | clearing twice is clearing once |
| ReaderSession.MovesFollowButtons | src/ASCReaderApp.java:330-348 | a move changes the state exactly when its button is enabled, and then by one page |
| ReaderSession.MovesAreInverse | src/ASCReaderApp.java:335-348 | an enabled next followed by previous, or an enabled previous followed by next, returns to the same state |
| ReaderSession.NextTimesFromFirstPage | src/ASCReaderApp.java:342-348 | pressing next k times from the first page reaches page min(k, last page) |
| ReaderSession.PatientSummary | src/ASCReaderApp.java:254-274 | the label starts with "ID: " and the id when the id is known, followed directly by "Nombre: " and the name when the name is known too, else with "Nombre: " and the name when the name is known; known limits alone are the whole label; it ends with the glucose limits when known; with no field known it is the fallback text; its length is that of the known pieces alone, so an unknown field adds nothing and nothing lies between the pieces |
| ReaderSession.SummaryMentionsKnownFields | src/ASCReaderApp.java:254-274 | every known patient field appears in the label |
| ReaderApp.ASCReaderApp.constructor | src/ASCReaderApp.java:31-113 | a new window is in the initial state of the field initialisers (31-37), meets `Valid()`, shows "No hay archivo cargado" as patient label (55), an empty page label and both page buttons disabled (104, 107, 113) |
| ReaderApp.ASCReaderApp.ParseASCFile | src/ASCReaderApp.java:166-213 | the loop's result and its updates to the patient fields are those of `ParseFile`; nothing else changes |
| ReaderApp.ASCReaderApp.ScanLine | src/ASCReaderApp.java:176-208 | one iteration of the rule chain has the effect of one `Step` |
| ReaderApp.ASCReaderApp.LoadASCFile | src/ASCReaderApp.java:144-164 | the new state is `Load` of the old one, `Valid()` is kept, and the patient label is refreshed only on success |
| ReaderApp.ASCReaderApp.UpdatePatientInfo | src/ASCReaderApp.java:254-274 | the label built piece by piece is `PatientSummary` of the fields |
| ReaderApp.ASCReaderApp.ClearAllData | src/ASCReaderApp.java:284-296 | the new state is `Clear` of the old one; the table is empty and the label says no file is loaded |
| ReaderApp.ASCReaderApp.UpdateTableWithCurrentPage | src/ASCReaderApp.java:298-314 | the copy loop fills the table with exactly `PageSlice` of the current page; the page controls are refreshed |
| ReaderApp.ASCReaderApp.UpdatePaginationControls | src/ASCReaderApp.java:316-333 | the label and button flags are `Controls` of the record count and page |
| ReaderApp.ASCReaderApp.PreviousPage | src/ASCReaderApp.java:335-340 | the new state is `Previous` of the old one and `Valid()` is kept |
| ReaderApp.ASCReaderApp.NextPage | src/ASCReaderApp.java:342-348 | the new state is `Next` of the old one and `Valid()` is kept |

## Left out

- The Swing window is not modelled: frames, layout, fonts, the file chooser, the error dialog a failed load opens, and the status label's texts (including the loading and error texts a failed load leaves). The page label is kept as its numbers (`PageInfo`), not as the formatted Spanish text.
- The status label's record count after a load, and `System.err` logging of a rejected date, are output only and are not modelled.
- File reading: the reader is the `Source` value, the lines it delivers plus whether it ends in an `IOException`. Line splitting by `BufferedReader.readLine` is not modelled. Neither is closing the reader, which changes no modelled state.
- `SimpleDateFormat`: parsing `yyMMdd` and formatting `dd/MM/yyyy` are the `conv` parameter. Leniency, the two-digit-year pivot (which depends on the clock) and time zones are therefore not modelled.
- Exceptions other than `ParseException` cannot arise in `parseDataLine` and are not modelled.
- `Paging.TotalPages`: `Math.ceil` on a `double` is replaced by integer ceiling division, which gives the same result for every `int` record count.
- Java `int` overflow in `currentPage * RECORDS_PER_PAGE` is not modelled. Counts are unbounded integers here; overflow would need more than 21 million pages.
- JavaText.Tokens: equals `split("\\s+")` only for non-empty strings that do not start with whitespace (Java gives `[""]` for the empty string, `Tokens` gives no token). Every line that reaches `parseDataLine` starts with a digit, so this covers every call.
- Unpaired UTF-16 surrogates are not modelled: strings are sequences of Dafny characters.
- The `columnNames` header and the table's non-editable cells, which are display settings.
