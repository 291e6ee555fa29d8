/**
 * The window object of ASCReaderApp with the state its handlers update in place:
 * the loaded records, the current page, the three patient fields, and what the
 * window shows of them (the table rows, the patient label, the page label and
 * the two page buttons). Each handler is proved against the value-level
 * transition of the same name in ReaderSession.
 */
module ReaderApp {
  import opened Wrappers
  import opened JavaText
  import opened AscParser
  import opened Paging
  import opened ReaderSession

  /** The patient label of a window with no file loaded, and of one just cleared. */
  const NoFileLoaded := "No hay archivo cargado"

  class ASCReaderApp {
    var allRecords: seq<Record>
    var currentPage: nat
    var patientId: string
    var patientName: string
    var glucoseLimits: string

    /** The rows of `tableModel`. */
    var tableRows: seq<Record>
    /** The text of `patientInfoLabel`. */
    var patientInfoText: string
    /** What `pageInfoLabel`, `previousPageButton` and `nextPageButton` show. */
    var pageControls: PageControls

    /** The session state the fields hold. */
    function State(): SessionState
      reads this
    {
      SessionState(allRecords, currentPage, Patient(patientId, patientName, glucoseLimits))
    }

    /**
     * The current page is a page of the records, the table shows exactly that
     * page, and the page label and buttons describe it.
     */
    predicate Valid()
      reads this
    {
      && PageInvariant(State())
      && tableRows == PageSlice(allRecords, currentPage)
      && pageControls == Controls(|allRecords|, currentPage)
    }

    /** The field initialisers and the labels `initializeGUI` sets up. */
    constructor()
      ensures State() == Initial()
      ensures Valid()
      ensures patientInfoText == NoFileLoaded
    {
      allRecords := [];
      currentPage := 0;
      patientId := "";
      patientName := "";
      glucoseLimits := "";
      tableRows := [];
      patientInfoText := NoFileLoaded;
      pageControls := PageControls(NoPages, false, false);
    }

    /**
     * `parseASCFile`: one pass over the lines the reader delivers, writing the
     * patient fields as it meets them and collecting the readings; `None` when
     * the reader throws, after the lines it delivered have been processed.
     */
    method ParseASCFile(src: Source, conv: DateConverter) returns (records: Option<seq<Record>>)
      modifies this`patientId, this`patientName, this`glucoseLimits
      ensures records == ParseFile(old(State()).patient, src, conv).records
      ensures State() == old(State()).(patient := ParseFile(old(State()).patient, src, conv).patient)
    {
      ghost var p0 := Patient(patientId, patientName, glucoseLimits);
      var recs: seq<Record> := [];
      var inDataSection := false;
      var i := 0;
      while i < |src.lines|
        invariant 0 <= i <= |src.lines|
        invariant ParseLines(StartOfParse(p0), src.lines[..i], conv)
          == ParseState(inDataSection, Patient(patientId, patientName, glucoseLimits), recs)
      {
        PrefixStep(p0, src.lines, i + 1, conv);
        inDataSection, recs := ScanLine(src.lines[i], inDataSection, recs, conv);
        i := i + 1;
      }
      assert src.lines[..|src.lines|] == src.lines;
      if src.ioError {
        records := None;
      } else {
        records := Some(recs);
      }
    }

    /**
     * The body of the loop of `parseASCFile` for one line as read: the rules in
     * the source's order, each applying only when none before it does.
     */
    method ScanLine(rawLine: string, inDataSection: bool, recs: seq<Record>, conv: DateConverter)
      returns (section: bool, recs': seq<Record>)
      modifies this`patientId, this`patientName, this`glucoseLimits
      ensures ParseState(section, Patient(patientId, patientName, glucoseLimits), recs')
        == Step(ParseState(inDataSection, Patient(old(patientId), old(patientName), old(glucoseLimits)), recs), rawLine, conv)
    {
      section, recs' := inDataSection, recs;
      ghost var before := ParseState(inDataSection, Patient(patientId, patientName, glucoseLimits), recs);
      var line := Trim(rawLine);
      StepByKind(before, rawLine, line, Classify(line), conv);
      if line == [] {
        assert Classify(line) == Blank;
      } else if StartsWith(line, PatientIdPrefix) {
        assert Classify(line) == PatientIdLine(Trim(line[11..]));
        patientId := Trim(line[11..]);
      } else if StartsWith(line, PatientNamePrefix) {
        assert Classify(line) == PatientNameLine(Trim(line[13..]));
        patientName := Trim(line[13..]);
      } else if Contains(line, GlucoseLimitsTag) {
        assert Classify(line) == GlucoseLimitsLine(line);
        glucoseLimits := line;
      } else if Contains(line, ColumnHeaderMarker) || Contains(line, DataSectionMarker) {
        assert Classify(line) == Marker;
        section := true;
      } else if inDataSection && DataPattern(line) {
        assert Classify(line) == DataCandidate;
        var record := ParseDataLine(line, conv);
        if record.Some? {
          recs' := recs + [record.value];
        }
      } else {
        assert Classify(line) == DataCandidate || Classify(line) == Unrecognised;
      }
    }

    /**
     * `loadASCFile`: on a successful parse the records are replaced, the first
     * page is shown and the patient label is refreshed; when the reader throws
     * the table, page and labels stay as they were while the patient fields keep
     * what the parse wrote into them.
     */
    method LoadASCFile(src: Source, conv: DateConverter)
      requires Valid()
      modifies this
      ensures State() == Load(old(State()), src, conv)
      ensures Valid()
      ensures !src.ioError ==> patientInfoText == PatientSummary(State().patient)
      ensures src.ioError ==> patientInfoText == old(patientInfoText)
    {
      var parsed := ParseASCFile(src, conv);
      match parsed
      case Some(recs) =>
        allRecords := recs;
        currentPage := 0;
        UpdatePatientInfo();
        UpdateTableWithCurrentPage();
      case None =>
    }

    /** `updatePatientInfo`: the patient label built field by field. */
    method UpdatePatientInfo()
      modifies this`patientInfoText
      ensures patientInfoText == PatientSummary(State().patient)
    {
      ghost var idPart := IdPart(State().patient);
      ghost var namePart := NamePart(State().patient);
      var info := "";
      if patientId != "" {
        info := info + "ID: " + patientId + " | ";
      }
      assert info == idPart;
      if patientName != "" {
        info := info + "Nombre: " + patientName + " | ";
      }
      assert info == idPart + namePart;
      if glucoseLimits != "" {
        info := info + glucoseLimits;
      }
      assert info == idPart + namePart + glucoseLimits;
      if info == "" {
        info := NoPatientInfo;
      }
      patientInfoText := info;
    }

    /** `clearAllData`: no records, page 0, no patient, an empty table and the "no file" label. */
    method ClearAllData()
      modifies this
      ensures State() == Clear(old(State()))
      ensures Valid()
      ensures patientInfoText == NoFileLoaded
    {
      allRecords := [];
      currentPage := 0;
      tableRows := [];
      patientId := "";
      patientName := "";
      glucoseLimits := "";
      patientInfoText := NoFileLoaded;
      UpdatePaginationControls();
    }

    /**
     * `updateTableWithCurrentPage`: the table is emptied and refilled with the
     * records from `startIndex` up to `endIndex`, then the page controls are
     * refreshed. A page past the end leaves the table empty.
     */
    method UpdateTableWithCurrentPage()
      modifies this`tableRows, this`pageControls
      ensures tableRows == PageSlice(allRecords, currentPage)
      ensures pageControls == Controls(|allRecords|, currentPage)
    {
      tableRows := [];
      if allRecords == [] {
        UpdatePaginationControls();
        return;
      }
      var startIndex := currentPage * RecordsPerPage;
      var endIndex := Min(startIndex + RecordsPerPage, |allRecords|);
      var i := startIndex;
      while i < endIndex
        invariant startIndex <= i
        invariant i <= endIndex || i == startIndex
        invariant |tableRows| == i - startIndex
        invariant forall k :: 0 <= k < |tableRows| ==> tableRows[k] == allRecords[startIndex + k]
      {
        tableRows := tableRows + [allRecords[i]];
        i := i + 1;
      }
      if startIndex < endIndex {
        assert tableRows == allRecords[startIndex..endIndex];
      }
      UpdatePaginationControls();
    }

    /** `updatePaginationControls`: the page label and the enabled flags of the two buttons. */
    method UpdatePaginationControls()
      modifies this`pageControls
      ensures pageControls == Controls(|allRecords|, currentPage)
    {
      var totalPages := TotalPages(|allRecords|);
      if totalPages == 0 {
        pageControls := PageControls(NoPages, false, false);
      } else {
        var startRecord := currentPage * RecordsPerPage + 1;
        var endRecord := Min((currentPage + 1) * RecordsPerPage, |allRecords|);
        pageControls := PageControls(
          Showing(currentPage + 1, totalPages, startRecord, endRecord, |allRecords|),
          currentPage > 0, currentPage < totalPages - 1);
      }
    }

    /** `previousPage`: back one page and redraw, when there is an earlier page. */
    method PreviousPage()
      requires Valid()
      modifies this
      ensures State() == Previous(old(State()))
      ensures Valid()
      ensures patientInfoText == old(patientInfoText)
    {
      if currentPage > 0 {
        currentPage := currentPage - 1;
        UpdateTableWithCurrentPage();
      }
    }

    /** `nextPage`: on one page and redraw, when there is a later page. */
    method NextPage()
      requires Valid()
      modifies this
      ensures State() == Next(old(State()))
      ensures Valid()
      ensures patientInfoText == old(patientInfoText)
    {
      var totalPages: int := TotalPages(|allRecords|);
      if currentPage < totalPages - 1 {
        currentPage := currentPage + 1;
        UpdateTableWithCurrentPage();
      }
    }
  }
}
