/**
 * The session state of ASCReaderApp — the loaded records, the current page and
 * the three patient fields — and what loading a file, clearing, and the two page
 * buttons do to it, as functions on values. The class in ReaderApp implements
 * each of them by updating fields in place.
 */
module ReaderSession {
  import opened Wrappers
  import opened JavaText
  import opened AscParser
  import opened Paging

  /** `allRecords`, `currentPage` and `patientId`, `patientName`, `glucoseLimits`. */
  datatype SessionState = SessionState(records: seq<Record>, page: nat, patient: Patient)

  const NoPatient := Patient("", "", "")

  /** The state of a freshly opened window. */
  function Initial(): SessionState
  {
    SessionState([], 0, NoPatient)
  }

  /** The current page is a page of the records, or 0 when there are none. */
  predicate PageInvariant(s: SessionState)
  {
    ValidPage(|s.records|, s.page)
  }

  /**
   * `loadASCFile`: when the parse succeeds, its records replace the old ones and
   * the first page is shown; when the reader throws, records and page stay as they
   * were. Either way the patient fields are those the parse left, since it writes
   * them while it reads.
   */
  function Load(s: SessionState, src: Source, conv: DateConverter): (r: SessionState)
    ensures PageInvariant(s) ==> PageInvariant(r)
    ensures !src.ioError ==> r.page == 0 && PageInvariant(r)
    ensures src.ioError ==> r.records == s.records && r.page == s.page
  {
    var o := ParseFile(s.patient, src, conv);
    match o.records
    case Some(recs) => SessionState(recs, 0, o.patient)
    case None => s.(patient := o.patient)
  }

  /** `clearAllData`: back to the state of a freshly opened window, whatever came before. */
  function Clear(s: SessionState): (r: SessionState)
    ensures r == Initial()
    ensures PageInvariant(r)
  {
    SessionState([], 0, NoPatient)
  }

  /** `previousPage`: one page back when there is an earlier page, otherwise nothing happens. */
  function Previous(s: SessionState): (r: SessionState)
    ensures PageInvariant(s) ==> PageInvariant(r)
    ensures r.records == s.records && r.patient == s.patient
  {
    if s.page > 0 then s.(page := s.page - 1) else s
  }

  /** `nextPage`: one page on when there is a later page, otherwise nothing happens. */
  function Next(s: SessionState): (r: SessionState)
    ensures PageInvariant(s) ==> PageInvariant(r)
    ensures r.records == s.records && r.patient == s.patient
  {
    if s.page < TotalPages(|s.records|) - 1 then s.(page := s.page + 1) else s
  }

  /** The page label and button flags of a session. */
  function SessionControls(s: SessionState): PageControls
  {
    Controls(|s.records|, s.page)
  }

  /** The window starts out satisfying the page invariant. */
  lemma InitialValid()
    ensures PageInvariant(Initial())
    ensures Initial().records == [] && Initial().page == 0 && Initial().patient == NoPatient
  {
  }

  /**
   * A successful load holds exactly the qualifying lines' readings, in file
   * order, and shows the first page of them.
   */
  lemma LoadedRecords(s: SessionState, src: Source, conv: DateConverter)
    requires !src.ioError
    ensures Load(s, src, conv).records == Expected(src.lines, |src.lines|, conv)
    ensures Load(s, src, conv).page == 0
    ensures PageSlice(Load(s, src, conv).records, 0)
      == Expected(src.lines, |src.lines|, conv)[..Min(RecordsPerPage, |Expected(src.lines, |src.lines|, conv)|)]
  {
    ParseRecordsAreQualifyingLines(s.patient, src.lines, conv);
  }

  /**
   * A load never resets the patient fields: one that no line of the file names
   * keeps its value from before the load, whether the load succeeds or fails.
   */
  lemma LoadKeepsAbsentField(s: SessionState, src: Source, f: PatientField, conv: DateConverter)
    requires forall i :: 0 <= i < |src.lines| ==> Overwrite(src.lines[i], f).None?
    ensures FieldOf(Load(s, src, conv).patient, f) == FieldOf(s.patient, f)
  {
    FieldKeptWhenAbsent(StartOfParse(s.patient), src.lines, f, conv);
  }

  /** After a load the last line of the file that names a patient field decides it. */
  lemma LoadTakesLastOccurrence(s: SessionState, src: Source, i: nat, f: PatientField, conv: DateConverter)
    requires i < |src.lines| && Overwrite(src.lines[i], f).Some?
    requires forall j :: i < j < |src.lines| ==> Overwrite(src.lines[j], f).None?
    ensures FieldOf(Load(s, src, conv).patient, f) == Overwrite(src.lines[i], f).value
  {
    LastOccurrenceWins(StartOfParse(s.patient), src.lines, i, f, conv);
  }

  /** Clearing twice is clearing once. */
  lemma ClearIdempotent(s: SessionState)
    ensures Clear(Clear(s)) == Clear(s)
  {
  }

  /**
   * The page buttons do what their enabled flags promise: a move changes the
   * state exactly when its button is enabled, and then by exactly one page.
   */
  lemma MovesFollowButtons(s: SessionState)
    requires PageInvariant(s)
    ensures Next(s) != s <==> SessionControls(s).nextEnabled
    ensures Previous(s) != s <==> SessionControls(s).previousEnabled
    ensures SessionControls(s).nextEnabled ==> Next(s).page == s.page + 1
    ensures SessionControls(s).previousEnabled ==> Previous(s).page == s.page - 1
  {
  }

  /** Next then previous, or previous then next, returns to the same page when the first move is enabled. */
  lemma MovesAreInverse(s: SessionState)
    requires PageInvariant(s)
    ensures SessionControls(s).nextEnabled ==> Previous(Next(s)) == s
    ensures SessionControls(s).previousEnabled ==> Next(Previous(s)) == s
  {
  }

  /**
   * Pressing next `k` times from the first page reaches page `k` while it exists;
   * pressing it more often stays on the last page.
   */
  function NextTimes(s: SessionState, k: nat): SessionState
  {
    if k == 0 then s else Next(NextTimes(s, k - 1))
  }

  lemma {:induction false} NextTimesFromFirstPage(s: SessionState, k: nat)
    requires s.page == 0 && |s.records| > 0
    ensures NextTimes(s, k).page == Min(k, TotalPages(|s.records|) - 1)
    ensures NextTimes(s, k).records == s.records
  {
    if k > 0 {
      NextTimesFromFirstPage(s, k - 1);
    }
  }

  /** "No patient information available", the text shown when no field is known. */
  const NoPatientInfo := "Informaci\U{F3}n del paciente no disponible"

  /** The "ID: <id> | " piece, present when the id is known. */
  function IdPart(p: Patient): string
  {
    if p.id != [] then "ID: " + p.id + " | " else []
  }

  /** The "Nombre: <name> | " piece, present when the name is known. */
  function NamePart(p: Patient): string
  {
    if p.name != [] then "Nombre: " + p.name + " | " else []
  }

  /**
   * `updatePatientInfo`'s text: "ID: <id> | " if the id is known, then
   * "Nombre: <name> | " if the name is known, then the glucose limits line; the
   * fallback text when none of the three is known. The name piece follows the id
   * piece directly, and known limits alone are the whole text. The length leaves
   * room for nothing else: an unknown field adds nothing and no text lies between
   * the pieces.
   */
  function PatientSummary(p: Patient): (r: string)
    ensures r != []
    ensures p == NoPatient ==> r == NoPatientInfo
    ensures p.id != [] ==> StartsWith(r, "ID: " + p.id + " | ")
    ensures p.id == [] && p.name != [] ==> StartsWith(r, "Nombre: " + p.name + " | ")
    ensures p.id != [] && p.name != [] ==> StartsWith(r, "ID: " + p.id + " | Nombre: " + p.name + " | ")
    ensures p.id == [] && p.name == [] && p.glucoseLimits != [] ==> r == p.glucoseLimits
    ensures p != NoPatient ==>
      |r| == (if p.id != [] then |p.id| + 7 else 0) + (if p.name != [] then |p.name| + 11 else 0) + |p.glucoseLimits|
    ensures p.glucoseLimits != [] ==> EndsWith(r, p.glucoseLimits)
  {
    var info := IdPart(p) + NamePart(p) + p.glucoseLimits;
    assert StartsWith(info, IdPart(p));
    assert StartsWith(info, IdPart(p) + NamePart(p));
    if info == [] then NoPatientInfo else info
  }

  /** The summary of a patient with some known field is its three pieces, in order. */
  lemma SummaryPieces(p: Patient)
    requires p != NoPatient
    ensures PatientSummary(p) == IdPart(p) + NamePart(p) + p.glucoseLimits
  {
  }

  /** A known id follows the "ID: " label. */
  lemma SummaryMentionsId(p: Patient)
    requires p.id != []
    ensures Contains(PatientSummary(p), p.id)
  {
    OccursInPrefix(PatientSummary(p), "ID: ", p.id, " | ");
  }

  /** A known name follows the id piece and the "Nombre: " label. */
  lemma SummaryMentionsName(p: Patient)
    requires p.name != []
    ensures Contains(PatientSummary(p), p.name)
  {
    var r := PatientSummary(p);
    if p.id == [] {
      OccursInPrefix(r, "Nombre: ", p.name, " | ");
    } else {
      var before := "ID: " + p.id + " | Nombre: ";
      assert before + p.name + " | " == "ID: " + p.id + " | Nombre: " + p.name + " | ";
      OccursInPrefix(r, before, p.name, " | ");
    }
  }

  /** Known glucose limits close the summary. */
  lemma SummaryMentionsLimits(p: Patient)
    requires p.glucoseLimits != []
    ensures Contains(PatientSummary(p), p.glucoseLimits)
  {
    OccursAsSuffix(PatientSummary(p), p.glucoseLimits);
  }

  /** Every known patient field appears in the summary text. */
  lemma SummaryMentionsKnownFields(p: Patient)
    ensures p.id != [] ==> Contains(PatientSummary(p), p.id)
    ensures p.name != [] ==> Contains(PatientSummary(p), p.name)
    ensures p.glucoseLimits != [] ==> Contains(PatientSummary(p), p.glucoseLimits)
  {
    if p.id != [] {
      SummaryMentionsId(p);
    }
    if p.name != [] {
      SummaryMentionsName(p);
    }
    if p.glucoseLimits != [] {
      SummaryMentionsLimits(p);
    }
  }
}
