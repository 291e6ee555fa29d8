/**
 * The ASC line parser of ASCReaderApp: `parseASCFile`, which makes one forward
 * pass over the lines of a device export, and `parseDataLine`, which turns one
 * data line into a seven-column reading.
 *
 * The date conversion (`SimpleDateFormat("yyMMdd")` then `"dd/MM/yyyy"`) is a
 * parameter: a partial function whose `None` stands for a `ParseException`.
 */
module AscParser {
  import opened Wrappers
  import opened JavaText

  /** One reading, the seven-element row the source stores per data line. */
  datatype Record = Record(
    date: string,
    time: string,
    glucose: string,
    insulin: string,
    carbs: string,
    eventCode: string,
    status: string)

  /** The three patient fields the parser overwrites while it scans. */
  datatype Patient = Patient(id: string, name: string, glucoseLimits: string)

  /** yyMMdd token to dd/MM/yyyy text; `None` is a failed conversion. */
  type DateConverter = string -> Option<string>

  /**
   * The lines a reader delivers. After the last of them it either reaches the
   * end of the file (`ioError == false`) or throws an IOException (`true`);
   * a file that cannot be opened is `Source([], true)`.
   */
  datatype Source = Source(lines: seq<string>, ioError: bool)

  const Missing := "N/A"
  const PatientIdPrefix := "Patient ID:"
  const PatientNamePrefix := "Patient Name:"
  const GlucoseLimitsTag := "Glucose Limits"
  const ColumnHeaderMarker := "YYMMDD HHMM"
  const DataSectionMarker := "Data:"

  /** The row in table column order: date, time, glucose, insulin, carbs, event code, status. */
  function Columns(r: Record): seq<string>
  {
    [r.date, r.time, r.glucose, r.insulin, r.carbs, r.eventCode, r.status]
  }

  /**
   * `line.matches("\\d{6}\\s+\\d{4}.*")`: six digits, a run of whitespace, four
   * digits, then anything free of line terminators. The whitespace run is the
   * maximal one, since the digit after it is not whitespace.
   */
  predicate DataPattern(t: string)
  {
    |t| > 6 && AllDigits(t[..6]) && IsSpace(t[6]) &&
    var j := SkipSpaces(t, 6);
    j + 4 <= |t| && AllDigits(t[j..j + 4]) && NoLineTerminator(t[j + 4..])
  }

  /** Where the time token of a data-pattern line starts. */
  function TimeStart(t: string): nat
    requires DataPattern(t)
  {
    SkipSpaces(t, 6)
  }

  /**
   * A line of the data pattern splits into at least two tokens: the six date
   * digits, then a token that starts with the four time digits.
   */
  lemma DataPatternTokens(t: string)
    requires DataPattern(t)
    ensures |Tokens(t)| >= 2
    ensures Tokens(t)[0] == t[..6]
    ensures |Tokens(t)[1]| >= 4 && Tokens(t)[1][..4] == t[TimeStart(t)..TimeStart(t) + 4]
  {
    var j := TimeStart(t);
    DateTokenFirst(t);
    var u := t[j..];
    forall k | 0 <= k < 4 ensures !IsSpace(u[k]) {
      assert u[k] == t[j..j + 4][k];
    }
    LongFirstToken(u, 4);
    assert Tokens(t)[1] == Tokens(u)[0];
    assert u[..4] == t[j..j + 4];
  }

  /** The six date digits are the first token; the rest of the tokens start at the time digits. */
  lemma DateTokenFirst(t: string)
    requires DataPattern(t)
    ensures Tokens(t) == [t[..6]] + Tokens(t[TimeStart(t)..])
  {
    var j := TimeStart(t);
    assert t == t[..6] + t[6..j] + t[j..];
    assert NoSpaces(t[..6]) by {
      forall k | 0 <= k < 6 ensures !IsSpace(t[..6][k]) {
        assert IsDigit(t[..6][k]);
      }
    }
    TokensOfWord(t[..6], t[6..j], t[j..]);
  }

  /** A string starting with `m > 0` non-space characters has a first token of at least that length. */
  lemma LongFirstToken(u: string, m: nat)
    requires 0 < m <= |u|
    requires forall k :: 0 <= k < m ==> !IsSpace(u[k])
    ensures |Tokens(u)| >= 1 && |Tokens(u)[0]| >= m && Tokens(u)[0][..m] == u[..m]
  {
    WordLengthAtLeast(u, m);
  }

  /** `parts.length > k ? parts[k] : "N/A"`. */
  function FieldOr(ts: seq<string>, k: nat): string
  {
    if |ts| > k then ts[k] else Missing
  }

  /**
   * `parseDataLine`: `null` (here `None`) when the line has fewer than three
   * tokens or its date token does not convert; otherwise the reading.
   * The only caller passes lines of the data pattern.
   */
  function ParseDataLine(t: string, conv: DateConverter): (r: Option<Record>)
    requires DataPattern(t)
    ensures r.Some? <==> |Tokens(t)| >= 3 && conv(t[..6]).Some?
  {
    DataPatternTokens(t);
    var ts := Tokens(t);
    if |ts| < 3 then None
    else
      match conv(ts[0])
      case None => None
      case Some(date) =>
        var time := ts[1][..2] + ":" + ts[1][2..4];
        Some(Record(date, time, FieldOr(ts, 2), FieldOr(ts, 3), FieldOr(ts, 4), FieldOr(ts, 5), FieldOr(ts, 6)))
  }

  /**
   * A parsed reading: its date converts the line's first six characters; its time
   * is the four digits after the whitespace with a colon in the middle, with no
   * range check; columns 2 to 6 are tokens 2 to 6 verbatim, "N/A" where the line
   * has no such token, so glucose always comes from the line and tokens past
   * the seventh play no part.
   */
  lemma RecordShape(t: string, conv: DateConverter)
    requires DataPattern(t) && ParseDataLine(t, conv).Some?
    ensures var r := ParseDataLine(t, conv).value;
      && r.date == conv(t[..6]).value
      && |r.time| == 5 && r.time[2] == ':'
      && r.time[..2] + r.time[3..] == t[TimeStart(t)..TimeStart(t) + 4]
      && AllDigits(r.time[..2]) && AllDigits(r.time[3..])
      && r.glucose == Tokens(t)[2]
      && |Columns(r)| == 7
      && forall k :: 2 <= k < 7 ==> Columns(r)[k] == if k < |Tokens(t)| then Tokens(t)[k] else Missing
  {
    DataPatternTokens(t);
    var r := ParseDataLine(t, conv).value;
    var ts := Tokens(t);
    var j := TimeStart(t);
    var w := ts[1][..4];
    assert w == t[j..j + 4];
    assert r.time == ts[1][..2] + ":" + ts[1][2..4];
    assert ts[1][..2] == w[..2] && ts[1][2..4] == w[2..];
    assert r.time[..2] == w[..2];
    assert r.time[3..] == w[2..];
    assert w == w[..2] + w[2..];
  }

  /** How a trimmed line is classified; the first rule that applies wins. */
  datatype LineKind =
    | Blank
    | PatientIdLine(id: string)
    | PatientNameLine(name: string)
    | GlucoseLimitsLine(limits: string)
    | Marker
    | DataCandidate
    | Unrecognised

  /** The rule chain of `parseASCFile` applied to a trimmed line. */
  function Classify(t: string): (k: LineKind)
    ensures k.DataCandidate? ==> DataPattern(t)
  {
    if t == [] then Blank
    else if StartsWith(t, PatientIdPrefix) then PatientIdLine(Trim(t[11..]))
    else if StartsWith(t, PatientNamePrefix) then PatientNameLine(Trim(t[13..]))
    else if Contains(t, GlucoseLimitsTag) then GlucoseLimitsLine(t)
    else if Contains(t, ColumnHeaderMarker) || Contains(t, DataSectionMarker) then Marker
    else if DataPattern(t) then DataCandidate
    else Unrecognised
  }

  /** What the loop of `parseASCFile` carries from one line to the next. */
  datatype ParseState = ParseState(inDataSection: bool, patient: Patient, records: seq<Record>)

  /** The state at the start of a parse: the patient fields as the session holds them. */
  function StartOfParse(p: Patient): ParseState
  {
    ParseState(false, p, [])
  }

  /** One iteration of the loop of `parseASCFile` on a line as read. */
  function Step(st: ParseState, line: string, conv: DateConverter): ParseState
  {
    var t := Trim(line);
    match Classify(t)
    case Blank => st
    case PatientIdLine(v) => st.(patient := st.patient.(id := v))
    case PatientNameLine(v) => st.(patient := st.patient.(name := v))
    case GlucoseLimitsLine(v) => st.(patient := st.patient.(glucoseLimits := v))
    case Marker => st.(inDataSection := true)
    case DataCandidate =>
      if st.inDataSection then
        match ParseDataLine(t, conv)
        case Some(r) => st.(records := st.records + [r])
        case None => st
      else st
    case Unrecognised => st
  }

  /**
   * Proof helper: `Step` unfolded kind by kind for a line whose trimmed text is
   * `t` and classifies as `k`, so callers need not unfold `Classify` and `Step`
   * together. The properties of a step are the lemmas ClassificationPriority,
   * DataRule, StepRecords, DroppedLineChangesNothing, StepDataSection and StepField.
   */
  lemma StepByKind(st: ParseState, line: string, t: string, k: LineKind, conv: DateConverter)
    requires t == Trim(line) && k == Classify(t)
    ensures k == Blank || k == Unrecognised ==> Step(st, line, conv) == st
    ensures k.PatientIdLine? ==> Step(st, line, conv) == st.(patient := st.patient.(id := k.id))
    ensures k.PatientNameLine? ==> Step(st, line, conv) == st.(patient := st.patient.(name := k.name))
    ensures k.GlucoseLimitsLine? ==> Step(st, line, conv) == st.(patient := st.patient.(glucoseLimits := k.limits))
    ensures k == Marker ==> Step(st, line, conv) == st.(inDataSection := true)
    ensures k == DataCandidate && !st.inDataSection ==> Step(st, line, conv) == st
    ensures k == DataCandidate && st.inDataSection ==>
      Step(st, line, conv) == match ParseDataLine(t, conv)
        case Some(r) => st.(records := st.records + [r])
        case None => st
  {
  }

  /** The loop of `parseASCFile` run over `lines`, in order. */
  function ParseLines(st: ParseState, lines: seq<string>, conv: DateConverter): ParseState
    decreases |lines|
  {
    if lines == [] then st
    else Step(ParseLines(st, lines[..|lines| - 1], conv), lines[|lines| - 1], conv)
  }

  /** What a call of `parseASCFile` leaves behind: the patient fields, and the records unless it threw. */
  datatype ParseOutcome = ParseOutcome(patient: Patient, records: Option<seq<Record>>)

  /**
   * `parseASCFile`: the patient fields are updated line by line even when the
   * reader throws part-way; the records are returned only when it does not.
   */
  function ParseFile(p: Patient, src: Source, conv: DateConverter): (o: ParseOutcome)
    ensures o.records.Some? <==> !src.ioError
  {
    var st := ParseLines(StartOfParse(p), src.lines, conv);
    ParseOutcome(st.patient, if src.ioError then None else Some(st.records))
  }

  // ---------------------------------------------------------------------
  // Classification, one line at a time

  /**
   * The classification rules in priority order: a "Patient ID:" line sets only the
   * id (even if it also names the glucose limits or a data marker); a "Patient
   * Name:" line only the name; a line naming the glucose limits only those, whole;
   * a marker line only opens the data section, even if it looks like data; a blank
   * line changes nothing.
   */
  lemma ClassificationPriority(st: ParseState, line: string, conv: DateConverter)
    ensures var t := Trim(line);
      && (StartsWith(t, PatientIdPrefix) ==>
            Step(st, line, conv) == st.(patient := st.patient.(id := Trim(t[11..]))))
      && (StartsWith(t, PatientNamePrefix) ==>
            Step(st, line, conv) == st.(patient := st.patient.(name := Trim(t[13..]))))
      && (!StartsWith(t, PatientIdPrefix) && !StartsWith(t, PatientNamePrefix) && Contains(t, GlucoseLimitsTag) ==>
            Step(st, line, conv) == st.(patient := st.patient.(glucoseLimits := t)))
      && (!StartsWith(t, PatientIdPrefix) && !StartsWith(t, PatientNamePrefix) && !Contains(t, GlucoseLimitsTag)
          && (Contains(t, ColumnHeaderMarker) || Contains(t, DataSectionMarker)) ==>
            Step(st, line, conv) == st.(inDataSection := true))
      && (t == [] ==> Step(st, line, conv) == st)
  {
    var t := Trim(line);
    if StartsWith(t, PatientNamePrefix) {
      assert t[8] == 'N';
      assert !StartsWith(t, PatientIdPrefix);
    }
  }

  /**
   * The data rule comes last: a trimmed line is a data candidate exactly when it
   * matches the data pattern and none of the four earlier rules claims it.
   */
  lemma DataRule(t: string)
    ensures Classify(t) == DataCandidate <==>
      && !StartsWith(t, PatientIdPrefix) && !StartsWith(t, PatientNamePrefix)
      && !Contains(t, GlucoseLimitsTag)
      && !Contains(t, ColumnHeaderMarker) && !Contains(t, DataSectionMarker)
      && DataPattern(t)
  {
  }

  /** A data-pattern line outside the data section, or one that does not parse, changes nothing. */
  lemma DroppedLineChangesNothing(st: ParseState, line: string, conv: DateConverter)
    requires Classify(Trim(line)) == DataCandidate
    requires !st.inDataSection || ParseDataLine(Trim(line), conv).None?
    ensures Step(st, line, conv) == st
  {
  }

  /** Only marker lines open the data section, and nothing closes it. */
  lemma StepDataSection(st: ParseState, line: string, conv: DateConverter)
    ensures Step(st, line, conv).inDataSection == (st.inDataSection || Classify(Trim(line)) == Marker)
  {
  }

  /** A step either keeps the records or appends exactly the reading of its own line. */
  lemma StepRecords(st: ParseState, line: string, conv: DateConverter)
    ensures var t := Trim(line);
      Step(st, line, conv).records ==
        if st.inDataSection && Classify(t) == DataCandidate && ParseDataLine(t, conv).Some?
        then st.records + [ParseDataLine(t, conv).value]
        else st.records
  {
    var t := Trim(line);
    match Classify(t)
    case DataCandidate =>
    case _ =>
  }

  // ---------------------------------------------------------------------
  // The whole pass

  /** Parsing a file in two pieces is parsing it in one. */
  lemma {:induction false} ParseLinesAppend(st: ParseState, a: seq<string>, b: seq<string>, conv: DateConverter)
    ensures ParseLines(st, a + b, conv) == ParseLines(ParseLines(st, a, conv), b, conv)
    decreases |b|
  {
    if b == [] {
      assert a + b == a;
    } else {
      assert (a + b)[..|a + b| - 1] == a + b[..|b| - 1];
      assert (a + b)[|a + b| - 1] == b[|b| - 1];
      ParseLinesAppend(st, a, b[..|b| - 1], conv);
    }
  }

  /**
   * A line that leaves the state as it finds it — a blank line, a dropped data
   * line — can be removed from the file without changing the outcome.
   */
  lemma InertLineInvisible(st: ParseState, a: seq<string>, line: string, b: seq<string>, conv: DateConverter)
    requires Step(ParseLines(st, a, conv), line, conv) == ParseLines(st, a, conv)
    ensures ParseLines(st, a + [line] + b, conv) == ParseLines(st, a + b, conv)
  {
    ParseLinesAppend(st, a + [line], b, conv);
    ParseLinesAppend(st, a, [line], conv);
    assert ParseLines(ParseLines(st, a, conv), [line], conv) == Step(ParseLines(st, a, conv), line, conv) by {
      assert [line][..0] == [];
    }
    ParseLinesAppend(st, a, b, conv);
  }

  /** The line at index `i` is a data-section marker. */
  predicate IsMarkerLine(lines: seq<string>, i: nat)
    requires i < |lines|
  {
    Classify(Trim(lines[i])) == Marker
  }

  /** Some line before index `k` is a data-section marker. */
  predicate SeenMarker(lines: seq<string>, k: nat)
    requires k <= |lines|
  {
    exists j | 0 <= j < k :: IsMarkerLine(lines, j)
  }

  /**
   * What line `i` contributes to the records, decided from the file alone: its
   * reading, if an earlier line is a marker, the line is classified as data and
   * `parseDataLine` accepts it; nothing otherwise.
   */
  function Contribution(lines: seq<string>, i: nat, conv: DateConverter): seq<Record>
    requires i < |lines|
  {
    var t := Trim(lines[i]);
    if SeenMarker(lines, i) && Classify(t) == DataCandidate then
      match ParseDataLine(t, conv)
      case Some(r) => [r]
      case None => []
    else []
  }

  /** The contributions of the first `k` lines, in file order. */
  function Expected(lines: seq<string>, k: nat, conv: DateConverter): seq<Record>
    requires k <= |lines|
  {
    if k == 0 then [] else Expected(lines, k - 1, conv) + Contribution(lines, k - 1, conv)
  }

  /**
   * A line qualifies exactly when an earlier line is a marker, the data rule
   * claims it, it has at least three tokens and its date converts; a qualifying
   * line contributes its own reading and nothing else.
   */
  lemma ContributionQualifying(lines: seq<string>, i: nat, conv: DateConverter)
    requires i < |lines|
    ensures var t := Trim(lines[i]);
      Contribution(lines, i, conv) != [] <==>
        SeenMarker(lines, i) && Classify(t) == DataCandidate && |Tokens(t)| >= 3 && conv(t[..6]).Some?
    ensures var t := Trim(lines[i]);
      Contribution(lines, i, conv) != [] ==>
        Classify(t) == DataCandidate && Contribution(lines, i, conv) == [ParseDataLine(t, conv).value]
  {
  }

  /** After the first `k` lines the data section is open exactly when one of them was a marker. */
  lemma {:induction false} SectionAfterPrefix(p: Patient, lines: seq<string>, k: nat, conv: DateConverter)
    requires k <= |lines|
    ensures ParseLines(StartOfParse(p), lines[..k], conv).inDataSection == SeenMarker(lines, k)
  {
    if k > 0 {
      SectionAfterPrefix(p, lines, k - 1, conv);
      PrefixStep(p, lines, k, conv);
      StepDataSection(ParseLines(StartOfParse(p), lines[..k - 1], conv), lines[k - 1], conv);
      if IsMarkerLine(lines, k - 1) {
        assert SeenMarker(lines, k);
      } else {
        assert SeenMarker(lines, k) == SeenMarker(lines, k - 1);
      }
    }
  }

  /** The state after `k` lines is one step past the state after `k - 1`. */
  lemma PrefixStep(p: Patient, lines: seq<string>, k: nat, conv: DateConverter)
    requires 0 < k <= |lines|
    ensures ParseLines(StartOfParse(p), lines[..k], conv)
      == Step(ParseLines(StartOfParse(p), lines[..k - 1], conv), lines[k - 1], conv)
  {
    assert lines[..k][..k - 1] == lines[..k - 1];
    assert lines[..k][k - 1] == lines[k - 1];
  }

  /**
   * After the first `k` lines the records are exactly the contributions of those
   * lines, in file order: no sorting, no deduplication, nothing else.
   */
  lemma {:induction false} ParsePrefix(p: Patient, lines: seq<string>, k: nat, conv: DateConverter)
    requires k <= |lines|
    ensures ParseLines(StartOfParse(p), lines[..k], conv).records == Expected(lines, k, conv)
  {
    if k > 0 {
      ParsePrefix(p, lines, k - 1, conv);
      SectionAfterPrefix(p, lines, k - 1, conv);
      PrefixStep(p, lines, k, conv);
      StepRecords(ParseLines(StartOfParse(p), lines[..k - 1], conv), lines[k - 1], conv);
    }
  }

  /** The records of a whole parse are the qualifying lines' readings, in file order. */
  lemma ParseRecordsAreQualifyingLines(p: Patient, lines: seq<string>, conv: DateConverter)
    ensures ParseLines(StartOfParse(p), lines, conv).records == Expected(lines, |lines|, conv)
  {
    ParsePrefix(p, lines, |lines|, conv);
    assert lines[..|lines|] == lines;
  }

  /** No line before the first marker ever contributes a record. */
  lemma {:induction false} NoRecordsBeforeMarker(lines: seq<string>, k: nat, conv: DateConverter)
    requires k <= |lines|
    requires !SeenMarker(lines, k)
    ensures Expected(lines, k, conv) == []
  {
    if k > 0 {
      NoRecordsBeforeMarker(lines, k - 1, conv);
    }
  }

  // ---------------------------------------------------------------------
  // The patient fields

  datatype PatientField = IdField | NameField | LimitsField

  function FieldOf(p: Patient, f: PatientField): string
  {
    match f
    case IdField => p.id
    case NameField => p.name
    case LimitsField => p.glucoseLimits
  }

  /** The value a line writes into field `f`, if it writes that field at all. */
  function Overwrite(line: string, f: PatientField): Option<string>
  {
    match Classify(Trim(line))
    case PatientIdLine(v) => if f == IdField then Some(v) else None
    case PatientNameLine(v) => if f == NameField then Some(v) else None
    case GlucoseLimitsLine(v) => if f == LimitsField then Some(v) else None
    case _ => None
  }

  /** A step sets a patient field to the value of a line that names it, and leaves every other field alone. */
  lemma StepField(st: ParseState, line: string, f: PatientField, conv: DateConverter)
    ensures FieldOf(Step(st, line, conv).patient, f) ==
      if Overwrite(line, f).Some? then Overwrite(line, f).value else FieldOf(st.patient, f)
  {
    var t := Trim(line);
    StepByKind(st, line, t, Classify(t), conv);
  }

  /** The value each header kind carries: the trimmed rest after the prefix, or the whole line. */
  lemma ClassifiedValues(t: string)
    ensures Classify(t).PatientIdLine? ==> |t| >= 11 && Classify(t).id == Trim(t[11..])
    ensures Classify(t).PatientNameLine? ==> |t| >= 13 && Classify(t).name == Trim(t[13..])
    ensures Classify(t).GlucoseLimitsLine? ==> Classify(t).limits == t
  {
  }

  /** The value a line writes into a patient field is already trimmed. */
  lemma WrittenValueTrimmed(line: string, f: PatientField)
    requires Overwrite(line, f).Some?
    ensures Trim(Overwrite(line, f).value) == Overwrite(line, f).value
  {
    var t := Trim(line);
    var k := Classify(t);
    ClassifiedValues(t);
    if k.PatientIdLine? {
      TrimIdempotent(t[11..]);
    } else if k.PatientNameLine? {
      TrimIdempotent(t[13..]);
    } else {
      TrimIdempotent(line);
    }
  }

  /** A field that no line of the file names keeps the value it had before the parse. */
  lemma {:induction false} FieldKeptWhenAbsent(st: ParseState, lines: seq<string>, f: PatientField, conv: DateConverter)
    requires forall i :: 0 <= i < |lines| ==> Overwrite(lines[i], f).None?
    ensures FieldOf(ParseLines(st, lines, conv).patient, f) == FieldOf(st.patient, f)
    decreases |lines|
  {
    if lines != [] {
      var front := lines[..|lines| - 1];
      assert forall i :: 0 <= i < |front| ==> front[i] == lines[i];
      FieldKeptWhenAbsent(st, front, f, conv);
      StepField(ParseLines(st, front, conv), lines[|lines| - 1], f, conv);
    }
  }

  /** The last line that names a field decides its value. */
  lemma {:induction false} LastOccurrenceWins(st: ParseState, lines: seq<string>, i: nat, f: PatientField, conv: DateConverter)
    requires i < |lines| && Overwrite(lines[i], f).Some?
    requires forall j :: i < j < |lines| ==> Overwrite(lines[j], f).None?
    ensures FieldOf(ParseLines(st, lines, conv).patient, f) == Overwrite(lines[i], f).value
    decreases |lines|
  {
    var front := lines[..|lines| - 1];
    var last := lines[|lines| - 1];
    StepField(ParseLines(st, front, conv), last, f, conv);
    if i < |lines| - 1 {
      assert forall j :: i < j < |front| ==> front[j] == lines[j];
      LastOccurrenceWins(st, front, i, f, conv);
    }
  }

  // ---------------------------------------------------------------------
  // Worked examples

  /** " ABC123" trims to "ABC123". */
  lemma TrimLeadingSpace(u: string)
    requires u == " ABC123"
    ensures Trim(u) == "ABC123"
  {
    assert SkipBlanks(u, 1) == 1;
    assert SkipBlanks(u, 0) == 1;
    assert CutBlanks(u, 1, 7) == 7;
  }

  /** "Patient ID: ABC123" sets the id to ABC123. */
  lemma PatientIdExample(st: ParseState, line: string, conv: DateConverter)
    requires line == "Patient ID: ABC123"
    ensures Step(st, line, conv).patient.id == "ABC123"
  {
    TrimOfTrimmed(line);
    assert StartsWith(line, PatientIdPrefix);
    TrimLeadingSpace(line[11..]);
  }

  /** Six date digits, one space, four time digits and a tail without line terminators match the data pattern. */
  lemma DataPatternOf(d: string, tm: string, rest: string)
    requires |d| == 6 && AllDigits(d) && |tm| == 4 && AllDigits(tm) && NoLineTerminator(rest)
    ensures DataPattern(d + " " + tm + rest)
    ensures TimeStart(d + " " + tm + rest) == 7
  {
    var t := d + " " + tm + rest;
    assert t[..6] == d;
    assert t[7] == tm[0];
    assert SkipSpaces(t, 7) == 7;
    assert t[7..11] == tm;
    assert t[11..] == rest;
  }

  /** The reading of an accepted data line, spelled out from its tokens. */
  lemma ReadingFromTokens(t: string, ts: seq<string>, conv: DateConverter)
    requires DataPattern(t) && Tokens(t) == ts && |ts| >= 3 && conv(ts[0]).Some?
    ensures |ts[1]| >= 4
    ensures ParseDataLine(t, conv) == Some(Record(conv(ts[0]).value, ts[1][..2] + ":" + ts[1][2..4],
      FieldOr(ts, 2), FieldOr(ts, 3), FieldOr(ts, 4), FieldOr(ts, 5), FieldOr(ts, 6)))
  {
    DataPatternTokens(t);
  }

  /** Two texts free of line terminators make one. */
  lemma NoLineTerminatorAppend(a: string, b: string)
    requires NoLineTerminator(a) && NoLineTerminator(b)
    ensures NoLineTerminator(a + b)
  {
    forall k | 0 <= k < |a + b| ensures !IsLineTerminator((a + b)[k]) {
      if k >= |a| {
        assert (a + b)[k] == b[k - |a|];
      }
    }
  }

  /** Columns joined by single spaces carry no line terminator when the columns carry none. */
  lemma {:induction false} JoinWordsNoLineTerminator(ws: seq<string>)
    requires forall i :: 0 <= i < |ws| ==> NoLineTerminator(ws[i])
    ensures NoLineTerminator(JoinWords(ws))
  {
    if |ws| > 1 {
      JoinWordsNoLineTerminator(ws[1..]);
      NoLineTerminatorAppend(ws[0], " ");
      NoLineTerminatorAppend(ws[0] + " ", JoinWords(ws[1..]));
    }
  }

  /** A device line: a six-digit date, a four-digit time, then further columns, all single-spaced. */
  predicate WrittenLine(ws: seq<string>)
  {
    && |ws| >= 2
    && |ws[0]| == 6 && AllDigits(ws[0])
    && |ws[1]| == 4 && AllDigits(ws[1])
    && (forall i :: 0 <= i < |ws| ==> IsWord(ws[i]) && NoLineTerminator(ws[i]))
  }

  /** What follows the time column of a written line: a space and the remaining columns, if any. */
  function Tail(ws: seq<string>): string
  {
    if |ws| > 2 then " " + JoinWords(ws[2..]) else []
  }

  /** A written line is its date column, a space, its time column and its tail. */
  lemma WrittenLineSplit(ws: seq<string>)
    requires WrittenLine(ws)
    ensures JoinWords(ws) == ws[0] + " " + ws[1] + Tail(ws)
    ensures NoLineTerminator(Tail(ws))
  {
    assert ws[1..][0] == ws[1] && ws[1..][1..] == ws[2..];
    if |ws| == 2 {
      assert JoinWords(ws[1..]) == ws[1];
      assert ws[0] + " " + ws[1] + [] == ws[0] + " " + ws[1];
    } else {
      var rest := JoinWords(ws[2..]);
      assert JoinWords(ws[1..]) == ws[1] + " " + rest;
      assert ws[0] + " " + (ws[1] + " " + rest) == ws[0] + " " + ws[1] + (" " + rest);
      JoinWordsNoLineTerminator(ws[2..]);
      NoLineTerminatorAppend(" ", rest);
    }
  }

  /** A written line matches the data pattern and splits back into its columns. */
  lemma WrittenLineMatches(ws: seq<string>)
    requires WrittenLine(ws)
    ensures DataPattern(JoinWords(ws))
    ensures Tokens(JoinWords(ws)) == ws
    ensures JoinWords(ws)[..6] == ws[0]
  {
    var t := JoinWords(ws);
    WrittenLineSplit(ws);
    DataPatternOf(ws[0], ws[1], Tail(ws));
    TokensOfJoinWords(ws);
    assert t[..6] == ws[0];
  }

  /**
   * Round trip: columns written as a single-spaced device line are read back as
   * those columns. The line matches the data pattern, and it yields the reading
   * built from its columns exactly when there are at least three of them and the
   * date converts.
   */
  lemma WrittenLineRoundTrip(ws: seq<string>, conv: DateConverter)
    requires WrittenLine(ws)
    ensures DataPattern(JoinWords(ws))
    ensures ParseDataLine(JoinWords(ws), conv) ==
      if |ws| >= 3 && conv(ws[0]).Some?
      then Some(Record(conv(ws[0]).value, ws[1][..2] + ":" + ws[1][2..],
        FieldOr(ws, 2), FieldOr(ws, 3), FieldOr(ws, 4), FieldOr(ws, 5), FieldOr(ws, 6)))
      else None
  {
    WrittenLineMatches(ws);
    if |ws| >= 3 && conv(ws[0]).Some? {
      WrittenLineAccepted(ws, conv);
    }
  }

  /** The accepted half of the round trip, column by column. */
  lemma WrittenLineAccepted(ws: seq<string>, conv: DateConverter)
    requires WrittenLine(ws) && |ws| >= 3 && conv(ws[0]).Some?
    ensures DataPattern(JoinWords(ws))
    ensures ParseDataLine(JoinWords(ws), conv) ==
      Some(Record(conv(ws[0]).value, ws[1][..2] + ":" + ws[1][2..],
        FieldOr(ws, 2), FieldOr(ws, 3), FieldOr(ws, 4), FieldOr(ws, 5), FieldOr(ws, 6)))
  {
    WrittenLineMatches(ws);
    ReadingFromTokens(JoinWords(ws), ws, conv);
    assert ws[1][2..4] == ws[1][2..];
  }

  /** The seven example columns form a device line. */
  lemma FullLineColumnsWritten()
    ensures WrittenLine(["240115", "0930", "120", "4.5", "30", "EVT1", "OK"])
  {
    var ws := ["240115", "0930", "120", "4.5", "30", "EVT1", "OK"];
    assert forall i :: 0 <= i < |ws| ==> IsWord(ws[i]) && NoLineTerminator(ws[i]);
  }

  /** The time column 0930 reads as 09:30. */
  lemma TimeOfExample(tm: string)
    requires tm == "0930"
    ensures tm[..2] + ":" + tm[2..] == "09:30"
  {
    assert tm[..2] == "09" && tm[2..] == "30";
  }

  /**
   * A full data line, the seven columns "240115 0930 120 4.5 30 EVT1 OK" as the
   * device writes them, gives all seven columns from its tokens.
   */
  lemma FullLineExample(line: string, conv: DateConverter)
    requires line == "240115 0930 120 4.5 30 EVT1 OK"
    requires conv("240115") == Some("15/01/2024")
    ensures DataPattern(line)
    ensures ParseDataLine(line, conv) == Some(Record("15/01/2024", "09:30", "120", "4.5", "30", "EVT1", "OK"))
  {
    var ws := ["240115", "0930", "120", "4.5", "30", "EVT1", "OK"];
    FullLineColumns(line);
    FullLineColumnsWritten();
    WrittenLineRoundTrip(ws, conv);
    TimeOfExample(ws[1]);
    assert FieldOr(ws, 2) == "120" && FieldOr(ws, 3) == "4.5" && FieldOr(ws, 4) == "30";
    assert FieldOr(ws, 5) == "EVT1" && FieldOr(ws, 6) == "OK";
  }

  /** The seven example columns, single-spaced: the three short-line columns, a space, the other four. */
  lemma FullLineColumns(line: string)
    requires line == "240115 0930 120 4.5 30 EVT1 OK"
    ensures line == JoinWords(["240115", "0930", "120", "4.5", "30", "EVT1", "OK"])
  {
    var a, b := line[..15], line[16..];
    assert line == a + " " + b by {
      assert line[15] == ' ';
      assert line == line[..15] + [line[15]] + line[16..];
    }
    ShortLineColumns(a);
    RestColumns(b);
    var head, rest := ["240115", "0930", "120"], ["4.5", "30", "EVT1", "OK"];
    JoinWordsAppend(head, rest);
    assert head + rest == ["240115", "0930", "120", "4.5", "30", "EVT1", "OK"];
  }

  /** The last four example columns, single-spaced. */
  lemma RestColumns(u: string)
    requires u == "4.5 30 EVT1 OK"
    ensures u == JoinWords(["4.5", "30", "EVT1", "OK"])
  {
    var ws := ["4.5", "30", "EVT1", "OK"];
    assert JoinWords(ws[3..]) == "OK";
    assert JoinWords(ws[2..]) == "EVT1 OK";
    assert JoinWords(ws[1..]) == "30 EVT1 OK";
  }

  /** The three example columns date, time and glucose, single-spaced. */
  lemma ShortLineColumns(line: string)
    requires line == "240115 0930 120"
    ensures line == JoinWords(["240115", "0930", "120"])
    ensures WrittenLine(["240115", "0930", "120"])
  {
    var ws := ["240115", "0930", "120"];
    assert JoinWords(ws[2..]) == "120";
    assert JoinWords(ws[1..]) == "0930 120";
    assert forall i :: 0 <= i < |ws| ==> IsWord(ws[i]) && NoLineTerminator(ws[i]);
  }

  /** A data line with only date, time and glucose gets "N/A" in the other four columns. */
  lemma ShortLineExample(line: string, conv: DateConverter)
    requires line == "240115 0930 120"
    requires conv("240115") == Some("15/01/2024")
    ensures DataPattern(line)
    ensures ParseDataLine(line, conv) == Some(Record("15/01/2024", "09:30", "120", Missing, Missing, Missing, Missing))
  {
    var ws := ["240115", "0930", "120"];
    ShortLineColumns(line);
    WrittenLineRoundTrip(ws, conv);
    TimeOfExample(ws[1]);
    assert FieldOr(ws, 2) == "120";
    assert FieldOr(ws, 3) == Missing && FieldOr(ws, 4) == Missing;
    assert FieldOr(ws, 5) == Missing && FieldOr(ws, 6) == Missing;
  }

  /**
   * A data-pattern line whose date does not convert (such as 241399 under a strict
   * calendar) yields no reading, whatever else it holds.
   */
  lemma BadDateExample(line: string, conv: DateConverter)
    requires line == "241399 0930 120"
    requires conv("241399") == None
    ensures DataPattern(line)
    ensures ParseDataLine(line, conv) == None
  {
    var ws := ["241399", "0930", "120"];
    BadDateColumns(line);
    WrittenLineRoundTrip(ws, conv);
  }

  /** The three columns of the bad-date example, single-spaced. */
  lemma BadDateColumns(line: string)
    requires line == "241399 0930 120"
    ensures line == JoinWords(["241399", "0930", "120"])
    ensures WrittenLine(["241399", "0930", "120"])
  {
    var ws := ["241399", "0930", "120"];
    assert JoinWords(ws[2..]) == "120";
    assert JoinWords(ws[1..]) == "0930 120";
    assert forall i :: 0 <= i < |ws| ==> IsWord(ws[i]) && NoLineTerminator(ws[i]);
  }
}
