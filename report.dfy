/** Record assembly: the row persisted for each submission, the results
    table, and the order of the blocks of the written report. Fonts, colours,
    column widths, pagination and the file itself are left to the document
    library and are not modelled; a block records only its text and style
    name. */
module Report {
  import opened Instruments
  import opened Levels

  /** A value in a row or table: `main.py` mixes text and integer scores. */
  datatype Cell = Text(text: string) | Int(value: int)

  datatype Patient = Patient(name: string, age: string, tumorType: string)

  /** One instrument's total and severity label. */
  datatype TestResult = TestResult(score: int, level: string)

  datatype Style = TitleStyle | Normal | Heading2

  datatype Block =
    | Paragraph(text: string, style: Style)
    | Spacer
    | Grid(data: seq<seq<Cell>>)

  const ReportTitle: string := "Patient Report – Psychological Screening"

  const GeneralNotes: seq<string> := [
    "This is a preliminary report and does not represent a final medical diagnosis.",
    "Consultation with a mental health professional is advised for a comprehensive assessment."
  ]

  /** Display name of each instrument in the results table. */
  function TestName(inst: Instrument): string
  {
    match inst
    case BAI => "Beck Anxiety Inventory (BAI)"
    case PHQ9 => "Patient Health Questionnaire-9 (PHQ-9)"
    case ISI => "Insomnia Severity Index (ISI)"
  }

  /** The instruments in the fixed order of every row, table and note list. */
  const Order: seq<Instrument> := [BAI, PHQ9, ISI]

  /** The row appended to the patients log: patient fields, then score and
      level of each instrument in BAI, PHQ-9, ISI order, then the timestamp. */
  function CsvRow(p: Patient, bai: TestResult, phq9: TestResult, isi: TestResult, timestamp: string): (row: seq<Cell>)
    ensures |row| == 10
    ensures row[..3] == [Text(p.name), Text(p.age), Text(p.tumorType)]
    ensures row[3..5] == [Int(bai.score), Text(bai.level)]
    ensures row[5..7] == [Int(phq9.score), Text(phq9.level)]
    ensures row[7..9] == [Int(isi.score), Text(isi.level)]
    ensures row[9] == Text(timestamp)
  {
    [Text(p.name), Text(p.age), Text(p.tumorType),
     Int(bai.score), Text(bai.level),
     Int(phq9.score), Text(phq9.level),
     Int(isi.score), Text(isi.level),
     Text(timestamp)]
  }

  function ResultsTable(bai: TestResult, phq9: TestResult, isi: TestResult): (data: seq<seq<Cell>>)
    ensures |data| == 4
    ensures data[0] == [Text("Test Name"), Text("Score"), Text("Level")]
    ensures forall k :: 1 <= k < 4 ==> |data[k]| == 3 && data[k][0] == Text(TestName(Order[k - 1]))
  {
    [[Text("Test Name"), Text("Score"), Text("Level")],
     [Text(TestName(BAI)), Int(bai.score), Text(bai.level)],
     [Text(TestName(PHQ9)), Int(phq9.score), Text(phq9.level)],
     [Text(TestName(ISI)), Int(isi.score), Text(isi.level)]]
  }

  /** Each data row of the table carries the same score and level, in the
      same instrument order, as the persisted row, whatever the patient
      fields and timestamp hold. */
  lemma TableAgreesWithRow(p: Patient, bai: TestResult, phq9: TestResult, isi: TestResult, timestamp: string, k: nat)
    requires k < 3
    ensures ResultsTable(bai, phq9, isi)[k + 1][1..] == CsvRow(p, bai, phq9, isi, timestamp)[3 + 2 * k .. 5 + 2 * k]
  {
    var row := CsvRow(p, bai, phq9, isi, timestamp);
    var table := ResultsTable(bai, phq9, isi);
    if k == 0 {
      assert table[1][1..] == [Int(bai.score), Text(bai.level)];
    } else if k == 1 {
      assert table[2][1..] == [Int(phq9.score), Text(phq9.level)];
    } else {
      assert table[3][1..] == [Int(isi.score), Text(isi.level)];
    }
  }

  /** One "- " line per general note, in order. */
  function NoteLines(notes: seq<string>): (lines: seq<Block>)
    ensures |lines| == |notes|
    ensures forall i :: 0 <= i < |notes| ==> lines[i] == Paragraph("- " + notes[i], Normal)
  {
    if notes == [] then [] else NoteLines(notes[..|notes| - 1]) + [Paragraph("- " + notes[|notes| - 1], Normal)]
  }

  /** The report's blocks in order: title, patient fields, results table,
      the advisory note of each instrument, the general notes, the date. */
  function ReportStory(p: Patient, bai: TestResult, phq9: TestResult, isi: TestResult,
                       baiNote: string, phq9Note: string, isiNote: string, date: string): (story: seq<Block>)
    ensures |story| == 18
  {
    [Paragraph(ReportTitle, TitleStyle), Spacer,
     Paragraph("Patient Name: " + p.name, Normal),
     Paragraph("Age: " + p.age, Normal),
     Paragraph("Tumor Type: " + p.tumorType, Normal),
     Spacer,
     Grid(ResultsTable(bai, phq9, isi)), Spacer,
     Paragraph("Notes per Test:", Heading2),
     Paragraph("- BAI (Anxiety): " + baiNote, Normal),
     Paragraph("- PHQ-9 (Depression): " + phq9Note, Normal),
     Paragraph("- ISI (Insomnia): " + isiNote, Normal),
     Spacer,
     Paragraph("General Notes:", Heading2)]
    + NoteLines(GeneralNotes)
    + [Spacer, Paragraph("Date: " + date, Normal)]
  }

  /** Title and patient fields open the report, in the order name, age,
      tumor type, whatever text those fields hold. */
  lemma ReportOpensWithPatient(p: Patient, bai: TestResult, phq9: TestResult, isi: TestResult,
                               baiNote: string, phq9Note: string, isiNote: string, date: string)
    ensures var story := ReportStory(p, bai, phq9, isi, baiNote, phq9Note, isiNote, date);
      && story[0] == Paragraph(ReportTitle, TitleStyle)
      && story[2] == Paragraph("Patient Name: " + p.name, Normal)
      && story[3] == Paragraph("Age: " + p.age, Normal)
      && story[4] == Paragraph("Tumor Type: " + p.tumorType, Normal)
  {
  }

  /** The results table sits after the patient fields, and its rows carry
      the scores and levels of the persisted row in the same order. */
  lemma ReportTableMatchesRow(p: Patient, bai: TestResult, phq9: TestResult, isi: TestResult,
                              baiNote: string, phq9Note: string, isiNote: string, date: string, timestamp: string)
    ensures var story := ReportStory(p, bai, phq9, isi, baiNote, phq9Note, isiNote, date);
      && story[6] == Grid(ResultsTable(bai, phq9, isi))
      && story[6].data[0] == [Text("Test Name"), Text("Score"), Text("Level")]
      && forall k :: 0 <= k < 3 ==>
           story[6].data[k + 1][1..] == CsvRow(p, bai, phq9, isi, timestamp)[3 + 2 * k .. 5 + 2 * k]
  {
    forall k | 0 <= k < 3
      ensures ResultsTable(bai, phq9, isi)[k + 1][1..] == CsvRow(p, bai, phq9, isi, timestamp)[3 + 2 * k .. 5 + 2 * k]
    {
      TableAgreesWithRow(p, bai, phq9, isi, timestamp, k);
    }
  }

  /** A spacer separates the title, the patient fields, the table, the notes
      per test, and the general notes from the date. */
  lemma ReportSpacers(p: Patient, bai: TestResult, phq9: TestResult, isi: TestResult,
                      baiNote: string, phq9Note: string, isiNote: string, date: string)
    ensures var story := ReportStory(p, bai, phq9, isi, baiNote, phq9Note, isiNote, date);
      && story[1] == Spacer && story[5] == Spacer && story[7] == Spacer
      && story[12] == Spacer && story[16] == Spacer
  {
  }

  /** Under "Notes per Test:" comes one advisory note per instrument, in
      BAI, PHQ-9, ISI order. */
  lemma ReportNotesPerTest(p: Patient, bai: TestResult, phq9: TestResult, isi: TestResult,
                           baiNote: string, phq9Note: string, isiNote: string, date: string)
    ensures var story := ReportStory(p, bai, phq9, isi, baiNote, phq9Note, isiNote, date);
      && story[8] == Paragraph("Notes per Test:", Heading2)
      && story[9] == Paragraph("- BAI (Anxiety): " + baiNote, Normal)
      && story[10] == Paragraph("- PHQ-9 (Depression): " + phq9Note, Normal)
      && story[11] == Paragraph("- ISI (Insomnia): " + isiNote, Normal)
  {
  }

  /** The two general disclaimers follow their heading verbatim, and the
      date closes the report. */
  lemma ReportCloses(p: Patient, bai: TestResult, phq9: TestResult, isi: TestResult,
                     baiNote: string, phq9Note: string, isiNote: string, date: string)
    ensures var story := ReportStory(p, bai, phq9, isi, baiNote, phq9Note, isiNote, date);
      && story[13] == Paragraph("General Notes:", Heading2)
      && story[14] == Paragraph("- " + GeneralNotes[0], Normal)
      && story[15] == Paragraph("- " + GeneralNotes[1], Normal)
      && story[17] == Paragraph("Date: " + date, Normal)
  {
  }

  /** Builds the report's blocks by successive appends, as `main.py` does,
      with the general notes appended by a loop. The advisory notes arrive
      already looked up by level. */
  method BuildReport(p: Patient, bai: TestResult, phq9: TestResult, isi: TestResult,
                     baiNote: string, phq9Note: string, isiNote: string, date: string)
    returns (story: seq<Block>)
    ensures story == ReportStory(p, bai, phq9, isi, baiNote, phq9Note, isiNote, date)
  {
    story := [];
    story := story + [Paragraph(ReportTitle, TitleStyle), Spacer];
    story := story + [Paragraph("Patient Name: " + p.name, Normal),
                      Paragraph("Age: " + p.age, Normal),
                      Paragraph("Tumor Type: " + p.tumorType, Normal),
                      Spacer];
    var data := ResultsTable(bai, phq9, isi);
    story := story + [Grid(data), Spacer];
    story := story + [Paragraph("Notes per Test:", Heading2),
                      Paragraph("- BAI (Anxiety): " + baiNote, Normal),
                      Paragraph("- PHQ-9 (Depression): " + phq9Note, Normal),
                      Paragraph("- ISI (Insomnia): " + isiNote, Normal),
                      Spacer];
    story := story + [Paragraph("General Notes:", Heading2)];
    ghost var head := story;
    var i := 0;
    while i < |GeneralNotes|
      invariant 0 <= i <= |GeneralNotes|
      invariant story == head + NoteLines(GeneralNotes[..i])
    {
      assert GeneralNotes[..i + 1][..i] == GeneralNotes[..i];
      story := story + [Paragraph("- " + GeneralNotes[i], Normal)];
      i := i + 1;
    }
    assert GeneralNotes[..i] == GeneralNotes;

    story := story + [Spacer];
    story := story + [Paragraph("Date: " + date, Normal)];
  }
}
