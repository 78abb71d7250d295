/** One press of the Submit button: score the three questionnaires in order,
    classify each total, append the patient's row to the log, then build the
    report. A code without a weight stops the submission at the first such
    item, before anything is written. */
module Screening {
  import opened Instruments
  import opened Levels
  import opened Scoring
  import opened Notes
  import opened Report

  /** The append-only patients log: one row per accepted submission. */
  class PatientsLog {
    var rows: seq<seq<Cell>>

    constructor ()
      ensures rows == []
    {
      rows := [];
    }

    method AppendRow(row: seq<Cell>)
      modifies this
      ensures rows == old(rows) + [row]
    {
      rows := rows + [row];
    }
  }

  /** The three totals, or the first answer code without a weight. */
  datatype Scores =
    | Scores(bai: int, phq9: int, isi: int)
    | Rejected(inst: Instrument, item: nat, code: string)

  datatype Submission =
    | Submitted(story: seq<Block>)
    | NotSubmitted(inst: Instrument, item: nat, code: string)

  /** Score and level of a complete, valid answer set. */
  function Assess(inst: Instrument, picks: seq<string>): (t: TestResult)
    requires |picks| == ItemCount(inst)
    requires AllKnown(Choices(inst), picks)
    ensures 0 <= t.score <= MaxScore(inst)
    ensures t.level == Level(inst, t.score)
  {
    ScoreRange(inst, picks);
    var total := SumWeights(Choices(inst), picks);
    TestResult(total, Level(inst, total))
  }

  /** The report of a submission with the given totals: each advisory note
      is looked up by the level of its instrument's total. */
  function ReportFor(p: Patient, baiScore: int, phq9Score: int, isiScore: int, date: string): seq<Block>
  {
    ReportStory(p, TestResult(baiScore, BaiLevel(baiScore)),
                TestResult(phq9Score, Phq9Level(phq9Score)),
                TestResult(isiScore, IsiLevel(isiScore)),
                BaiNote(baiScore), Phq9Note(phq9Score), IsiNote(isiScore), date)
  }

  /** The answer codes of one instrument, as passed to `Submit`. */
  function PicksOf(inst: Instrument, baiPicks: seq<string>, phq9Picks: seq<string>, isiPicks: seq<string>): seq<string>
  {
    match inst
    case BAI => baiPicks
    case PHQ9 => phq9Picks
    case ISI => isiPicks
  }

  /** Runs the accumulation loop on BAI, then PHQ-9, then ISI; the first
      unknown code ends the run, so later questionnaires are not scored. */
  method ScoreAnswers(baiPicks: seq<string>, phq9Picks: seq<string>, isiPicks: seq<string>)
    returns (r: Scores)
    ensures r.Scores? <==>
              && AllKnown(Choices(BAI), baiPicks)
              && AllKnown(Choices(PHQ9), phq9Picks)
              && AllKnown(Choices(ISI), isiPicks)
    ensures r.Scores? ==>
              && r.bai == SumWeights(Choices(BAI), baiPicks)
              && r.phq9 == SumWeights(Choices(PHQ9), phq9Picks)
              && r.isi == SumWeights(Choices(ISI), isiPicks)
    ensures r.Rejected? ==>
              && r.item < |PicksOf(r.inst, baiPicks, phq9Picks, isiPicks)|
              && r.code == PicksOf(r.inst, baiPicks, phq9Picks, isiPicks)[r.item]
              && r.code !in Choices(r.inst)
              && AllKnown(Choices(r.inst), PicksOf(r.inst, baiPicks, phq9Picks, isiPicks)[..r.item])
              && (r.inst != BAI ==> AllKnown(Choices(BAI), baiPicks))
              && (r.inst == ISI ==> AllKnown(Choices(PHQ9), phq9Picks))
  {
    var baiTally := AskQuestions(Choices(BAI), baiPicks);
    if baiTally.UnknownCode? {
      return Rejected(BAI, baiTally.item, baiTally.code);
    }
    var phq9Tally := AskQuestions(Choices(PHQ9), phq9Picks);
    if phq9Tally.UnknownCode? {
      return Rejected(PHQ9, phq9Tally.item, phq9Tally.code);
    }
    var isiTally := AskQuestions(Choices(ISI), isiPicks);
    if isiTally.UnknownCode? {
      return Rejected(ISI, isiTally.item, isiTally.code);
    }
    r := Scores(baiTally.total, phq9Tally.total, isiTally.total);
  }

  /** One submission: score, classify, append the row, build the report. A
      rejected submission leaves the log as it was. */
  method Submit(log: PatientsLog, p: Patient,
                baiPicks: seq<string>, phq9Picks: seq<string>, isiPicks: seq<string>,
                timestamp: string, date: string)
    returns (r: Submission)
    requires |baiPicks| == ItemCount(BAI)
    requires |phq9Picks| == ItemCount(PHQ9)
    requires |isiPicks| == ItemCount(ISI)
    modifies log
    ensures r.Submitted? <==>
              && AllKnown(Choices(BAI), baiPicks)
              && AllKnown(Choices(PHQ9), phq9Picks)
              && AllKnown(Choices(ISI), isiPicks)
    ensures r.NotSubmitted? ==>
              && log.rows == old(log.rows)
              && r.item < |PicksOf(r.inst, baiPicks, phq9Picks, isiPicks)|
              && r.code == PicksOf(r.inst, baiPicks, phq9Picks, isiPicks)[r.item]
              && r.code !in Choices(r.inst)
              && AllKnown(Choices(r.inst), PicksOf(r.inst, baiPicks, phq9Picks, isiPicks)[..r.item])
              && (r.inst != BAI ==> AllKnown(Choices(BAI), baiPicks))
              && (r.inst == ISI ==> AllKnown(Choices(PHQ9), phq9Picks))
    ensures r.Submitted? ==>
              var bai := Assess(BAI, baiPicks);
              var phq9 := Assess(PHQ9, phq9Picks);
              var isi := Assess(ISI, isiPicks);
              && log.rows == old(log.rows) + [CsvRow(p, bai, phq9, isi, timestamp)]
              && r.story == ReportFor(p, bai.score, phq9.score, isi.score, date)
  {
    var scores := ScoreAnswers(baiPicks, phq9Picks, isiPicks);
    if scores.Rejected? {
      return NotSubmitted(scores.inst, scores.item, scores.code);
    }

    var bai := TestResult(scores.bai, BaiLevel(scores.bai));
    var phq9 := TestResult(scores.phq9, Phq9Level(scores.phq9));
    var isi := TestResult(scores.isi, IsiLevel(scores.isi));

    log.AppendRow(CsvRow(p, bai, phq9, isi, timestamp));

    var story := WriteReport(p, bai, phq9, isi, date);
    r := Submitted(story);
  }

  /** The report part of a submission: look up each instrument's advisory
      note by its level, then lay out the blocks. */
  method WriteReport(p: Patient, bai: TestResult, phq9: TestResult, isi: TestResult, date: string)
    returns (story: seq<Block>)
    requires bai.level == BaiLevel(bai.score)
    requires phq9.level == Phq9Level(phq9.score)
    requires isi.level == IsiLevel(isi.score)
    ensures story == ReportFor(p, bai.score, phq9.score, isi.score, date)
  {
    BaiNotesCoverLevels(bai.score);
    Phq9NotesCoverLevels(phq9.score);
    IsiNotesCoverLevels(isi.score);
    var baiNote := BaiNotes()[bai.level];
    var phq9Note := Phq9Notes()[phq9.level];
    var isiNote := IsiNotes()[isi.level];
    story := BuildReport(p, bai, phq9, isi, baiNote, phq9Note, isiNote, date);
  }

  /** A BAI answered "0" on every item totals 0, is "Minimal Anxiety", and
      gets the monitoring note. */
  lemma AllZeroAnxiety()
    ensures AllKnown(Choices(BAI), seq(21, _ => "0"))
    ensures Assess(BAI, seq(21, _ => "0")) == TestResult(0, "Minimal Anxiety")
    ensures BaiNote(0) == "Symptoms are minimal, regular monitoring recommended."
  {
    SumConstant(Choices(BAI), "0", 21);
  }

  /** A PHQ-9 answered "3" on every item totals 27, is "Severe Depression",
      and gets the immediate-evaluation note. */
  lemma AllThreeDepression()
    ensures AllKnown(Choices(PHQ9), seq(9, _ => "3"))
    ensures Assess(PHQ9, seq(9, _ => "3")) == TestResult(27, "Severe Depression")
    ensures Phq9Note(27) ==
              "Severe depressive symptoms, immediate professional evaluation recommended."
  {
    SumConstant(Choices(PHQ9), "3", 9);
  }
}
