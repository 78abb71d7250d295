/** The advisory note attached to each severity label in the report. */
module Notes {
  import opened Instruments
  import opened Levels

  /** The advisory notes of each instrument, least severe first: the `k`-th
      note belongs to the `k`-th label of the instrument. */
  const BaiNoteTexts: seq<string> := [
    "Symptoms are minimal, regular monitoring recommended.",
    "Mild anxiety detected, consider relaxation techniques.",
    "Moderate anxiety, follow-up advised.",
    "Severe anxiety, urgent consultation recommended."
  ]
  const Phq9NoteTexts: seq<string> := [
    "Minimal depressive symptoms, monitor.",
    "Mild depressive symptoms, consider lifestyle changes.",
    "Moderate depressive symptoms, follow-up suggested.",
    "Severe depressive symptoms, immediate professional evaluation recommended."
  ]
  const IsiNoteTexts: seq<string> := [
    "No clinically significant insomnia.",
    "Mild sleep difficulties, monitor sleep hygiene.",
    "Moderate insomnia, consider intervention.",
    "Severe insomnia, professional evaluation recommended."
  ]

  /** The label-to-note dictionaries of the report: each label keyed to the
      note at its position. */
  function BaiNotes(): (notes: map<string, string>)
    ensures forall s :: s in notes <==> s in BaiLabels
    ensures forall k :: 0 <= k < 4 ==> notes[BaiLabels[k]] == BaiNoteTexts[k]
  {
    LabelsWellFormed(BAI);
    map k | 0 <= k < 4 :: BaiLabels[k] := BaiNoteTexts[k]
  }

  function Phq9Notes(): (notes: map<string, string>)
    ensures forall s :: s in notes <==> s in Phq9Labels
    ensures forall k :: 0 <= k < 4 ==> notes[Phq9Labels[k]] == Phq9NoteTexts[k]
  {
    LabelsWellFormed(PHQ9);
    map k | 0 <= k < 4 :: Phq9Labels[k] := Phq9NoteTexts[k]
  }

  function IsiNotes(): (notes: map<string, string>)
    ensures forall s :: s in notes <==> s in IsiLabels
    ensures forall k :: 0 <= k < 4 ==> notes[IsiLabels[k]] == IsiNoteTexts[k]
  {
    LabelsWellFormed(ISI);
    map k | 0 <= k < 4 :: IsiLabels[k] := IsiNoteTexts[k]
  }

  /** The note lookup never fails: whatever the score, the label the level
      function returns has an entry, and it is the note the report prints. */
  lemma BaiNotesCoverLevels(score: int)
    ensures BaiLevel(score) in BaiNotes()
    ensures BaiNotes()[BaiLevel(score)] == BaiNote(score)
  {
    LevelIsBand(BAI, score);
    var k := Band(BaiCutoffs, score);
    assert BaiNotes()[BaiLabels[k]] == BaiNoteTexts[k];
  }

  lemma Phq9NotesCoverLevels(score: int)
    ensures Phq9Level(score) in Phq9Notes()
    ensures Phq9Notes()[Phq9Level(score)] == Phq9Note(score)
  {
    LevelIsBand(PHQ9, score);
    var k := Band(Phq9Cutoffs, score);
    assert Phq9Notes()[Phq9Labels[k]] == Phq9NoteTexts[k];
  }

  lemma IsiNotesCoverLevels(score: int)
    ensures IsiLevel(score) in IsiNotes()
    ensures IsiNotes()[IsiLevel(score)] == IsiNote(score)
  {
    LevelIsBand(ISI, score);
    var k := Band(IsiCutoffs, score);
    assert IsiNotes()[IsiLabels[k]] == IsiNoteTexts[k];
  }

  /** Conversely, every label the notes are keyed by is returned for some score. */
  lemma BaiNoteKeysReachable(severity: string)
    requires severity in BaiNotes()
    ensures exists score :: BaiLevel(score) == severity
  {
    var score := if severity == "Minimal Anxiety" then 0
                 else if severity == "Mild Anxiety" then 8
                 else if severity == "Moderate Anxiety" then 16
                 else 26;
    assert BaiLevel(score) == severity;
  }

  lemma Phq9NoteKeysReachable(severity: string)
    requires severity in Phq9Notes()
    ensures exists score :: Phq9Level(score) == severity
  {
    var score := if severity == "Minimal Depression" then 0
                 else if severity == "Mild Depression" then 5
                 else if severity == "Moderate Depression" then 10
                 else 15;
    assert Phq9Level(score) == severity;
  }

  lemma IsiNoteKeysReachable(severity: string)
    requires severity in IsiNotes()
    ensures exists score :: IsiLevel(score) == severity
  {
    var score := if severity == "No clinically significant insomnia" then 0
                 else if severity == "Subthreshold insomnia" then 8
                 else if severity == "Moderate insomnia" then 15
                 else 22;
    assert IsiLevel(score) == severity;
  }

  /** The note the report prints for a total: the note of the band the
      total falls into, that is the entry of its level (see the lemmas
      above). */
  function BaiNote(score: int): string
  {
    BaiNoteTexts[Band(BaiCutoffs, score)]
  }

  function Phq9Note(score: int): string
  {
    Phq9NoteTexts[Band(Phq9Cutoffs, score)]
  }

  function IsiNote(score: int): string
  {
    IsiNoteTexts[Band(IsiCutoffs, score)]
  }
}
