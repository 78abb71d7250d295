# Psychological screening: scoring and classification engine

This project models the scoring core of a patient psychological screening
form, `main.py`. The form collects one answer code per item for three
questionnaires: the Beck Anxiety Inventory (BAI, 21 items), the Patient Health
Questionnaire-9 (PHQ-9, 9 items) and the Insomnia Severity Index (ISI, 7
items). The model covers:

- **Instruments**: each instrument's item count and code-to-weight table
  (`"0".."3"` weighted 0..3 for BAI and PHQ-9, `"0".."4"` weighted 0..4 for
  ISI).
- **Scoring**: the accumulation loop of `ask_questions_streamlit`. It is a
  method with a `while` loop, specified against the recursive sum
  `SumWeights`. A code without a weight stops the loop, as the dict
  lookup raises `KeyError` there. The model returns `UnknownCode` with the
  item's position.
- **Levels**: the three `if/elif` severity functions, written as in
  `main.py`. They are checked against a table-driven reference `Band`, which
  scans the ascending upper bounds. From that come the exact bands,
  "exactly one label per score", and monotonicity in severity.
- **Notes**: the label-to-advisory-note dictionaries. Every label a level
  function can return has an entry, and every entry is reached by some
  score.
- **Report**: the 10-field row appended to the patients log, the 4-row
  results table, and the order of the report's blocks. The blocks are built
  by successive appends, with the general notes appended by a loop.
- **Screening**: one press of Submit:
  1. Score BAI, then PHQ-9, then ISI.
  2. Classify each total.
  3. Append the row to the append-only log, a class with a `rows` field.
  4. Build the report.

  A rejected submission leaves the log unchanged.

Two behaviours of `main.py` shape the model:

- PHQ-9 has four bands (`<= 4`, `<= 9`, `<= 14`, else), as `phq9_level`
  classifies.
- `main.py` does not validate answers before summing. A code without a
  weight is found by the dict lookup inside the loop, so BAI is fully scored
  before a bad PHQ-9 code is found. `Scoring.AskQuestions` and
  `Screening.ScoreAnswers` keep that order. Each question's radio yields
  exactly one code, so the model takes exactly one code per item; that is the
  `requires` on `Screening.Submit`.

## Model

| member | source | states |
|---|---|---|
| Instruments.ItemCount | main.py:12-35 | the item counts 21, 9, 7 are the ones whose full-weight answers give the maximum totals 63, 27, 28 |
| Instruments.Choices | main.py:40-42 | every key is the digit of its weight and every weight lies in 0..max weight (3, 3, 4); code "k" is present and weighs k for each k up to the max |
| Levels.BaiLevel | main.py:47-51 | the result is one of the four anxiety labels |
| Levels.Phq9Level | main.py:53-57 | the result is one of the four depression labels |
| Levels.IsiLevel | main.py:59-63 | the result is one of the four insomnia labels |
| Levels.Band | main.py:47-63 | reference scan: band k is the first upper bound the score does not exceed, with every earlier bound below the score, or the open band past all bounds |
| Levels.BandExactlyOne | main.py:47-63 | for ascending bounds, a score is in band k iff it is above bound k-1 and not above bound k: no overlap, no gap |
| Levels.BandMonotone | main.py:47-63 | a larger score never falls into an earlier band |
| Levels.LabelsWellFormed | main.py:47-63 | each instrument has 4 distinct labels and 3 strictly ascending cutoffs |
| Levels.LevelIsBand | main.py:47-63 | each if/elif chain returns exactly the label of the reference band of the score |
| Levels.LevelMonotone | main.py:47-63 | score a <= b implies severity rank of level(a) <= severity rank of level(b) |
| Levels.LevelExactlyOne | main.py:47-63 | the k-th label is returned iff the score lies in the k-th band, for every k |
| Levels.BaiLevelBands | main.py:47-51 | Minimal iff <= 7, Mild iff 8..15, Moderate iff 16..25, Severe iff > 25 |
| Levels.Phq9LevelBands | main.py:53-57 | Minimal iff <= 4, Mild iff 5..9, Moderate iff 10..14, Severe iff >= 15 |
| Levels.IsiLevelBands | main.py:59-63 | no clinically significant iff <= 7, subthreshold iff 8..14, moderate iff 15..21, severe iff >= 22 |
| Scoring.AskQuestions | main.py:81-88 | succeeds iff every code has a weight; then total is the in-order sum of weights and the answers equal the codes in order (same length); otherwise reports the first code without a weight and its position |
| Scoring.SumBounds | main.py:81-88 | with every weight in 0..m, n answers total between 0 and n*m |
| Scoring.SumConstant | main.py:81-88 | n answers all with the same code total n times its weight |
| Scoring.ScoreRange | main.py:40-42 | a complete valid answer set totals within BAI 0..63, PHQ-9 0..27, ISI 0..28 |
| Scoring.ScoreRangeTight | main.py:40-42 | all-"0" answers total 0 and all-heaviest answers reach the maximum, so the ranges are tight |
| Notes.BaiNotes | main.py:109-114 | the keys are exactly the four anxiety labels, each mapped to its note in severity order |
| Notes.Phq9Notes | main.py:116-121 | the keys are exactly the four depression labels, each mapped to its note in severity order |
| Notes.IsiNotes | main.py:123-128 | the keys are exactly the four insomnia labels, each mapped to its note in severity order |
| Notes.BaiNotesCoverLevels | main.py:176 | for every score, the BAI label has a note entry, and it is the note the report prints |
| Notes.Phq9NotesCoverLevels | main.py:177 | for every score, the PHQ-9 label has a note entry, and it is the note the report prints |
| Notes.IsiNotesCoverLevels | main.py:178 | for every score, the ISI label has a note entry, and it is the note the report prints |
| Notes.BaiNoteKeysReachable | main.py:109-114 | every key of the BAI notes is the level of some score |
| Notes.Phq9NoteKeysReachable | main.py:116-121 | every key of the PHQ-9 notes is the level of some score |
| Notes.IsiNoteKeysReachable | main.py:123-128 | every key of the ISI notes is the level of some score |
| Report.CsvRow | main.py:133-137 | 10 fields: name, age, tumor type, then score and level of BAI, PHQ-9, ISI, then the timestamp |
| Report.ResultsTable | main.py:157-162 | 4 rows of 3 cells: the header "Test Name", "Score", "Level", then one row per instrument in BAI, PHQ-9, ISI order |
| Report.TableAgreesWithRow | main.py:157-162 | the k-th data row of the table carries the same score and level as the k-th pair of the persisted row |
| Report.NoteLines | main.py:187-188 | one "- " line per general note, same count, same order |
| Report.ReportStory | main.py:145-191 | the report has 18 blocks |
| Report.ReportOpensWithPatient | main.py:147-153 | title first, then name, age and tumor type lines in that order |
| Report.ReportSpacers | main.py:148-190 | spacers at positions 1, 5, 7, 12 and 16: after the title, the patient fields, the table, the notes per test, and the general notes |
| Report.ReportTableMatchesRow | main.py:156-171 | block 6 is the results table; it holds the header and rows matching the persisted row's scores and levels |
| Report.ReportNotesPerTest | main.py:175-178 | "Notes per Test:" heading then one advisory line per instrument in BAI, PHQ-9, ISI order |
| Report.ReportCloses | main.py:182-191 | "General Notes:" heading, the two disclaimers verbatim, and the date line last |
| Report.BuildReport | main.py:145-191 | the append sequence, including the general-notes loop, produces exactly the report story |
| Screening.PatientsLog.constructor | main.py:131 | a new log is empty |
| Screening.PatientsLog.AppendRow | main.py:131-137 | appends exactly one row at the end; earlier rows unchanged |
| Screening.Assess | main.py:99-106 | a complete valid answer set gives a score within the instrument's range and the level of that score |
| Screening.ScoreAnswers | main.py:98-101 | scores BAI, PHQ-9, ISI in order; succeeds iff all codes are known; otherwise names the first unknown code, with all earlier instruments fully known |
| Screening.Submit | main.py:98-193 | succeeds iff all codes are known; on success appends exactly the row of the three assessments and returns their report; on rejection the log is unchanged and the result names the first unknown code, its instrument and its item position among the caller's codes |
| Screening.WriteReport | main.py:145-191 | looks each note up by its level and lays out the report of the three results |
| Screening.AllZeroAnxiety | main.py:99-113 | an all-"0" BAI totals 0, is "Minimal Anxiety", with note "Symptoms are minimal, regular monitoring recommended." |
| Screening.AllThreeDepression | main.py:100-120 | an all-"3" PHQ-9 totals 27, is "Severe Depression", with the immediate-evaluation note |

## Left out

- Streamlit UI (title, text inputs, radios, button, success messages). The
  answer codes the radios would return are the input sequences. The radios
  are created inside the Submit branch and so yield their defaults in
  practice. That is a framework artefact and is not modelled.
- Question prompts and scale display text: only the item counts 21, 9 and 7
  take part in scoring.
- CSV file I/O: the log is an in-memory append-only sequence of rows. File
  opening, encoding and the header are not modelled.
- Document rendering: fonts, colours, column widths, spacer sizes,
  pagination and `doc.build`. A block records only its text and style name.
- Clock reads: the row's timestamp and the report's date are two separate
  reads of the clock in `main.py`. They are two opaque input strings, and
  their formats are not modelled.
- The report file name derived from the patient name.
- Report.ReportStory: its own contract states only the block count. The
  content of each of the 18 positions is stated by the layout lemmas beside
  it (`ReportOpensWithPatient`, `ReportSpacers`, `ReportTableMatchesRow`,
  `ReportNotesPerTest`, `ReportCloses`).
