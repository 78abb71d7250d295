/** Severity classification: each instrument's total score is mapped to a
    label by an ordered chain of upper bounds. The three level functions are
    written as `main.py` writes them; `Band` is a table-driven reading of the
    same bands (scan the upper bounds in ascending order, take the first one
    the score does not exceed, or the open-ended last band), and the lemmas
    below show the two agree and that the bands are contiguous, disjoint and
    ordered by severity. */
module Levels {
  import opened Instruments

  const BaiLabels: seq<string> :=
    ["Minimal Anxiety", "Mild Anxiety", "Moderate Anxiety", "Severe Anxiety"]
  const Phq9Labels: seq<string> :=
    ["Minimal Depression", "Mild Depression", "Moderate Depression", "Severe Depression"]
  const IsiLabels: seq<string> :=
    ["No clinically significant insomnia", "Subthreshold insomnia", "Moderate insomnia", "Severe insomnia"]

  /** Inclusive upper bounds of every band but the last, which is open-ended. */
  const BaiCutoffs: seq<int> := [7, 15, 25]
  const Phq9Cutoffs: seq<int> := [4, 9, 14]
  const IsiCutoffs: seq<int> := [7, 14, 21]

  function BaiLevel(score: int): (severity: string)
    ensures severity in BaiLabels
  {
    if score <= 7 then "Minimal Anxiety"
    else if score <= 15 then "Mild Anxiety"
    else if score <= 25 then "Moderate Anxiety"
    else "Severe Anxiety"
  }

  function Phq9Level(score: int): (severity: string)
    ensures severity in Phq9Labels
  {
    if score <= 4 then "Minimal Depression"
    else if score <= 9 then "Mild Depression"
    else if score <= 14 then "Moderate Depression"
    else "Severe Depression"
  }

  function IsiLevel(score: int): (severity: string)
    ensures severity in IsiLabels
  {
    if score <= 7 then "No clinically significant insomnia"
    else if score <= 14 then "Subthreshold insomnia"
    else if score <= 21 then "Moderate insomnia"
    else "Severe insomnia"
  }

  /** The level function `main.py` applies to each instrument's total. */
  function Level(inst: Instrument, score: int): string
  {
    match inst
    case BAI => BaiLevel(score)
    case PHQ9 => Phq9Level(score)
    case ISI => IsiLevel(score)
  }

  /** The instrument's labels, least severe first. */
  function Labels(inst: Instrument): seq<string>
  {
    match inst
    case BAI => BaiLabels
    case PHQ9 => Phq9Labels
    case ISI => IsiLabels
  }

  function Cutoffs(inst: Instrument): seq<int>
  {
    match inst
    case BAI => BaiCutoffs
    case PHQ9 => Phq9Cutoffs
    case ISI => IsiCutoffs
  }

  predicate Ascending(bounds: seq<int>)
  {
    forall i, j :: 0 <= i < j < |bounds| ==> bounds[i] < bounds[j]
  }

  predicate Distinct(labels: seq<string>)
  {
    forall i, j :: 0 <= i < j < |labels| ==> labels[i] != labels[j]
  }

  /** Index of the band `score` falls into: the first upper bound it does not
      exceed, or `|bounds|` (the open-ended band) when it exceeds them all. */
  function Band(bounds: seq<int>, score: int): (k: nat)
    ensures k <= |bounds|
    ensures k < |bounds| ==> score <= bounds[k]
    ensures forall j :: 0 <= j < k ==> bounds[j] < score
  {
    if bounds == [] then 0
    else if score <= bounds[0] then 0
    else 1 + Band(bounds[1..], score)
  }

  /** Severity rank of a label: its position in the instrument's label list
      (`|labels|` for a label that is not in it). */
  function Rank(labels: seq<string>, severity: string): (k: nat)
    ensures k <= |labels|
    ensures k < |labels| ==> labels[k] == severity
    ensures forall j :: 0 <= j < k ==> labels[j] != severity
  {
    if labels == [] then 0
    else if labels[0] == severity then 0
    else 1 + Rank(labels[1..], severity)
  }

  /** With ascending bounds, a score lies in band `k` exactly when it is above
      bound `k - 1` and not above bound `k`: bands neither overlap nor leave
      a gap. */
  lemma BandExactlyOne(bounds: seq<int>, score: int, k: nat)
    requires Ascending(bounds)
    requires k <= |bounds|
    ensures Band(bounds, score) == k <==>
              (k == 0 || bounds[k - 1] < score) && (k == |bounds| || score <= bounds[k])
  {
  }

  /** A larger score never falls into an earlier band. */
  lemma BandMonotone(bounds: seq<int>, a: int, b: int)
    requires a <= b
    ensures Band(bounds, a) <= Band(bounds, b)
  {
  }

  lemma {:induction false} RankOfDistinct(labels: seq<string>, i: nat)
    requires Distinct(labels)
    requires i < |labels|
    ensures Rank(labels, labels[i]) == i
  {
  }

  lemma LabelsWellFormed(inst: Instrument)
    ensures |Labels(inst)| == |Cutoffs(inst)| + 1 == 4
    ensures Ascending(Cutoffs(inst))
    ensures Distinct(Labels(inst))
  {
  }

  /** The if/elif chain of each level function is the table-driven band scan. */
  lemma LevelIsBand(inst: Instrument, score: int)
    ensures Level(inst, score) == Labels(inst)[Band(Cutoffs(inst), score)]
  {
    var c := Cutoffs(inst);
    assert c[1..][1..][1..] == [];
    if score > c[0] {
      assert Band(c, score) == 1 + Band(c[1..], score);
      if score > c[1] {
        assert Band(c[1..], score) == 1 + Band(c[1..][1..], score);
        if score > c[2] {
          assert Band(c[1..][1..], score) == 1 + Band(c[1..][1..][1..], score);
        }
      }
    }
  }

  /** Each level function is monotone in severity: a higher score never gets
      a less severe label. */
  lemma LevelMonotone(inst: Instrument, a: int, b: int)
    requires a <= b
    ensures Rank(Labels(inst), Level(inst, a)) <= Rank(Labels(inst), Level(inst, b))
  {
    LabelsWellFormed(inst);
    LevelIsBand(inst, a);
    LevelIsBand(inst, b);
    BandMonotone(Cutoffs(inst), a, b);
    RankOfDistinct(Labels(inst), Band(Cutoffs(inst), a));
    RankOfDistinct(Labels(inst), Band(Cutoffs(inst), b));
  }

  /** Every integer score gets exactly one label: the `k`-th label exactly on
      the `k`-th band, for every `k`. */
  lemma LevelExactlyOne(inst: Instrument, score: int, k: nat)
    requires k < 4
    ensures Level(inst, score) == Labels(inst)[k] <==>
              (k == 0 || Cutoffs(inst)[k - 1] < score) && (k == 3 || score <= Cutoffs(inst)[k])
  {
    LabelsWellFormed(inst);
    LevelIsBand(inst, score);
    BandExactlyOne(Cutoffs(inst), score, k);
    RankOfDistinct(Labels(inst), k);
    RankOfDistinct(Labels(inst), Band(Cutoffs(inst), score));
  }

  lemma BaiLevelBands(score: int)
    ensures BaiLevel(score) == "Minimal Anxiety" <==> score <= 7
    ensures BaiLevel(score) == "Mild Anxiety" <==> 8 <= score <= 15
    ensures BaiLevel(score) == "Moderate Anxiety" <==> 16 <= score <= 25
    ensures BaiLevel(score) == "Severe Anxiety" <==> score > 25
  {
    forall k | 0 <= k < 4 ensures BaiLevel(score) == BaiLabels[k] <==>
      (k == 0 || BaiCutoffs[k - 1] < score) && (k == 3 || score <= BaiCutoffs[k])
    {
      LevelExactlyOne(BAI, score, k);
    }
  }

  lemma Phq9LevelBands(score: int)
    ensures Phq9Level(score) == "Minimal Depression" <==> score <= 4
    ensures Phq9Level(score) == "Mild Depression" <==> 5 <= score <= 9
    ensures Phq9Level(score) == "Moderate Depression" <==> 10 <= score <= 14
    ensures Phq9Level(score) == "Severe Depression" <==> score >= 15
  {
    forall k | 0 <= k < 4 ensures Phq9Level(score) == Phq9Labels[k] <==>
      (k == 0 || Phq9Cutoffs[k - 1] < score) && (k == 3 || score <= Phq9Cutoffs[k])
    {
      LevelExactlyOne(PHQ9, score, k);
    }
  }

  lemma IsiLevelBands(score: int)
    ensures IsiLevel(score) == "No clinically significant insomnia" <==> score <= 7
    ensures IsiLevel(score) == "Subthreshold insomnia" <==> 8 <= score <= 14
    ensures IsiLevel(score) == "Moderate insomnia" <==> 15 <= score <= 21
    ensures IsiLevel(score) == "Severe insomnia" <==> score >= 22
  {
    forall k | 0 <= k < 4 ensures IsiLevel(score) == IsiLabels[k] <==>
      (k == 0 || IsiCutoffs[k - 1] < score) && (k == 3 || score <= IsiCutoffs[k])
    {
      LevelExactlyOne(ISI, score, k);
    }
  }
}
