/** Score accumulation: one answer code per question, in question order; the
    total is the sum of the codes' weights. The radio widget that supplies
    each code is replaced by the sequence `picks` of codes it returned. */
module Scoring {
  import opened Instruments

  /** Outcome of the accumulation loop: the total and the codes recorded, or
      the first code the weight table has no entry for (the dict lookup in `main.py`
      raises on it and the submission stops there). */
  datatype Tally =
    | Tally(total: int, answers: seq<string>)
    | UnknownCode(item: nat, code: string)

  predicate AllKnown(choices: map<string, int>, picks: seq<string>)
  {
    forall i :: 0 <= i < |picks| ==> picks[i] in choices
  }

  /** Sum of the weights of `picks`, taken in item order. */
  function SumWeights(choices: map<string, int>, picks: seq<string>): int
    requires AllKnown(choices, picks)
  {
    if picks == [] then 0
    else SumWeights(choices, picks[..|picks| - 1]) + choices[picks[|picks| - 1]]
  }

  method AskQuestions(choices: map<string, int>, picks: seq<string>) returns (r: Tally)
    ensures r.Tally? <==> AllKnown(choices, picks)
    ensures r.Tally? ==> r.total == SumWeights(choices, picks) && r.answers == picks
    ensures r.UnknownCode? ==>
              && r.item < |picks|
              && r.code == picks[r.item]
              && r.code !in choices
              && AllKnown(choices, picks[..r.item])
  {
    var total := 0;
    var answers := [];
    var i := 0;
    while i < |picks|
      invariant 0 <= i <= |picks|
      invariant answers == picks[..i]
      invariant AllKnown(choices, answers)
      invariant total == SumWeights(choices, answers)
    {
      var ans := picks[i];
      if ans !in choices {
        return UnknownCode(i, ans);
      }
      assert (answers + [ans])[..i] == answers;
      total := total + choices[ans];
      answers := answers + [ans];
      i := i + 1;
    }
    assert picks[..i] == picks;
    r := Tally(total, answers);
  }

  /** With every weight in [0, maxWeight], n answers total between 0 and
      n * maxWeight. */
  lemma {:induction false} SumBounds(choices: map<string, int>, picks: seq<string>, maxWeight: int)
    requires AllKnown(choices, picks)
    requires forall c :: c in choices ==> 0 <= choices[c] <= maxWeight
    ensures 0 <= SumWeights(choices, picks) <= |picks| * maxWeight
  {
    if picks != [] {
      var init := picks[..|picks| - 1];
      assert AllKnown(choices, init);
      SumBounds(choices, init, maxWeight);
    }
  }

  /** n answers all given the same code total n times its weight. */
  lemma {:induction false} SumConstant(choices: map<string, int>, code: string, n: nat)
    requires code in choices
    ensures AllKnown(choices, seq(n, _ => code))
    ensures SumWeights(choices, seq(n, _ => code)) == n * choices[code]
  {
    if n > 0 {
      assert seq(n, _ => code)[..n - 1] == seq(n - 1, _ => code);
      SumConstant(choices, code, n - 1);
    }
  }

  /** A complete answer set of valid codes totals between 0 and the
      instrument's maximum: BAI 0..63, PHQ-9 0..27, ISI 0..28. */
  lemma ScoreRange(inst: Instrument, picks: seq<string>)
    requires |picks| == ItemCount(inst)
    requires AllKnown(Choices(inst), picks)
    ensures 0 <= SumWeights(Choices(inst), picks) <= MaxScore(inst)
  {
    SumBounds(Choices(inst), picks, MaxWeight(inst));
  }

  /** The bounds are reached: all-lowest and all-highest codes give 0 and the maximum. */
  lemma ScoreRangeTight(inst: Instrument)
    ensures AllKnown(Choices(inst), seq(ItemCount(inst), _ => Code(0)))
    ensures SumWeights(Choices(inst), seq(ItemCount(inst), _ => Code(0))) == 0
    ensures AllKnown(Choices(inst), seq(ItemCount(inst), _ => Code(MaxWeight(inst))))
    ensures SumWeights(Choices(inst), seq(ItemCount(inst), _ => Code(MaxWeight(inst)))) == MaxScore(inst)
  {
    SumConstant(Choices(inst), Code(0), ItemCount(inst));
    SumConstant(Choices(inst), Code(MaxWeight(inst)), ItemCount(inst));
  }
}
