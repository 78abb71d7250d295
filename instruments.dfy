/** The three screening questionnaires: how many items each has and how each
    answer code is weighted. The item prompts themselves are display text;
    only their number takes part in scoring. */
module Instruments {

  /** Beck Anxiety Inventory, Patient Health Questionnaire-9, Insomnia Severity Index. */
  datatype Instrument = BAI | PHQ9 | ISI

  /** Number of prompts in the instrument's question list. */
  function ItemCount(inst: Instrument): (n: nat)
    ensures n * MaxWeight(inst) == MaxScore(inst)
  {
    match inst
    case BAI => 21
    case PHQ9 => 9
    case ISI => 7
  }

  /** Largest weight an answer code of the instrument carries. */
  function MaxWeight(inst: Instrument): nat
  {
    match inst
    case BAI => 3
    case PHQ9 => 3
    case ISI => 4
  }

  /** Largest total a complete answer set can reach. */
  function MaxScore(inst: Instrument): nat
  {
    match inst
    case BAI => 63
    case PHQ9 => 27
    case ISI => 28
  }

  /** The one-character code that stands for weight `k` ("0" .. "9"). */
  function Code(k: nat): (c: string)
    requires k <= 9
    ensures |c| == 1
  {
    [('0' as int + k) as char]
  }

  /** The code-to-weight table of the instrument, as `main.py` writes it:
      exactly the codes "0" up to the largest weight, each weighing its digit. */
  function Choices(inst: Instrument): (w: map<string, int>)
    ensures forall c :: c in w ==> 0 <= w[c] <= MaxWeight(inst) && c == Code(w[c])
    ensures forall k :: 0 <= k <= MaxWeight(inst) ==> Code(k) in w && w[Code(k)] == k
  {
    match inst
    case BAI => map["0" := 0, "1" := 1, "2" := 2, "3" := 3]
    case PHQ9 => map["0" := 0, "1" := 1, "2" := 2, "3" := 3]
    case ISI => map["0" := 0, "1" := 1, "2" := 2, "3" := 3, "4" := 4]
  }
}
