/**
 * The cognitive-state classifier (`determinar_estado_cognitivo`).
 *
 * A strict first-match-wins chain over attention and relaxation compared
 * with the four thresholds. The firmware returns an integer code 0..5; the
 * model returns a closed enumeration and gives the code separately.
 */
module Classifier {
  import opened Thresholds

  datatype CognitiveState = Distracted | Normal | HighFocus | DeepRelax | Flow | Anxiety

  /** The integer the firmware returns for each state. */
  function Code(s: CognitiveState): (c: int)
    ensures 0 <= c <= 5
  {
    match s
    case Distracted => 0
    case Normal => 1
    case HighFocus => 2
    case DeepRelax => 3
    case Flow => 4
    case Anxiety => 5
  }

  function FromCode(c: int): (s: CognitiveState)
    requires 0 <= c <= 5
    ensures Code(s) == c
  {
    if c == 0 then Distracted
    else if c == 1 then Normal
    else if c == 2 then HighFocus
    else if c == 3 then DeepRelax
    else if c == 4 then Flow
    else Anxiety
  }

  /** Distinct states have distinct codes. */
  lemma CodeRoundTrip(s: CognitiveState)
    ensures FromCode(Code(s)) == s
  {
  }

  /**
   * The classification chain, in the firmware's order. Whatever the
   * thresholds, the answer lies in its own region (see `InRegion`).
   */
  function Classify(attention: real, relaxation: real, t: ThresholdSet): (s: CognitiveState)
    ensures InRegion(s, attention, relaxation, t)
  {
    if attention >= t.attnHigh && relaxation >= t.relaxHigh then Flow
    else if attention >= t.attnHigh && relaxation < t.relaxLow then Anxiety
    else if attention >= t.attnHigh then HighFocus
    else if attention < t.attnLow then Distracted
    else if relaxation >= t.relaxHigh then DeepRelax
    else Normal
  }

  /**
   * An order-free description of the plane: each state owns a region given
   * by its own conditions, with no reference to the other states.
   */
  predicate InRegion(s: CognitiveState, attention: real, relaxation: real, t: ThresholdSet) {
    match s
    case Flow => attention >= t.attnHigh && relaxation >= t.relaxHigh
    case Anxiety => attention >= t.attnHigh && relaxation < t.relaxLow && relaxation < t.relaxHigh
    case HighFocus => attention >= t.attnHigh && t.relaxLow <= relaxation < t.relaxHigh
    case Distracted => attention < t.attnHigh && attention < t.attnLow
    case DeepRelax => t.attnLow <= attention < t.attnHigh && relaxation >= t.relaxHigh
    case Normal => t.attnLow <= attention < t.attnHigh && relaxation < t.relaxHigh
  }

  /** The regions never overlap, so the chain's answer is the only state whose region holds. */
  lemma RegionsDisjoint(s1: CognitiveState, s2: CognitiveState, attention: real, relaxation: real, t: ThresholdSet)
    requires InRegion(s1, attention, relaxation, t) && InRegion(s2, attention, relaxation, t)
    ensures s1 == s2
  {
  }

  /** Flow is reported exactly when both signals reach their high thresholds; it wins over HighFocus. */
  lemma FlowExactly(attention: real, relaxation: real, t: ThresholdSet)
    ensures Classify(attention, relaxation, t) == Flow <==>
      attention >= t.attnHigh && relaxation >= t.relaxHigh
    ensures attention >= t.attnHigh && relaxation >= t.relaxHigh ==>
      Classify(attention, relaxation, t) != HighFocus
  {
  }

  /** Anxiety needs high attention and relaxation under the low threshold; with valid thresholds that suffices. */
  lemma AnxietyExactly(attention: real, relaxation: real, t: ThresholdSet)
    ensures Classify(attention, relaxation, t) == Anxiety ==>
      attention >= t.attnHigh && relaxation < t.relaxLow
    ensures Valid(t) && attention >= t.attnHigh && relaxation < t.relaxLow ==>
      Classify(attention, relaxation, t) == Anxiety
  {
  }

  /** Whenever the low attention threshold is not above the high one, attention under it means Distracted. */
  lemma LowAttentionDistracted(attention: real, relaxation: real, t: ThresholdSet)
    requires t.attnLow <= t.attnHigh && attention < t.attnLow
    ensures Classify(attention, relaxation, t) == Distracted
  {
  }

  /** Under the default thresholds Flow wins over HighFocus: attention 80 or 75 with relaxation 8 is Flow, code 4. */
  lemma DefaultsExample()
    ensures Classify(80.0, 8.0, Defaults()) == Flow
    ensures Classify(75.0, 8.0, Defaults()) == Flow
    ensures Code(Classify(75.0, 8.0, Defaults())) == 4
  {
  }
}
