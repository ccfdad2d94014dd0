/**
 * The per-pass work of the monitoring screen (`executar_modo_monitoramento`)
 * and the LED choice of the training screen: read, derive the bands,
 * classify, show a face and an indicator colour, record the statistics.
 */
module Modes {
  import opened Waves
  import opened Thresholds
  import opened Classifier
  import opened Leds
  import opened Common
  import Statistics
  import Training

  /** An RGB indicator colour as passed to `set_rgb_color`. */
  datatype Color = Color(r: int, g: int, b: int)

  /** The face shown for each state: sad when distracted or anxious, happy in focus or flow, neutral otherwise. */
  function FaceFor(s: CognitiveState): (g: Glyph)
    ensures g == SadFace <==> s == Distracted || s == Anxiety
    ensures g == HappyFace <==> s == HighFocus || s == Flow
    ensures g == NeutralFace <==> s == Normal || s == DeepRelax
  {
    match s
    case Distracted => Face(2)
    case Normal => Face(0)
    case HighFocus => Face(1)
    case DeepRelax => Face(0)
    case Flow => Face(1)
    case Anxiety => Face(2)
  }

  /** The indicator colour for each state. */
  function IndicatorFor(s: CognitiveState): (c: Color)
    ensures c.r == 255 <==> s == Distracted || s == Anxiety
  {
    match s
    case Distracted => Color(255, 255, 0)
    case Normal => Color(0, 0, 255)
    case HighFocus => Color(0, 255, 0)
    case DeepRelax => Color(0, 255, 255)
    case Flow => Color(0, 255, 128)
    case Anxiety => Color(255, 0, 0)
  }

  /** Every state gets its own colour, so the indicator alone tells the state. */
  lemma IndicatorDistinguishesStates(s1: CognitiveState, s2: CognitiveState)
    requires IndicatorFor(s1) == IndicatorFor(s2)
    ensures s1 == s2
  {
  }

  /** One monitoring pass on the reading `attention`, `relaxation`. */
  method MonitorTick(attention: real, relaxation: real, t: ThresholdSet, stats: Statistics.Stats, leds: LedMatrix)
    returns (reading: Reading, state: CognitiveState, color: Color)
    requires stats.Valid() && leds.Valid()
    modifies stats, leds.cells
    ensures reading == Derive(attention, relaxation)
    ensures state == Classify(attention, relaxation, t)
    ensures color == IndicatorFor(state)
    ensures forall k :: 0 <= k < Pixels ==> leds.cells[k] == CellOf(FaceFor(state), k)
    ensures stats.Valid()
    ensures stats.attentionSeen == old(stats.attentionSeen) + [attention]
    ensures stats.relaxationSeen == old(stats.relaxationSeen) + [relaxation]
    ensures stats.sessions == old(stats.sessions)
    ensures stats.startTime == old(stats.startTime) && stats.lastTrainingTime == old(stats.lastTrainingTime)
    ensures stats.samples == Inc32(old(stats.samples))
  {
    reading := Derive(attention, relaxation);
    state := Classify(reading.attention, reading.relaxation, t);
    leds.ShowGlyph(FaceFor(state));
    color := IndicatorFor(state);
    stats.Record(reading.attention, reading.relaxation);
  }

  /** The glyph of the training screen before a session starts, chosen by the objective. */
  function ObjectiveGlyph(o: Training.Objective): (g: Glyph)
    ensures g != NeutralFace && g != HappyFace && g != SadFace
    ensures o == Training.Relaxation <==> g == RelaxGlyph
  {
    match o
    case Attention => FocusGlyph
    case Relaxation => RelaxGlyph
    case FlowGoal => WaveGlyph
  }

  /** The LED part of a training pass: objective glyph, progress bar, happy face or sad face. */
  method ShowTraining(s: Training.Session, leds: LedMatrix)
    requires leds.Valid() && Training.ValidSession(s)
    modifies leds.cells
    ensures s.status == Training.Idle ==>
      forall k :: 0 <= k < Pixels ==> leds.cells[k] == CellOf(ObjectiveGlyph(s.objective), k)
    ensures s.status == Training.Active ==>
      forall k :: 0 <= k < Pixels ==> leds.cells[k] == (k < 2 * s.level)
    ensures s.status == Training.Succeeded ==>
      forall k :: 0 <= k < Pixels ==> leds.cells[k] == CellOf(HappyFace, k)
    ensures s.status == Training.Failed ==>
      forall k :: 0 <= k < Pixels ==> leds.cells[k] == CellOf(SadFace, k)
  {
    leds.Clear();
    match s.status
    case Idle => leds.ShowGlyph(ObjectiveGlyph(s.objective));
    case Active =>
      ProgressWhileRunning(s);
      leds.ShowProgress(s.level, s.maxLevel);
    case Succeeded => leds.ShowGlyph(Face(1));
    case Failed => leds.ShowGlyph(Face(2));
  }

  /**
   * A whole monitoring decision under the default thresholds: attention 75 and
   * relaxation 8 classify as Flow, shown by a happy face and the teal
   * indicator.
   */
  lemma MonitorExample()
    ensures var s := Classify(75.0, 8.0, Defaults());
      s == Flow && FaceFor(s) == HappyFace && IndicatorFor(s) == Color(0, 255, 128)
  {
  }
}
