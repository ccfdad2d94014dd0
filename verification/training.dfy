/**
 * The training session (`DadosTreinamento treinamento`) and the status
 * logic of `executar_modo_treinamento`.
 *
 * Idle: NEXT cycles the objective, SET starts a session. Active: a reading
 * that meets the objective scores a point; every 50 points the level rises
 * until level 10 ends the session in success; 300 seconds after the start the
 * session ends (failed below level 10); SET cancels. Succeeded or Failed: SET
 * returns to Idle. Buttons are polled and debounced on the shared timestamp.
 */
module Training {
  import opened Common
  import opened Debounce
  import opened Thresholds
  import Classifier
  import Statistics

  const MaxLevel: nat := 10
  const PointsPerLevel: nat := 50
  const SessionTimeout: nat := 300

  /** `objetivo`: 0 attention, 1 relaxation, 2 flow. */
  datatype Objective = Attention | Relaxation | FlowGoal

  /** `status`: 0 not started, 1 running, 2 completed, 3 failed. */
  datatype Status = Idle | Active | Succeeded | Failed

  /** `(objetivo + 1) % 3`. */
  function NextObjective(o: Objective): (r: Objective)
    ensures r != o
  {
    match o
    case Attention => Relaxation
    case Relaxation => FlowGoal
    case FlowGoal => Attention
  }

  /** Three presses of NEXT bring the objective back. */
  lemma ObjectiveCycle(o: Objective)
    ensures NextObjective(o) != o
    ensures NextObjective(NextObjective(NextObjective(o))) == o
  {
  }

  /**
   * Whether a reading meets the objective (the `switch (treinamento.objetivo)`),
   * related to the state the monitoring screen would show for the same reading.
   */
  predicate Meets(o: Objective, attention: real, relaxation: real, t: ThresholdSet)
    ensures o == Attention ==>
      (Meets(o, attention, relaxation, t) <==>
        Classifier.Classify(attention, relaxation, t) in {Classifier.HighFocus, Classifier.Flow, Classifier.Anxiety})
    ensures o == FlowGoal ==>
      (Meets(o, attention, relaxation, t) <==> Classifier.Classify(attention, relaxation, t) == Classifier.Flow)
    ensures o == Relaxation && Meets(o, attention, relaxation, t) ==>
      Classifier.Classify(attention, relaxation, t) in {Classifier.Flow, Classifier.DeepRelax, Classifier.Distracted}
    ensures o == Relaxation && Classifier.Classify(attention, relaxation, t) in {Classifier.Flow, Classifier.DeepRelax} ==>
      Meets(o, attention, relaxation, t)
  {
    match o
    case Attention => attention >= t.attnHigh
    case Relaxation => relaxation >= t.relaxHigh
    case FlowGoal => attention >= t.attnHigh && relaxation >= t.relaxHigh
  }

  /** A snapshot of `treinamento`. */
  datatype Session = Session(
    level: nat,
    maxLevel: nat,
    duration: U32,
    objective: Objective,
    status: Status,
    start: U32,
    score: U32)

  /** `DadosTreinamento treinamento = {0}`. */
  const Initial: Session := Session(0, 0, 0, Attention, Idle, 0, 0)

  /**
   * What holds of every reachable session: before the first start all is
   * zero; afterwards the maximum is 10 and the level within 1..10; a running
   * or failed session is below level 10 and a succeeded one at level 10.
   */
  predicate ValidSession(s: Session) {
    && s.level <= MaxLevel
    && ((s.maxLevel == 0 && s.level == 0 && s.status == Idle) || (s.maxLevel == MaxLevel && 1 <= s.level))
    && (s.status == Active ==> s.level < MaxLevel)
    && (s.status == Failed ==> s.level < MaxLevel)
    && (s.status == Succeeded ==> s.level == MaxLevel)
  }

  /** The inputs of one training pass: the reading, the clock, and the buttons held. */
  datatype TickInput = TickInput(
    attention: real,
    relaxation: real,
    nowMs: U32,
    nowS: U32,
    nextHeld: bool,
    setHeld: bool)

  /** The effect of one pass: the new session, the new debounce timestamp,
      how many times `sessoes_concluidas` was incremented, and the cues played. */
  datatype Outcome = Outcome(session: Session, last: U32, completions: nat, cues: seq<Cue>)

  /** The effect of the scoring or the time-limit part of a running pass, neither of which reads a button. */
  datatype Part = Part(session: Session, completions: nat, cues: seq<Cue>)

  /** Idle pass: NEXT cycles the objective, then SET starts (each needs its own debounce window). */
  function IdleStep(s: Session, last: U32, i: TickInput): (o: Outcome)
    requires s.status == Idle
    ensures o.completions == 0 && o.session.duration == s.duration
    ensures o.session.status == Idle || o.session.status == Active
    ensures o.session.status == Active ==>
      o.session.level == 1 && o.session.score == 0 && o.session.start == i.nowS && Success in o.cues
    ensures o.session.status == Idle ==> o.session.level == s.level && o.session.score == s.score
  {
    var nextOk := i.nextHeld && HeldAccepted(last, i.nowMs);
    var o := if nextOk then NextObjective(s.objective) else s.objective;
    var last1 := if nextOk then i.nowMs else last;
    var cues1 := if nextOk then [Beep] else [];
    if i.setHeld && HeldAccepted(last1, i.nowMs) then
      Outcome(Session(1, MaxLevel, s.duration, o, Active, i.nowS, 0), i.nowMs, 0, cues1 + [Success])
    else
      Outcome(s.(objective := o), last1, 0, cues1)
  }

  /** Scoring part of an active pass: one point per satisfying reading; a level every 50 points. */
  function ScoreStep(s: Session, meets: bool, nowS: U32): (o: Part)
    ensures !meets ==> o.session == s && o.completions == 0 && o.cues == []
    ensures o.session.start == s.start && o.session.objective == s.objective && o.session.maxLevel == s.maxLevel
    ensures o.session.level == s.level || o.session.level == s.level + 1
    ensures o.completions <= 1
    ensures o.completions == 1 <==> o.session.status == Succeeded && o.session.level == s.maxLevel && s.level < s.maxLevel
    ensures o.session.level == s.level + 1 ==> o.cues == [Success]
  {
    if !meets then Part(s, 0, [])
    else
      var score := Inc32(s.score);
      if score % PointsPerLevel == 0 && s.level < s.maxLevel then
        var level := s.level + 1;
        if level == s.maxLevel then
          Part(s.(score := score, level := level, status := Succeeded, duration := Sub32(nowS, s.start)), 1, [Success])
        else
          Part(s.(score := score, level := level), 0, [Success])
      else
        Part(s.(score := score), 0, [])
  }

  /** Timeout part of an active pass; it runs even when scoring has just ended the session. */
  function TimeoutStep(s: Session, nowS: U32): (o: Part)
    ensures o.completions == 1 <==> Sub32(nowS, s.start) >= SessionTimeout
    ensures o.completions == 0 ==> o.session == s && o.cues == []
    ensures o.session.level == s.level && o.session.score == s.score && o.session.start == s.start
  {
    var elapsed := Sub32(nowS, s.start);
    if elapsed >= SessionTimeout then
      Part(s.(status := if s.level < s.maxLevel then Failed else Succeeded, duration := elapsed), 1, [Failure])
    else
      Part(s, 0, [])
  }

  /** One pass of `executar_modo_treinamento`'s status logic. */
  function Step(s: Session, last: U32, t: ThresholdSet, i: TickInput): (o: Outcome)
    ensures o.completions <= 2
    ensures s.status != Active ==> o.completions == 0
    ensures s.status != Idle ==> o.session.objective == s.objective && o.session.start == s.start
    ensures o.last == last || o.last == i.nowMs
  {
    match s.status
    case Idle => IdleStep(s, last, i)
    case Active =>
      var scored := ScoreStep(s, Meets(s.objective, i.attention, i.relaxation, t), i.nowS);
      var timed := TimeoutStep(scored.session, i.nowS);
      var completions := scored.completions + timed.completions;
      var cues := scored.cues + timed.cues;
      if i.setHeld && HeldAccepted(last, i.nowMs) then
        Outcome(timed.session.(status := Idle), i.nowMs, completions, cues + [Beep])
      else
        Outcome(timed.session, last, completions, cues)
    case Succeeded | Failed =>
      if i.setHeld && HeldAccepted(last, i.nowMs) then
        Outcome(s.(status := Idle), i.nowMs, 0, [Beep])
      else
        Outcome(s, last, 0, [])
  }

  /** Every pass keeps the session invariant, and counts at most two completions. */
  lemma StepPreservesValid(s: Session, last: U32, t: ThresholdSet, i: TickInput)
    requires ValidSession(s)
    ensures ValidSession(Step(s, last, t, i).session)
    ensures Step(s, last, t, i).completions <= 2
  {
  }

  /** The state at boot satisfies the invariant. */
  lemma InitialValid()
    ensures ValidSession(Initial)
  {
  }

  /** Idle: an accepted NEXT advances the objective and nothing else. */
  lemma IdleNextCyclesObjective(s: Session, last: U32, t: ThresholdSet, i: TickInput)
    requires s.status == Idle && i.nextHeld && HeldAccepted(last, i.nowMs)
    ensures Step(s, last, t, i) == Outcome(s.(objective := NextObjective(s.objective)), i.nowMs, 0, [Beep])
  {
    NoSecondAcceptance(i.nowMs);
  }

  /** Idle: an accepted SET starts a session at level 1 of 10 with no points, timed from now. */
  lemma IdleSetStarts(s: Session, last: U32, t: ThresholdSet, i: TickInput)
    requires s.status == Idle && !i.nextHeld && i.setHeld && HeldAccepted(last, i.nowMs)
    ensures var n := Step(s, last, t, i).session;
      n.status == Active && n.level == 1 && n.maxLevel == MaxLevel && n.score == 0 &&
      n.start == i.nowS && n.objective == s.objective
    ensures Step(s, last, t, i).cues == [Success] && Step(s, last, t, i).completions == 0
  {
  }

  /** Active: a satisfying reading adds exactly one point (mod 2^32); any other reading adds none. */
  lemma ActiveScoring(s: Session, last: U32, t: ThresholdSet, i: TickInput)
    requires ValidSession(s) && s.status == Active
    ensures Meets(s.objective, i.attention, i.relaxation, t) ==> Step(s, last, t, i).session.score == Inc32(s.score)
    ensures !Meets(s.objective, i.attention, i.relaxation, t) ==> Step(s, last, t, i).session.score == s.score
  {
  }

  /** Active: the level rises, by one, exactly when the new score is a multiple of 50, and every level-up plays the success cue. */
  lemma ActiveLevelUp(s: Session, last: U32, t: ThresholdSet, i: TickInput)
    requires ValidSession(s) && s.status == Active
    ensures var n := Step(s, last, t, i).session;
      (n.level == s.level + 1 <==> Meets(s.objective, i.attention, i.relaxation, t) && Inc32(s.score) % PointsPerLevel == 0)
      && (n.level == s.level || n.level == s.level + 1)
    ensures Step(s, last, t, i).session.level == s.level + 1 ==> Success in Step(s, last, t, i).cues
  {
  }

  /**
   * Active: reaching level 10 ends the session in success, records its
   * duration and counts it (twice when the time limit is reached in the same
   * pass), unless the same pass cancels it.
   */
  lemma ReachingTopSucceeds(s: Session, last: U32, t: ThresholdSet, i: TickInput)
    requires ValidSession(s) && s.status == Active
    requires Step(s, last, t, i).session.level == MaxLevel
    ensures var o := Step(s, last, t, i);
      (o.session.status == Succeeded || (o.session.status == Idle && i.setHeld))
      && o.session.duration == Sub32(i.nowS, s.start)
      && o.completions == (if Sub32(i.nowS, s.start) >= SessionTimeout then 2 else 1)
      && Success in o.cues
  {
  }

  /** Active: 300 s after the start the session ends, failed below level 10, and is counted; the failure cue plays either way. */
  lemma ActiveTimeout(s: Session, last: U32, t: ThresholdSet, i: TickInput)
    requires ValidSession(s) && s.status == Active && Sub32(i.nowS, s.start) >= SessionTimeout
    requires !(i.setHeld && HeldAccepted(last, i.nowMs))
    ensures var o := Step(s, last, t, i);
      && o.session.status == (if o.session.level < MaxLevel then Failed else Succeeded)
      && o.session.duration == Sub32(i.nowS, s.start)
      && o.completions >= 1
      && Failure in o.cues
  {
  }

  /** Active: a pass inside the time limit without SET never fails the session. */
  lemma NoEarlyFailure(s: Session, last: U32, t: ThresholdSet, i: TickInput)
    requires ValidSession(s) && s.status == Active && Sub32(i.nowS, s.start) < SessionTimeout
    ensures Step(s, last, t, i).session.status in {Active, Succeeded, Idle}
    ensures Step(s, last, t, i).session.status == Idle ==> i.setHeld
    ensures Failure !in Step(s, last, t, i).cues
  {
  }

  /** Active: an accepted SET abandons the session; it runs after the timeout test, so a timed-out session is still counted. */
  lemma ActiveCancel(s: Session, last: U32, t: ThresholdSet, i: TickInput)
    requires ValidSession(s) && s.status == Active && i.setHeld && HeldAccepted(last, i.nowMs)
    ensures Step(s, last, t, i).session.status == Idle
    ensures Step(s, last, t, i).last == i.nowMs
    ensures Sub32(i.nowS, s.start) >= SessionTimeout ==> Step(s, last, t, i).completions >= 1
    ensures |Step(s, last, t, i).cues| > 0 && Step(s, last, t, i).cues[|Step(s, last, t, i).cues| - 1] == Beep
  {
  }

  /**
   * Success and timeout in the same pass: the session is counted twice and
   * both the success and the failure cues play.
   */
  lemma SuccessAndTimeoutSameTick()
    ensures var s := Session(9, MaxLevel, 0, Attention, Active, 0, 449);
      var o := Step(s, 0, Defaults(), TickInput(80.0, 5.0, 0, 300, false, false));
      o.session.status == Succeeded && o.session.level == MaxLevel && o.completions == 2 &&
      o.cues == [Success, Failure]
  {
  }

  /** Succeeded or Failed: without an accepted SET nothing changes, so a finished session never ends again. */
  lemma TerminalIsStable(s: Session, last: U32, t: ThresholdSet, i: TickInput)
    requires s.status == Succeeded || s.status == Failed
    requires !(i.setHeld && HeldAccepted(last, i.nowMs))
    ensures Step(s, last, t, i) == Outcome(s, last, 0, [])
  {
  }

  /** Succeeded or Failed: an accepted SET goes back to Idle and changes nothing else. */
  lemma TerminalReset(s: Session, last: U32, t: ThresholdSet, i: TickInput)
    requires s.status == Succeeded || s.status == Failed
    requires i.setHeld && HeldAccepted(last, i.nowMs)
    ensures Step(s, last, t, i) == Outcome(s.(status := Idle), i.nowMs, 0, [Beep])
  {
  }

  /** No pass of the sequence holds a button. */
  predicate NoButtons(passes: seq<TickInput>) {
    forall k :: 0 <= k < |passes| ==> !passes[k].nextHeld && !passes[k].setHeld
  }

  /** The session after the passes, one after another, none holding a button (so the debounce timestamp plays no part). */
  function Run(s: Session, t: ThresholdSet, passes: seq<TickInput>): Session
    requires NoButtons(passes)
    decreases |passes|
  {
    if passes == [] then s
    else Step(Run(s, t, passes[..|passes| - 1]), 0, t, passes[|passes| - 1]).session
  }

  /** A session just started, as `IdleSetStarts` leaves it. */
  predicate JustStarted(s: Session) {
    s.status == Active && s.level == 1 && s.maxLevel == MaxLevel && s.score == 0
  }

  /** Every pass meets the objective and comes before the time limit of a session started at `start`. */
  predicate InTimeAndSatisfying(o: Objective, start: U32, t: ThresholdSet, passes: seq<TickInput>) {
    forall k :: 0 <= k < |passes| ==>
      Meets(o, passes[k].attention, passes[k].relaxation, t) && Sub32(passes[k].nowS, start) < SessionTimeout
  }

  /** Before 450 satisfying passes within the time limit the session is running, with one level per 50 points. */
  lemma {:induction false} RunProgress(s: Session, t: ThresholdSet, passes: seq<TickInput>)
    requires NoButtons(passes) && JustStarted(s)
    requires InTimeAndSatisfying(s.objective, s.start, t, passes)
    requires |passes| < (MaxLevel - 1) * PointsPerLevel
    ensures Run(s, t, passes) == s.(score := |passes|, level := 1 + |passes| / PointsPerLevel)
    decreases |passes|
  {
    if passes != [] {
      var init := passes[..|passes| - 1];
      assert forall k :: 0 <= k < |init| ==> init[k] == passes[k];
      RunProgress(s, t, init);
    }
  }

  /**
   * 450 satisfying passes within the time limit (nine level-ups of 50
   * points, from level 1) end the session in success at level 10, with the
   * time of the last pass recorded as its duration; one pass fewer leaves it
   * running.
   */
  lemma SucceedsAfter450(s: Session, t: ThresholdSet, passes: seq<TickInput>)
    requires NoButtons(passes) && JustStarted(s)
    requires InTimeAndSatisfying(s.objective, s.start, t, passes)
    requires |passes| == (MaxLevel - 1) * PointsPerLevel
    ensures var n := Run(s, t, passes);
      n.status == Succeeded && n.level == MaxLevel && n.score == 450
      && n.duration == Sub32(passes[|passes| - 1].nowS, s.start)
    ensures Run(s, t, passes[..|passes| - 1]).status == Active
  {
    var init := passes[..|passes| - 1];
    assert forall k :: 0 <= k < |init| ==> init[k] == passes[k];
    RunProgress(s, t, init);
  }

  /** The training globals, changed in place by each training-mode pass. */
  class TrainingSession {
    var level: nat
    var maxLevel: nat
    var duration: U32
    var objective: Objective
    var status: Status
    var start: U32
    var score: U32

    function Snapshot(): Session
      reads this
    {
      Session(level, maxLevel, duration, objective, status, start, score)
    }

    constructor ()
      ensures Snapshot() == Initial
    {
      level, maxLevel, duration := 0, 0, 0;
      objective, status, start, score := Attention, Idle, 0, 0;
    }

    /**
     * The status part of one training-mode pass, with the reading, the
     * thresholds, the clock (milliseconds for the debounce, seconds for the
     * session) and the buttons held as inputs. Completed sessions are counted
     * in `stats`.
     */
    method Tick(t: ThresholdSet, i: TickInput, deb: Debouncer, stats: Statistics.Stats)
      returns (cues: seq<Cue>)
      modifies this, deb, stats`sessions, stats`lastTrainingTime
      ensures var o := Step(old(Snapshot()), old(deb.last), t, i);
        && Snapshot() == o.session
        && deb.last == o.last
        && cues == o.cues
        && stats.sessions == (old(stats.sessions) + o.completions) % TwoTo8
        && stats.lastTrainingTime == (if o.completions > 0 then o.session.duration else old(stats.lastTrainingTime))
      ensures old(ValidSession(Snapshot())) ==> ValidSession(Snapshot())
    {
      if status == Idle {
        cues := IdlePass(i, deb);
      } else if status == Active {
        var scoreCues := ScorePass(Meets(objective, i.attention, i.relaxation, t), i.nowS, stats);
        var timeoutCues := TimeoutPass(i.nowS, stats);
        var cancelCues := CancelPass(i, deb);
        cues := scoreCues + timeoutCues + cancelCues;
      } else {
        cues := CancelPass(i, deb);
      }
    }

    /** Idle: NEXT cycles the objective, then SET starts a session. */
    method IdlePass(i: TickInput, deb: Debouncer) returns (cues: seq<Cue>)
      requires status == Idle
      modifies this, deb
      ensures var o := IdleStep(old(Snapshot()), old(deb.last), i);
        Snapshot() == o.session && deb.last == o.last && cues == o.cues
    {
      cues := [];
      if i.nextHeld {
        var ok := deb.AcceptHeld(i.nowMs);
        if ok {
          objective := NextObjective(objective);
          cues := cues + [Beep];
        }
      }
      if i.setHeld {
        var ok := deb.AcceptHeld(i.nowMs);
        if ok {
          status := Active;
          start := i.nowS;
          level := 1;
          maxLevel := MaxLevel;
          score := 0;
          cues := cues + [Success];
        }
      }
    }

    /** Active, scoring: a point for a satisfying reading, a level every 50 points, success at the top level. */
    method ScorePass(meets: bool, nowS: U32, stats: Statistics.Stats) returns (cues: seq<Cue>)
      modifies this, stats`sessions, stats`lastTrainingTime
      ensures var o := ScoreStep(old(Snapshot()), meets, nowS);
        && Snapshot() == o.session && cues == o.cues
        && stats.sessions == (old(stats.sessions) + o.completions) % TwoTo8
        && stats.lastTrainingTime == (if o.completions > 0 then o.session.duration else old(stats.lastTrainingTime))
    {
      cues := [];
      if meets {
        score := Inc32(score);
        if score % PointsPerLevel == 0 && level < maxLevel {
          level := level + 1;
          cues := cues + [Success];
          if level == maxLevel {
            status := Succeeded;
            duration := Sub32(nowS, start);
            stats.sessions := Inc8(stats.sessions);
            stats.lastTrainingTime := duration;
          }
        }
      }
    }

    /** Active, time limit: 300 s after the start the session ends and is counted. */
    method TimeoutPass(nowS: U32, stats: Statistics.Stats) returns (cues: seq<Cue>)
      modifies this, stats`sessions, stats`lastTrainingTime
      ensures var o := TimeoutStep(old(Snapshot()), nowS);
        && Snapshot() == o.session && cues == o.cues
        && stats.sessions == (old(stats.sessions) + o.completions) % TwoTo8
        && stats.lastTrainingTime == (if o.completions > 0 then o.session.duration else old(stats.lastTrainingTime))
    {
      cues := [];
      var elapsed := Sub32(nowS, start);
      if elapsed >= SessionTimeout {
        if level < maxLevel {
          status := Failed;
        } else {
          status := Succeeded;
        }
        duration := elapsed;
        stats.sessions := Inc8(stats.sessions);
        stats.lastTrainingTime := duration;
        cues := cues + [Failure];
      }
    }

    /** SET while running cancels; SET after the end resets. Either way the status goes back to Idle. */
    method CancelPass(i: TickInput, deb: Debouncer) returns (cues: seq<Cue>)
      modifies this`status, deb
      ensures var ok := i.setHeld && HeldAccepted(old(deb.last), i.nowMs);
        && Snapshot() == (if ok then old(Snapshot()).(status := Idle) else old(Snapshot()))
        && deb.last == (if ok then i.nowMs else old(deb.last))
        && cues == (if ok then [Beep] else [])
    {
      cues := [];
      if i.setHeld {
        var ok := deb.AcceptHeld(i.nowMs);
        if ok {
          status := Idle;
          cues := cues + [Beep];
        }
      }
    }
  }
}
