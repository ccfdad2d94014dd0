/**
 * The four classification thresholds and their adjustment in configuration
 * mode (the two `switch (current_param)` blocks of
 * `executar_modo_configuracao`).
 *
 * Attention thresholds move in steps of 5.0, relaxation thresholds in steps
 * of 0.5. Every step is clamped so that a low threshold stays a full step
 * below its high partner and inside its absolute range.
 */
module Thresholds {
  import opened Common
  import opened Debounce

  /** `limiar_atencao_baixo`, `limiar_atencao_alto`, `limiar_relaxamento_baixo`, `limiar_relaxamento_alto`. */
  datatype ThresholdSet = ThresholdSet(attnLow: real, attnHigh: real, relaxLow: real, relaxHigh: real)

  const AttnStep: real := 5.0
  const RelaxStep: real := 0.5

  /** The ordering every adjustment preserves. */
  predicate Valid(t: ThresholdSet) {
    && 5.0 <= t.attnLow && t.attnLow + AttnStep <= t.attnHigh <= 100.0
    && 0.5 <= t.relaxLow && t.relaxLow + RelaxStep <= t.relaxHigh <= 10.0
  }

  /** The start-up values 30 / 70 / 3 / 7. */
  function Defaults(): (t: ThresholdSet)
    ensures Valid(t)
    ensures t.attnLow < t.attnHigh && t.relaxLow < t.relaxHigh
  {
    ThresholdSet(30.0, 70.0, 3.0, 7.0)
  }

  /** Value of parameter `param` (0..3, in the order of the fields); other indices select nothing. */
  function Selected(t: ThresholdSet, param: int): real {
    if param == 0 then t.attnLow
    else if param == 1 then t.attnHigh
    else if param == 2 then t.relaxLow
    else if param == 3 then t.relaxHigh
    else 0.0
  }

  function StepOf(param: int): real {
    if param == 0 || param == 1 then AttnStep else RelaxStep
  }

  function Min(a: real, b: real): real {
    if a <= b then a else b
  }

  function Max(a: real, b: real): real {
    if a >= b then a else b
  }

  /**
   * The highest value parameter `param` may take: a low threshold stays a
   * full step below its high partner and below its own cap (95 / 9.5); a
   * high threshold stops at 100 / 10.
   */
  function UpperLimit(t: ThresholdSet, param: int): real {
    if param == 0 then Min(t.attnHigh - AttnStep, 95.0)
    else if param == 1 then 100.0
    else if param == 2 then Min(t.relaxHigh - RelaxStep, 9.5)
    else 10.0
  }

  /**
   * The lowest value parameter `param` may take: a low threshold stops at
   * 5 / 0.5; a high threshold stays a full step above its low partner.
   */
  function LowerLimit(t: ThresholdSet, param: int): real {
    if param == 0 then 5.0
    else if param == 1 then t.attnLow + AttnStep
    else if param == 2 then 0.5
    else t.relaxLow + RelaxStep
  }

  /**
   * One press of NEXT (`increase`) or BACK on parameter `param`. An index
   * outside 0..3 matches no case of the switch and changes nothing.
   */
  function Adjusted(t: ThresholdSet, param: int, increase: bool): (r: ThresholdSet)
    ensures Valid(t) ==> Valid(r)
    ensures param != 0 ==> r.attnLow == t.attnLow
    ensures param != 1 ==> r.attnHigh == t.attnHigh
    ensures param != 2 ==> r.relaxLow == t.relaxLow
    ensures param != 3 ==> r.relaxHigh == t.relaxHigh
    ensures Valid(t) && 0 <= param < 4 && increase ==>
      Selected(t, param) <= Selected(r, param) <= Selected(t, param) + StepOf(param)
    ensures Valid(t) && 0 <= param < 4 && !increase ==>
      Selected(t, param) - StepOf(param) <= Selected(r, param) <= Selected(t, param)
    ensures 0 <= param < 4 && increase ==>
      Selected(r, param) == Min(Selected(t, param) + StepOf(param), UpperLimit(t, param))
    ensures 0 <= param < 4 && !increase ==>
      Selected(r, param) == Max(Selected(t, param) - StepOf(param), LowerLimit(t, param))
  {
    LimitsBracketValue(t, param);
    if increase then Raised(t, param) else Lowered(t, param)
  }

  /** The NEXT half of the switch: raise by a step, then clamp. */
  function Raised(t: ThresholdSet, param: int): (r: ThresholdSet)
    ensures Valid(t) ==> Valid(r)
    ensures param != 0 ==> r.attnLow == t.attnLow
    ensures param != 1 ==> r.attnHigh == t.attnHigh
    ensures param != 2 ==> r.relaxLow == t.relaxLow
    ensures param != 3 ==> r.relaxHigh == t.relaxHigh
    ensures 0 <= param < 4 ==>
      Selected(r, param) == Min(Selected(t, param) + StepOf(param), UpperLimit(t, param))
  {
    if param == 0 then
      var raised := t.attnLow + 5.0;
      var belowPartner := if raised > t.attnHigh - 5.0 then t.attnHigh - 5.0 else raised;
      t.(attnLow := if belowPartner > 95.0 then 95.0 else belowPartner)
    else if param == 1 then
      var v := t.attnHigh + 5.0;
      t.(attnHigh := if v > 100.0 then 100.0 else v)
    else if param == 2 then
      var raised := t.relaxLow + 0.5;
      var belowPartner := if raised > t.relaxHigh - 0.5 then t.relaxHigh - 0.5 else raised;
      t.(relaxLow := if belowPartner > 9.5 then 9.5 else belowPartner)
    else if param == 3 then
      var v := t.relaxHigh + 0.5;
      t.(relaxHigh := if v > 10.0 then 10.0 else v)
    else t
  }

  /** The BACK half of the switch: lower by a step, then clamp. */
  function Lowered(t: ThresholdSet, param: int): (r: ThresholdSet)
    ensures Valid(t) ==> Valid(r)
    ensures param != 0 ==> r.attnLow == t.attnLow
    ensures param != 1 ==> r.attnHigh == t.attnHigh
    ensures param != 2 ==> r.relaxLow == t.relaxLow
    ensures param != 3 ==> r.relaxHigh == t.relaxHigh
    ensures 0 <= param < 4 ==>
      Selected(r, param) == Max(Selected(t, param) - StepOf(param), LowerLimit(t, param))
  {
    if param == 0 then
      var v := t.attnLow - 5.0;
      t.(attnLow := if v < 5.0 then 5.0 else v)
    else if param == 1 then
      var v := t.attnHigh - 5.0;
      t.(attnHigh := if v < t.attnLow + 5.0 then t.attnLow + 5.0 else v)
    else if param == 2 then
      var v := t.relaxLow - 0.5;
      t.(relaxLow := if v < 0.5 then 0.5 else v)
    else if param == 3 then
      var v := t.relaxHigh - 0.5;
      t.(relaxHigh := if v < t.relaxLow + 0.5 then t.relaxLow + 0.5 else v)
    else t
  }

  /** Away from its limit, one press moves the selected threshold by a whole step (5.0 or 0.5) in the pressed direction. */
  lemma FullStepAwayFromLimits(t: ThresholdSet, param: int)
    requires Valid(t) && 0 <= param < 4
    ensures Selected(t, param) + StepOf(param) <= UpperLimit(t, param) ==>
      Selected(Adjusted(t, param, true), param) == Selected(t, param) + StepOf(param)
    ensures Selected(t, param) - StepOf(param) >= LowerLimit(t, param) ==>
      Selected(Adjusted(t, param, false), param) == Selected(t, param) - StepOf(param)
    ensures Selected(t, param) + StepOf(param) > UpperLimit(t, param) ==>
      Selected(Adjusted(t, param, true), param) == UpperLimit(t, param)
    ensures Selected(t, param) - StepOf(param) < LowerLimit(t, param) ==>
      Selected(Adjusted(t, param, false), param) == LowerLimit(t, param)
  {
  }

  /** Under valid thresholds every limit is reachable: the lower limit never exceeds the upper one, and the current value lies between them. */
  lemma LimitsBracketValue(t: ThresholdSet, param: int)
    ensures Valid(t) && 0 <= param < 4 ==> LowerLimit(t, param) <= Selected(t, param) <= UpperLimit(t, param)
  {
  }

  /** A full, unclamped step up is undone by one step down. */
  lemma IncreaseThenDecrease(t: ThresholdSet, param: int)
    requires Valid(t) && 0 <= param < 4
    requires Selected(Adjusted(t, param, true), param) == Selected(t, param) + StepOf(param)
    ensures Adjusted(Adjusted(t, param, true), param, false) == t
  {
  }

  /** A full, unclamped step down is undone by one step up. */
  lemma DecreaseThenIncrease(t: ThresholdSet, param: int)
    requires Valid(t) && 0 <= param < 4
    requires Selected(Adjusted(t, param, false), param) == Selected(t, param) - StepOf(param)
    ensures Adjusted(Adjusted(t, param, false), param, true) == t
  {
  }

  /** At the top of its range a threshold no longer moves up; at the bottom it no longer moves down. */
  lemma SaturatesAtBounds(t: ThresholdSet)
    requires Valid(t)
    ensures t.attnHigh == 100.0 ==> Adjusted(t, 1, true) == t
    ensures t.relaxHigh == 10.0 ==> Adjusted(t, 3, true) == t
    ensures t.attnLow == 5.0 ==> Adjusted(t, 0, false) == t
    ensures t.relaxLow == 0.5 ==> Adjusted(t, 2, false) == t
    ensures t.attnLow + 5.0 == t.attnHigh ==> Adjusted(t, 0, true) == t && Adjusted(t, 1, false) == t
    ensures t.relaxLow + 0.5 == t.relaxHigh ==> Adjusted(t, 2, true) == t && Adjusted(t, 3, false) == t
  {
  }

  /** The threshold globals, which configuration mode changes in place. */
  class ThresholdStore {
    var attnLow: real
    var attnHigh: real
    var relaxLow: real
    var relaxHigh: real

    function Current(): ThresholdSet
      reads this
    {
      ThresholdSet(attnLow, attnHigh, relaxLow, relaxHigh)
    }

    constructor ()
      ensures Current() == Defaults()
    {
      attnLow, attnHigh := 30.0, 70.0;
      relaxLow, relaxHigh := 3.0, 7.0;
    }

    /** One `switch (current_param)` block: NEXT increases, BACK decreases the selected threshold. */
    method Adjust(param: int, increase: bool)
      modifies this
      ensures Current() == Adjusted(old(Current()), param, increase)
      ensures old(Valid(Current())) ==> Valid(Current())
    {
      if increase {
        if param == 0 {
          attnLow := attnLow + 5.0;
          if attnLow > attnHigh - 5.0 {
            attnLow := attnHigh - 5.0;
          }
          if attnLow > 95.0 {
            attnLow := 95.0;
          }
        } else if param == 1 {
          attnHigh := attnHigh + 5.0;
          if attnHigh > 100.0 {
            attnHigh := 100.0;
          }
        } else if param == 2 {
          relaxLow := relaxLow + 0.5;
          if relaxLow > relaxHigh - 0.5 {
            relaxLow := relaxHigh - 0.5;
          }
          if relaxLow > 9.5 {
            relaxLow := 9.5;
          }
        } else if param == 3 {
          relaxHigh := relaxHigh + 0.5;
          if relaxHigh > 10.0 {
            relaxHigh := 10.0;
          }
        }
      } else {
        if param == 0 {
          attnLow := attnLow - 5.0;
          if attnLow < 5.0 {
            attnLow := 5.0;
          }
        } else if param == 1 {
          attnHigh := attnHigh - 5.0;
          if attnHigh < attnLow + 5.0 {
            attnHigh := attnLow + 5.0;
          }
        } else if param == 2 {
          relaxLow := relaxLow - 0.5;
          if relaxLow < 0.5 {
            relaxLow := 0.5;
          }
        } else if param == 3 {
          relaxHigh := relaxHigh - 0.5;
          if relaxHigh < relaxLow + 0.5 {
            relaxHigh := relaxLow + 0.5;
          }
        }
      }
    }

    /**
     * The button part of one configuration-mode pass: NEXT held (and more
     * than 200 ms since the last accepted press) raises the selected
     * threshold, then BACK held lowers it; each accepted press beeps.
     */
    method ConfigTick(param: int, nextHeld: bool, backHeld: bool, deb: Debouncer, now: U32)
      returns (cues: seq<Cue>)
      modifies this, deb
      ensures var nextOk := nextHeld && HeldAccepted(old(deb.last), now);
        var mid := if nextOk then Adjusted(old(Current()), param, true) else old(Current());
        var midLast := if nextOk then now else old(deb.last);
        var backOk := backHeld && HeldAccepted(midLast, now);
        && Current() == (if backOk then Adjusted(mid, param, false) else mid)
        && deb.last == (if backOk then now else midLast)
        && cues == (if nextOk then [Beep] else []) + (if backOk then [Beep] else [])
    {
      cues := [];
      if nextHeld {
        var ok := deb.AcceptHeld(now);
        if ok {
          Adjust(param, true);
          cues := cues + [Beep];
        }
      }
      if backHeld {
        var ok := deb.AcceptHeld(now);
        if ok {
          Adjust(param, false);
          cues := cues + [Beep];
        }
      }
    }
  }
}
