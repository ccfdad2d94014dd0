/**
 * The history statistics (`Estatisticas stats`): running sums, maxima and
 * sample count of the monitoring readings, the completed-session counter,
 * and their clearing from history mode.
 */
module Statistics {
  import opened Common
  import opened Debounce

  /** Sum of a sequence of samples, added in arrival order. */
  function Sum(s: seq<real>): real {
    if s == [] then 0.0 else Sum(s[..|s| - 1]) + s[|s| - 1]
  }

  /** Running maximum as the firmware keeps it: starts at 0, raised by any larger sample. */
  function Peak(s: seq<real>): (r: real)
    ensures r >= 0.0
    ensures |s| > 0 ==> r >= s[|s| - 1]
  {
    if s == [] then 0.0
    else if s[|s| - 1] > Peak(s[..|s| - 1]) then s[|s| - 1]
    else Peak(s[..|s| - 1])
  }

  /** The divide-safe mean of the history screen: 0 when nothing was recorded, else sum / count. */
  function Mean(sum: real, count: U32): (m: real)
    ensures count == 0 ==> m == 0.0
    ensures count > 0 ==> m * (count as real) == sum
  {
    if count > 0 then sum / (count as real) else 0.0
  }

  /** The peak bounds every sample, is never negative, and is one of the samples or the initial 0. */
  lemma {:induction false} PeakIsMaximum(s: seq<real>)
    ensures Peak(s) >= 0.0
    ensures forall i :: 0 <= i < |s| ==> s[i] <= Peak(s)
    ensures Peak(s) == 0.0 || exists i :: 0 <= i < |s| && s[i] == Peak(s)
  {
    if s != [] {
      var init := s[..|s| - 1];
      PeakIsMaximum(init);
      assert forall i :: 0 <= i < |init| ==> s[i] == init[i];
      if Peak(s) != 0.0 && Peak(s) == Peak(init) {
        var i :| 0 <= i < |init| && init[i] == Peak(init);
        assert s[i] == Peak(s);
      }
    }
  }

  /** Samples within [lo, hi] sum to between |s| * lo and |s| * hi. */
  lemma {:induction false} SumBounds(s: seq<real>, lo: real, hi: real)
    requires forall i :: 0 <= i < |s| ==> lo <= s[i] <= hi
    ensures (|s| as real) * lo <= Sum(s) <= (|s| as real) * hi
  {
    if s != [] {
      SumBounds(s[..|s| - 1], lo, hi);
    }
  }

  /** The mean of recorded samples lies within any range that holds every sample. */
  lemma MeanWithinSampleRange(s: seq<real>, lo: real, hi: real)
    requires 0 < |s| < TwoTo32
    requires forall i :: 0 <= i < |s| ==> lo <= s[i] <= hi
    ensures lo <= Mean(Sum(s), |s|) <= hi
  {
    SumBounds(s, lo, hi);
    var n := |s| as real;
    var m := Mean(Sum(s), |s|);
    assert m * n == Sum(s);
    assert lo * n <= m * n <= hi * n;
  }

  class Stats {
    var sumAttention: real
    var sumRelaxation: real
    var maxAttention: real
    var maxRelaxation: real
    var samples: U32
    var startTime: U32
    var lastTrainingTime: U32
    var sessions: Byte
    /** Every attention and relaxation sample recorded since the last clear. */
    ghost var attentionSeen: seq<real>
    ghost var relaxationSeen: seq<real>

    /** The fields summarise the samples seen since the last clear. */
    ghost predicate Valid()
      reads this
    {
      && |attentionSeen| == |relaxationSeen|
      && sumAttention == Sum(attentionSeen) && sumRelaxation == Sum(relaxationSeen)
      && maxAttention == Peak(attentionSeen) && maxRelaxation == Peak(relaxationSeen)
      && samples == |attentionSeen| % TwoTo32
    }

    /** `Estatisticas stats = {0}`, then `stats.tempo_inicio` set at boot. */
    constructor (bootTime: U32)
      ensures Valid() && attentionSeen == [] && relaxationSeen == []
      ensures startTime == bootTime && sessions == 0 && lastTrainingTime == 0
    {
      sumAttention, sumRelaxation := 0.0, 0.0;
      maxAttention, maxRelaxation := 0.0, 0.0;
      samples, startTime, lastTrainingTime, sessions := 0, bootTime, 0, 0;
      attentionSeen, relaxationSeen := [], [];
    }

    function AttentionMean(): real
      reads this
    {
      Mean(sumAttention, samples)
    }

    function RelaxationMean(): real
      reads this
    {
      Mean(sumRelaxation, samples)
    }

    /** The statistics update at the end of a monitoring pass. */
    method Record(attention: real, relaxation: real)
      requires Valid()
      modifies this
      ensures Valid()
      ensures attentionSeen == old(attentionSeen) + [attention]
      ensures relaxationSeen == old(relaxationSeen) + [relaxation]
      ensures sumAttention == old(sumAttention) + attention
      ensures sumRelaxation == old(sumRelaxation) + relaxation
      ensures samples == Inc32(old(samples))
      ensures maxAttention >= old(maxAttention) && maxAttention >= attention
      ensures maxRelaxation >= old(maxRelaxation) && maxRelaxation >= relaxation
      ensures maxAttention == old(maxAttention) || maxAttention == attention
      ensures maxRelaxation == old(maxRelaxation) || maxRelaxation == relaxation
      ensures startTime == old(startTime) && sessions == old(sessions)
      ensures lastTrainingTime == old(lastTrainingTime)
    {
      sumAttention := sumAttention + attention;
      sumRelaxation := sumRelaxation + relaxation;
      samples := Inc32(samples);
      if attention > maxAttention {
        maxAttention := attention;
      }
      if relaxation > maxRelaxation {
        maxRelaxation := relaxation;
      }
      attentionSeen := attentionSeen + [attention];
      relaxationSeen := relaxationSeen + [relaxation];
      assert attentionSeen[..|attentionSeen| - 1] == old(attentionSeen);
      assert relaxationSeen[..|relaxationSeen| - 1] == old(relaxationSeen);
    }

    /**
     * The button part of a history-mode pass: SET held (more than 200 ms
     * after the last accepted press) consumes the debounce window; only if
     * NEXT is held at that moment too are the statistics cleared. The last
     * training duration is not cleared.
     */
    method HistoryTick(setHeld: bool, nextHeld: bool, deb: Debouncer, nowMs: U32, nowS: U32)
      returns (cleared: bool, cues: seq<Cue>)
      requires Valid()
      modifies this, deb
      ensures Valid()
      ensures var setOk := setHeld && HeldAccepted(old(deb.last), nowMs);
        && deb.last == (if setOk then nowMs else old(deb.last))
        && cleared == (setOk && nextHeld)
      ensures cleared ==>
        && attentionSeen == [] && relaxationSeen == []
        && sumAttention == 0.0 && sumRelaxation == 0.0
        && maxAttention == 0.0 && maxRelaxation == 0.0
        && samples == 0 && startTime == nowS && sessions == 0
        && cues == [Success]
      ensures !cleared ==>
        && attentionSeen == old(attentionSeen) && relaxationSeen == old(relaxationSeen)
        && sumAttention == old(sumAttention) && sumRelaxation == old(sumRelaxation)
        && maxAttention == old(maxAttention) && maxRelaxation == old(maxRelaxation)
        && samples == old(samples) && startTime == old(startTime) && sessions == old(sessions)
        && cues == []
      ensures lastTrainingTime == old(lastTrainingTime)
    {
      cleared, cues := false, [];
      if setHeld {
        var ok := deb.AcceptHeld(nowMs);
        if ok && nextHeld {
          sumAttention, sumRelaxation := 0.0, 0.0;
          maxAttention, maxRelaxation := 0.0, 0.0;
          samples := 0;
          startTime := nowS;
          sessions := 0;
          attentionSeen, relaxationSeen := [], [];
          cleared, cues := true, [Success];
        }
      }
    }
  }

  /** The means shown on the history screen stay within the range of the recorded samples. */
  lemma StatsMeansInRange(st: Stats, lo: real, hi: real)
    requires st.Valid() && 0 < |st.attentionSeen| < TwoTo32
    requires forall i :: 0 <= i < |st.attentionSeen| ==> lo <= st.attentionSeen[i] <= hi
    ensures lo <= st.AttentionMean() <= hi
    ensures st.attentionSeen[|st.attentionSeen| - 1] <= st.maxAttention
  {
    MeanWithinSampleRange(st.attentionSeen, lo, hi);
    PeakIsMaximum(st.attentionSeen);
  }
}
