/**
 * The 5x5 LED matrix buffer (`buffer_leds`) and the loops that fill it:
 * copying a 5x5 pattern row by row, the training progress bar and the three
 * history bars.
 */
module Leds {
  import Training
  import Thresholds

  const Pixels: int := 25
  const Side: int := 5

  /** The patterns of the firmware: three faces, the wave glyph, the focus glyph and the relaxation glyph. */
  datatype Glyph = NeutralFace | HappyFace | SadFace | WaveGlyph | FocusGlyph | RelaxGlyph

  /** A 5x5 pattern: five rows of five cells. */
  predicate IsPattern(rows: seq<seq<bool>>) {
    |rows| == Side && forall r :: 0 <= r < |rows| ==> |rows[r]| == Side
  }

  /** `padroes_carinhas`, `padrao_ondas`, `padrao_foco` and `padrao_relaxamento`. */
  function Rows(g: Glyph): (rows: seq<seq<bool>>)
    ensures IsPattern(rows)
  {
    match g
    case NeutralFace =>
      [[false, true, false, true, false],
       [false, true, false, true, false],
       [false, false, false, false, false],
       [true, false, false, false, true],
       [false, true, true, true, false]]
    case HappyFace =>
      [[false, true, false, true, false],
       [false, true, false, true, false],
       [false, false, false, false, false],
       [true, true, true, true, true],
       [true, false, false, false, true]]
    case SadFace =>
      [[false, true, false, true, false],
       [false, true, false, true, false],
       [false, false, false, false, false],
       [false, true, true, true, false],
       [true, false, false, false, true]]
    case WaveGlyph =>
      [[false, false, true, false, false],
       [false, true, true, true, false],
       [true, true, true, true, true],
       [false, true, true, true, false],
       [false, false, true, false, false]]
    case FocusGlyph =>
      [[false, false, true, false, false],
       [false, true, true, true, false],
       [true, true, true, true, true],
       [false, true, true, true, false],
       [false, false, true, false, false]]
    case RelaxGlyph =>
      [[true, false, false, false, true],
       [false, true, false, true, false],
       [false, false, true, false, false],
       [false, true, false, true, false],
       [true, false, false, false, true]]
  }

  /** Cell `k` of the buffer shows row `k / 5`, column `k % 5` of the pattern. */
  function CellOf(g: Glyph, k: int): bool
    requires 0 <= k < Pixels
  {
    Rows(g)[k / Side][k % Side]
  }

  /** The face index the firmware passes to `atualizar_buffer_com_carinha`: 0 neutral, 1 happy, 2 sad. */
  function Face(kind: int): Glyph
    requires 0 <= kind < 3
  {
    if kind == 0 then NeutralFace else if kind == 1 then HappyFace else SadFace
  }

  /**
   * Lit cells of the training progress bar: `NUM_PIXELS / nivel_maximo`
   * cells per level, capped at the whole matrix.
   */
  function ProgressCount(level: int, maxLevel: int): (c: int)
    requires maxLevel > 0
    ensures c <= Pixels
    ensures level >= 0 ==> 0 <= c
    ensures 0 <= level && level * (Pixels / maxLevel) < Pixels ==> c == level * (Pixels / maxLevel)
  {
    var lit := (Pixels / maxLevel) * level;
    if lit > Pixels then Pixels else lit
  }

  /** During a running session (level 1..9 of 10) the bar lights two cells per level and never the whole matrix. */
  lemma ProgressWhileRunning(s: Training.Session)
    requires Training.ValidSession(s) && s.status == Training.Active
    ensures ProgressCount(s.level, s.maxLevel) == 2 * s.level
    ensures 2 <= ProgressCount(s.level, s.maxLevel) <= 18
  {
  }

  /** A higher level never shows a shorter bar. */
  lemma ProgressMonotone(l1: int, l2: int, maxLevel: int)
    requires 0 <= l1 <= l2 && maxLevel > 0
    ensures ProgressCount(l1, maxLevel) <= ProgressCount(l2, maxLevel)
  {
    var per := Pixels / maxLevel;
    assert per * l1 <= per * l2 by {
      MultiplyMonotone(per, l1, l2);
    }
  }

  lemma MultiplyMonotone(c: int, a: int, b: int)
    requires 0 <= c && a <= b
    ensures c * a <= c * b
  {
  }

  /** C's `(int)` cast of a float: truncation toward zero. */
  function Truncate(x: real): (n: int)
    ensures x >= 0.0 ==> 0 <= n && n as real <= x < n as real + 1.0
    ensures x < 0.0 ==> n <= 0 && n as real - 1.0 < x <= n as real
  {
    if x >= 0.0 then x.Floor else -((-x).Floor)
  }

  /** Length of a history bar: `(int)(mean / full_scale * 5)`. */
  function BarLength(mean: real, fullScale: real): (n: int)
    requires fullScale > 0.0
    ensures mean >= 0.0 ==> 0 <= n && (n as real) * fullScale <= mean * 5.0 < (n as real + 1.0) * fullScale
  {
    var n := Truncate(mean / fullScale * 5.0);
    BarScale(mean, fullScale, 5.0, n);
    n
  }

  /** Undoing the division by the full scale in the bounds of a bar of `(int)(value / full * cells)` cells. */
  lemma BarScale(value: real, fullScale: real, cells: real, n: int)
    requires fullScale > 0.0 && cells > 0.0 && n == Truncate(value / fullScale * cells)
    ensures value >= 0.0 ==> 0 <= n
    ensures value >= 0.0 ==> (n as real) * fullScale <= value * cells
    ensures value >= 0.0 ==> value * cells < (n as real + 1.0) * fullScale
  {
    if value >= 0.0 {
      var x := value / fullScale * cells;
      assert x >= 0.0;
      var q := value / fullScale;
      assert q * fullScale == value;
      calc {
        x * fullScale;
        (q * cells) * fullScale;
        (q * fullScale) * cells;
        value * cells;
      }
      ScaleStrict(x, n as real + 1.0, fullScale);
      assert x * fullScale < (n as real + 1.0) * fullScale;
      assert value * cells < (n as real + 1.0) * fullScale;
      ScaleWeak(n as real, x, fullScale);
    }
  }

  /** Full scale of parameter `param` in configuration mode: 100 for the attention thresholds, 10 for the relaxation ones. */
  function FullScale(param: int): real {
    if param == 0 || param == 1 then 100.0 else 10.0
  }

  /**
   * Lit cells of the configuration screen: `(int)(value / full_scale * 25)`
   * for the threshold being edited, and none for a parameter index outside
   * 0..3. The count is the whole part of `value * 25 / full_scale`.
   */
  function ThresholdBar(t: Thresholds.ThresholdSet, param: int): (n: int)
    ensures Thresholds.Selected(t, param) >= 0.0 ==>
      && 0 <= n
      && (n as real) * FullScale(param) <= Thresholds.Selected(t, param) * 25.0
      && Thresholds.Selected(t, param) * 25.0 < (n as real + 1.0) * FullScale(param)
  {
    var n := Truncate(Thresholds.Selected(t, param) / FullScale(param) * 25.0);
    BarScale(Thresholds.Selected(t, param), FullScale(param), 25.0, n);
    n
  }

  /**
   * With valid thresholds the configuration bar lights between 1 and 25
   * cells, so it always fits the matrix; it fills the matrix only at the top
   * of the range (100 or 10).
   */
  lemma ThresholdBarInRange(t: Thresholds.ThresholdSet, param: int)
    requires Thresholds.Valid(t) && 0 <= param < 4
    ensures 1 <= ThresholdBar(t, param) <= Pixels
    ensures ThresholdBar(t, param) == Pixels <==> Thresholds.Selected(t, param) == FullScale(param)
  {
    var v := Thresholds.Selected(t, param);
    var n := ThresholdBar(t, param);
    var full := FullScale(param);
    assert full / 20.0 <= v <= full;
    assert (n as real) * full <= v * 25.0 < (n as real + 1.0) * full;
    if v < full {
      assert n < Pixels;
    }
  }

  /** A higher threshold never shows a shorter configuration bar. */
  lemma ThresholdBarMonotone(t1: Thresholds.ThresholdSet, t2: Thresholds.ThresholdSet, param: int)
    requires 0.0 <= Thresholds.Selected(t1, param) <= Thresholds.Selected(t2, param)
    ensures ThresholdBar(t1, param) <= ThresholdBar(t2, param)
  {
    var n1 := ThresholdBar(t1, param);
    var n2 := ThresholdBar(t2, param);
    var full := FullScale(param);
    assert (n1 as real) * full < (n2 as real + 1.0) * full;
    if n1 > n2 {
      ScaleWeak(n2 as real + 1.0, n1 as real, full);
    }
  }

  lemma ScaleStrict(a: real, b: real, c: real)
    requires a < b && c > 0.0
    ensures a * c < b * c
  {
  }

  lemma ScaleWeak(a: real, b: real, c: real)
    requires a <= b && c > 0.0
    ensures a * c <= b * c
  {
  }

  /** A mean within [0, full scale] gives a bar of 0..5 cells; only a mean at full scale gives 5. */
  lemma BarLengthInRange(mean: real, fullScale: real)
    requires fullScale > 0.0 && 0.0 <= mean <= fullScale
    ensures 0 <= BarLength(mean, fullScale) <= 5
    ensures BarLength(mean, fullScale) == 5 <==> mean == fullScale
  {
    var x := mean / fullScale * 5.0;
    assert 0.0 <= x <= 5.0 by {
      assert mean / fullScale <= 1.0;
    }
    if mean == fullScale {
      assert x == 5.0;
    } else {
      assert mean / fullScale < 1.0;
      assert x < 5.0;
    }
  }

  /** The cells the history screen lights: the attention row, the relaxation row and one cell per session (up to 15). */
  function HistoryCell(attentionBar: int, relaxationBar: int, sessions: int, k: int): (lit: bool)
    requires 0 <= k < Pixels
    ensures k / Side == 0 ==> (lit <==> k % Side < attentionBar)
    ensures k / Side == 1 ==> (lit <==> k % Side < relaxationBar)
    ensures k / Side >= 2 ==> (lit <==> k - 2 * Side < sessions)
  {
    if k < 5 then k < attentionBar
    else if k < 10 then k - 5 < relaxationBar
    else k - 10 < sessions
  }

  class LedMatrix {
    var cells: array<bool>

    ghost predicate Valid()
      reads this
    {
      cells.Length == Pixels
    }

    /** `bool buffer_leds[NUM_PIXELS] = { false }`. */
    constructor ()
      ensures Valid() && fresh(cells)
      ensures forall k :: 0 <= k < Pixels ==> !cells[k]
    {
      cells := new bool[Pixels](_ => false);
    }

    /** The clearing loop (`buffer_leds[i] = false` for every cell). */
    method Clear()
      requires Valid()
      modifies cells
      ensures forall k :: 0 <= k < Pixels ==> !cells[k]
    {
      for i := 0 to Pixels
        invariant forall k :: 0 <= k < i ==> !cells[k]
      {
        cells[i] := false;
      }
    }

    /** `atualizar_buffer_com_carinha` and the other row-by-row pattern copies. */
    method ShowGlyph(g: Glyph)
      requires Valid()
      modifies cells
      ensures forall k :: 0 <= k < Pixels ==> cells[k] == CellOf(g, k)
    {
      var rows := Rows(g);
      for row := 0 to Side
        invariant forall k :: 0 <= k < row * Side ==> cells[k] == CellOf(g, k)
      {
        for col := 0 to Side
          invariant forall k :: 0 <= k < row * Side ==> cells[k] == CellOf(g, k)
          invariant forall c :: 0 <= c < col ==> cells[row * Side + c] == rows[row][c]
        {
          cells[row * Side + col] := rows[row][col];
        }
        forall k | row * Side <= k < (row + 1) * Side
          ensures cells[k] == CellOf(g, k)
        {
          SplitIndex(row, k - row * Side);
        }
      }
    }

    /**
     * Lights cells `from`, `from + 1`, ... while fewer than `n` and fewer than
     * `cap` are lit, leaving the others as they were (the loops
     * `for (i = 0; i < n && i < cap; i++) buffer_leds[i + from] = true`).
     */
    method LightRun(from: int, n: int, cap: int)
      requires Valid() && 0 <= from && 0 <= cap && from + cap <= Pixels
      modifies cells
      ensures forall k :: 0 <= k < Pixels ==>
        cells[k] == ((from <= k < from + cap && k - from < n) || old(cells[k]))
    {
      var i := 0;
      while i < n && i < cap
        invariant 0 <= i <= cap
        invariant i == 0 || i <= n
        invariant forall k :: 0 <= k < Pixels ==> cells[k] == ((from <= k < from + i) || old(cells[k]))
      {
        cells[i + from] := true;
        i := i + 1;
      }
    }

    /** Training, running: clear, then light the progress bar for the level. */
    method ShowProgress(level: int, maxLevel: int)
      requires Valid() && maxLevel > 0
      modifies cells
      ensures forall k :: 0 <= k < Pixels ==> cells[k] == (k < ProgressCount(level, maxLevel))
    {
      Clear();
      var perLevel := Pixels / maxLevel;
      var lit := perLevel * level;
      if lit > Pixels {
        lit := Pixels;
      }
      LightRun(0, lit, Pixels);
    }

    /**
     * Configuration: clear, then light the bar for the threshold being
     * edited (the `switch (current_param)` that picks the value and its full
     * scale, then the loop over `leds_acesos`). The loop has no cap, so the
     * bar must fit the matrix; `ThresholdBarInRange` shows it does for valid
     * thresholds.
     */
    method ShowThreshold(t: Thresholds.ThresholdSet, param: int)
      requires Valid() && ThresholdBar(t, param) <= Pixels
      modifies cells
      ensures forall k :: 0 <= k < Pixels ==> cells[k] == (k < ThresholdBar(t, param))
    {
      Clear();
      var fraction := 0.0;
      if param == 0 {
        fraction := t.attnLow / 100.0;
      } else if param == 1 {
        fraction := t.attnHigh / 100.0;
      } else if param == 2 {
        fraction := t.relaxLow / 10.0;
      } else if param == 3 {
        fraction := t.relaxHigh / 10.0;
      }
      var lit := Truncate(fraction * 25.0);
      LightRun(0, lit, Pixels);
    }

    /** History: clear, then the attention bar, the relaxation bar and the sessions (capped at 15). */
    method ShowHistory(attentionMean: real, relaxationMean: real, sessions: int)
      requires Valid()
      modifies cells
      ensures var sessionsShown := if sessions > 15 then 15 else sessions;
        forall k :: 0 <= k < Pixels ==>
          cells[k] == HistoryCell(BarLength(attentionMean, 100.0), BarLength(relaxationMean, 10.0), sessionsShown, k)
    {
      Clear();
      var attentionBar := Truncate(attentionMean / 100.0 * 5.0);
      LightRun(0, attentionBar, 5);
      var relaxationBar := Truncate(relaxationMean / 10.0 * 5.0);
      LightRun(5, relaxationBar, 5);
      var shown := sessions;
      if shown > 15 {
        shown := 15;
      }
      LightRun(10, shown, 15);
    }
  }

  /** Cell `row * 5 + col` is row `row`, column `col`. */
  lemma SplitIndex(row: int, col: int)
    requires 0 <= row && 0 <= col < Side
    ensures (row * Side + col) / Side == row && (row * Side + col) % Side == col
  {
  }
}
