# NeuroSync decision core, modelled in Dafny

NeuroSync is Raspberry Pi Pico firmware for a biofeedback toy. Two
potentiometers stand in for an attention signal (0–100 %) and a relaxation
signal (0–10). From these the firmware derives four synthetic brain-wave
bands. It classifies the user as Distracted, Normal, HighFocus, DeepRelax,
Flow or Anxiety. It runs timed training sessions that score points and levels,
keeps history statistics, and lets three buttons (NEXT, BACK, SET) move
between the monitoring, configuration, training and history screens.

This project models the decision logic under the hardware calls. The
readings, the clock and the buttons held or pressed are parameters. The
firmware's globals become classes whose methods change their fields in
place. Each class method is proved equal to a pure function, and the
properties are proved about that function.

| file | module | what it models |
|---|---|---|
| common.dfy | `Common` | `uint32_t`/`uint8_t` wrap-around, the audible cues |
| debounce.dfy | `Debounce` | the shared `last_button_time` and its two tests |
| waves.dfy | `Waves` | `simular_ondas_cerebrais` |
| thresholds.dfy | `Thresholds` | the four thresholds and the configuration-mode adjustment |
| classifier.dfy | `Classifier` | `determinar_estado_cognitivo` |
| statistics.dfy | `Statistics` | the `stats` record: recording, mean, clearing |
| training.dfy | `Training` | the status logic of the training screen |
| navigation.dfy | `Navigation` | `button_callback` and the main loop's screen dispatch |
| leds.dfy | `Leds` | the 25-cell `buffer_leds` and the loops that fill it |
| modes.dfy | `Modes` | the monitoring pass and the training screen's LED choice |

Numbers are modelled as follows:

- Attention, relaxation and the thresholds are `real`. Every threshold step (5.0, 0.5) and every bound is exact in binary floating point, so the comparisons the model makes are the firmware's.
- Timestamps, the score and the sample count are `uint32_t` in the firmware. The model uses the subset type `U32` and writes the wrap-around out (`Sub32`, `Inc32`).
- The completed-session counter is a `uint8_t`. It is incremented modulo 256 (`Inc8`).

Behaviour of the code that the model keeps on purpose:

- The interrupt handler drops an edge when less than 200 ms have passed (`< 200`). The polled buttons of the configuration, training and history screens act only when MORE than 200 ms have passed (`> 200`). Both tests read and update the same timestamp (`Debounce.HeldImpliesEdge`).
- A session that reaches level 10 in the same pass as its 300-second limit is counted twice, and both the success and the failure cues play (`Training.SuccessAndTimeoutSameTick`).
- The failure cue plays on every timeout, including one that ends in success.
- SET is tested after the timeout, so a session that times out and is cancelled in the same pass is still counted (`Training.ActiveCancel`).
- A session starts at level 1, and the level rises every 50 points up to level 10. So 450 satisfying passes, not 500, end a session in success (`Training.SucceedsAfter450`). The model follows the code.
- Only the monitoring screen records statistics samples. The training screen reads the sensors but records nothing.
- Leaving configuration mode after the last parameter resets `current_param` to 0. The code has no separate "no parameter" value. The invariant `Navigation.ValidNav` shows the parameter is 0 whenever set mode is off.
- The interrupt exempts no menu from NEXT and BACK, so NEXT on the training screen leaves it for the history screen (`Navigation.NextLeavesTraining`).
- The interrupt exempts only the training menu from SET, so SET on the history screen enters set mode and shows the configuration screen (`Navigation.SetLeavesHistory`). The history clear (SET with NEXT held) is polled by the history screen, which the interrupt then leaves.
- Clearing the history keeps the last training duration (`tempo_ultimo_treino`). A SET that passes the debounce test uses up the 200 ms window even when NEXT is not held.

## Model

| member | source | states |
|---|---|---|
| Common.Sub32 | revisaoresidencia.c:1011-1012 | `uint32_t` subtraction: the plain difference when no wrap, else the difference plus 2^32 |
| Common.Inc32 | revisaoresidencia.c:609 | `uint32_t` increment of the sample count: +1, and 2^32-1 wraps to 0 |
| Common.Inc8 | revisaoresidencia.c:822 | `uint8_t` increment of the session counter: +1, and 255 wraps to 0 |
| Debounce.EdgeAccepted | revisaoresidencia.c:1012 | without wrap, an edge passes iff now ≥ last + 200; across the 2^32 wrap, iff now + 2^32 ≥ last + 200 |
| Debounce.HeldAccepted | revisaoresidencia.c:628 | without wrap, a held button passes iff now > last + 200; across the 2^32 wrap, iff now + 2^32 > last + 200 |
| Debounce.HeldImpliesEdge | revisaoresidencia.c:628 | a press the polling code accepts would also pass the interrupt's test; exactly 200 ms apart only the interrupt accepts |
| Debounce.NoSecondAcceptance | revisaoresidencia.c:1012-1013 | right after an acceptance at `now`, neither test accepts another event at `now` |
| Debounce.Debouncer.constructor | revisaoresidencia.c:81 | the timestamp starts at 0 |
| Debounce.Debouncer.AcceptEdge | revisaoresidencia.c:1011-1013 | accepts iff at least 200 ms (mod 2^32) have passed; records `now` only on acceptance |
| Debounce.Debouncer.AcceptHeld | revisaoresidencia.c:626-629 | accepts iff more than 200 ms have passed; records `now` only on acceptance |
| Waves.ClampNonNegative | revisaoresidencia.c:387-390 | a negative band becomes exactly 0; a non-negative one is unchanged; the result is never below 0 or below its input |
| Waves.Derive | revisaoresidencia.c:370-391 | keeps attention and relaxation; all four bands are ≥ 0 for every input |
| Waves.BandRanges | revisaoresidencia.c:375-390 | for attention in [0,100] and relaxation in [0,10]: beta in [10,30], theta in [5,20], alpha in [5,15], delta in [2,20] |
| Waves.BandsDetermineInputs | revisaoresidencia.c:375-381 | inside the sensor ranges beta gives back the attention and alpha the relaxation (the model is invertible) |
| Waves.Monotone | revisaoresidencia.c:375-385 | more attention/relaxation never lowers beta or alpha and never raises theta or delta |
| Waves.ThetaClamped | revisaoresidencia.c:389 | the clamp is reachable: out-of-range attention drives theta to 0 |
| Thresholds.Defaults | revisaoresidencia.c:97-100 | the start-up thresholds 30/70/3/7 satisfy the ordering invariant |
| Thresholds.Adjusted | revisaoresidencia.c:632-699 | every step keeps `5 ≤ attnLow, attnLow+5 ≤ attnHigh ≤ 100, 0.5 ≤ relaxLow, relaxLow+0.5 ≤ relaxHigh ≤ 10`; only the selected threshold changes; its new value is old + step clamped to `UpperLimit` (NEXT) or old − step clamped to `LowerLimit` (BACK), so it moves in the pressed direction by at most one step |
| Thresholds.Raised | revisaoresidencia.c:632-663 | the NEXT switch: the selected threshold becomes min(old + 5.0/0.5, its upper limit: a step below the high partner and at most 95/9.5 for a low threshold, 100/10 for a high one); the others are unchanged; validity is kept |
| Thresholds.Lowered | revisaoresidencia.c:674-699 | the BACK switch: the selected threshold becomes max(old − 5.0/0.5, its lower limit: 5/0.5 for a low threshold, a step above the low partner for a high one); the others are unchanged; validity is kept |
| Thresholds.FullStepAwayFromLimits | revisaoresidencia.c:632-699 | with valid thresholds, a press away from the limit moves the threshold by exactly 5.0 or 0.5 in the pressed direction; near the limit it lands exactly on the limit |
| Thresholds.LimitsBracketValue | revisaoresidencia.c:632-699 | with valid thresholds each value lies between its lower and upper limit, so neither clamp ever moves a threshold against the pressed direction |
| Thresholds.IncreaseThenDecrease | revisaoresidencia.c:632-699 | an unclamped step up is undone by one step down |
| Thresholds.DecreaseThenIncrease | revisaoresidencia.c:632-699 | an unclamped step down is undone by one step up |
| Thresholds.SaturatesAtBounds | revisaoresidencia.c:634-697 | at an absolute bound or at the minimum gap, the blocked direction changes nothing |
| Thresholds.ThresholdStore.constructor | revisaoresidencia.c:97-100 | the globals start at the defaults |
| Thresholds.ThresholdStore.Adjust | revisaoresidencia.c:632-699 | the in-place `switch` equals `Adjusted` and keeps the invariant |
| Thresholds.ThresholdStore.ConfigTick | revisaoresidencia.c:624-702 | NEXT then BACK, each polled and debounced, each applying `Adjusted` and beeping when accepted |
| Classifier.Code | revisaoresidencia.c:396-403 | every state has a code in 0..5 |
| Classifier.FromCode | revisaoresidencia.c:396-403 | decoding a code in 0..5 gives the state with that code |
| Classifier.CodeRoundTrip | revisaoresidencia.c:396-403 | decode(code(s)) = s, so distinct states have distinct codes |
| Classifier.Classify | revisaoresidencia.c:405-417 | the result always lies in its own order-free region (`InRegion`), for any thresholds |
| Classifier.RegionsDisjoint | revisaoresidencia.c:405-417 | no two regions overlap, so the classification is the unique state whose region holds |
| Classifier.FlowExactly | revisaoresidencia.c:405-406 | Flow iff attention ≥ attn_high and relaxation ≥ relax_high; then never HighFocus |
| Classifier.AnxietyExactly | revisaoresidencia.c:407-408 | Anxiety implies attention ≥ attn_high and relaxation < relax_low; with valid thresholds the converse holds |
| Classifier.LowAttentionDistracted | revisaoresidencia.c:411-412 | when attn_low ≤ attn_high, attention < attn_low gives Distracted |
| Classifier.DefaultsExample | revisaoresidencia.c:405-406 | under the defaults, (80, 8) and (75, 8) are Flow, code 4 |
| Statistics.Sum | revisaoresidencia.c:607-608 | the running sum in arrival order; bounded by `SumBounds` |
| Statistics.Peak | revisaoresidencia.c:611-617 | the running maximum from 0 is never negative and never below the latest sample |
| Statistics.Mean | revisaoresidencia.c:524-530 | 0 when no samples; otherwise mean × count = sum |
| Statistics.PeakIsMaximum | revisaoresidencia.c:611-617 | the running maximum is ≥ 0, bounds every sample and is a sample or the initial 0 |
| Statistics.SumBounds | revisaoresidencia.c:607-608 | samples within [lo,hi] sum to between n·lo and n·hi |
| Statistics.MeanWithinSampleRange | revisaoresidencia.c:969-975 | the mean of the recorded samples lies in any range holding every sample |
| Statistics.StatsMeansInRange | revisaoresidencia.c:969-975 | the history screen's attention mean lies within the range of the samples seen, and the max covers the latest |
| Statistics.Stats.constructor | revisaoresidencia.c:114 | all zero, with the start time set at boot (line 1148) |
| Statistics.Stats.Record | revisaoresidencia.c:606-617 | adds the sample to both sums, count +1 (mod 2^32), each maximum becomes max(old, sample) and never decreases; nothing else changes |
| Statistics.Stats.HistoryTick | revisaoresidencia.c:946-964 | clears sums, maxima, count and sessions and restarts the time origin only when SET is accepted and NEXT is held; otherwise nothing but the timestamp changes |
| Training.NextObjective | revisaoresidencia.c:769 | `(objetivo + 1) % 3` always picks a different objective |
| Training.Meets | revisaoresidencia.c:796-807 | the attention objective is met iff the monitoring classifier would say HighFocus, Flow or Anxiety; the flow objective iff it would say Flow; a met relaxation objective means Flow, DeepRelax or Distracted, and Flow or DeepRelax always meet it |
| Training.IdleStep | revisaoresidencia.c:761-789 | an idle pass counts nothing and keeps the duration; it either stays Idle (level and score unchanged) or starts at level 1, score 0, start = now, with the success cue |
| Training.ScoreStep | revisaoresidencia.c:793-826 | a reading that misses the objective changes nothing; otherwise the level rises by at most one; start, objective and maximum stay; a level-up plays exactly the success cue; a completion is counted iff this pass reaches the top level and succeeds |
| Training.TimeoutStep | revisaoresidencia.c:828-842 | counts a completion iff 300 s have passed since the start; otherwise changes nothing; never changes level, score or start |
| Training.Step | revisaoresidencia.c:761-869 | one pass counts at most two completions, and none unless the session was running; outside Idle the objective and start stay; the timestamp is either kept or set to now |
| Training.ObjectiveCycle | revisaoresidencia.c:769 | `(objetivo+1)%3` never stays put and returns after three presses |
| Training.InitialValid | revisaoresidencia.c:127 | the zeroed boot session satisfies the session invariant |
| Training.StepPreservesValid | revisaoresidencia.c:761-869 | every pass keeps the invariant (level 0 before the first start, else 1..10 with maximum 10; running or failed below 10; succeeded at 10) and counts at most two completions |
| Training.IdleNextCyclesObjective | revisaoresidencia.c:763-772 | idle, accepted NEXT: objective advances, beep, nothing else (a SET in the same pass meets a fresh timestamp) |
| Training.IdleSetStarts | revisaoresidencia.c:775-788 | idle, accepted SET: Active, level 1 of 10, score 0, start = now, success cue |
| Training.ActiveScoring | revisaoresidencia.c:793-811 | running: a satisfying reading adds exactly one point, any other adds none |
| Training.ActiveLevelUp | revisaoresidencia.c:812-816 | running: the level rises by one iff the reading satisfies and the new score is a multiple of 50, and every level-up plays the success cue |
| Training.ReachingTopSucceeds | revisaoresidencia.c:818-825 | reaching level 10 ends in success (or Idle if SET also cancels) with the success cue; the duration is now − start; the session is counted once, or twice when the time limit is reached in the same pass |
| Training.ActiveTimeout | revisaoresidencia.c:828-842 | elapsed ≥ 300 s: failed below level 10 else succeeded, duration = elapsed, counted, failure cue either way |
| Training.NoEarlyFailure | revisaoresidencia.c:828-830 | inside the time limit a running session never fails |
| Training.ActiveCancel | revisaoresidencia.c:844-854 | running, accepted SET: back to Idle, and the pass ends with the beep; a session that also timed out is still counted |
| Training.SuccessAndTimeoutSameTick | revisaoresidencia.c:809-842 | level 10 and timeout in one pass: counted twice, cues success then failure |
| Training.TerminalIsStable | revisaoresidencia.c:856-868 | a finished session without an accepted SET never changes, so it never ends (or counts) again |
| Training.TerminalReset | revisaoresidencia.c:856-868 | a finished session with an accepted SET returns to Idle, nothing else changes |
| Training.RunProgress | revisaoresidencia.c:809-815 | after n < 450 satisfying passes from a fresh start, each at its own time within the 300 s limit and with its own reading: score n, level 1 + n/50, still running |
| Training.SucceedsAfter450 | revisaoresidencia.c:809-825 | the 450th satisfying pass within the time limit ends the session in success at level 10, score 450, with duration = time of that pass − start; after 449 it is still running |
| Training.TrainingSession.constructor | revisaoresidencia.c:127 | the training globals start zeroed |
| Training.TrainingSession.Tick | revisaoresidencia.c:761-869 | the in-place pass equals `Step`: session, timestamp and cues, with the session counter and last duration updated in `stats` |
| Training.TrainingSession.IdlePass | revisaoresidencia.c:761-789 | equals the idle part of `Step` |
| Training.TrainingSession.ScorePass | revisaoresidencia.c:791-826 | equals the scoring part of `Step` |
| Training.TrainingSession.TimeoutPass | revisaoresidencia.c:828-842 | equals the time-limit part of `Step` |
| Training.TrainingSession.CancelPass | revisaoresidencia.c:844-868 | an accepted SET sets the status to Idle and changes nothing else |
| Navigation.Press | revisaoresidencia.c:1015-1044 | keeps `ValidNav` (menu 0..3, parameter 0..3, parameter 0 outside set mode, never set mode in the training menu); NEXT/BACK do nothing in set mode; SET does nothing in the training menu |
| Navigation.Beeps | revisaoresidencia.c:1015-1044 | the handler beeps for an accepted edge exactly when the edge changes the navigation state |
| Navigation.OnEdge | revisaoresidencia.c:1010-1046 | an edge inside the debounce window changes nothing; an accepted edge records its time |
| Navigation.NextBackInverse | revisaoresidencia.c:1033-1044 | outside set mode NEXT then BACK, or BACK then NEXT, restores the menu |
| Navigation.NextCyclesAllMenus | revisaoresidencia.c:1033-1038 | four NEXT presses visit all four menus and return |
| Navigation.SetWalksParameters | revisaoresidencia.c:1015-1032 | SET enters at parameter 0, walks 1..3, the fifth press exits with the parameter reset, the sixth starts again at 0 |
| Navigation.ExitResetsParameter | revisaoresidencia.c:1025-1029 | leaving from parameter 3 resets it to 0; the next SET begins at 0 |
| Navigation.Feed | revisaoresidencia.c:1010-1046 | a stream of edges beeps at most once per edge, and the final timestamp is the initial one or the time of one of the edges |
| Navigation.NextLeavesTraining | revisaoresidencia.c:1033-1044 | the training menu is not exempt from NEXT/BACK: NEXT there moves to the history screen, BACK to the configuration screen |
| Navigation.SetLeavesHistory | revisaoresidencia.c:1015-1022 | SET on the history menu enters set mode, so the configuration screen replaces the history screen |
| Navigation.FeedPreservesValid | revisaoresidencia.c:1010-1046 | any sequence of edges, handled one at a time, keeps the navigation invariant |
| Navigation.BounceIgnored | revisaoresidencia.c:1011-1013 | edges all within 200 ms of the last accepted one change nothing |
| Navigation.Navigator.constructor | revisaoresidencia.c:77-80 | boot state: monitoring, not configuring, parameter 0 |
| Navigation.Navigator.OnButton | revisaoresidencia.c:1010-1046 | the in-place handler equals `OnEdge` and keeps the invariant |
| Navigation.ScreenFor | revisaoresidencia.c:1154-1174 | set mode always shows configuration; training is shown iff menu 2 |
| Leds.Rows | revisaoresidencia.c:133-182 | every pattern is five rows of five cells |
| Leds.ProgressCount | revisaoresidencia.c:908-910 | the lit count never exceeds 25, is non-negative for a non-negative level, and is level × (25 / max) while that is below 25 |
| Leds.ProgressWhileRunning | revisaoresidencia.c:908-910 | while running (level 1..9 of 10) the bar lights 2 × level cells, between 2 and 18 |
| Leds.ProgressMonotone | revisaoresidencia.c:908-910 | a higher level never shows a shorter bar |
| Leds.Truncate | revisaoresidencia.c:983 | C's `(int)` cast truncates toward zero |
| Leds.BarLength | revisaoresidencia.c:983-989 | for a non-negative mean, the bar n is the whole part of mean × 5 / full scale: n × full ≤ 5 × mean < (n + 1) × full |
| Leds.HistoryCell | revisaoresidencia.c:982-999 | cells 0-4 (row 0) show the attention bar, cells 5-9 (row 1) the relaxation bar, and cells from 10 on the session count |
| Leds.ThresholdBar | revisaoresidencia.c:711-729 | the configuration bar for a non-negative threshold is the whole part n of value × 25 / full scale (100 for attention, 10 for relaxation): n × full ≤ 25 × value < (n + 1) × full |
| Leds.ThresholdBarInRange | revisaoresidencia.c:727-731 | with valid thresholds the bar lights 1..25 cells, so the uncapped loop stays inside the matrix; 25 only at the top of the range |
| Leds.ThresholdBarMonotone | revisaoresidencia.c:711-729 | a higher threshold never shows a shorter configuration bar |
| Leds.BarLengthInRange | revisaoresidencia.c:983-994 | a mean within [0, full scale] gives a bar of 0..5, and 5 only at full scale |
| Leds.LedMatrix.constructor | revisaoresidencia.c:75 | all 25 cells start off |
| Leds.LedMatrix.Clear | revisaoresidencia.c:875-877 | every cell off |
| Leds.LedMatrix.ShowGlyph | revisaoresidencia.c:226-233 | cell k shows row k/5, column k%5 of the pattern |
| Leds.LedMatrix.LightRun | revisaoresidencia.c:984-987 | lights exactly the first min(n, cap) cells from `from`; every other cell keeps its value |
| Leds.LedMatrix.ShowProgress | revisaoresidencia.c:906-914 | exactly the first `ProgressCount(level, max)` cells lit |
| Leds.LedMatrix.ShowThreshold | revisaoresidencia.c:704-731 | clears the matrix, then lights exactly the first `ThresholdBar` cells for the parameter being edited |
| Leds.LedMatrix.ShowHistory | revisaoresidencia.c:977-999 | cells 0-4 the attention bar, cells 5-9 the relaxation bar, then from cell 10 one cell per session, up to 15 |
| Modes.FaceFor | revisaoresidencia.c:576-599 | sad iff Distracted or Anxiety, happy iff HighFocus or Flow, neutral otherwise |
| Modes.IndicatorFor | revisaoresidencia.c:576-599 | the red channel is full iff the state is Distracted or Anxiety |
| Modes.IndicatorDistinguishesStates | revisaoresidencia.c:576-599 | no two states share an indicator colour |
| Modes.MonitorTick | revisaoresidencia.c:551-618 | derives the bands, classifies, shows the state's face, returns its colour, records the sample (count + 1 mod 2^32); the session counter, start time and last training duration are unchanged |
| Modes.ObjectiveGlyph | revisaoresidencia.c:880-903 | the idle training screen never shows a face, so it cannot be mistaken for a finished session; the relaxation glyph appears iff the objective is relaxation |
| Modes.ShowTraining | revisaoresidencia.c:874-936 | idle: the objective's glyph; running: 2 × level cells; succeeded: happy face; failed: sad face |
| Modes.MonitorExample | revisaoresidencia.c:578-594 | defaults with (75, 8): Flow, happy face, indicator (0, 255, 128) |

## Left out

- Sensor sampling (`obter_nivel_atencao`, `obter_nivel_relaxamento`, lines 344-367): an ADC read plus `rand()` noise. Attention and relaxation are parameters instead.
- Tone generation, the heap-allocated alarm callbacks and the cue sequences (lines 273-337): hardware calls. Cues are an emitted `Cue` value.
- OLED text rendering (lines 425-523 and 531-544; the divide-safe mean at 524-530 is modelled by `Statistics.Mean`) and the splash screen (lines 1051-1084): display formatting and library calls.
- WS2812 output, RGB LED PWM and `main`'s peripheral set-up (lines 190-218, 247-266, 1089-1150): hardware calls. The indicator colour is a returned value.
- The configuration screen's indicator colour (lines 733-743): RGB output only, blue for the attention thresholds and cyan for the relaxation ones.
- Floating-point rounding in general: attention, relaxation, sums and means are exact reals. With float, long sums would drift.
- The race between the button interrupt and the polling loop on `last_button_time` and the mode variables: concurrency. Events are applied one at a time, in arrival order.
- In the running firmware, the interrupt also fires on the edges the training, configuration and history screens poll for, so a NEXT meant to cycle the objective usually changes the menu first. The model treats the handler and the polled screens as separate, sequential entry points and does not model which one reaches a press first.
- Clock reads: every read of `time_us_32()` within one pass is taken to return the same `now` (one value in milliseconds and one in seconds).

