# Rocket telemetry from OCR, modelled in Dafny

The program watches a live-stream screen. Each captured frame goes through an
OCR engine, which reads a handful of text boxes: the mission clock and, for
each rocket stage, its speed and altitude. The program turns those noisy
strings into time, speed and altitude series. This project models that
bookkeeping step and proves properties of it.

- `builtins.dfy` (module `Builtins`) models the Python builtins the step
  relies on:
  - `int()` on a two-character slice, with its `ValueError` (`Outcome`);
  - `str.replace(c, "")` (`Remove`);
  - `str.replace(x, y)` on single characters (`Replace`).
- `clock.dfy` (module `Clock`) models `time_change`. It turns the
  fixed-layout clock `T-HH:MM:SS` / `T+HH:MM:SS` into signed seconds, and
  keeps the previous value when the text is not 10 characters long.
- `timeline.dfy` (module `Timeline`) models the sub-second frame counter and
  the recorded time stamp. `Streak` defines the counter as a run length over
  the history of parsed seconds.
- `telemetry.dfy` (module `Telemetry`) holds the objects.
  - `TextBox` keeps its last reading when an OCR pass returns nothing.
  - `Stage` reads speed and altitude and filters the altitude for
    plausibility.
  - `Rocket` reads the frame, parses the clock and appends one sample per
    frame to its series.
  - Each class method is proved against a value-level function:
    - `StageStep` for a stage;
    - `StagesStep` for one or two stages;
    - `ReadStep` and `ClockStep` for the two halves of an update;
    - `RocketStep` for a whole update;
    - `RecordSample` for the sample appended.
  - The lemmas beside those functions state what the source promises.

A Python `ValueError` is modelled as follows:
- `int()` raising on a clock slot, or `float()` raising on a stage text, is
  `RaisesValueError`.
- The methods return `ok == false` in that case.
- The state is then exactly as far as the Python code had got before the
  raise.

`float()` is an abstract parameter `toFloat` that may return a number or
raise. OCR output for a box is the list of strings the engine returned; only
its first element is used.

Two facts the proofs make explicit:
- `last_time` always equals `int_time` between updates. `Rocket.update`
  assigns `int_time` only when `time_change` returns (main.py:103), and sets
  `last_time` to it at the end of the same update (main.py:117); a raise in
  between leaves both unchanged.
- So the frame counter of a sample is the length of the unbroken run of
  samples just before it that parsed to the same second, and every recorded
  time is that second plus counter/60 (`ClockInvariant`, `Streak`). Seconds
  5, 6, 5 give the third sample counter 0. The run includes the initial
  `last_time` of 0, so a first clock reading of 0 gets counter 1.
- Stage 1's altitude text is copied into stage 2's box before stage 2 reads
  the frame, but it is only a fallback. Stage 2's own OCR pass overwrites it
  whenever that pass returns anything (`StagesStepSpec`).

main.py:67 holds a commented-out speed growth cap. The live code takes every
speed reading, and so does the model (`StageStepSpec`, `Stage.Update`).

## Model

| member | source | states |
|---|---|---|
| Builtins.IntOfSlot | main.py:152-154 | `int()` on a two-character slot returns exactly for two digits, a sign and a digit, or a digit padded by space, tab, line feed, vertical tab, form feed or carriage return; two digits give their decimal value, `+d` and a padded digit give d, `-d` gives -d; a result lies in -9..99 and is negative only after a `-` |
| Builtins.Remove | main.py:61-64 | deleting `-` removes every occurrence and keeps every other character with its count; the result is empty exactly when the text held nothing but `-` |
| Builtins.RemoveAppend | main.py:61-64 | deleting a character from a concatenation is deleting it from each part, so the surviving characters keep their order |
| Builtins.Replace | main.py:102 | the dot-to-colon rewrite keeps the length and changes exactly the `.` characters |
| Clock.TimeChange | main.py:150-160 | any length other than 10 returns the previous value; at length 10 it returns exactly when all three slots parse, and the magnitude is at most 99:99:99; with digit slots the result is ±(3600·HH + 60·MM + SS), negative exactly when index 1 is `-` and the time is not zero |
| Clock.TimeChangeReadsOnlySignAndSlots | main.py:151-158 | for 10-character clocks the previous value and the characters at indices 0, 4 and 7 never affect the result |
| Clock.DotsToColonsKeepDigitClock | main.py:102-103 | rewriting `.` to `:` before parsing keeps a digit-slot clock a digit-slot clock and leaves its parsed value unchanged |
| Timeline.Stamp | main.py:110 | the recorded time lies in [second, second + 1) for any frame counter below 60, and is the second itself at counter 0 |
| Timeline.NextFrame | main.py:104-107 | the counter restarts at 0 exactly when the parsed second differs from last_time, and otherwise grows by one |
| Timeline.StreakIsMaximalRun | main.py:104-107 | the counter is the length of the maximal run of equal seconds ending at a sample: every sample in the run has the same second and the one before it differs |
| Timeline.StreakOfExtension | main.py:104-110 | appending a later sample never changes the counter of an earlier one |
| Timeline.StreakOfNext | main.py:104-107 | the step-by-step update (increment on the same second, reset to 0 otherwise) agrees with the run-length definition |
| Timeline.StampsAdvanceWithinSecond | main.py:104-110 | while the parsed second stays the same, consecutive recorded times are exactly 1/60 s apart |
| Telemetry.Plausible | main.py:69 | a plausible reading is below 6000; from a non-negative altitude every reading below 100 is plausible |
| Telemetry.FilterAltitude | main.py:69-70 | the kept altitude is the reading or the old altitude; a plausible reading is always taken; any change is to a plausible reading; an altitude below 6000 stays below 6000 |
| Telemetry.NextReading | main.py:61-66 | a text that is empty or all `-` keeps the previous reading; any other text is parsed with its `-` characters removed |
| Telemetry.StageStep | main.py:58-70 | a stage update never takes the altitude to 6000 or above from below |
| Telemetry.StageStepSpec | main.py:58-70 | both boxes keep or replace their text as a box does; temp_speed becomes the speed reading whenever it parses, even if the altitude then raises; temp_altitude becomes the altitude reading when both parse; a raise keeps every reading not yet taken; the update completes exactly when both readings parse, and then speed equals temp_speed and altitude is the filtered reading; a raise leaves speed and altitude unchanged; an all-`-` text keeps its reading |
| Telemetry.StagesStep | main.py:97-101 | one stage view comes out per stage view going in |
| Telemetry.StagesStepSpec | main.py:98-101 | stage 1 steps first; the update completes only if stage 1 did; with two stages and stage 1 complete, stage 2 steps as a stage from its view with stage 1's altitude text, and the update completes exactly when stage 2 does; stage 2 reads stage 1's altitude text only when its own OCR pass is empty; a stage 1 raise leaves stage 2 untouched; on completion every stage's speed equals its reading; no altitude leaves the ceiling |
| Telemetry.RecordSample | main.py:103-117 | int_time and last_time become the parsed second; the counter steps on when the second is unchanged and resets to 0 otherwise; the time list gains exactly second + counter/60; each present stage's altitude and speed lists gain exactly its current values; stage 2's lists of a single-stage rocket stay unchanged |
| Telemetry.RecordKeepsClockInvariant | main.py:103-117 | recording a sample keeps last_time == int_time, the counter equal to the run length of equal seconds, and every recorded time equal to its second plus counter/60 |
| Telemetry.RecordKeepsListsInvariant | main.py:110-116 | recording a sample keeps every series the same length as the time list (stage 2's empty on a single-stage rocket) and every recorded altitude below 6000 |
| Telemetry.ReadStep | main.py:97-101 | reading a frame keeps one or two stages and one list per stage slot |
| Telemetry.ClockStep | main.py:102-117 | parsing the clock and recording keeps one or two stages and one list per stage slot |
| Telemetry.RocketStep | main.py:96-117 | an update keeps one or two stages and one list per slot, and lengthens the time list by exactly one when it completes and not at all otherwise |
| Telemetry.RocketStepSpec | main.py:96-117 | an update steps the stages as StagesStep does; the clock box gets the OCR text, rewritten from `.` to `:` only if the stages did not raise; the update completes exactly when no `float()` and no `int()` raised; then exactly one sample is recorded at the parsed second, and otherwise the series are unchanged |
| Telemetry.TextBox.constructor | main.py:14-20 | a new box holds the empty text |
| Telemetry.TextBox.Detect | main.py:22-43 | an empty OCR result keeps the old text; otherwise the text becomes the first string returned |
| Telemetry.Stage.constructor | main.py:47-56 | a new stage has fresh, distinct boxes holding "0", all readings 0, and altitude below the ceiling |
| Telemetry.Stage.Update | main.py:58-70 | the stage's boxes and fields change exactly as StageStep says; on completion speed equals temp_speed and altitude is the filtered reading; the altitude stays below 6000 |
| Telemetry.Rocket.constructor | main.py:74-94 | a new rocket has a fresh clock box holding "", one or two fresh stages numbered from 1, int_time = last_time = frame = 0, an empty time list and two empty altitude and speed lists, and satisfies the invariant |
| Telemetry.Rocket.ReadFrame | main.py:97-101 | the clock box and the stages read the frame exactly as ReadStep says |
| Telemetry.Rocket.UpdateStages | main.py:98-101 | the stages change exactly as StagesStep says, stage 2 reading stage 1's altitude text as a fallback |
| Telemetry.Rocket.UpdateClock | main.py:102-117 | the clock text and the series change exactly as ClockStep says |
| Telemetry.Rocket.Record | main.py:104-117 | the series fields become exactly RecordSample of the old ones at the parsed second, and the invariant is kept |
| Telemetry.Rocket.Update | main.py:96-117 | the whole rocket changes exactly as RocketStep says, and the invariant (last_time == int_time, the frame counter as a run length, parallel lists, altitudes below 6000) is kept |

## Left out

- The OCR engine, screen capture and frame slicing are not modelled. Each
  frame arrives as the list of strings recognised in each box. The box
  coordinates only feed the OCR, so they are not kept.
- The OCR allow-lists are not assumed. They are `.0123456789` for stage boxes
  and `T+-:0123456789` for the clock. The model lets a box return any string,
  so its properties hold for every OCR output.
- `float()` is an abstract parameter, so decimal parsing, NaN, infinities and
  rounding are not modelled. Readings are Dafny `real`s. The Python integers
  0 used for the initial readings are modelled as 0.0.
- Python's int-to-float conversion in `int_time + frame / 60` is modelled as
  an exact real.
- `int()` on a slot accepts only ASCII digits and the six ASCII whitespace
  characters it strips. In a string holding non-ASCII characters Python also
  accepts other Unicode decimal digits and whitespace; the model treats those
  as raising.
- `TimeTextBox` differs from `TextBox` only in its OCR allow-list, so both
  are `TextBox`.
- A raised `ValueError` ends the update with `ok == false`. The script itself
  would stop; the polling loop in `main`, which drives the updates forever,
  is not modelled.
- Plotting, axis scaling, `plt.pause`, CSV writing, JSON settings loading and
  `print` are not modelled. They are rendering and I/O.
- The settings dictionary only supplies box coordinates, so stages and
  rockets are built without it. The rocket's name selects the rocket's entry
  in that dictionary (main.py:77) and names the CSV file; it is kept as a
  plain value.
