/** Per-frame telemetry bookkeeping: text boxes that hold the last OCR reading
    of a screen region, rocket stages that filter speed and altitude readings,
    and a rocket that parses the mission clock and appends one sample per frame
    to its time, altitude and speed series. The OCR engine is outside the model:
    each frame arrives as the list of strings it recognised in each box. */
module Telemetry {
  import opened Builtins
  import opened Clock
  import opened Timeline

  /** What the OCR engine returned for one text box in one frame; only the
      first string is ever used, and an empty list means nothing was read. */
  type OcrResult = seq<string>

  datatype StageOcr = StageOcr(speed: OcrResult, altitude: OcrResult)

  /** The OCR results for every text box of a rocket in one captured frame. The
      second stage's boxes are ignored by a single-stage rocket. */
  datatype FrameOcr = FrameOcr(time: OcrResult, stage1: StageOcr, stage2: StageOcr)

  /** Python's float() on a text: a number, or a raised ValueError. It is left
      abstract and passed in. */
  type FloatParser = string -> Outcome<real>

  /** The text a box holds after an OCR pass that returned `result`. */
  function Recognized(previous: string, result: OcrResult): string {
    if |result| == 0 then previous else result[0]
  }

  // ---------------------------------------------------------------------------
  // The altitude plausibility filter
  // ---------------------------------------------------------------------------

  /** No altitude reading at or above this is ever accepted. */
  const AltitudeCeiling: real := 6000.0

  /** A new altitude reading is believed when it is below twenty times the
      accepted altitude plus five and below the ceiling. */
  predicate Plausible(previous: real, reading: real): (b: bool)
    ensures b ==> reading < AltitudeCeiling
    ensures 0.0 <= previous && reading < 100.0 ==> b
  {
    reading < (previous + 5.0) * 20.0 && reading < AltitudeCeiling
  }

  /** The altitude a stage keeps after a reading: the reading if plausible,
      otherwise the previous altitude. */
  function FilterAltitude(previous: real, reading: real): (r: real)
    ensures r == reading || r == previous
    ensures reading < (previous + 5.0) * 20.0 && reading < AltitudeCeiling ==> r == reading
    ensures r != previous ==> r < (previous + 5.0) * 20.0 && r < AltitudeCeiling
    ensures previous < AltitudeCeiling ==> r < AltitudeCeiling
  {
    if Plausible(previous, reading) then reading else previous
  }

  // ---------------------------------------------------------------------------
  // One stage, as a value: the specification of Stage.Update
  // ---------------------------------------------------------------------------

  /** Everything Stage.Update reads or writes: the two box texts, the last
      parsed readings and the accepted speed and altitude. */
  datatype StageView = StageView(
    speedText: string, altitudeText: string,
    tempSpeed: real, tempAltitude: real,
    speed: real, altitude: real)

  /** A stage after an update, and whether the update ran to its end (false when
      float() raised on one of the texts). */
  datatype Stepped = Stepped(view: StageView, ok: bool)

  /** The value temp_speed or temp_altitude takes from a box text: the text with
      every `-` deleted is parsed, unless nothing is left, in which case the
      previous value stays. */
  function NextReading(previous: real, text: string, toFloat: FloatParser): (r: Outcome<real>)
    ensures (forall i :: 0 <= i < |text| ==> text[i] == '-') ==> r == Returns(previous)
    ensures (exists i :: 0 <= i < |text| && text[i] != '-') ==> r == toFloat(Remove(text, '-'))
  {
    var stripped := Remove(text, '-');
    if stripped == "" then Returns(previous) else toFloat(stripped)
  }

  /** Stage.update on values: detect both boxes, read speed then altitude, take
      the speed as read and the altitude through the plausibility filter. A
      raise stops the update where it happened. */
  function StageStep(v: StageView, ocr: StageOcr, toFloat: FloatParser): (r: Stepped)
    ensures v.altitude < AltitudeCeiling ==> r.view.altitude < AltitudeCeiling
  {
    var texts := v.(speedText := Recognized(v.speedText, ocr.speed),
                    altitudeText := Recognized(v.altitudeText, ocr.altitude));
    match NextReading(v.tempSpeed, texts.speedText, toFloat)
    case RaisesValueError => Stepped(texts, false)
    case Returns(speed) =>
      match NextReading(v.tempAltitude, texts.altitudeText, toFloat)
      case RaisesValueError => Stepped(texts.(tempSpeed := speed), false)
      case Returns(altitude) =>
        Stepped(texts.(tempSpeed := speed, tempAltitude := altitude,
                       speed := speed, altitude := FilterAltitude(v.altitude, altitude)), true)
  }

  /** What one stage update does: both boxes keep or replace their text as a
      box does; the speed reading is taken first and the altitude reading
      second, each as NextReading gives it; the update completes exactly when
      neither raises, and then the speed is the reading and the altitude the
      filtered reading; a raise keeps every reading not yet taken and leaves
      speed and altitude unchanged; an all-`-` text keeps its reading. */
  lemma StageStepSpec(v: StageView, ocr: StageOcr, toFloat: FloatParser)
    ensures var r := StageStep(v, ocr, toFloat);
            var speedReading := NextReading(v.tempSpeed, r.view.speedText, toFloat);
            var altitudeReading := NextReading(v.tempAltitude, r.view.altitudeText, toFloat);
            r.view.speedText == Recognized(v.speedText, ocr.speed) &&
            r.view.altitudeText == Recognized(v.altitudeText, ocr.altitude) &&
            (r.ok <==> speedReading.Returns? && altitudeReading.Returns?) &&
            (speedReading.Returns? ==> r.view.tempSpeed == speedReading.value) &&
            (speedReading.RaisesValueError? ==> r.view.tempSpeed == v.tempSpeed && r.view.tempAltitude == v.tempAltitude) &&
            (speedReading.Returns? && altitudeReading.Returns? ==> r.view.tempAltitude == altitudeReading.value) &&
            (altitudeReading.RaisesValueError? ==> r.view.tempAltitude == v.tempAltitude) &&
            (r.ok ==> r.view.speed == r.view.tempSpeed) &&
            (r.ok ==> r.view.altitude == FilterAltitude(v.altitude, r.view.tempAltitude)) &&
            (!r.ok ==> r.view.speed == v.speed && r.view.altitude == v.altitude) &&
            ((forall i :: 0 <= i < |r.view.speedText| ==> r.view.speedText[i] == '-') ==>
               r.view.tempSpeed == v.tempSpeed) &&
            ((forall i :: 0 <= i < |r.view.altitudeText| ==> r.view.altitudeText[i] == '-') ==>
               r.view.tempAltitude == v.tempAltitude)
  {
  }

  /** The stage part of Rocket.update on values, for one stage or two. Stage 1
      updates first; if it did not raise and there is a second stage, stage 2's
      altitude box is given stage 1's altitude text and stage 2 updates. The
      flag says whether no float() call raised. */
  function StagesStep(views: seq<StageView>, capture: FrameOcr, toFloat: FloatParser): (r: (seq<StageView>, bool))
    requires 1 <= |views| <= 2
    ensures |r.0| == |views|
  {
    var first := StageStep(views[0], capture.stage1, toFloat);
    if |views| == 1 || !first.ok then
      ([first.view] + views[1..], first.ok)
    else
      var second := StageStep(views[1].(altitudeText := first.view.altitudeText), capture.stage2, toFloat);
      ([first.view, second.view], second.ok)
  }

  /** What one frame does to the stages: stage 1 steps as StageStep says; the
      flag is set only when stage 1 did not raise; stage 1's altitude text is
      only a fallback for stage 2, whose own OCR reading wins; a stage 1 raise
      leaves stage 2 untouched; speed is never filtered; no stage's altitude
      leaves the ceiling. */
  lemma StagesStepSpec(views: seq<StageView>, capture: FrameOcr, toFloat: FloatParser)
    requires 1 <= |views| <= 2
    ensures var r := StagesStep(views, capture, toFloat);
            var first := StageStep(views[0], capture.stage1, toFloat);
            r.0[0] == first.view &&
            (r.1 ==> first.ok) &&
            (|views| == 1 ==> r.1 == first.ok) &&
            (|views| == 2 && first.ok ==>
               var second := StageStep(views[1].(altitudeText := first.view.altitudeText), capture.stage2, toFloat);
               r.0[1] == second.view && r.1 == second.ok) &&
            (|views| == 2 && first.ok ==>
               r.0[1].altitudeText == (if |capture.stage2.altitude| > 0 then capture.stage2.altitude[0]
                                       else first.view.altitudeText)) &&
            (|views| == 2 && !first.ok ==> r.0[1] == views[1] && !r.1) &&
            (r.1 ==> forall i :: 0 <= i < |views| ==> r.0[i].speed == r.0[i].tempSpeed) &&
            (forall i :: 0 <= i < |views| && views[i].altitude < AltitudeCeiling ==> r.0[i].altitude < AltitudeCeiling)
  {
    var first := StageStep(views[0], capture.stage1, toFloat);
    StageStepSpec(views[0], capture.stage1, toFloat);
    if |views| == 2 && first.ok {
      StageStepSpec(views[1].(altitudeText := first.view.altitudeText), capture.stage2, toFloat);
    }
  }

  // ---------------------------------------------------------------------------
  // The rocket's series, as values: the specification of Rocket.Record
  // ---------------------------------------------------------------------------

  /** The rocket fields that Rocket.update counts with and appends to. */
  datatype SeriesView = SeriesView(
    intTime: int, lastTime: int, frame: nat,
    timeList: seq<real>, altitude: seq<seq<real>>, speed: seq<seq<real>>)

  /** Recording one sample once the clock has parsed to `second`: the frame
      counter steps on or restarts, and every series of a present stage gets
      exactly one entry, the second stage's lists staying as they were on a
      single-stage rocket. */
  function RecordSample(s: SeriesView, second: int, stages: seq<StageView>): (r: SeriesView)
    requires |s.altitude| == 2 && |s.speed| == 2 && 1 <= |stages| <= 2
    ensures r.intTime == second && r.lastTime == second
    ensures r.frame == (if second == s.lastTime then s.frame + 1 else 0)
    ensures r.timeList == s.timeList + [Stamp(second, r.frame)]
    ensures |r.altitude| == 2 && |r.speed| == 2
    ensures forall k :: 0 <= k < |stages| ==>
              r.altitude[k] == s.altitude[k] + [stages[k].altitude] && r.speed[k] == s.speed[k] + [stages[k].speed]
    ensures |stages| == 1 ==> r.altitude[1] == s.altitude[1] && r.speed[1] == s.speed[1]
  {
    var frame := NextFrame(s.lastTime, s.frame, second);
    SeriesView(second, second, frame, s.timeList + [Stamp(second, frame)],
               if |stages| == 2 then [s.altitude[0] + [stages[0].altitude], s.altitude[1] + [stages[1].altitude]]
               else [s.altitude[0] + [stages[0].altitude], s.altitude[1]],
               if |stages| == 2 then [s.speed[0] + [stages[0].speed], s.speed[1] + [stages[1].speed]]
               else [s.speed[0] + [stages[0].speed], s.speed[1]])
  }

  /** The clock part of the rocket invariant. `history` is the initial
      last_time of 0 followed by the parsed second of every recorded sample:
      last_time equals int_time, which is the latest second, and the frame
      counter and every recorded time are those the run-length definition
      gives over the history. */
  ghost predicate ClockInvariant(s: SeriesView, history: seq<int>) {
    |history| == |s.timeList| + 1 &&
    s.lastTime == s.intTime && s.intTime == history[|s.timeList|] &&
    s.frame == Streak(history, |s.timeList|) &&
    forall i :: 0 <= i < |s.timeList| ==> s.timeList[i] == Stamp(history[i + 1], Streak(history, i + 1))
  }

  /** The series part of the rocket invariant: one list per stage slot, each
      with one entry per recorded sample (the second slot stays empty on a
      single-stage rocket), and every recorded altitude below the ceiling. */
  ghost predicate ListsInvariant(s: SeriesView, stageCount: nat) {
    var n := |s.timeList|;
    |s.altitude| == 2 && |s.speed| == 2 &&
    |s.altitude[0]| == n && |s.speed[0]| == n &&
    (if stageCount == 2 then |s.altitude[1]| == n && |s.speed[1]| == n
     else s.altitude[1] == [] && s.speed[1] == []) &&
    forall k, i :: 0 <= k < 2 && 0 <= i < |s.altitude[k]| ==> s.altitude[k][i] < AltitudeCeiling
  }

  /** Recording a sample keeps the clock invariant. */
  lemma RecordKeepsClockInvariant(s: SeriesView, history: seq<int>, second: int, stages: seq<StageView>)
    requires |s.altitude| == 2 && |s.speed| == 2 && 1 <= |stages| <= 2
    requires ClockInvariant(s, history)
    ensures ClockInvariant(RecordSample(s, second, stages), history + [second])
  {
    var r := RecordSample(s, second, stages);
    var newHistory := history + [second];
    StreakOfNext(history, second);
    forall i | 0 <= i < |r.timeList|
      ensures r.timeList[i] == Stamp(newHistory[i + 1], Streak(newHistory, i + 1))
    {
      if i < |s.timeList| {
        assert r.timeList[i] == s.timeList[i] && newHistory[i + 1] == history[i + 1];
        StreakOfExtension(history, second, i + 1);
      } else {
        assert newHistory[i + 1] == second;
      }
    }
  }

  /** Recording a sample of stages whose altitudes are below the ceiling keeps
      the lists parallel and every recorded altitude below the ceiling. */
  lemma RecordKeepsListsInvariant(s: SeriesView, second: int, stages: seq<StageView>)
    requires 1 <= |stages| <= 2 && ListsInvariant(s, |stages|)
    requires forall k :: 0 <= k < |stages| ==> stages[k].altitude < AltitudeCeiling
    ensures ListsInvariant(RecordSample(s, second, stages), |stages|)
  {
  }

  // ---------------------------------------------------------------------------
  // A whole update, as values: the specification of Rocket.Update
  // ---------------------------------------------------------------------------

  /** What Rocket.update reads and writes: the clock text, the stages and the series. */
  datatype RocketView = RocketView(timeText: string, stages: seq<StageView>, series: SeriesView)

  /** A view a rocket can be in: one or two stages and one list per stage slot. */
  predicate WellShaped(v: RocketView) {
    1 <= |v.stages| <= 2 && |v.series.altitude| == 2 && |v.series.speed| == 2
  }

  /** The clock box and the stages read a frame; the flag says whether no
      float() call raised. */
  function ReadStep(v: RocketView, capture: FrameOcr, toFloat: FloatParser): (r: (RocketView, bool))
    requires WellShaped(v)
    ensures WellShaped(r.0)
  {
    var (views, ok) := StagesStep(v.stages, capture, toFloat);
    (v.(timeText := Recognized(v.timeText, capture.time), stages := views), ok)
  }

  /** The clock text has its dots rewritten to colons and is parsed; when
      int() does not raise, one sample is recorded. */
  function ClockStep(v: RocketView): (r: (RocketView, bool))
    requires WellShaped(v)
    ensures WellShaped(r.0)
  {
    var text := Replace(v.timeText, '.', ':');
    match TimeChange(v.series.intTime, text)
    case RaisesValueError => (v.(timeText := text), false)
    case Returns(second) => (v.(timeText := text, series := RecordSample(v.series, second, v.stages)), true)
  }

  /** Rocket.update on values: read the frame, then, unless a float() raised,
      parse the clock and record a sample. */
  function RocketStep(v: RocketView, capture: FrameOcr, toFloat: FloatParser): (r: (RocketView, bool))
    requires WellShaped(v)
    ensures WellShaped(r.0)
    ensures |r.0.series.timeList| == |v.series.timeList| + (if r.1 then 1 else 0)
  {
    var (read, ok) := ReadStep(v, capture, toFloat);
    if ok then ClockStep(read) else (read, false)
  }

  /** What one update does: the stages step as StagesStep says; the clock box
      keeps or replaces its text as a text box does, and has its dots rewritten
      only when the stages did not raise; the update completes exactly when
      neither float() nor int() raised, and then records one sample at the
      parsed second; otherwise the series are untouched. */
  lemma RocketStepSpec(v: RocketView, capture: FrameOcr, toFloat: FloatParser)
    requires WellShaped(v)
    ensures var r := RocketStep(v, capture, toFloat);
            var stepped := StagesStep(v.stages, capture, toFloat);
            var detected := Recognized(v.timeText, capture.time);
            var parsed := TimeChange(v.series.intTime, r.0.timeText);
            r.0.stages == stepped.0 &&
            r.0.timeText == (if stepped.1 then Replace(detected, '.', ':') else detected) &&
            (r.1 <==> stepped.1 && parsed.Returns?) &&
            r.0.series == (if r.1 then RecordSample(v.series, parsed.value, stepped.0) else v.series)
  {
  }

  // ---------------------------------------------------------------------------
  // The objects
  // ---------------------------------------------------------------------------

  /** A screen region read by OCR; it keeps its last reading when a pass finds
      nothing. The region's coordinates only feed the OCR and are not kept. */
  class TextBox {
    var text: string

    constructor ()
      ensures text == ""
    {
      text := "";
    }

    method Detect(result: OcrResult)
      modifies this
      ensures |result| == 0 ==> text == old(text)
      ensures |result| > 0 ==> text == result[0]
    {
      if |result| > 0 {
        text := result[0];
      }
    }
  }

  class Stage {
    const stageNum: int
    const speedBox: TextBox
    const altitudeBox: TextBox
    var speed: real
    var altitude: real
    var tempSpeed: real
    var tempAltitude: real

    /** The two boxes are distinct and the accepted altitude stays under the ceiling. */
    ghost predicate Valid()
      reads this
    {
      speedBox != altitudeBox && altitude < AltitudeCeiling
    }

    function View(): StageView
      reads this, speedBox, altitudeBox
    {
      StageView(speedBox.text, altitudeBox.text, tempSpeed, tempAltitude, speed, altitude)
    }

    constructor (stageNum: int)
      ensures Valid() && fresh(speedBox) && fresh(altitudeBox)
      ensures this.stageNum == stageNum
      ensures View() == StageView("0", "0", 0.0, 0.0, 0.0, 0.0)
    {
      this.stageNum := stageNum;
      speed, altitude := 0.0, 0.0;
      var s := new TextBox();
      var a := new TextBox();
      s.text, a.text := "0", "0";
      speedBox, altitudeBox := s, a;
      tempSpeed, tempAltitude := 0.0, 0.0;
    }

    method Update(ocr: StageOcr, toFloat: FloatParser) returns (ok: bool)
      requires Valid()
      modifies this, speedBox, altitudeBox
      ensures Valid()
      ensures Stepped(View(), ok) == StageStep(old(View()), ocr, toFloat)
      ensures ok ==> speed == tempSpeed && altitude == FilterAltitude(old(altitude), tempAltitude)
    {
      speedBox.Detect(ocr.speed);
      altitudeBox.Detect(ocr.altitude);
      var speedReading := NextReading(tempSpeed, speedBox.text, toFloat);
      if speedReading.RaisesValueError? {
        return false;
      }
      tempSpeed := speedReading.value;
      var altitudeReading := NextReading(tempAltitude, altitudeBox.text, toFloat);
      if altitudeReading.RaisesValueError? {
        return false;
      }
      tempAltitude := altitudeReading.value;
      speed := tempSpeed;
      if Plausible(altitude, tempAltitude) {
        altitude := tempAltitude;
      }
      ok := true;
    }
  }

  /** A rocket on screen: its clock box, one or two stages, and the series
      that grow by one sample per successfully processed frame. */
  class Rocket {
    const name: string
    const isStage2: bool
    const time: TextBox
    const stages: seq<Stage>
    var intTime: int
    var lastTime: int
    var frame: nat
    var timeList: seq<real>
    var altitude: seq<seq<real>>
    var speed: seq<seq<real>>
    /** The initial last_time of 0, then the parsed second of every recorded
        sample, oldest first. */
    ghost var history: seq<int>

    /** The objects of the stages: each stage and its two boxes. */
    ghost function StageObjects(): set<object> {
      if |stages| == 0 then {}
      else
        {stages[0], stages[0].speedBox, stages[0].altitudeBox} +
        (if |stages| == 1 then {} else {stages[1], stages[1].speedBox, stages[1].altitudeBox})
    }

    /** One stage, or two when the rocket has a second stage, and no text box
        shared between the clock and the stages. */
    ghost predicate Wired() {
      |stages| == (if isStage2 then 2 else 1) &&
      stages[0].speedBox != time && stages[0].altitudeBox != time &&
      (isStage2 ==> stages[0] != stages[1] &&
                    stages[1].speedBox != time && stages[1].altitudeBox != time &&
                    {stages[0].speedBox, stages[0].altitudeBox} !! {stages[1].speedBox, stages[1].altitudeBox})
    }

    function Series(): SeriesView
      reads this
    {
      SeriesView(intTime, lastTime, frame, timeList, altitude, speed)
    }

    ghost predicate Valid()
      reads this, StageObjects()
    {
      Wired() && stages[0].Valid() && (isStage2 ==> stages[1].Valid()) &&
      ClockInvariant(Series(), history) && ListsInvariant(Series(), |stages|)
    }

    /** The rocket's state as Rocket.update sees it. */
    ghost function View(): (v: RocketView)
      requires Wired()
      reads this, time, StageObjects()
    {
      RocketView(time.text, StageViews(), Series())
    }

    ghost function StageViews(): (views: seq<StageView>)
      requires Wired()
      reads StageObjects()
      ensures |views| == |stages|
    {
      if isStage2 then [stages[0].View(), stages[1].View()] else [stages[0].View()]
    }

    constructor (name: string, isStage2: bool)
      ensures Valid() && fresh(StageObjects() + {time})
      ensures this.name == name && this.isStage2 == isStage2
      ensures time.text == "" && intTime == 0 && lastTime == 0 && frame == 0
      ensures timeList == [] && altitude == [[], []] && speed == [[], []]
      ensures forall i :: 0 <= i < |stages| ==>
                stages[i].stageNum == i + 1 && stages[i].View() == StageView("0", "0", 0.0, 0.0, 0.0, 0.0)
    {
      this.name := name;
      this.isStage2 := isStage2;
      intTime := 0;
      var t := new TextBox();
      time := t;
      var first := new Stage(1);
      if isStage2 {
        var second := new Stage(2);
        stages := [first, second];
      } else {
        stages := [first];
      }
      timeList, altitude, speed := [], [[], []], [[], []];
      lastTime, frame := 0, 0;
      history := [0];
    }

    /** Lines 98-101 of Rocket.update: the stages read the frame, stage 2 after
        taking stage 1's altitude text. */
    method UpdateStages(capture: FrameOcr, toFloat: FloatParser) returns (ok: bool)
      requires Valid()
      modifies StageObjects()
      ensures Valid()
      ensures (StageViews(), ok) == StagesStep(old(StageViews()), capture, toFloat)
    {
      ghost var views := StageViews();
      ok := stages[0].Update(capture.stage1, toFloat);
      ghost var first := StageStep(views[0], capture.stage1, toFloat);
      assert stages[0].View() == first.view && ok == first.ok;
      if isStage2 {
        assert stages[1].View() == views[1];
        if ok {
          stages[1].altitudeBox.text := stages[0].altitudeBox.text;
          assert stages[1].View() == views[1].(altitudeText := first.view.altitudeText);
          ok := stages[1].Update(capture.stage2, toFloat);
        } else {
          assert [first.view] + views[1..] == [first.view, views[1]];
        }
      } else {
        assert [first.view] + views[1..] == [first.view];
      }
    }

    /** Rocket.update for one captured frame. It returns false where Python
        would raise ValueError (float() on a stage text, int() on a clock
        slot); the state is then as far as the update had got. */
    method Update(capture: FrameOcr, toFloat: FloatParser) returns (ok: bool)
      requires Valid()
      modifies this, time, StageObjects()
      ensures Valid()
      ensures (View(), ok) == RocketStep(old(View()), capture, toFloat)
    {
      ok := ReadFrame(capture, toFloat);
      if ok {
        ok := UpdateClock();
      }
    }

    /** Lines 97-101 of Rocket.update: the clock box and the stages read the frame. */
    method ReadFrame(capture: FrameOcr, toFloat: FloatParser) returns (ok: bool)
      requires Valid()
      modifies time, StageObjects()
      ensures Valid()
      ensures (View(), ok) == ReadStep(old(View()), capture, toFloat)
    {
      ghost var before := View();
      time.Detect(capture.time);
      ghost var detected := time.text;
      ok := UpdateStages(capture, toFloat);
      assert time.text == detected && Series() == before.series;
    }

    /** Lines 102-117 of Rocket.update, once the stages have read the frame:
        the clock text has its dots rewritten to colons and is parsed, and on
        success one sample is recorded. */
    method UpdateClock() returns (ok: bool)
      requires Valid()
      modifies this, time
      ensures Valid()
      ensures (View(), ok) == ClockStep(old(View()))
    {
      time.text := Replace(time.text, '.', ':');
      var parsed := TimeChange(intTime, time.text);
      if parsed.RaisesValueError? {
        return false;
      }
      Record(parsed.value);
      ok := true;
    }

    /** Lines 104-117 of Rocket.update, once the clock has parsed to `second`:
        the frame counter, one sample appended to every series, and last_time. */
    method Record(second: int)
      requires Valid()
      modifies this
      ensures Valid()
      ensures Series() == RecordSample(old(Series()), second, StageViews())
    {
      ghost var target := RecordSample(Series(), second, StageViews());
      RecordKeepsClockInvariant(Series(), history, second, StageViews());
      RecordKeepsListsInvariant(Series(), second, StageViews());
      intTime := second;
      if intTime == lastTime {
        frame := frame + 1;
      } else {
        frame := 0;
      }
      timeList := timeList + [Stamp(intTime, frame)];
      history := history + [intTime];
      if isStage2 {
        altitude := [altitude[0] + [stages[0].altitude], altitude[1] + [stages[1].altitude]];
        speed := [speed[0] + [stages[0].speed], speed[1] + [stages[1].speed]];
      } else {
        altitude := [altitude[0] + [stages[0].altitude], altitude[1]];
        speed := [speed[0] + [stages[0].speed], speed[1]];
      }
      lastTime := intTime;
      assert Series() == target;
    }
  }
}
