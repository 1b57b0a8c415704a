/** The mission clock shown on screen, read as a fixed-layout string
    `T-HH:MM:SS` (or `T+HH:MM:SS`) and turned into signed whole seconds. */
module Clock {
  import opened Builtins

  /** The only length time_change parses; any other length keeps the old value. */
  const ClockLength: nat := 10

  /** The largest magnitude a parsed clock can have: 99 hours, 99 minutes, 99 seconds. */
  const MaxClockSeconds: nat := 3600 * 99 + 60 * 99 + 99

  /** A clock string of the right length whose hour, minute and second slots
      (indices 2-3, 5-6 and 8-9) hold plain ASCII digits. */
  predicate DigitSlots(s: string) {
    |s| == ClockLength &&
    IsDigit(s[2]) && IsDigit(s[3]) && IsDigit(s[5]) && IsDigit(s[6]) && IsDigit(s[8]) && IsDigit(s[9])
  }

  /** The time a digit-slot clock string spells out, counted the way a reader
      would: hours, minutes and seconds as two-digit decimal numbers. */
  function ClockSeconds(s: string): nat
    requires DigitSlots(s)
  {
    var hours := 10 * DigitValue(s[2]) + DigitValue(s[3]);
    var minutes := 10 * DigitValue(s[5]) + DigitValue(s[6]);
    var seconds := 10 * DigitValue(s[8]) + DigitValue(s[9]);
    3600 * hours + 60 * minutes + seconds
  }

  /** time_change: a 10-character clock becomes signed seconds, negated when the
      character after the `T` is `-`; any other length returns the previous
      value; int() raising on a slot propagates as RaisesValueError. */
  function TimeChange(lastTime: int, strTime: string): (r: Outcome<int>)
    ensures |strTime| != ClockLength ==> r == Returns(lastTime)
    ensures |strTime| == ClockLength ==>
              (r.Returns? <==> IntOfSlot(strTime[2..4]).Returns? &&
                               IntOfSlot(strTime[5..7]).Returns? &&
                               IntOfSlot(strTime[8..10]).Returns?)
    ensures |strTime| == ClockLength && r.Returns? ==> -(MaxClockSeconds as int) <= r.value <= MaxClockSeconds
    ensures DigitSlots(strTime) ==>
              r.Returns? &&
              (if strTime[1] == '-' then r.value == -(ClockSeconds(strTime) as int) else r.value == ClockSeconds(strTime))
    ensures DigitSlots(strTime) ==> (r.value < 0 <==> strTime[1] == '-' && ClockSeconds(strTime) > 0)
  {
    if |strTime| == ClockLength then
      match (IntOfSlot(strTime[2..4]), IntOfSlot(strTime[5..7]), IntOfSlot(strTime[8..10]))
      case (Returns(hour), Returns(minute), Returns(second)) =>
        if strTime[1] == '-' then Returns(-(3600 * hour + 60 * minute + second))
        else Returns(3600 * hour + 60 * minute + second)
      case _ => RaisesValueError
    else
      Returns(lastTime)
  }

  /** For a 10-character clock the previous value plays no part, and neither do
      the characters at indices 0, 4 and 7 (the `T` and the two separators):
      only the sign position and the three slots matter. */
  lemma TimeChangeReadsOnlySignAndSlots(lastA: int, lastB: int, s: string, t: string)
    requires |s| == ClockLength && |t| == ClockLength
    requires forall i :: 0 <= i < ClockLength && i != 0 && i != 4 && i != 7 ==> s[i] == t[i]
    ensures TimeChange(lastA, s) == TimeChange(lastB, t)
  {
  }

  /** Rewriting `.` to `:` before parsing, as the caller does, never changes a
      digit-slot parse:
      the slots hold digits, so the rewrite only touches positions 0, 1, 4 and 7,
      and a `.` at position 1 was not a `-` either way. */
  lemma DotsToColonsKeepDigitClock(lastTime: int, s: string)
    requires DigitSlots(s)
    ensures DigitSlots(Replace(s, '.', ':'))
    ensures TimeChange(lastTime, Replace(s, '.', ':')) == TimeChange(lastTime, s)
  {
  }
}
