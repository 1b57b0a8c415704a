/** The few Python builtins the telemetry filter leans on: the outcome of a call
    that may raise ValueError, the two forms of str.replace it uses, and int()
    applied to a two-character slice of a clock string. */
module Builtins {

  /** What a call to int() or float() gives back: a value, or a raised ValueError. */
  datatype Outcome<+T> = Returns(value: T) | RaisesValueError

  predicate IsDigit(c: char) {
    '0' <= c <= '9'
  }

  function DigitValue(c: char): (d: nat)
    requires IsDigit(c)
    ensures d <= 9
  {
    (c as int) - ('0' as int)
  }

  /** The characters int() strips from both ends of an ASCII argument: space,
      tab, line feed, vertical tab, form feed and carriage return. (The
      separators 28-31, for which str.isspace() also holds, are not stripped.) */
  predicate IsSpace(c: char) {
    c == ' ' || 9 <= c as int <= 13
  }

  /** int(s) for a two-character s: two digits, a sign and a digit, or one digit
      padded with whitespace on either side; anything else raises. */
  function IntOfSlot(s: string): (r: Outcome<int>)
    requires |s| == 2
    ensures IsDigit(s[0]) && IsDigit(s[1]) ==> r == Returns(10 * DigitValue(s[0]) + DigitValue(s[1]))
    ensures IsDigit(s[1]) && (s[0] == '+' || IsSpace(s[0])) ==> r == Returns(DigitValue(s[1]))
    ensures IsDigit(s[1]) && s[0] == '-' ==> r == Returns(-(DigitValue(s[1]) as int))
    ensures IsDigit(s[0]) && IsSpace(s[1]) ==> r == Returns(DigitValue(s[0]))
    ensures r.Returns? <==>
              (IsDigit(s[0]) || IsDigit(s[1])) &&
              (IsDigit(s[0]) || s[0] == '+' || s[0] == '-' || IsSpace(s[0])) &&
              (IsDigit(s[1]) || IsSpace(s[1]))
    ensures r.Returns? ==> -9 <= r.value <= 99
    ensures r.Returns? && r.value < 0 ==> s[0] == '-'
  {
    if IsDigit(s[0]) && IsDigit(s[1]) then
      Returns(10 * DigitValue(s[0]) + DigitValue(s[1]))
    else if IsDigit(s[1]) && (s[0] == '+' || IsSpace(s[0])) then
      Returns(DigitValue(s[1]))
    else if IsDigit(s[1]) && s[0] == '-' then
      var d: int := DigitValue(s[1]);
      Returns(-d)
    else if IsDigit(s[0]) && IsSpace(s[1]) then
      Returns(DigitValue(s[0]))
    else
      RaisesValueError
  }

  /** s.replace(c, ""): every occurrence of c deleted, every other character kept. */
  function Remove(s: string, c: char): (r: string)
    ensures c !in r
    ensures multiset(r) == multiset(s)[c := 0]
    ensures r == [] <==> forall i :: 0 <= i < |s| ==> s[i] == c
  {
    if s == [] then []
    else
      assert s == [s[0]] + s[1..];
      if s[0] == c then Remove(s[1..], c) else [s[0]] + Remove(s[1..], c)
  }

  /** Deleting c from a concatenation deletes it from each part: the characters
      that survive keep their order. */
  lemma {:induction false} RemoveAppend(a: string, b: string, c: char)
    ensures Remove(a + b, c) == Remove(a, c) + Remove(b, c)
  {
    if a == [] {
      assert a + b == b;
    } else {
      assert (a + b)[0] == a[0] && (a + b)[1..] == a[1..] + b;
      RemoveAppend(a[1..], b, c);
    }
  }

  /** s.replace(x, y) for single characters x and y. */
  function Replace(s: string, x: char, y: char): (r: string)
    ensures |r| == |s|
    ensures forall i :: 0 <= i < |s| ==> r[i] == (if s[i] == x then y else s[i])
  {
    if s == [] then [] else [if s[0] == x then y else s[0]] + Replace(s[1..], x, y)
  }
}
