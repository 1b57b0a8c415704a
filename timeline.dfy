/** The time axis of the recorded series. The on-screen clock only shows whole
    seconds, so every sample carries a sub-second frame counter: it counts the
    frames in a row that parsed to the same second and restarts at 0 when the
    second changes; the sample's time is the second plus counter/60. */
module Timeline {

  /** The frame rate the sub-second counter assumes. */
  const FramesPerSecond: nat := 60

  /** The time value recorded for a sample: whole seconds plus frame/60. */
  function Stamp(second: int, frame: nat): (t: real)
    ensures second as real <= t
    ensures frame < FramesPerSecond ==> t < second as real + 1.0
    ensures frame == 0 ==> t == second as real
  {
    second as real + frame as real / FramesPerSecond as real
  }

  /** The counter after a frame whose clock parsed to `second`, given the second
      and the counter of the frame before. */
  function NextFrame(lastTime: int, frame: nat, second: int): (r: nat)
    ensures r == 0 <==> second != lastTime
    ensures second == lastTime ==> r == frame + 1
  {
    if second == lastTime then frame + 1 else 0
  }

  /** In a history of parsed seconds, the number of entries just before
      position j that hold the same second as position j. */
  function Streak(h: seq<int>, j: nat): (n: nat)
    requires j < |h|
    ensures n <= j
  {
    if j > 0 && h[j - 1] == h[j] then Streak(h, j - 1) + 1 else 0
  }

  /** Streak is the length of the run of equal seconds that ends at j, not
      counting j itself: every entry of the run equals h[j], and the entry just
      before the run (if there is one) differs. */
  lemma {:induction false} StreakIsMaximalRun(h: seq<int>, j: nat)
    requires j < |h|
    ensures forall k :: j - Streak(h, j) <= k <= j ==> h[k] == h[j]
    ensures Streak(h, j) < j ==> h[j - Streak(h, j) - 1] != h[j]
  {
    if j > 0 && h[j - 1] == h[j] {
      StreakIsMaximalRun(h, j - 1);
    }
  }

  /** Appending a later sample never changes the counter of an earlier one. */
  lemma {:induction false} StreakOfExtension(h: seq<int>, x: int, j: nat)
    requires j < |h|
    ensures Streak(h + [x], j) == Streak(h, j)
  {
    assert (h + [x])[j] == h[j];
    if j > 0 {
      assert (h + [x])[j - 1] == h[j - 1];
      StreakOfExtension(h, x, j - 1);
    }
  }

  /** The counter of a newly appended sample is NextFrame of the sample before
      it: the step-by-step update and the run-length definition agree. */
  lemma StreakOfNext(h: seq<int>, x: int)
    requires |h| > 0
    ensures Streak(h + [x], |h|) == NextFrame(h[|h| - 1], Streak(h, |h| - 1), x)
  {
    assert (h + [x])[|h|] == x && (h + [x])[|h| - 1] == h[|h| - 1];
    StreakOfExtension(h, x, |h| - 1);
  }

  /** While the clock holds the same second, consecutive samples are exactly one
      frame (1/60 s) apart. */
  lemma StampsAdvanceWithinSecond(h: seq<int>, j: nat)
    requires 0 < j < |h| && h[j - 1] == h[j]
    ensures Stamp(h[j], Streak(h, j)) == Stamp(h[j - 1], Streak(h, j - 1)) + 1.0 / FramesPerSecond as real
  {
  }
}
