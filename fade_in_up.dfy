/** The stagger timing of the fade-in-up animation (src/lib/animations/fade-in-up.ts): the
    n-th element of a staggered list starts `n` steps late, a step lasting 100, 50 or 25 ms
    by speed; the delay is handed to CSS as a string such as `150ms`. */
module FadeInUp {
  import opened ApiResult
  import opened Text

  datatype StaggerSpeed = Slow | Medium | Fast

  /** `animation.staggerSpeeds[speed]`, in milliseconds. */
  function StaggerStep(speed: StaggerSpeed): (ms: nat)
    ensures ms > 0
  {
    match speed
    case Slow => 100
    case Medium => 50
    case Fast => 25
  }

  /** The speed used when none is given. */
  const DefaultSpeed := Medium

  /** The delay in milliseconds, `index * staggerSpeeds[speed]`. */
  function DelayMs(index: int, speed: Option<StaggerSpeed>): int {
    index * StaggerStep(speed.GetOr(DefaultSpeed))
  }

  /** `getStaggerDelay(index, speed)`: the delay's decimal numeral followed by `ms`. */
  function GetStaggerDelay(index: int, speed: Option<StaggerSpeed>): (delay: string)
    ensures |delay| >= 3 && delay[|delay| - 2..] == "ms"
  {
    IntToString(DelayMs(index, speed)) + "ms"
  }

  /** Reading the number in front of `ms` gives back the delay: the string denotes
      `index * step` milliseconds. */
  lemma DelayReadsBack(index: int, speed: Option<StaggerSpeed>)
    ensures var d := GetStaggerDelay(index, speed);
      ToNumber(d[..|d| - 2]) == Finite(index * StaggerStep(speed.GetOr(Medium)))
  {
    var d := GetStaggerDelay(index, speed);
    assert d[..|d| - 2] == IntToString(DelayMs(index, speed));
    NumberOfIntToString(DelayMs(index, speed));
  }

  /** Omitting the speed is asking for the medium speed. */
  lemma DefaultIsMedium(index: int)
    ensures GetStaggerDelay(index, None) == GetStaggerDelay(index, Some(Medium))
  {
  }

  /** The first element never waits, whatever the speed. */
  lemma FirstElementHasNoDelay(speed: Option<StaggerSpeed>)
    ensures GetStaggerDelay(0, speed) == "0ms"
  {
  }

  /** Later elements never start earlier, and at the same index a slower speed never waits
      less than a faster one. */
  lemma DelayMonotone(i: int, j: int, speed: Option<StaggerSpeed>)
    requires 0 <= i <= j
    ensures DelayMs(i, speed) <= DelayMs(j, speed)
    ensures DelayMs(i, Some(Fast)) <= DelayMs(i, Some(Medium)) <= DelayMs(i, Some(Slow))
  {
    var step := StaggerStep(speed.GetOr(DefaultSpeed));
    assert i * step <= j * step by {
      assert (j - i) * step >= 0;
    }
  }
}
