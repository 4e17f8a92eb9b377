/**
 * The soft-failure dampener shared by the report fetcher and the bookmark
 * synchronizer: a process-wide counter of consecutive soft failures
 * (`_gFailures`). A soft failure is logged quietly until more than
 * `Threshold` of them have happened in a row; then it is logged as a warning
 * and the count starts again. Any healthy reply resets the count.
 */
module Dampener {

  /** Soft failures in a row that are logged quietly before one warning is logged. */
  const Threshold: nat := 5

  /** What one remote call does to the counter. */
  datatype Effect =
    | SoftFailure  // `_warn_user` is called
    | Healthy      // `_access_ok` is called
    | NoEffect     // the counter is not touched

  /** One `_warn_user` call on a counter: the new counter, and whether the warning level was used. */
  function WarnStep(failures: int): (int, bool)
  {
    var bumped := failures + 1;
    if bumped > Threshold then (0, true) else (bumped, false)
  }

  /** The counter after one remote call with effect `e`. */
  function After(failures: int, e: Effect): int
  {
    match e
    case SoftFailure => WarnStep(failures).0
    case Healthy => 0
    case NoEffect => failures
  }

  /** The range the counter stays in. */
  predicate InRange(failures: int)
  {
    0 <= failures <= Threshold
  }

  /**
   * `_warn_user` keeps the counter in [0, 5]: it goes up by exactly one unless
   * that would pass the threshold, and then it warns and goes back to 0.
   */
  lemma WarnStepInRange(failures: int)
    requires InRange(failures)
    ensures InRange(WarnStep(failures).0)
    ensures WarnStep(failures).1 <==> failures == Threshold
    ensures WarnStep(failures).1 ==> WarnStep(failures).0 == 0
    ensures !WarnStep(failures).1 ==> WarnStep(failures).0 == failures + 1
  {
  }

  /** No remote call takes the counter out of [0, 5]. */
  lemma AfterInRange(failures: int, e: Effect)
    requires InRange(failures)
    ensures InRange(After(failures, e))
  {
  }

  /**
   * The counter and the number of warnings after `n` soft failures in a row
   * starting from the counter value `failures`.
   */
  function SoftFailures(failures: int, n: nat): (int, nat)
  {
    if n == 0 then (failures, 0)
    else
      var (c, warnings) := SoftFailures(failures, n - 1);
      var (c', warned) := WarnStep(c);
      (c', if warned then warnings + 1 else warnings)
  }

  /**
   * From a reset counter, exactly every sixth soft failure in a row is logged
   * as a warning, and the counter holds the failures since the last warning.
   */
  lemma {:induction false} WarningEverySixth(n: nat)
    ensures SoftFailures(0, n) == (n % (Threshold + 1), n / (Threshold + 1))
  {
    if n > 0 {
      WarningEverySixth(n - 1);
      var m := n - 1;
      assert m == (m / 6) * 6 + m % 6;
      if m % 6 == 5 {
        assert n % 6 == 0 && n / 6 == m / 6 + 1;
      } else {
        assert n % 6 == m % 6 + 1 && n / 6 == m / 6;
      }
    }
  }

  /** The counter `_gFailures`, as an object with the two functions that change it. */
  class FailureDampener {
    var failures: int

    ghost predicate Valid()
      reads this
    {
      InRange(failures)
    }

    /** The module starts with `_gFailures = 0`. */
    constructor ()
      ensures failures == 0 && Valid()
    {
      failures := 0;
    }

    /** `_warn_user(msg)`; `warned` says whether `msg` went out at warning level. */
    method WarnUser() returns (warned: bool)
      modifies this
      ensures (failures, warned) == WarnStep(old(failures))
      ensures old(Valid()) ==> Valid()
    {
      failures := failures + 1;
      if failures > Threshold {
        warned := true;
        failures := 0;
      } else {
        warned := false;
      }
    }

    /** `_access_ok()` */
    method AccessOk()
      modifies this
      ensures failures == 0 && Valid()
    {
      failures := 0;
    }

    /** Applies the effect of one remote call, by calling `_warn_user` or `_access_ok`. */
    method Record(e: Effect)
      modifies this
      ensures failures == After(old(failures), e)
      ensures old(Valid()) ==> Valid()
    {
      match e
      case SoftFailure =>
        var _ := WarnUser();
      case Healthy =>
        AccessOk();
      case NoEffect =>
    }
  }
}
