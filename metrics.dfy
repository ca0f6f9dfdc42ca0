/**
 * The derived numbers the views compute from raw records: days left until an end date,
 * the overdue flag, and the rounded percentages of the report form. Time is an integer
 * number of milliseconds and "now" is an input.
 */
module Metrics {
  import opened Wrappers

  /** `1000 * 3600 * 24`. */
  const MillisPerDay: int := 86_400_000

  /** The status that exempts a project from being overdue. */
  const Completed := "Completed"

  /**
   * `calculateRemainingDays`: `Math.ceil((end - now) / MillisPerDay)` when that is positive,
   * else 0. The result is the number of whole or partial days between now and the end.
   */
  function RemainingDays(end: int, now: int): (r: nat)
    ensures end <= now ==> r == 0
    ensures end > now ==> r >= 1 && (r - 1) * MillisPerDay < end - now <= r * MillisPerDay
  {
    var days := -((now - end) / MillisPerDay);
    if days > 0 then days else 0
  }

  /** The same for an end date that may not parse: `Math.ceil(NaN) > 0` is false, giving 0. */
  function RemainingDaysOf(end: Option<int>, now: int): (r: nat)
    ensures end.None? ==> r == 0
    ensures end.Some? ==> r == RemainingDays(end.value, now)
  {
    match end
    case None => 0
    case Some(e) => RemainingDays(e, now)
  }

  /**
   * The flag the project list stores as `isCompleted` although it means "overdue":
   * the end date lies before now and the project is not completed. An unparsable end
   * date compares false. An overdue project has no days left.
   */
  function IsOverdue(end: Option<int>, status: string, now: int): (r: bool)
    ensures r <==> end.Some? && end.value < now && status != Completed
    ensures r ==> RemainingDaysOf(end, now) == 0
  {
    match end
    case None => false
    case Some(e) => e < now && status != Completed
  }

  /**
   * `whole > 0 ? Math.round((part / whole) * 100) : 0` in exact arithmetic, where
   * `Math.round(x)` is `floor(x + 1/2)`: the integer nearest to 100·part/whole, halves
   * rounded up.
   */
  function Percent(part: int, whole: int): (r: int)
    ensures whole <= 0 ==> r == 0
    ensures whole > 0 ==> 2 * whole * r <= 200 * part + whole < 2 * whole * (r + 1)
  {
    if whole > 0 then
      var r := (200 * part + whole) / (2 * whole);
      assert 200 * part + whole == 2 * whole * r + (200 * part + whole) % (2 * whole);
      r
    else 0
  }

  /** Multiplying by a natural number keeps order. */
  lemma {:induction false} MulMonotone(q: nat, a: int, b: int)
    requires a <= b
    ensures q * a <= q * b
  {
    if q > 0 {
      MulMonotone(q - 1, a, b);
      assert q * a == (q - 1) * a + a && q * b == (q - 1) * b + b;
    }
  }

  /** A part between 0 and the whole gives a percentage between 0 and 100. */
  lemma PercentBounds(part: int, whole: int)
    requires 0 <= part <= whole && whole > 0
    ensures 0 <= Percent(part, whole) <= 100
  {
    var r := Percent(part, whole);
    // A negative r would make 2 * whole * (r + 1) at most 0, below 200 * part + whole.
    var low := if r + 1 <= 0 then r + 1 else 0;
    MulMonotone(2 * whole, low, 0);
    // An r above 100 would make 2 * whole * r at least 202 * whole, above 200 * part + whole.
    var high := if r >= 101 then r else 101;
    MulMonotone(2 * whole, 101, high);
  }
}
