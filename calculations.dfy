// Subscription arithmetic used across the views: price conversion by a
// currency rate, days until the next payment and the progress through the
// current billing period (both clamped), the billing-cycle label, and the
// overdue / upcoming tests. Dates enter as millisecond timestamps already
// parsed (None when the text is not a date); the clock is a parameter.

module Calculations {
  import opened Common
  import opened Schema

  const DayMs: int := 1000 * 60 * 60 * 24

  /** convertPrice: the price in the base currency; a rate that is not
      positive leaves it as it is. */
  function ConvertPrice(price: real, rate: real): (r: real)
    ensures rate <= 0.0 ==> r == price
    ensures rate > 0.0 ==> r * rate == price
  {
    if rate <= 0.0 then price else price / rate
  }

  /** `Math.ceil(a / b)` for a positive divisor. */
  function CeilDiv(a: int, b: int): (r: int)
    requires b > 0
    ensures (r - 1) * b < a <= r * b
  {
    -((-a) / b)
  }

  /** `Math.max(lo, Math.min(hi, x))`. */
  function Clamp(lo: int, hi: int, x: int): (r: int)
    requires lo <= hi
    ensures lo <= r <= hi
    ensures lo <= x <= hi ==> r == x
  {
    if x < lo then lo else if x > hi then hi else x
  }

  /** getDaysUntilPayment, both dates at local midnight; None (NaN) when the
      payment date does not parse. */
  function DaysUntilPayment(nextMs: Option<int>, todayMs: int): (r: Option<int>)
    ensures r.Some? <==> nextMs.Some?
    ensures r.Some? ==> 0 <= r.value <= 30
  {
    if nextMs.None? then None
    else Some(Clamp(0, 30, CeilDiv(nextMs.value - todayMs, DayMs)))
  }

  /** A payment today or in the past is 0 days away; one within 30 days is
      the exact number of days away; one later than that reads 30. */
  lemma DaysUntilSpec(nextMs: int, todayMs: int)
    ensures nextMs <= todayMs ==> DaysUntilPayment(Some(nextMs), todayMs) == Some(0)
    ensures forall n :: 0 <= n <= 30 && nextMs == todayMs + n * DayMs ==> DaysUntilPayment(Some(nextMs), todayMs) == Some(n)
    ensures nextMs > todayMs + 29 * DayMs ==> DaysUntilPayment(Some(nextMs), todayMs) == Some(30)
  {
    var c := CeilDiv(nextMs - todayMs, DayMs);
    forall n | 0 <= n <= 30 && nextMs == todayMs + n * DayMs
      ensures c == n
    {
      CeilDivExactDays(nextMs - todayMs, n);
    }
  }

  /** A whole number of days divides exactly. */
  lemma CeilDivExactDays(a: int, n: int)
    requires a == n * DayMs
    ensures CeilDiv(a, DayMs) == n
  {
    var c := CeilDiv(a, DayMs);
    assert (c - 1) * DayMs < n * DayMs <= c * DayMs;
  }

  /** The length in days of one billing period: days, weeks, months (30
      days) and years (365 days) times the frequency; 30 for an unknown
      cycle. */
  function CycleDays(cycle: int, frequency: int): int
  {
    if cycle == 1 then frequency
    else if cycle == 2 then 7 * frequency
    else if cycle == 3 then 30 * frequency
    else if cycle == 4 then 365 * frequency
    else 30
  }

  /** getSubscriptionProgress: the percentage of the current period elapsed,
      floored and clamped to [0, 100]; 100 when the period is empty or
      negative; None (NaN) when the payment date does not parse. */
  function SubscriptionProgress(cycle: int, frequency: int, nextMs: Option<int>, nowMs: int): (r: Option<int>)
    ensures r.Some? <==> nextMs.Some?
    ensures r.Some? ==> 0 <= r.value <= 100
    ensures nextMs.Some? && CycleDays(cycle, frequency) <= 0 ==> r == Some(100)
  {
    if nextMs.None? then None
    else
      var lastMs := nextMs.value - CycleDays(cycle, frequency) * DayMs;
      var totalMs := nextMs.value - lastMs;
      var elapsedMs := nowMs - lastMs;
      if totalMs <= 0 then Some(100)
      else Some(Clamp(0, 100, (elapsedMs * 100) / totalMs))
  }

  /** Progress starts at 0 at the previous payment, reaches 100 at the next
      one, and never goes down as time passes. */
  lemma ProgressSpec(cycle: int, frequency: int, nextMs: int, nowMs: int, laterMs: int)
    requires CycleDays(cycle, frequency) > 0 && nowMs <= laterMs
    ensures SubscriptionProgress(cycle, frequency, Some(nextMs), nextMs - CycleDays(cycle, frequency) * DayMs) == Some(0)
    ensures SubscriptionProgress(cycle, frequency, Some(nextMs), nextMs) == Some(100)
    ensures SubscriptionProgress(cycle, frequency, Some(nextMs), nowMs).value
      <= SubscriptionProgress(cycle, frequency, Some(nextMs), laterMs).value
  {
    var total := CycleDays(cycle, frequency) * DayMs;
    PositiveProduct(CycleDays(cycle, frequency), DayMs);
    var last := nextMs - total;
    ProgressIs(cycle, frequency, nextMs, last);
    ProgressIs(cycle, frequency, nextMs, nextMs);
    ProgressIs(cycle, frequency, nextMs, nowMs);
    ProgressIs(cycle, frequency, nextMs, laterMs);
    PercentEnds(total);
    MulDivMonotone(nowMs - last, laterMs - last, total);
  }

  lemma PercentEnds(total: int)
    requires total > 0
    ensures (0 * 100) / total == 0 && (total * 100) / total == 100
  {
  }

  lemma PositiveProduct(a: int, b: int)
    requires a > 0 && b > 0
    ensures a * b > 0
  {
  }

  /** The progress in terms of the period's length. */
  lemma ProgressIs(cycle: int, frequency: int, nextMs: int, nowMs: int)
    requires CycleDays(cycle, frequency) * DayMs > 0
    ensures var total := CycleDays(cycle, frequency) * DayMs;
      SubscriptionProgress(cycle, frequency, Some(nextMs), nowMs)
        == Some(Clamp(0, 100, ((nowMs - (nextMs - total)) * 100) / total))
  {
  }

  lemma MulDivMonotone(a: int, b: int, d: int)
    requires a <= b && d > 0
    ensures (a * 100) / d <= (b * 100) / d
  {
    DivMonotone(a * 100, b * 100, d);
  }

  lemma DivMonotone(x: int, y: int, d: int)
    requires x <= y && d > 0
    ensures x / d <= y / d
  {
    var qx, qy := x / d, y / d;
    assert qx * d <= x;
    assert y < (qy + 1) * d;
    if qx > qy {
      MulMonotone(qy + 1, qx, d);
    }
  }

  lemma MulMonotone(a: int, b: int, d: int)
    requires a <= b && d > 0
    ensures a * d <= b * d
  {
    assert b * d - a * d == (b - a) * d;
  }

  /** getBillingCycleText: the singular label for a frequency of 1, else
      the frequency and the plural label; "" for an unknown cycle. */
  function BillingCycleText(cycle: int, frequency: int, t: string -> string): (r: string)
    ensures !(1 <= cycle <= 4) ==> r == ""
  {
    var keys := if cycle == 1 then ("daily", "days")
                else if cycle == 2 then ("weekly", "weeks")
                else if cycle == 3 then ("monthly", "months")
                else ("yearly", "years");
    if !(1 <= cycle <= 4) then ""
    else if frequency == 1 then t(keys.0)
    else IntToString(frequency) + " " + t(keys.1)
  }

  /** The label for every known cycle, singular and plural. */
  lemma BillingCycleTextSpec(frequency: int, t: string -> string)
    ensures frequency == 1 ==>
      BillingCycleText(1, frequency, t) == t("daily") && BillingCycleText(2, frequency, t) == t("weekly")
      && BillingCycleText(3, frequency, t) == t("monthly") && BillingCycleText(4, frequency, t) == t("yearly")
    ensures frequency != 1 ==>
      BillingCycleText(1, frequency, t) == IntToString(frequency) + " " + t("days")
      && BillingCycleText(2, frequency, t) == IntToString(frequency) + " " + t("weeks")
      && BillingCycleText(3, frequency, t) == IntToString(frequency) + " " + t("months")
      && BillingCycleText(4, frequency, t) == IntToString(frequency) + " " + t("years")
  {
  }

  /** isOverdue: a manually renewed, active subscription whose payment date
      lies before today. `nextMs` is its parsed payment date. */
  predicate IsOverdue(sub: Subscription, nextMs: Option<int>, todayMs: int)
  {
    !sub.inactive && !sub.autoRenew && nextMs.Some? && nextMs.value < todayMs
  }

  /** isUpcoming: an active subscription whose payment date lies between
      today and `withinDays` days later, both ends included. */
  predicate IsUpcoming(sub: Subscription, nextMs: Option<int>, todayMs: int, withinDays: int)
  {
    !sub.inactive && nextMs.Some? && todayMs <= nextMs.value <= todayMs + withinDays * DayMs
  }

  /** Inactive subscriptions are neither overdue nor upcoming, renewing
      ones are never overdue, and no payment is both overdue and upcoming. */
  lemma OverdueUpcomingSpec(sub: Subscription, nextMs: Option<int>, todayMs: int, withinDays: int)
    ensures sub.inactive ==> !IsOverdue(sub, nextMs, todayMs) && !IsUpcoming(sub, nextMs, todayMs, withinDays)
    ensures sub.autoRenew ==> !IsOverdue(sub, nextMs, todayMs)
    ensures !(IsOverdue(sub, nextMs, todayMs) && IsUpcoming(sub, nextMs, todayMs, withinDays))
  {
  }
}
