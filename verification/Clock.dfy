/**
 * Window arithmetic (sampark/budget/windows.py).
 *
 * An instant is a count of microseconds since the Unix epoch, the resolution of the source's
 * datetimes.  A window is an IST calendar date, numbered by days since the epoch's IST date.
 * Asia/Kolkata has been at the fixed offset +05:30 for every date the program handles.
 */
module Clock {
  import opened Wrappers

  type Instant = int
  type Window = int

  const HOUR: int := 3_600_000_000
  const DAY: int := 86_400_000_000
  const IST_OFFSET: int := 19_800_000_000

  const QUIET_HOURS_START_HOUR := 21
  const QUIET_HOURS_END_HOUR := 9

  /** Raised by NextQuietHoursBoundary for an instant outside quiet hours. */
  datatype ClockError = NotInQuietHours

  function WindowIdFor(t: Instant): Window {
    (t + IST_OFFSET) / DAY
  }

  function LocalHour(t: Instant): int {
    (t + IST_OFFSET) % DAY / HOUR
  }

  function WindowStartFor(w: Window): Instant {
    w * DAY + QUIET_HOURS_END_HOUR * HOUR - IST_OFFSET
  }

  function NextWindowStart(w: Window): Instant {
    WindowStartFor(w + 1)
  }

  predicate IsQuietHours(t: Instant) {
    LocalHour(t) >= QUIET_HOURS_START_HOUR || LocalHour(t) < QUIET_HOURS_END_HOUR
  }

  function NextQuietHoursBoundary(t: Instant): Result<Instant, ClockError> {
    if !IsQuietHours(t) then
      Err(NotInQuietHours)
    else
      Ok(WindowStartFor(if LocalHour(t) < QUIET_HOURS_END_HOUR then WindowIdFor(t) else WindowIdFor(t) + 1))
  }

  /** The date and the start of day are inverse, and dates follow the order of instants. */
  lemma WindowOfStart(w: Window)
    ensures WindowIdFor(WindowStartFor(w)) == w && LocalHour(WindowStartFor(w)) == QUIET_HOURS_END_HOUR
    ensures !IsQuietHours(WindowStartFor(w))
  {
    assert WindowStartFor(w) + IST_OFFSET == w * DAY + 9 * HOUR;
    assert (w * DAY + 9 * HOUR) / DAY == w;
  }

  /**
   * In microseconds since the epoch: a window is the twenty-four hours from 18:30 UTC, starts to be
   * sendable at 03:30 UTC, and stays so for twelve hours.
   */
  lemma TimesInUtc(t: Instant, w: Window)
    ensures WindowIdFor(t) == w <==> 86_400_000_000 * w <= t + 19_800_000_000 < 86_400_000_000 * (w + 1)
    ensures WindowStartFor(w) == 86_400_000_000 * w + 12_600_000_000
    ensures WindowIdFor(t) == w ==>
              (IsQuietHours(t) <==> t < 86_400_000_000 * w + 12_600_000_000 || t >= 86_400_000_000 * w + 55_800_000_000)
  {
    SendableBand(t);
  }

  lemma WindowsAreOrdered(t: Instant, u: Instant)
    requires t <= u
    ensures WindowIdFor(t) <= WindowIdFor(u)
  {
  }

  /** Sendable time is exactly the twelve hours from 09:00 of its own window. */
  lemma SendableBand(t: Instant)
    ensures !IsQuietHours(t) <==> WindowStartFor(WindowIdFor(t)) <= t < WindowStartFor(WindowIdFor(t)) + 12 * HOUR
    ensures LocalHour(t) >= QUIET_HOURS_END_HOUR <==> WindowStartFor(WindowIdFor(t)) <= t
  {
    var local := t + IST_OFFSET;
    assert local == WindowIdFor(t) * DAY + local % DAY;
    assert local % DAY / HOUR >= 9 <==> local % DAY >= 9 * HOUR;
    assert local % DAY / HOUR >= 21 <==> local % DAY >= 21 * HOUR;
  }

  /**
   * "The next 09:00 IST at or after the instant": the boundary is a window start, none lies between
   * the instant and it, and it is refused exactly outside quiet hours.
   */
  lemma BoundaryIsNextWindowStart(t: Instant, w: Window)
    ensures NextQuietHoursBoundary(t).Ok? <==> IsQuietHours(t)
    ensures NextQuietHoursBoundary(t).Ok? ==>
              var b := NextQuietHoursBoundary(t).value;
              && t < b == WindowStartFor(WindowIdFor(b))
              && (WindowStartFor(w) >= t ==> WindowStartFor(w) >= b)
  {
    SendableBand(t);
    if IsQuietHours(t) {
      var target := if LocalHour(t) < QUIET_HOURS_END_HOUR then WindowIdFor(t) else WindowIdFor(t) + 1;
      WindowOfStart(target);
      assert target * DAY > t + IST_OFFSET - 9 * HOUR > (target - 1) * DAY;
      assert WindowStartFor(w) >= t ==> w * DAY > (target - 1) * DAY;
    }
  }
}
