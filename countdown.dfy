/**
 * The auction countdown: the time left until the end, split into days,
 * hours, minutes and seconds, or the ended notice.
 */
module Countdown {
  import opened Wrappers

  const MillisPerSecond: int := 1000
  const MillisPerMinute: int := 60 * MillisPerSecond
  const MillisPerHour: int := 60 * MillisPerMinute
  const MillisPerDay: int := 24 * MillisPerHour

  datatype TimeLeft = AuctionEnded | Remaining(days: int, hours: int, minutes: int, seconds: int)

  /** The milliseconds a remaining time stands for, to the whole second. */
  function Millis(t: TimeLeft): int {
    match t
    case AuctionEnded => 0
    case Remaining(d, h, m, s) => d * MillisPerDay + h * MillisPerHour + m * MillisPerMinute + s * MillisPerSecond
  }

  /**
   * `calculateTimeLeft` for `difference = end - now` in milliseconds: a
   * positive difference is split into whole days and the hours, minutes and
   * seconds of the rest; anything else is the ended notice.
   */
  function CalculateTimeLeft(difference: int): (r: TimeLeft)
    ensures r == AuctionEnded <==> difference <= 0
    ensures r.Remaining? ==> r.days >= 0 && 0 <= r.hours < 24 && 0 <= r.minutes < 60 && 0 <= r.seconds < 60
    ensures r.Remaining? ==> Millis(r) <= difference < Millis(r) + MillisPerSecond
  {
    if difference > 0 then
      var days := difference / MillisPerDay;
      var hours := (difference / MillisPerHour) % 24;
      var minutes := (difference / MillisPerMinute) % 60;
      var seconds := (difference / MillisPerSecond) % 60;
      SplitReconstructs(difference);
      Remaining(days, hours, minutes, seconds)
    else
      AuctionEnded
  }

  /** The four fields put back together give the difference rounded down to the second. */
  lemma SplitReconstructs(d: int)
    requires d > 0
    ensures var s, m, h := d / MillisPerSecond, d / MillisPerMinute, d / MillisPerHour;
      (d / MillisPerDay) * MillisPerDay + (h % 24) * MillisPerHour + (m % 60) * MillisPerMinute + (s % 60) * MillisPerSecond
        == s * MillisPerSecond
  {
    var s := d / 1000;
    var m := d / 60000;
    var h := d / 3600000;
    var days := d / 86400000;
    assert m == s / 60;
    assert h == m / 60;
    assert days == h / 24;
    assert s == 60 * m + s % 60;
    assert m == 60 * h + m % 60;
    assert h == 24 * days + h % 24;
  }

  /** A later moment never shows more time left. */
  lemma TimeLeftShrinks(d1: int, d2: int)
    requires d1 <= d2
    ensures Millis(CalculateTimeLeft(d1)) <= Millis(CalculateTimeLeft(d2))
  {
    if d1 > 0 {
      SplitReconstructs(d1);
      SplitReconstructs(d2);
      assert d1 / MillisPerSecond <= d2 / MillisPerSecond;
    }
  }

  /** What the component renders: nothing without an end time, else the time left at `now`. */
  function Render(target: Option<int>, now: int): (r: Option<TimeLeft>)
    ensures r.None? <==> target.None?
    ensures r.Some? ==> (r.value == AuctionEnded <==> target.value <= now)
  {
    match target
    case None => None
    case Some(end) => Some(CalculateTimeLeft(end - now))
  }
}
