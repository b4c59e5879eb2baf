/**
 * The "Updated ... ago" line: the relative-time label, the staleness test and
 * the guard on its refresh control. Timestamps and the clock reading `now` are
 * integer milliseconds; `now` stands for `Date.now()`.
 */
module LastUpdated {
  import opened Wrappers
  import opened Text

  const MsPerMinute: int := 1000 * 60
  const MsPerHour: int := 1000 * 60 * 60
  const MsPerDay: int := 24 * MsPerHour

  /** Data older than this is stale: 30 minutes. */
  const StaleThresholdMs: int := 30 * 60 * 1000

  /** `Math.floor(a / b)` for a positive divisor. */
  function FloorDiv(a: int, b: int): (q: int)
    requires b > 0
    ensures q * b <= a < (q + 1) * b
  {
    a / b
  }

  /** `"N unit ago"` with an `s` after the unit when N is more than one. */
  function CountAgo(n: nat, unit: string): string
  {
    NatToString(n) + " " + unit + (if n > 1 then "s" else "") + " ago"
  }

  /** `formatRelativeTime(timestamp)` at the clock reading `now`. */
  function FormatRelativeTime(now: int, timestamp: int): (l: string)
    ensures || l == "just now" || l == "over a day ago"
            || (exists n :: 1 <= n <= 59 && l == CountAgo(n, "minute"))
            || (exists n :: 1 <= n <= 23 && l == CountAgo(n, "hour"))
  {
    var diffMs := now - timestamp;
    var diffMinutes := FloorDiv(diffMs, MsPerMinute);
    var diffHours := FloorDiv(diffMs, MsPerHour);
    if diffMinutes < 1 then "just now"
    else if diffMinutes < 60 then CountAgo(diffMinutes, "minute")
    else if diffHours < 24 then CountAgo(diffHours, "hour")
    else "over a day ago"
  }

  /** A counted label starts with a digit, so it is neither of the two fixed labels. */
  lemma CountAgoIsNotFixed(n: nat, unit: string)
    ensures CountAgo(n, unit) != "just now" && CountAgo(n, unit) != "over a day ago"
  {
    var s := NatToString(n);
    assert CountAgo(n, unit)[0] == s[0];
    assert IsDigit(s[0]);
  }

  /**
   * A counted label reads back: it opens with the numeral of `n`, then a
   * space, and it ends in "s ago" exactly when `n` is more than one (for a
   * unit that does not itself end in `s`).
   */
  lemma {:induction false} CountAgoReadsBack(n: nat, unit: string)
    requires |unit| > 0 && unit[|unit| - 1] != 's'
    ensures var words := CountAgo(n, unit); var k := |NatToString(n)|;
      && k < |words| && AllDigits(words[..k]) && DigitsValue(words[..k]) == n && words[k] == ' '
      && (words[|words| - 5..] == "s ago" <==> n > 1)
  {
    var words, s := CountAgo(n, unit), NatToString(n);
    assert words[..|s|] == s;
    DigitsValueOfNatToString(n);
    if n <= 1 {
      assert words[|words| - 5] == unit[|unit| - 1];
    } else {
      assert words[|words| - 5..] == "s ago";
    }
  }

  /** The label is "just now" exactly when less than a minute has passed, future timestamps included. */
  lemma JustNowIffUnderAMinute(now: int, timestamp: int)
    ensures FormatRelativeTime(now, timestamp) == "just now" <==> now - timestamp < MsPerMinute
  {
    var diff := now - timestamp;
    var m := FloorDiv(diff, MsPerMinute);
    if m >= 1 {
      if m < 60 {
        CountAgoIsNotFixed(m, "minute");
      } else if FloorDiv(diff, MsPerHour) < 24 {
        CountAgoIsNotFixed(FloorDiv(diff, MsPerHour), "hour");
      }
    }
  }

  /** Between one minute and one hour the label counts whole minutes, 1 to 59. */
  lemma MinutesLabel(now: int, timestamp: int)
    requires MsPerMinute <= now - timestamp < MsPerHour
    ensures var m := (now - timestamp) / MsPerMinute;
      && 1 <= m <= 59 && FormatRelativeTime(now, timestamp) == CountAgo(m, "minute")
  {
  }

  /** Between one hour and one day the label counts whole hours, 1 to 23. */
  lemma HoursLabel(now: int, timestamp: int)
    requires MsPerHour <= now - timestamp < MsPerDay
    ensures var h := (now - timestamp) / MsPerHour;
      && 1 <= h <= 23 && FormatRelativeTime(now, timestamp) == CountAgo(h, "hour")
  {
    var diff := now - timestamp;
    assert FloorDiv(diff, MsPerMinute) >= 60;
  }

  /** The label is "over a day ago" exactly when a full day or more has passed. */
  lemma OverADayIffADay(now: int, timestamp: int)
    ensures FormatRelativeTime(now, timestamp) == "over a day ago" <==> now - timestamp >= MsPerDay
  {
    var diff := now - timestamp;
    if diff >= MsPerDay {
      assert FloorDiv(diff, MsPerMinute) >= 60 && FloorDiv(diff, MsPerHour) >= 24;
    } else {
      if diff < MsPerMinute {
        assert FloorDiv(diff, MsPerMinute) < 1;
      } else if diff < MsPerHour {
        MinutesLabel(now, timestamp);
        CountAgoIsNotFixed(diff / MsPerMinute, "minute");
      } else {
        HoursLabel(now, timestamp);
        CountAgoIsNotFixed(diff / MsPerHour, "hour");
      }
    }
  }

  /** `isStale(timestamp)` at the clock reading `now`: strictly older than the threshold. */
  function IsStale(now: int, timestamp: int): (stale: bool)
    ensures var m := FloorDiv(now - timestamp, MsPerMinute);
      stale <==> m > 30 || (m == 30 && (now - timestamp) % MsPerMinute != 0)
  {
    now - timestamp > StaleThresholdMs
  }

  /** Exactly 30 minutes old is not stale; one millisecond more is. */
  lemma StaleBoundary(now: int)
    ensures !IsStale(now, now - StaleThresholdMs)
    ensures IsStale(now, now - StaleThresholdMs - 1)
    ensures !IsStale(now, now - StaleThresholdMs + 1)
  {
  }

  /** Once stale, data stays stale as the clock moves on. */
  lemma StaleIsMonotone(now: int, later: int, timestamp: int)
    requires IsStale(now, timestamp) && now <= later
    ensures IsStale(later, timestamp)
  {
  }

  /** Stale data is never labelled "just now"; under an hour old it reads 30 to 59 minutes. */
  lemma StaleLabel(now: int, timestamp: int)
    requires IsStale(now, timestamp)
    ensures FormatRelativeTime(now, timestamp) != "just now"
    ensures now - timestamp < MsPerHour ==>
      var m := (now - timestamp) / MsPerMinute;
      30 <= m <= 59 && FormatRelativeTime(now, timestamp) == CountAgo(m, "minute")
  {
    JustNowIffUnderAMinute(now, timestamp);
    if now - timestamp < MsPerHour {
      MinutesLabel(now, timestamp);
    }
  }

  /**
   * A click on the refresh control calls `refreshWeather`: the component
   * renders (weather present and a truthy `lastUpdated`, so not 0), the button
   * is shown (the data is stale), and `handleRefresh` finds no fetch in progress.
   */
  function RefreshOnClick(hasWeather: bool, lastUpdated: Option<int>, isLoading: bool, now: int): (fires: bool)
    ensures fires ==> !isLoading
    ensures fires <==>
      && hasWeather && lastUpdated.Some? && lastUpdated.value != 0
      && now - lastUpdated.value > StaleThresholdMs && !isLoading
  {
    if !hasWeather || lastUpdated.None? || lastUpdated.value == 0 then false
    else
      var stale := IsStale(now, lastUpdated.value);
      stale && !isLoading
  }
}
