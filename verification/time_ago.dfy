/** `getTimeAgo` of a notification: the elapsed time in whole seconds, bucketed. */
module TimeAgo {
  import Text

  /** `Math.floor((now - date) / 1000)`; Dafny's division by a positive divisor is the floor. */
  function ElapsedSeconds(nowMs: int, dateMs: int): (s: int)
    ensures s * 1000 <= nowMs - dateMs < s * 1000 + 1000
  {
    (nowMs - dateMs) / 1000
  }

  /**
   * The label for `seconds` of elapsed time; `localeDate` stands for
   * `date.toLocaleDateString()`, used from a week on.
   */
  function Label(seconds: int, localeDate: string): (r: string)
    // Less than a minute, including instants in the future.
    ensures seconds < 60 ==> r == "Just now"
    ensures 60 <= seconds < 3600 ==> 1 <= seconds / 60 <= 59 && r == Text.IntToString(seconds / 60) + "m ago"
    ensures 3600 <= seconds < 86400 ==> 1 <= seconds / 3600 <= 23 && r == Text.IntToString(seconds / 3600) + "h ago"
    ensures 86400 <= seconds < 604800 ==> 1 <= seconds / 86400 <= 6 && r == Text.IntToString(seconds / 86400) + "d ago"
    ensures seconds >= 604800 ==> r == localeDate
  {
    if seconds < 60 then "Just now"
    else if seconds < 3600 then Text.IntToString(seconds / 60) + "m ago"
    else if seconds < 86400 then Text.IntToString(seconds / 3600) + "h ago"
    else if seconds < 604800 then Text.IntToString(seconds / 86400) + "d ago"
    else localeDate
  }

  /** `getTimeAgo(dateString)` with both instants given in milliseconds. */
  function GetTimeAgo(nowMs: int, dateMs: int, localeDate: string): string {
    Label(ElapsedSeconds(nowMs, dateMs), localeDate)
  }

  /**
   * A label in the minute, hour or day bucket reads back as its count: the
   * digits before the unit suffix denote exactly the whole units elapsed.
   */
  lemma {:induction false} LabelReadsBack(seconds: int, localeDate: string, unit: nat, suffix: string)
    requires 60 <= seconds < 604800
    requires unit == (if seconds < 3600 then 60 else if seconds < 86400 then 3600 else 86400)
    requires suffix == (if seconds < 3600 then "m ago" else if seconds < 86400 then "h ago" else "d ago")
    ensures var r := Label(seconds, localeDate);
      |r| > |suffix| && r[|r| - |suffix|..] == suffix &&
      (forall i :: 0 <= i < |r| - |suffix| ==> Text.IsDigit(r[i])) &&
      Text.DigitsValue(r[..|r| - |suffix|]) == seconds / unit
  {
    var n: nat := seconds / unit;
    var digits := Text.NatToString(n);
    assert Text.IntToString(seconds / unit) == digits;
    var r := Label(seconds, localeDate);
    assert r == digits + suffix;
    assert r[..|r| - |suffix|] == digits;
    assert r[|r| - |suffix|..] == suffix;
    Text.NatToStringRoundTrip(n);
  }
}
