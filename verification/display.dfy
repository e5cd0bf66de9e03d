/** The helpers of the recent-sessions list: the relative date label and the
    platform icon. The clock and the locale formatting are inputs: times are
    whole milliseconds, and the locale renderings of the time of day and of
    the date come in as text. */
module Display {
  import opened Text

  const MsPerDay: nat := 1000 * 60 * 60 * 24

  function Abs(x: int): nat
  {
    if x < 0 then -x else x
  }

  /** `Math.floor(Math.abs(today - date) / (1000 * 60 * 60 * 24))`. */
  function DiffDays(nowMs: int, dateMs: int): (d: nat)
    ensures d * MsPerDay <= Abs(nowMs - dateMs) < (d + 1) * MsPerDay
  {
    Abs(nowMs - dateMs) / MsPerDay
  }

  /** `formatDate`: "Today <time>", "Yesterday", "<n> days ago" for two to
      six days, and the locale date from a week on. */
  function FormatDate(nowMs: int, dateMs: int, timeText: string, dateText: string): (r: string)
    ensures DiffDays(nowMs, dateMs) == 0 ==> StartsWith(r, "Today ") && r[6..] == timeText
    ensures DiffDays(nowMs, dateMs) == 1 ==> r == "Yesterday"
    ensures 2 <= DiffDays(nowMs, dateMs) < 7 ==>
      |r| == 10 && r[1..] == " days ago" && AllDigits(r[..1]) && ParseDigits(r[..1]) == DiffDays(nowMs, dateMs)
    ensures DiffDays(nowMs, dateMs) >= 7 ==> r == dateText
  {
    var diffDays := DiffDays(nowMs, dateMs);
    if diffDays == 0 then "Today " + timeText
    else if diffDays == 1 then "Yesterday"
    else if diffDays < 7 then
      ParseNatToString(diffDays);
      NatToString(diffDays) + " days ago"
    else dateText
  }

  /** A date the same distance in the past or the future gets the same label. */
  lemma FormatDateSymmetric(nowMs: int, k: int, timeText: string, dateText: string)
    ensures FormatDate(nowMs, nowMs - k, timeText, dateText) == FormatDate(nowMs, nowMs + k, timeText, dateText)
  {
  }

  /** The label boundaries in milliseconds: under a day is today, a day up to
      two is yesterday, and a full week falls through to the date. */
  lemma DayBoundaries(nowMs: int, timeText: string, dateText: string)
    ensures StartsWith(FormatDate(nowMs, nowMs - (MsPerDay - 1), timeText, dateText), "Today ")
    ensures FormatDate(nowMs, nowMs - MsPerDay, timeText, dateText) == "Yesterday"
    ensures FormatDate(nowMs, nowMs + (2 * MsPerDay - 1), timeText, dateText) == "Yesterday"
    ensures FormatDate(nowMs, nowMs - 7 * MsPerDay, timeText, dateText) == dateText
  {
    assert DiffDays(nowMs, nowMs - (MsPerDay - 1)) == 0;
    assert DiffDays(nowMs, nowMs - MsPerDay) == 1;
    assert DiffDays(nowMs, nowMs + (2 * MsPerDay - 1)) == 1;
    assert DiffDays(nowMs, nowMs - 7 * MsPerDay) == 7;
  }

  const Globe := "\U{1F310}"

  /** The five platforms that have their own icon. */
  const Icons: map<string, string> := map[
    "facebook" := "\U{1F4D8}",
    "twitter" := "\U{1F426}",
    "instagram" := "\U{1F4F8}",
    "linkedin" := "\U{1F4BC}",
    "tiktok" := "\U{1F3B5}"]

  /** `getPlatformIcon`: the platform's own icon, or the globe for any other id. */
  function PlatformIcon(id: string): (r: string)
    ensures r != Globe <==> id in {"facebook", "twitter", "instagram", "linkedin", "tiktok"}
    ensures id in Icons ==> r == Icons[id]
  {
    if id in Icons then Icons[id] else Globe
  }

  /** A platform added from the sidebar has the id `custom-` followed by the
      clock reading; its sessions are listed with the globe. */
  lemma CustomPlatformsGetGlobe(nowMs: nat)
    ensures PlatformIcon("custom-" + NatToString(nowMs)) == Globe
  {
    var id := "custom-" + NatToString(nowMs);
    assert id[0] == 'c';
  }
}
