/** Display helpers shared by the side panels: relative-time buckets, the
    "created in the last four hours" test, the trust-level badge and the
    compact number format.  Times are integer milliseconds. */
module Formatters {
  import opened Wrappers
  import opened Text
  import opened Topics

  /** Four hours in milliseconds: the window of a "new" topic. */
  const RecentWindow: int := 14400000

  /** The outcome of `formatTime`: the calendar branch is kept abstract. */
  datatype TimeLabel = JustNow | Minutes(m: int) | Hours(h: int) | MonthDay(at: int)

  /** `formatTime(at)` at time `now`: under a minute (or in the future) is
      `'刚刚'`, under an hour whole minutes, under a day whole hours, else a date. */
  function FormatTime(at: int, now: int): (r: TimeLabel)
    ensures r.JustNow? <==> now - at < 60000
    ensures r.Minutes? <==> 60000 <= now - at < 3600000
    ensures r.Minutes? ==> 1 <= r.m < 60 && r.m * 60000 <= now - at < (r.m + 1) * 60000
    ensures r.Hours? <==> 3600000 <= now - at < 86400000
    ensures r.Hours? ==> 1 <= r.h < 24 && r.h * 3600000 <= now - at < (r.h + 1) * 3600000
    ensures r.MonthDay? <==> now - at >= 86400000
    ensures r.MonthDay? ==> r.at == at
  {
    var diff := now - at;
    if diff < 60000 then JustNow
    else if diff < 3600000 then Minutes(diff / 60000)
    else if diff < 86400000 then Hours(diff / 3600000)
    else MonthDay(at)
  }

  /** `s` is a decimal number that reads back as `n`, followed by `unit`. */
  predicate CountWithUnit(s: string, unit: char, n: nat) {
    |s| >= 2 && s[|s| - 1] == unit &&
    (forall i :: 0 <= i < |s| - 1 ==> '0' <= s[i] <= '9') &&
    DigitsValue(s[..|s| - 1]) == n
  }

  /** The text of a relative-time label; the calendar form is not modelled.
      `刚刚` is the text of "just now" only, and the other two read back as
      their count of minutes or hours followed by the unit. */
  function TimeText(l: TimeLabel): (s: string)
    requires !l.MonthDay? && (l.Minutes? ==> l.m >= 0) && (l.Hours? ==> l.h >= 0)
    ensures s == "刚刚" <==> l.JustNow?
    ensures l.Minutes? ==> CountWithUnit(s, 'm', l.m)
    ensures l.Hours? ==> CountWithUnit(s, 'h', l.h)
  {
    match l
    case JustNow => "刚刚"
    case Minutes(m) => WithUnit(m, 'm')
    case Hours(h) => WithUnit(h, 'h')
  }

  /** A count in decimal followed by a unit letter. */
  function WithUnit(n: nat, unit: char): (s: string)
    requires unit != '刚'
    ensures CountWithUnit(s, unit, n) && s != "刚刚"
  {
    var s := NatToString(n) + [unit];
    NatToStringValue(n);
    assert s[..|s| - 1] == NatToString(n);
    assert s[|s| - 1] != "刚刚"[1];
    s
  }

  /** `isTopicRecent(t)`: created strictly less than four hours before `now`. */
  predicate IsTopicRecent(t: Topic, now: int) {
    now - t.createdAt < RecentWindow
  }

  /** The trust badge shown next to a poster. */
  datatype Badge = NoBadge | AdminBadge | LevelBadge(cls: string)

  /** The `badges` table: the badge class of each trust level that has one. */
  const LevelClasses: map<int, string> := map[4 := "l4", 3 := "l3", 2 := "l2", 1 := "l1"]

  /** `getTrustBadge(level, isAdmin)`: the admin badge wins over any level;
      levels 1 to 4 have a badge of class `l<level>`; every other level has none. */
  function TrustBadge(level: int, isAdmin: bool): (b: Badge)
    ensures isAdmin <==> b == AdminBadge
    ensures !isAdmin && 1 <= level <= 4 ==> b == LevelBadge("l" + [Digit(level)])
    ensures !isAdmin && !(1 <= level <= 4) ==> b == NoBadge
  {
    assert Digit(1) == '1' && Digit(2) == '2' && Digit(3) == '3' && Digit(4) == '4';
    assert "l" + ['1'] == "l1" && "l" + ['2'] == "l2" && "l" + ['3'] == "l3" && "l" + ['4'] == "l4";
    if isAdmin then AdminBadge
    else if level in LevelClasses then LevelBadge(LevelClasses[level])
    else NoBadge
  }

  /** The badge of a topic card: the trust of its latest poster. */
  function TopicBadge(t: Topic, users: Option<map<int, UserInfo>>): (b: Badge)
    ensures b == TrustBadge(TrustOf(t, users).0, TrustOf(t, users).1)
    ensures TrustOf(t, users) == (0, false) ==> b == NoBadge
  {
    var (level, admin) := TrustOf(t, users);
    TrustBadge(level, admin)
  }

  /** `formatNumber(n)`; the `toFixed(1) + 'k'` branch is not modelled. */
  datatype NumberLabel = Plain(n: int) | Thousands(n: int)

  function FormatNumber(n: int): (r: NumberLabel)
    ensures n < 1000 <==> r == Plain(n)
    ensures n >= 1000 <==> r == Thousands(n)
  {
    if n >= 1000 then Thousands(n) else Plain(n)
  }
}
