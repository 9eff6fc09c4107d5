/** The text of the extension icon's badge, as `updateBadge(count)` in
    `background.js` sets it. */
module ActionBadge {
  import opened Text

  /** Nothing for no unread topics, the count itself up to 99, and `99+`
      beyond that. */
  function BadgeText(count: int): (s: string)
    ensures s == "" <==> count <= 0
    ensures 1 <= |s| <= 3 || s == ""
    ensures count > 99 <==> s == "99+"
  {
    if count > 0 then
      if count > 99 then "99+"
      else
        ShortDecimal(count);
        NatToString(count)
    else ""
  }

  /** The decimal form of a number below 100 has one or two digits. */
  lemma ShortDecimal(n: nat)
    requires n < 100
    ensures 1 <= |NatToString(n)| <= 2 && '+' !in NatToString(n)
  {
    if n >= 10 {
      assert NatToString(n) == NatToString(n / 10) + [Digit(n % 10)];
    }
  }

  /** For 1 to 99 the badge reads back as the exact count. */
  lemma BadgeShowsCount(count: int)
    requires 1 <= count <= 99
    ensures var s := BadgeText(count);
            (forall i :: 0 <= i < |s| ==> '0' <= s[i] <= '9') && DigitsValue(s) == count
  {
    NatToStringValue(count);
  }
}
