/** src/components/NotificationBadge.js: the unread counter shown next to a
    navigation item. */
module NotificationBadge {
  import opened Common
  import JsText

  /** The most the badge spells out; larger counts read "9+". */
  const MaxShown: int := 9
  const Overflow: string := "9+"

  /** The badge's text, or `None` when the component renders nothing:
      nobody signed in, a count of exactly zero, or the list still
      loading.  A count above nine reads "9+", any other count (negative
      ones included) its decimal text. */
  function Badge(user: Option<User>, unreadCount: int, loading: bool): (text: Option<string>)
    ensures text.None? <==> user.None? || unreadCount == 0 || loading
    ensures text == Some(Overflow) <==> user.Some? && !loading && unreadCount > MaxShown
    ensures text.Some? && unreadCount <= MaxShown ==> text.value == JsText.IntToString(unreadCount)
  {
    if user.None? || unreadCount == 0 || loading then None
    else if unreadCount > MaxShown then Some(Overflow)
    else
      assert JsText.IntToString(unreadCount) != Overflow by {
        if unreadCount < 0 {
          assert JsText.IntToString(unreadCount)[0] == '-';
        } else {
          assert |JsText.NatToString(unreadCount)| == 1;
        }
      }
      Some(JsText.IntToString(unreadCount))
  }

  /** The badge can be read back: up to nine, its text parses to the
      count itself; above nine, to nine, the most it shows. */
  lemma BadgeReadsBack(user: Option<User>, unreadCount: int, loading: bool)
    requires Badge(user, unreadCount, loading).Some?
    ensures JsText.ParseInt(Badge(user, unreadCount, loading).value) ==
      Some(if unreadCount > MaxShown then MaxShown else unreadCount)
  {
    if unreadCount > MaxShown {
      assert !JsText.IsJsWhitespace(Overflow[0]);
      assert JsText.LeadingSpace(Overflow) == 0;
      assert Overflow[0..] == Overflow;
      assert JsText.LeadingDigits(Overflow) == "9" by {
        assert JsText.IsDecimalDigit(Overflow[0]) && !JsText.IsDecimalDigit(Overflow[1]);
        assert JsText.LeadingDigits(Overflow[1..]) == [];
      }
      assert JsText.DigitsValue("9") == 9 by {
        assert "9"[..0] == [];
      }
    } else {
      JsText.ParseIntOfIntToString(unreadCount);
    }
  }
}
