/**
 * The project card on the dashboard: the relative "last edited" text and the card's menu.
 * The time difference (now minus the project's update time, in milliseconds) and the
 * locale-formatted date are inputs.
 */
module ProjectCard {
  import opened Wrappers
  import Decimal

  const DayMs: int := 1000 * 60 * 60 * 24

  /** Whole days elapsed, rounded towards minus infinity (`Math.floor`). */
  function DaysAgo(diffMs: int): (days: int)
    ensures days * DayMs <= diffMs < (days + 1) * DayMs
  {
    diffMs / DayMs
  }

  /** The text shown for a time difference; `localeDate` is what the browser prints for the date. */
  function DateText(diffMs: int, localeDate: string): (s: string)
    ensures DaysAgo(diffMs) == 0 ==> s == "Today"
    ensures DaysAgo(diffMs) == 1 ==> s == "Yesterday"
    ensures DaysAgo(diffMs) != 0 && DaysAgo(diffMs) != 1 && DaysAgo(diffMs) < 7 ==>
      s == Decimal.IntText(DaysAgo(diffMs)) + " days ago"
    ensures DaysAgo(diffMs) >= 7 ==> s == localeDate
  {
    var days := DaysAgo(diffMs);
    if days == 0 then "Today"
    else if days == 1 then "Yesterday"
    else if days < 7 then Decimal.IntText(days) + " days ago"
    else localeDate
  }

  /** The buckets as windows of the raw difference: a day is 86400000 ms, counted from the edit. */
  lemma DayWindows(diffMs: int, localeDate: string)
    ensures 0 <= diffMs < DayMs ==> DateText(diffMs, localeDate) == "Today"
    ensures DayMs <= diffMs < 2 * DayMs ==> DateText(diffMs, localeDate) == "Yesterday"
    ensures 2 * DayMs <= diffMs < 7 * DayMs ==> DateText(diffMs, localeDate)[1..] == " days ago"
    ensures diffMs < 0 ==> DateText(diffMs, localeDate)[0] == '-'
    ensures diffMs >= 7 * DayMs ==> DateText(diffMs, localeDate) == localeDate
  {
    var days := DaysAgo(diffMs);
    if 2 * DayMs <= diffMs < 7 * DayMs {
      assert 2 <= days < 7;
      assert Decimal.IntText(days) == [Decimal.DigitChar(days)];
    }
    if diffMs < 0 {
      assert days < 0;
    }
  }

  /**
   * Outside the two named days and below a week, the text reads back to the day count, and
   * that count is whatever the difference says, negative (a date in the future) included.
   */
  lemma DaysAgoReadsBack(diffMs: int, localeDate: string)
    requires var days := DaysAgo(diffMs); days != 0 && days != 1 && days < 7
    ensures var s := DateText(diffMs, localeDate);
      |s| > 9 && s[|s| - 9..] == " days ago" &&
      Decimal.ParseInt(s[..|s| - 9]) == Some(DaysAgo(diffMs))
  {
    var days := DaysAgo(diffMs);
    var text := Decimal.IntText(days);
    var s := DateText(diffMs, localeDate);
    assert s == text + " days ago";
    assert s[..|s| - 9] == text;
    Decimal.IntTextRoundTrip(days);
  }

  /** A project edited up to a day ahead of the clock shows "-1 days ago". */
  lemma FutureDateExample()
    ensures DateText(-1, "1/1/2025") == "-1 days ago"
  {
    assert DaysAgo(-1) == -1;
    assert Decimal.NatText(1) == [Decimal.DigitChar(1)];
  }

  /** The callbacks the card's menu invokes. */
  datatype CardCall = Duplicate(projectId: string) | Delete(projectId: string)

  /** The open/closed state of one card's menu. */
  class CardMenu {
    var showMenu: bool

    constructor()
      ensures !showMenu
    {
      showMenu := false;
    }

    /** The menu button flips the menu. */
    method Toggle()
      modifies this
      ensures showMenu == !old(showMenu)
    {
      showMenu := !showMenu;
    }

    /** Choosing Duplicate invokes the callback with the card's project and then closes the menu. */
    method ChooseDuplicate(projectId: string) returns (call: CardCall)
      modifies this
      ensures call == Duplicate(projectId) && !showMenu
    {
      call := Duplicate(projectId);
      showMenu := false;
    }

    /** Choosing Delete invokes the callback with the card's project and then closes the menu. */
    method ChooseDelete(projectId: string) returns (call: CardCall)
      modifies this
      ensures call == Delete(projectId) && !showMenu
    {
      call := Delete(projectId);
      showMenu := false;
    }
  }
}
