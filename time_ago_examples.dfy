/** The relative dates of the stream record's unit tests, parsed by the model. */
module TimeAgoExamples {
  import opened Wrappers
  import opened Text
  import opened TimeAgo

  lemma ThirtySecondsAgo(text: string, now: int)
    requires text == "30 seconds ago"
    ensures AmountFits(text) && TimestampFromTimeAgo(text, now) == Some(now - 30)
  {
    assert NatToDigits(30) == "30";
    assert text == Render(30, Second, true, " ", " ");
    ParseRenderedAlone(30, Second, true, " ", " ", now);
  }

  lemma FifteenMinutesAgo(text: string, now: int)
    requires text == "15 minutes ago"
    ensures AmountFits(text) && TimestampFromTimeAgo(text, now) == Some(now - 15 * 60)
  {
    assert NatToDigits(15) == "15";
    assert text == Render(15, Minute, true, " ", " ");
    ParseRenderedAlone(15, Minute, true, " ", " ", now);
  }

  lemma TwoHoursAgo(text: string, now: int)
    requires text == "2 hours ago"
    ensures AmountFits(text) && TimestampFromTimeAgo(text, now) == Some(now - 2 * 3600)
  {
    assert NatToDigits(2) == "2";
    assert text == Render(2, Hour, true, " ", " ");
    ParseRenderedAlone(2, Hour, true, " ", " ", now);
  }

  lemma ThreeDaysAgo(text: string, now: int)
    requires text == "3 days ago"
    ensures AmountFits(text) && TimestampFromTimeAgo(text, now) == Some(now - 3 * 86400)
  {
    assert NatToDigits(3) == "3";
    assert text == Render(3, Day, true, " ", " ");
    ParseRenderedAlone(3, Day, true, " ", " ", now);
  }

  lemma TwoWeeksAgo(text: string, now: int)
    requires text == "2 weeks ago"
    ensures AmountFits(text) && TimestampFromTimeAgo(text, now) == Some(now - 2 * 7 * 86400)
  {
    assert NatToDigits(2) == "2";
    assert text == Render(2, Week, true, " ", " ");
    ParseRenderedAlone(2, Week, true, " ", " ", now);
  }

  lemma ThreeMonthsAgo(text: string, now: int)
    requires text == "3 months ago"
    ensures AmountFits(text) && TimestampFromTimeAgo(text, now) == Some(now - 3 * 30 * 86400)
  {
    assert NatToDigits(3) == "3";
    assert text == Render(3, Month, true, " ", " ");
    ParseRenderedAlone(3, Month, true, " ", " ", now);
  }

  lemma TwoYearsAgo(text: string, now: int)
    requires text == "2 years ago"
    ensures AmountFits(text) && TimestampFromTimeAgo(text, now) == Some(now - 2 * 365 * 86400)
  {
    assert NatToDigits(2) == "2";
    assert text == Render(2, Year, true, " ", " ");
    ParseRenderedAlone(2, Year, true, " ", " ", now);
  }

  /** The singular unit word matches too (`s?`). */
  lemma OneYearAgo(text: string, now: int)
    requires text == "1 year ago"
    ensures AmountFits(text) && TimestampFromTimeAgo(text, now) == Some(now - 365 * 86400)
  {
    assert NatToDigits(1) == "1";
    assert text == Render(1, Year, false, " ", " ");
    ParseRenderedAlone(1, Year, false, " ", " ", now);
  }

  /** Text without a number has no timestamp. */
  lemma InvalidFormat(text: string, now: int)
    requires text == "invalid time ago"
    ensures AmountFits(text) && TimestampFromTimeAgo(text, now).None?
  {
    NoDigitsNoTimestamp(text, now);
  }

  lemma EmptyText(text: string, now: int)
    requires text == ""
    ensures AmountFits(text) && TimestampFromTimeAgo(text, now).None?
  {
    NoDigitsNoTimestamp(text, now);
  }

  /** At the digit of `"2 hours from now"` the pattern fails: `"from now"` is not `"ago"`. */
  lemma FutureTimeNoMatchAtDigit(s: string)
    requires s == "2 hours from now"
    ensures MatchAt(s, 0).None?
  {
    assert RunLength(s, 0, Digit) == 1 by {
      RunIsExact(s, 0, 1, Digit);
    }
    assert RunLength(s, 1, Space) == 1 by {
      RunIsExact(s, 1, 1, Space);
    }
    assert UnitAt(s, 2) == Some(Hour) by {
      UnitAtWord(s, 2, Hour);
    }
    assert RunLength(s, 7, Space) == 1 by {
      RunIsExact(s, 7, 1, Space);
    }
    assert !SpanAt(s, "ago", 8) by {
      assert s[8 + 0] != "ago"[0];
    }
    assert s[6] == 's';
    NoAgoAfterHours(s);
  }

  /** A digit, a space, `hours`, a space, and no `ago` there: no match at the digit. */
  lemma NoAgoAfterHours(s: string)
    requires |s| >= 9 && s[6] == 's'
    requires RunLength(s, 0, Digit) == 1 && RunLength(s, 1, Space) == 1 && UnitAt(s, 2) == Some(Hour)
    requires RunLength(s, 7, Space) == 1 && !SpanAt(s, "ago", 8)
    ensures MatchAt(s, 0).None?
  {
  }

  /** A relative date in the future is not read as one in the past. */
  lemma FutureTime(text: string, now: int)
    requires text == "2 hours from now"
    ensures AmountFits(text) && TimestampFromTimeAgo(text, now).None?
  {
    forall p | 0 <= p <= |text| ensures MatchAt(text, p).None? {
      if p == 0 {
        FutureTimeNoMatchAtDigit(text);
      } else {
        NoMatchWithoutDigit(text, p);
      }
    }
    VerdictsAreMatches(text, |text| + 1);
    FirstMatchNone(Verdicts(text, |text| + 1), 0);
  }
}
