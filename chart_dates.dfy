/** The x-axis label both charts derive from a fixture date. */
module ChartDates {
  import opened JsBuiltins

  /** `date.split('-').slice(1).join('/')`: drop the first `-`-separated
      segment and join the others with `/`. */
  function DisplayDate(date: string): string
  {
    Join(Split(date, '-')[1..], "/")
  }

  /** Three dash-free segments lose the first and keep the other two. */
  lemma {:induction false} DisplayDateOfParts(year: string, month: string, day: string)
    requires '-' !in year && '-' !in month && '-' !in day
    ensures DisplayDate(year + "-" + month + "-" + day) == month + "/" + day
  {
    var s := year + "-" + month + "-" + day;
    assert s == year + ['-'] + (month + ['-'] + day);
    SplitAtFirstSeparator(year, '-', month + ['-'] + day);
    SplitAtFirstSeparator(month, '-', day);
    SplitWithoutSeparator(day, '-');
    assert Split(s, '-') == [year, month, day];
    assert Split(s, '-')[1..] == [month, day];
    assert [month, day][1..] == [day];
    assert Join([month, day], "/") == month + "/" + Join([day], "/");
  }

  /** A `YYYY-MM-DD` date. */
  predicate IsIsoDate(date: string)
  {
    |date| == 10 && date[4] == '-' && date[7] == '-'
    && forall i :: 0 <= i < 10 && i != 4 && i != 7 ==> IsDigit(date[i])
  }

  /** `YYYY-MM-DD` becomes `MM/DD`. */
  lemma IsoDisplayDate(date: string)
    requires IsIsoDate(date)
    ensures DisplayDate(date) == date[5..7] + "/" + date[8..]
    ensures |DisplayDate(date)| == 5
  {
    var year, month, day := date[..4], date[5..7], date[8..];
    assert date == year + "-" + month + "-" + day;
    assert forall i :: 0 <= i < |year| ==> IsDigit(year[i]);
    assert forall i :: 0 <= i < |month| ==> IsDigit(month[i]) by {
      forall i | 0 <= i < |month| ensures IsDigit(month[i]) { assert month[i] == date[5 + i]; }
    }
    assert forall i :: 0 <= i < |day| ==> IsDigit(day[i]) by {
      forall i | 0 <= i < |day| ensures IsDigit(day[i]) { assert day[i] == date[8 + i]; }
    }
    DisplayDateOfParts(year, month, day);
  }

  /** A date without a dash has an empty label. */
  lemma DisplayDateWithoutDash(date: string)
    requires '-' !in date
    ensures DisplayDate(date) == ""
  {
    SplitWithoutSeparator(date, '-');
  }
}
