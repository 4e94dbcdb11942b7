/**
 * Presentation helpers for values shown to the user: unit suffixes
 * (`append_unit`), dropping seconds from a time (`remove_seconds_from_time`)
 * and rendering a `date time` stamp (`format_datetime`). The source wraps the
 * last two in try/finally so that malformed input comes back as it was; here
 * that fallback is an explicit branch.
 */
module Text {
  import opened Strings

  /**
   * `append_unit`: the unit follows the value, after a space, exactly when the
   * value parses as a number. `isNumber` stands for the source's float-parse
   * probe `is_number`.
   */
  function AppendUnit(isNumber: string -> bool, text: string, unit: string): (r: string)
    ensures StartsWith(r, text)
    ensures r == text <==> !isNumber(text)
    ensures isNumber(text) ==> EndsWith(r, unit) && r[|text|] == ' '
    ensures isNumber(text) ==> |r| == |text| + 1 + |unit|
  {
    if isNumber(text) then text + " " + unit else text
  }

  /** `remove_seconds_from_time`: keeps the first two colon-separated fields. */
  function RemoveSecondsFromTime(time: string): (r: string)
    ensures Count(r, ':') <= 1
    ensures Count(time, ':') <= 1 ==> r == time
  {
    var fields := Split(time, ':');
    var kept := if |fields| <= 2 then fields else fields[..2];
    CountJoin(kept, ':');
    JoinSplit(time, ':');
    Join(kept, ':')
  }

  /**
   * With two colons or more, the result is exactly the text before the second
   * colon: hours and minutes of `HH:MM:SS`.
   */
  lemma SecondsDropped(time: string)
    requires Count(time, ':') >= 2
    ensures var r := RemoveSecondsFromTime(time);
      Count(r, ':') == 1 && exists rest :: time == r + ":" + rest
  {
    var fields := Split(time, ':');
    JoinSplit(time, ':');
    JoinAppend(fields, 2, ':');
    CountJoin(fields[..2], ':');
    assert time == Join(fields[..2], ':') + ":" + Join(fields[2..], ':');
  }

  /**
   * `format_datetime`: a stamp with exactly one space becomes the date with
   * `-` turned into `/`, then ` at `, then the time without seconds. Any other
   * text fails the two-way unpacking and is returned as it was.
   */
  function FormatDatetime(stamp: string): (r: string)
    ensures Count(stamp, ' ') != 1 ==> r == stamp
  {
    var parts := Split(stamp, ' ');
    if |parts| != 2 then stamp
    else ReplaceChar(parts[0], '-', '/') + " at " + RemoveSecondsFromTime(parts[1])
  }

  /** The one-space case, stated on the two halves of the stamp. */
  lemma FormatDatetimeSplitsAtSpace(date: string, time: string)
    requires ' ' !in date && ' ' !in time
    ensures FormatDatetime(date + " " + time) ==
              ReplaceChar(date, '-', '/') + " at " + RemoveSecondsFromTime(time)
  {
    SplitAtFirst(date, time, ' ');
    SplitWithoutSeparator(time, ' ');
  }

  /** A stamp field free of the three separators. */
  predicate NoSeparators(field: string) {
    ' ' !in field && '-' !in field && ':' !in field
  }

  /**
   * A `YYYY-MM-DD HH:MM:SS` stamp is shown as `YYYY/MM/DD at HH:MM`, for any
   * field contents free of the three separators.
   */
  lemma FormatDatetimeStamp(y: string, mo: string, d: string, hh: string, mi: string, ss: string)
    requires NoSeparators(y) && NoSeparators(mo) && NoSeparators(d)
    requires NoSeparators(hh) && NoSeparators(mi) && NoSeparators(ss)
    ensures FormatDatetime(y + "-" + mo + "-" + d + " " + hh + ":" + mi + ":" + ss)
            == y + "/" + mo + "/" + d + " at " + hh + ":" + mi
  {
    var date, time := y + "-" + mo + "-" + d, hh + ":" + (mi + ":" + ss);
    assert ' ' !in date && ' ' !in time;
    assert y + "-" + mo + "-" + d + " " + hh + ":" + mi + ":" + ss == date + " " + time;
    FormatDatetimeSplitsAtSpace(date, time);
    ReplaceChar3(y, mo, d);
    TimeFields(time, hh, mi, ss);
  }

  lemma ReplaceChar3(y: string, mo: string, d: string)
    requires '-' !in y && '-' !in mo && '-' !in d
    ensures ReplaceChar(y + "-" + mo + "-" + d, '-', '/') == y + "/" + mo + "/" + d
  {
    var r := ReplaceChar(y + "-" + mo + "-" + d, '-', '/');
    assert |r| == |y + "/" + mo + "/" + d|;
  }

  lemma TimeFields(time: string, hh: string, mm: string, ss: string)
    requires ':' !in hh && ':' !in mm && ':' !in ss
    requires time == hh + ":" + (mm + ":" + ss)
    ensures RemoveSecondsFromTime(time) == hh + ":" + mm
  {
    SplitAtFirst(hh, mm + ":" + ss, ':');
    SplitAtFirst(mm, ss, ':');
    SplitWithoutSeparator(ss, ':');
    var fields := Split(time, ':');
    assert fields == [hh, mm, ss];
    assert fields[..2] == [hh, mm];
    assert Join([hh, mm], ':') == hh + [':'] + Join([mm], ':');
  }
}
