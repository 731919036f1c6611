/**
 * Dates in job listings (lib/date-utils.ts): reading a posting date from
 * text, the recency window, and the relative labels shown for a date.
 *
 * Dates are time values in milliseconds; the Date object that the source
 * creates and then moves back with setMinutes/setHours/setDate/setMonth is the
 * time value it ends up holding. Days are 24-hour days (no daylight-saving
 * shifts); months come from the host calendar.
 */
module DateUtils {
  import opened Basics
  import opened Host

  /** How many days back a listing still counts as recent. */
  const RECENCY_DAYS: int := 14

  /** The relative phrase parseJobDate looks for in the trimmed, lower-cased text. */
  const RELATIVE_PHRASE: Regex := Regex(@"(\d+)\s*([mhdw]|minute|hour|day|week|month)s?\s+ago", "")

  datatype TimeUnit = Minute | Hour | Day | Week | Month

  /** The case of the unit switch that a captured unit selects, after the
      abbreviations m, h, d and w are mapped to minute, hour, day and week;
      None when it selects no case. */
  function UnitOf(captured: string): (u: Option<TimeUnit>)
    ensures u == Some(Minute) <==> captured == "m" || captured == "minute"
    ensures u == Some(Hour) <==> captured == "h" || captured == "hour"
    ensures u == Some(Day) <==> captured == "d" || captured == "day"
    ensures u == Some(Week) <==> captured == "w" || captured == "week"
    ensures u == Some(Month) <==> captured == "month"
  {
    var normalized :=
      if captured == "m" then "minute"
      else if captured == "h" then "hour"
      else if captured == "d" then "day"
      else if captured == "w" then "week"
      else captured;
    if normalized == "minute" then Some(Minute)
    else if normalized == "hour" then Some(Hour)
    else if normalized == "day" then Some(Day)
    else if normalized == "week" then Some(Week)
    else if normalized == "month" then Some(Month)
    else None
  }

  /** The Date `amount` units before the time value t: what setMinutes,
      setHours, setDate (a week being seven days) or setMonth leave in a Date
      holding t when the field is moved back by `amount`. An amount that is
      NaN (None) gives the invalid date, and so does a result outside the
      Date range. */
  function Before(c: Clock, t: Instant, u: TimeUnit, amount: Option<int>): Date {
    match amount
    case None => InvalidDate
    case Some(n) =>
      match u
      case Minute => TimeClip(t - n * MS_PER_MINUTE)
      case Hour => TimeClip(t - n * MS_PER_HOUR)
      case Day => TimeClip(t - n * MS_PER_DAY)
      case Week => TimeClip(t - n * 7 * MS_PER_DAY)
      case Month => c.monthsBefore(t, n)
  }

  /** A JavaScript Date object, which parseJobDate and isWithinRecencyWindow
      create and then move back in place. */
  class JsDate {
    var time: Date

    /** `new Date()` at the time value t. */
    constructor (t: Instant)
      ensures time == At(t)
    {
      time := At(t);
    }

    /** Moves the date back by `amount` units; an invalid date stays invalid. */
    method MoveBack(c: Clock, u: TimeUnit, amount: Option<int>)
      modifies this
      ensures old(time).At? ==> time == Before(c, old(time).ms, u, amount)
      ensures old(time).InvalidDate? ==> time == InvalidDate
    {
      if time.At? {
        time := Before(c, time.ms, u, amount);
      }
    }
  }

  /** The text parseJobDate matches against: trimmed and lower-cased. */
  function DateText(raw: string): string {
    Lower(Trim(raw))
  }

  /** The outcome of the relative-phrase branch: None when the phrase does not
      match or names no unit of the switch. */
  function RelativeDate(e: Engine, c: Clock, text: string): Option<Date> {
    match e.exec(RELATIVE_PHRASE, text)
    case None => None
    case Some(m) =>
      match UnitOf(Group(m, 2))
      case None => None
      case Some(u) => Some(Before(c, c.now, u, ParseInt(Group(m, 1))))
  }

  /** parseJobDate: None for a missing or empty text; otherwise the relative
      phrase, then "today" and "yesterday", then the host's date parser. */
  function JobDate(e: Engine, c: Clock, raw: string): (r: Option<Date>)
    ensures raw == "" ==> r.None?
    ensures r == Some(InvalidDate) ==>
              RelativeDate(e, c, DateText(raw)) == r ||
              (DateText(raw) == "yesterday" && c.now - MS_PER_DAY < -MAX_TIME)
  {
    if raw == "" then None
    else
      var text := DateText(raw);
      match RelativeDate(e, c, text)
      case Some(d) => Some(d)
      case None =>
        if text == "today" then Some(At(c.now))
        else if text == "yesterday" then Some(TimeClip(c.now - MS_PER_DAY))
        else
          match c.parse(raw)
          case At(t) => Some(At(t))
          case InvalidDate => None
  }

  /** The relative-phrase branch of parseJobDate: a fresh Date for now, moved
      back in place by the captured count of the captured unit. */
  method MatchRelativePhrase(e: Engine, c: Clock, text: string) returns (r: Option<Date>)
    ensures r == RelativeDate(e, c, text)
  {
    var relativeMatch := e.exec(RELATIVE_PHRASE, text);
    if relativeMatch.Some? {
      var amount := ParseInt(Group(relativeMatch.value, 1));
      var unit := UnitOf(Group(relativeMatch.value, 2));
      if unit.Some? {
        var now := new JsDate(c.now);
        now.MoveBack(c, unit.value, amount);
        return Some(now.time);
      }
    }
    return None;
  }

  /** parseJobDate as the source runs it: the relative phrase first, then a
      fresh Date for "today", or one moved back a day for "yesterday", then
      the host's parser. */
  method ParseJobDate(e: Engine, c: Clock, raw: string) returns (r: Option<Date>)
    ensures r == JobDate(e, c, raw)
  {
    if raw == "" {
      return None;
    }
    var text := DateText(raw);
    TodayAndYesterday(e, c, raw);
    var relative := MatchRelativePhrase(e, c, text);
    if relative.Some? {
      return relative;
    }
    if text == "today" {
      assert JobDate(e, c, raw) == Some(At(c.now));
      var now := new JsDate(c.now);
      return Some(now.time);
    }
    if text == "yesterday" {
      assert JobDate(e, c, raw) == Some(Before(c, c.now, Day, Some(1)));
      var d := new JsDate(c.now);
      d.MoveBack(c, Day, Some(1));
      return Some(d.time);
    }
    FallbackParse(e, c, raw);
    var parsed := c.parse(raw);
    if parsed.At? {
      return Some(parsed);
    }
    return None;
  }

  /** "N unit ago" is N units before now, in the unit the captured word
      selects (see UnitOf: m is minutes, not months); a count that does not
      parse gives the invalid date. */
  lemma RelativePhraseMeaning(e: Engine, c: Clock, raw: string, m: seq<string>, u: TimeUnit)
    requires raw != ""
    requires e.exec(RELATIVE_PHRASE, DateText(raw)) == Some(m)
    requires UnitOf(Group(m, 2)) == Some(u)
    ensures JobDate(e, c, raw) == Some(Before(c, c.now, u, ParseInt(Group(m, 1))))
  {
  }

  /** A week is seven 24-hour days. */
  lemma WeekIsSevenDays(c: Clock, t: Instant, n: int)
    ensures Before(c, t, Week, Some(n)) == Before(c, t, Day, Some(7 * n))
  {
    assert n * 7 * MS_PER_DAY == 7 * n * MS_PER_DAY;
  }

  /** "today" and "yesterday" are only looked at once the relative phrase has
      not produced a date. */
  lemma TodayAndYesterday(e: Engine, c: Clock, raw: string)
    requires raw != ""
    ensures RelativeDate(e, c, DateText(raw)).Some? ==>
              JobDate(e, c, raw) == RelativeDate(e, c, DateText(raw))
    ensures RelativeDate(e, c, DateText(raw)).None? && DateText(raw) == "today" ==>
              JobDate(e, c, raw) == Some(At(c.now))
    ensures RelativeDate(e, c, DateText(raw)).None? && DateText(raw) == "yesterday" ==>
              JobDate(e, c, raw) == Some(TimeClip(c.now - MS_PER_DAY))
  {
  }

  /** Any other text goes to the host's parser, and an invalid result gives None. */
  lemma FallbackParse(e: Engine, c: Clock, raw: string)
    requires raw != ""
    requires RelativeDate(e, c, DateText(raw)).None?
    requires DateText(raw) != "today" && DateText(raw) != "yesterday"
    ensures JobDate(e, c, raw) == (if c.parse(raw).At? then Some(c.parse(raw)) else None)
  {
  }

  /** `date >= cutoff` where the cutoff is `days` days before now. */
  function WithinRecencyWindow(date: Date, now: Instant, days: int := RECENCY_DAYS): bool {
    AtOrAfter(date, TimeClip(now - days * MS_PER_DAY))
  }

  /** isWithinRecencyWindow as the source runs it: a cutoff Date for now,
      moved back `days` days in place, compared with the date. */
  method IsWithinRecencyWindow(c: Clock, date: Date, days: int := RECENCY_DAYS) returns (r: bool)
    ensures r == WithinRecencyWindow(date, c.now, days)
  {
    var cutoff := new JsDate(c.now);
    cutoff.MoveBack(c, Day, Some(days));
    r := AtOrAfter(date, cutoff.time);
  }

  /** The window is inclusive: a valid date is recent exactly when it is at or
      after now minus the given number of days; an invalid date never is. */
  lemma RecencyBoundary(date: Date, now: Instant, days: int)
    requires -MAX_TIME <= now - days * MS_PER_DAY
    ensures WithinRecencyWindow(date, now, days) <==> date.At? && date.ms >= now - days * MS_PER_DAY
  {
  }

  /** A wider window keeps everything a narrower one keeps. */
  lemma RecencyMonotone(date: Date, now: Instant, days: int, wider: int)
    requires 0 <= days <= wider
    requires -MAX_TIME <= now - wider * MS_PER_DAY
    ensures WithinRecencyWindow(date, now, days) ==> WithinRecencyWindow(date, now, wider)
  {
    assert now - wider * MS_PER_DAY <= now - days * MS_PER_DAY;
  }

  /** Whole days from t to now, rounded down. */
  function ElapsedDays(now: Instant, t: Instant): int {
    (now - t) / MS_PER_DAY
  }

  /** formatRelativeDate: the label shown for a posting date. */
  function FormatRelativeDate(c: Clock, dateStr: string): string {
    match c.parse(dateStr)
    case InvalidDate => "Unknown"
    case At(t) =>
      var diffDays := ElapsedDays(c.now, t);
      if diffDays < 0 then "Today"
      else if diffDays == 0 then "Today"
      else if diffDays == 1 then "Yesterday"
      else if diffDays < 7 then DecimalString(diffDays) + "d ago"
      else if diffDays < 30 then DecimalString(diffDays / 7) + "w ago"
      else c.shortDate(t)
  }

  /** The label by elapsed whole days: none (or a date in the future) is
      "Today", one is "Yesterday", then days up to a week, weeks up to thirty
      days, and the host's short date after that. The number in a "d ago" or
      "w ago" label reads back as the days or whole weeks elapsed. */
  lemma RelativeLabels(c: Clock, dateStr: string)
    ensures c.parse(dateStr).InvalidDate? ==> FormatRelativeDate(c, dateStr) == "Unknown"
    ensures c.parse(dateStr).At? ==>
      var t := c.parse(dateStr).ms;
      var days := ElapsedDays(c.now, t);
      var shown := FormatRelativeDate(c, dateStr);
      && (days <= 0 ==> shown == "Today")
      && (days == 1 ==> shown == "Yesterday")
      && (2 <= days < 7 ==> EndsWith(shown, "d ago") && ParseInt(shown) == Some(days))
      && (7 <= days < 30 ==> EndsWith(shown, "w ago") && ParseInt(shown) == Some(days / 7))
      && (30 <= days ==> shown == c.shortDate(t))
  {
    if c.parse(dateStr).At? {
      var t := c.parse(dateStr).ms;
      var days := ElapsedDays(c.now, t);
      if 2 <= days < 7 {
        ParseIntWithSuffix(days, "d ago");
      } else if 7 <= days < 30 {
        ParseIntWithSuffix(days / 7, "w ago");
      }
    }
  }

  /** A date less than a day old is "Today" and one between one and two days
      old is "Yesterday". */
  lemma ElapsedDayBounds(now: Instant, t: Instant)
    ensures now - t < MS_PER_DAY ==> ElapsedDays(now, t) <= 0
    ensures MS_PER_DAY <= now - t < 2 * MS_PER_DAY ==> ElapsedDays(now, t) == 1
    ensures 7 * MS_PER_DAY <= now - t ==> ElapsedDays(now, t) >= 7
  {
  }

  lemma ParseIntWithSuffix(n: nat, suffix: string)
    requires suffix == [] || !IsDigit(suffix[0])
    ensures ParseInt(DecimalString(n) + suffix) == Some(n)
  {
    ParseIntDigitsThen(n, suffix);
  }
}
