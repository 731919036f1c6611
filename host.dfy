/**
 * What the pipeline takes from its JavaScript host and is left abstract here:
 * the regular-expression engine and the clock and calendar. Both are values
 * passed in by the caller, so every step of the pipeline is a deterministic
 * function of its inputs.
 */
module Host {
  import opened Basics

  // ---------------------------------------------------------------------------
  // Regular expressions

  /** A regular-expression literal, identified by its source text and flags
      (`/ux\s*research/i` is Regex(@"ux\s*research", "i")). */
  datatype Regex = Regex(source: string, flags: string)

  /** The regular-expression engine: exec(r, s) is the match array of
      r.exec(s), the whole match first and then one entry per capture group
      ("" for a group that took no part), or None when r does not match s. */
  datatype Engine = Engine(exec: (Regex, string) -> Option<seq<string>>)

  /** RegExp.prototype.test. */
  predicate Test(e: Engine, r: Regex, s: string) {
    e.exec(r, s).Some?
  }

  /** match[k] of a match array; a group that is not there reads as "". */
  function Group(m: seq<string>, k: nat): string {
    if k < |m| then m[k] else ""
  }

  /** `patterns.some((p) => p.test(s))`. */
  function AnyMatch(e: Engine, patterns: seq<Regex>, s: string): (r: bool)
    ensures r <==> exists k :: 0 <= k < |patterns| && Test(e, patterns[k], s)
  {
    if patterns == [] then false
    else if Test(e, patterns[0], s) then true
    else
      assert forall k :: 1 <= k < |patterns| ==> patterns[k] == patterns[1..][k - 1];
      AnyMatch(e, patterns[1..], s)
  }

  /** The index of the first pattern that matches s, trying them in order. */
  function FirstMatch(e: Engine, patterns: seq<Regex>, s: string): (r: Option<nat>)
    ensures r.None? <==> forall k :: 0 <= k < |patterns| ==> !Test(e, patterns[k], s)
    ensures r.Some? ==> r.value < |patterns| && Test(e, patterns[r.value], s) &&
                        forall j :: 0 <= j < r.value ==> !Test(e, patterns[j], s)
  {
    if patterns == [] then None
    else if Test(e, patterns[0], s) then Some(0)
    else
      match FirstMatch(e, patterns[1..], s)
      case None =>
        assert forall k :: 1 <= k < |patterns| ==> patterns[k] == patterns[1..][k - 1];
        None
      case Some(k) => Some(k + 1)
  }

  // ---------------------------------------------------------------------------
  // Time

  const MS_PER_MINUTE: int := 60_000
  const MS_PER_HOUR: int := 3_600_000
  const MS_PER_DAY: int := 86_400_000

  /** The largest distance from the epoch, in milliseconds, that a JavaScript
      Date can hold. */
  const MAX_TIME: int := 8_640_000_000_000_000

  /** A time value a valid Date can hold. */
  type Instant = t: int | -MAX_TIME <= t <= MAX_TIME

  /** A JavaScript Date: a time value in milliseconds since the epoch, or the
      invalid date (time value NaN). */
  datatype Date = At(ms: Instant) | InvalidDate

  /** TimeClip: a time value outside the representable range gives the invalid date. */
  function TimeClip(t: int): (d: Date)
    ensures d.At? <==> -MAX_TIME <= t <= MAX_TIME
    ensures d.At? ==> d.ms == t
  {
    if -MAX_TIME <= t <= MAX_TIME then At(t) else InvalidDate
  }

  /** `a >= b` on two Dates: a comparison with an invalid date is false. */
  predicate AtOrAfter(a: Date, b: Date) {
    a.At? && b.At? && a.ms >= b.ms
  }

  /** The calendar day (days since the epoch, UTC) a time value falls on; the
      date part of Date.prototype.toISOString. */
  function DayOf(t: int): int {
    t / MS_PER_DAY
  }

  /** The clock and calendar of the host:
      - now: Date.now() for this request;
      - parse: `new Date(text)`;
      - monthsBefore(t, n): the Date reached by `d.setMonth(d.getMonth() - n)`
        from a Date holding t;
      - shortDate(t): `toLocaleDateString("en-US", { month: "short", day: "numeric" })`. */
  datatype Clock = Clock(
    now: Instant,
    parse: string -> Date,
    monthsBefore: (Instant, int) -> Date,
    shortDate: Instant -> string)
}
