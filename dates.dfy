/**
 * The `components.dates` package: the elapsed-time arithmetic of
 * `MessageDateFormatter` and the decision tree of
 * `DefaultMessageDateFormatter.format`. The wall clock is the explicit
 * parameter `now`; a `SimpleDateFormat` rendering is kept symbolic as
 * `Formatted(prefix, pattern, date)`.
 */
module Dates {
  import opened Platform

  /** "10 minutes ago", "a minute ago", ... */
  const FLAG_MINUTES: bv32 := 0x1
  /** "Today at 5:30pm", "Yesterday at 5:30pm", "Monday at 5:30pm" */
  const FLAG_DAYS: bv32 := 0x2
  const FLAG_ALL: bv32 := 0x3

  const MILLIS_PER_MINUTE: int := 60000
  const MILLIS_PER_DAY: int := 86400000

  lemma FlagAllIsBoth()
    ensures FLAG_ALL == FLAG_MINUTES | FLAG_DAYS
  {
  }

  predicate HasFlag(flags: bv32, flag: bv32)
  {
    (flags & flag) == flag
  }

  function Abs(x: int): int
  {
    if x < 0 then -x else x
  }

  /** Java's `long` division (as in `TimeUnit.toMinutes`): it truncates toward zero. */
  function Quot(a: int, b: int): (q: int)
    requires b > 0
    ensures a >= 0 ==> q >= 0 && q * b <= a < q * b + b
    ensures a < 0 ==> q <= 0 && q * b - b < a <= q * b
  {
    if a >= 0 then a / b else -((-a) / b)
  }

  /** `getMinutesAgo`: whole minutes from `date` to `now`, truncated toward zero. */
  function MinutesAgo(now: Millis, date: Millis): (minutes: int)
    ensures minutes == (if now >= date then MinutesBetween(now, date) else -MinutesBetween(now, date))
  {
    Quot(now - date, MILLIS_PER_MINUTE)
  }

  /** `getMinutesBetween`: whole minutes between the two dates, whichever comes first. */
  function MinutesBetween(first: Millis, second: Millis): (minutes: int)
    ensures minutes >= 0
    ensures minutes * MILLIS_PER_MINUTE <= Abs(first - second) < minutes * MILLIS_PER_MINUTE + MILLIS_PER_MINUTE
  {
    Abs(Quot(first - second, MILLIS_PER_MINUTE))
  }

  lemma MinutesBetweenSymmetric(first: Millis, second: Millis)
    ensures MinutesBetween(first, second) == MinutesBetween(second, first)
  {
    var d := first - second;
    assert Quot(-d, MILLIS_PER_MINUTE) == -Quot(d, MILLIS_PER_MINUTE);
  }

  /** `getDaysAgo`: whole days from `date` to `now`, truncated toward zero. */
  function DaysAgo(now: Millis, date: Millis): (days: int)
    ensures now >= date ==> days >= 0 && days * MILLIS_PER_DAY <= now - date < days * MILLIS_PER_DAY + MILLIS_PER_DAY
    ensures now < date ==> days <= 0 && now - date > days * MILLIS_PER_DAY - MILLIS_PER_DAY
  {
    Quot(now - date, MILLIS_PER_DAY)
  }

  /**
   * `isToday`: fewer than 24 hours have passed (a future date counts as
   * today); it is not a calendar-day test.
   */
  function IsToday(now: Millis, date: Millis): (today: bool)
    ensures today <==> now - date < MILLIS_PER_DAY
  {
    DaysAgo(now, date) < 1
  }

  /**
   * The formatter's two settings; the setters change one field each. The
   * abstract Java class is modelled as its one implementation,
   * `DefaultMessageDateFormatter`, whose `format` is `FormatDate`.
   */
  class MessageDateFormatter {
    var defaultFormat: string
    var flags: bv32

    constructor (defaultFormat: string, flags: bv32)
      ensures this.defaultFormat == defaultFormat && this.flags == flags
    {
      this.defaultFormat := defaultFormat;
      this.flags := flags;
    }

    method SetFlags(flags: bv32)
      modifies this
      ensures this.flags == flags && defaultFormat == old(defaultFormat)
    {
      this.flags := flags;
    }

    method SetDefaultFormat(format: string)
      modifies this
      ensures defaultFormat == format && flags == old(flags)
    {
      defaultFormat := format;
    }

    /** `format(date)` of the default formatter, with these settings. */
    function FormatDate(now: Millis, date: Millis): DateText
      reads this
    {
      Format(flags, defaultFormat, now, date)
    }
  }

  /**
   * A rendered date: a fixed phrase, or `prefix` followed by
   * `new SimpleDateFormat(pattern, Locale.US).format(date)`.
   */
  datatype DateText = Phrase(text: string) | Formatted(prefix: string, pattern: string, date: Millis)

  const TODAY_PATTERN := "h:mm aa"
  const WEEK_PATTERN := "EEEE 'at' h:mm aa"

  function Digit(d: nat): char
    requires d < 10
  {
    ('0' as int + d) as char
  }

  /** `Long.toString(n)` for a non-negative `n`. */
  function DecimalString(n: nat): (s: string)
    ensures |s| >= 1 && forall i :: 0 <= i < |s| ==> '0' <= s[i] <= '9'
  {
    if n < 10 then [Digit(n)] else DecimalString(n / 10) + [Digit(n % 10)]
  }

  function DecimalValue(s: string): nat
    requires forall i :: 0 <= i < |s| ==> '0' <= s[i] <= '9'
  {
    if s == [] then 0 else DecimalValue(s[..|s| - 1]) * 10 + (s[|s| - 1] as int - '0' as int)
  }

  /** The decimal rendering loses nothing: reading it back gives the number. */
  lemma {:induction false} DecimalRoundTrip(n: nat)
    ensures DecimalValue(DecimalString(n)) == n
  {
    if n >= 10 {
      DecimalRoundTrip(n / 10);
      var s := DecimalString(n);
      assert s[..|s| - 1] == DecimalString(n / 10);
    }
  }

  /**
   * `DefaultMessageDateFormatter.format`. With `FLAG_MINUTES` and a date
   * less than a day old, recent dates read as minutes ago; otherwise
   * `FLAG_DAYS` gives "Yesterday at" below two days and the weekday below
   * eight; everything else uses the default pattern.
   */
  function Format(flags: bv32, defaultFormat: string, now: Millis, date: Millis): (r: DateText)
    ensures HasFlag(flags, FLAG_MINUTES) && now - date < MILLIS_PER_MINUTE ==> r == Phrase("Just now")
    ensures HasFlag(flags, FLAG_MINUTES) && MILLIS_PER_MINUTE <= now - date < 2 * MILLIS_PER_MINUTE
            ==> r == Phrase("A minute ago")
    ensures HasFlag(flags, FLAG_MINUTES) && 2 * MILLIS_PER_MINUTE <= now - date < 60 * MILLIS_PER_MINUTE
            ==> r == Phrase(DecimalString((now - date) / MILLIS_PER_MINUTE) + " minutes ago")
    ensures HasFlag(flags, FLAG_MINUTES) && 60 * MILLIS_PER_MINUTE <= now - date < MILLIS_PER_DAY
            ==> r == if HasFlag(flags, FLAG_DAYS) then Formatted("Today at ", TODAY_PATTERN, date)
                     else Formatted("", defaultFormat, date)
    ensures !(HasFlag(flags, FLAG_MINUTES) && now - date < MILLIS_PER_DAY)
            ==> r == if HasFlag(flags, FLAG_DAYS) && now - date < 2 * MILLIS_PER_DAY
                       then Formatted("Yesterday at ", TODAY_PATTERN, date)
                     else if HasFlag(flags, FLAG_DAYS) && now - date < 8 * MILLIS_PER_DAY
                       then Formatted("", WEEK_PATTERN, date)
                     else Formatted("", defaultFormat, date)
  {
    var minutesAgo := MinutesAgo(now, date);
    var daysAgo := DaysAgo(now, date);
    if HasFlag(flags, FLAG_MINUTES) && IsToday(now, date) then
      if minutesAgo < 60 then
        if minutesAgo < 1 then Phrase("Just now")
        else if minutesAgo < 2 then Phrase("A minute ago")
        else Phrase(DecimalString(minutesAgo) + " minutes ago")
      else if HasFlag(flags, FLAG_DAYS) then Formatted("Today at ", TODAY_PATTERN, date)
      else Formatted("", defaultFormat, date)
    else if HasFlag(flags, FLAG_DAYS) && daysAgo < 2 then Formatted("Yesterday at ", TODAY_PATTERN, date)
    else if HasFlag(flags, FLAG_DAYS) && daysAgo < 8 then Formatted("", WEEK_PATTERN, date)
    else Formatted("", defaultFormat, date)
  }

  /** With only `FLAG_DAYS`, a message a few minutes old reads "Yesterday at ...". */
  lemma DaysOnlyRecentReadsYesterday(defaultFormat: string, now: Millis, date: Millis)
    requires 0 <= now - date < 2 * MILLIS_PER_DAY
    ensures Format(FLAG_DAYS, defaultFormat, now, date) == Formatted("Yesterday at ", TODAY_PATTERN, date)
  {
  }

  /** With no flag set, every date uses the default pattern. */
  lemma NoFlagsUseDefaultFormat(defaultFormat: string, now: Millis, date: Millis)
    ensures Format(0, defaultFormat, now, date) == Formatted("", defaultFormat, date)
  {
  }
}
