/**
 Schedules in words: parseNaturalLanguage of internal/service/jobs.go.  Each regular expression of
 the source is a scanner here; in all of them the next character decides what may follow, so the
 scanners take the longest match.
 */
module NaturalLanguage {
  import opened Common
  import opened Text

  const DAYS: seq<string> := ["sunday", "monday", "tuesday", "wednesday", "thursday", "friday", "saturday"]

  /** What a phrase means: the fields of the cron expression. */
  datatype Plan =
    | EveryMinutes(n: nat)
    | EveryHours(n: nat)
    | EveryHour
    | Daily(hour: nat, minute: nat)
    | Weekdays(hour: nat, minute: nat)
    | Weekly(day: nat, hour: nat, minute: nat)
  {
    /** Every field is in the range that cron accepts. */
    predicate InRange() {
      match this
      case EveryMinutes(n) => 1 <= n <= 59
      case EveryHours(n) => 1 <= n <= 23
      case EveryHour => true
      case Daily(h, m) => h <= 23 && m <= 59
      case Weekdays(h, m) => h <= 23 && m <= 59
      case Weekly(d, h, m) => d <= 6 && h <= 23 && m <= 59
    }

    function Cron(): string
      requires InRange()
    {
      match this
      case EveryMinutes(n) => "*/" + Decimal(n) + " * * * *"
      case EveryHours(n) => "0 */" + Decimal(n) + " * * *"
      case EveryHour => "0 * * * *"
      case Daily(h, m) => Decimal(m) + " " + Decimal(h) + " * * *"
      case Weekdays(h, m) => Decimal(m) + " " + Decimal(h) + " * * 1-5"
      case Weekly(d, h, m) => Decimal(m) + " " + Decimal(h) + " * * " + Decimal(d)
    }

    function Description(): string
      requires InRange()
    {
      match this
      case EveryMinutes(n) => "every " + (Decimal(n) + " minutes")
      case EveryHours(n) => "every " + (Decimal(n) + " hours")
      case EveryHour => "every hour"
      case Daily(h, m) => "daily" + (" at " + Clock(h, m))
      case Weekdays(h, m) => "every " + ("weekday" + (" at " + Clock(h, m)))
      case Weekly(d, h, m) => "every " + (DAYS[d] + (" at " + Clock(h, m)))
    }
  }

  // ---------- numbers ----------

  function Digit(n: nat): char
    requires n < 10
  {
    ('0' as int + n) as char
  }

  predicate IsDigit(c: char) {
    '0' <= c <= '9'
  }

  /** %d and %02d for numbers of at most two digits. */
  function Decimal(n: nat): string
    requires n < 100
  {
    if n < 10 then [Digit(n)] else [Digit(n / 10), Digit(n % 10)]
  }

  function Padded(n: nat): string
    requires n < 100
  {
    [Digit(n / 10), Digit(n % 10)]
  }

  function Clock(h: nat, m: nat): string
    requires h < 100 && m < 100
  {
    Padded(h) + (":" + Padded(m))
  }

  /** strconv.Atoi on digits.  A number too large for an int comes back as the largest int. */
  function Value(digits: string): nat {
    if digits == [] then 0
    else
      var c := digits[|digits| - 1];
      10 * Value(digits[..|digits| - 1]) + (if IsDigit(c) then c as int - '0' as int else 0)
  }

  // ---------- scanners ----------

  /** Lower case.  Only two characters outside ASCII have an ASCII lower case. */
  function LowerChar(c: char): char {
    if 'A' <= c <= 'Z' then (c as int + 32) as char
    else if c as int == 0x130 then 'i'
    else if c as int == 0x212A then 'k'
    else c
  }

  function Lower(s: string): string {
    seq(|s|, i requires 0 <= i < |s| => LowerChar(s[i]))
  }

  /** \\s in a regular expression. */
  predicate IsBlank(c: char) {
    c == ' ' || c == '\t' || c == '\n' || c == '\r' || c as int == 0x0C
  }

  function SkipBlanks(s: string): string {
    if s != [] && IsBlank(s[0]) then SkipBlanks(s[1..]) else s
  }

  /** \\s+ */
  function Blanks(s: string): Option<string> {
    if s != [] && IsBlank(s[0]) then Some(SkipBlanks(s)) else None
  }

  function Word(s: string, w: string): Option<string> {
    if w <= s then Some(s[|w|..]) else None
  }

  /** A word and the blanks after it. */
  function WordBlanks(s: string, w: string): Option<string> {
    match Word(s, w)
    case None => None
    case Some(rest) => Blanks(rest)
  }

  /** The longest run of digits, and the rest. */
  function Digits(s: string): (string, string) {
    if s != [] && IsDigit(s[0]) then
      var (d, rest) := Digits(s[1..]);
      ([s[0]] + d, rest)
    else ("", s)
  }

  /** (\\d+)\\s+units?$ */
  function Count(s: string, unit: string): Option<nat> {
    var (d, rest) := Digits(s);
    if d == "" then None
    else
      match Blanks(rest)
      case None => None
      case Some(u) => if u == unit || u == unit + "s" then Some(Value(d)) else None
  }

  datatype TimeText = TimeText(hour: string, minute: string, half: string)

  /** \\s*(am|pm)?$ */
  function Half(s: string): Option<string> {
    var rest := SkipBlanks(s);
    if rest == "" || rest == "am" || rest == "pm" then Some(rest) else None
  }

  /** (\\d{1,2})(?::(\\d{2}))?\\s*(am|pm)?$ */
  function TimeOfDay(s: string): Option<TimeText> {
    var (h, rest) := Digits(s);
    if |h| < 1 || |h| > 2 then None
    else
      var (m, after) := if rest != [] && rest[0] == ':' then Digits(rest[1..]) else ("", rest);
      var (m', after') := if |m| == 2 then (m, after) else ("", rest);
      match Half(after')
      case None => None
      case Some(half) => Some(TimeText(h, m', half))
  }

  /** \\s+at\\s+ and a time of day. */
  function AtTime(s: string): Option<TimeText> {
    match Blanks(s)
    case None => None
    case Some(a) =>
      match WordBlanks(a, "at")
      case None => None
      case Some(t) => TimeOfDay(t)
  }

  function DayAt(s: string, k: nat): Option<(nat, TimeText)>
    decreases 7 - k
  {
    if k >= 7 then None
    else
      match Word(s, DAYS[k])
      case None => DayAt(s, k + 1)
      case Some(rest) => (match AtTime(rest) case None => None case Some(t) => Some((k, t)))
  }

  /** parseTime: hour and minute on the 24-hour clock. */
  function ParseTime(t: TimeText): Option<(nat, nat)> {
    var hour, minute := Value(t.hour), Value(t.minute);
    var h := if t.half == "pm" && hour != 12 then hour + 12
             else if t.half == "am" && hour == 12 then 0
             else hour;
    if h > 23 || minute > 59 then None else Some((h, minute))
  }

  function ParsePlan(lower: string): Option<Plan> {
    var every := WordBlanks(lower, "every");
    var minutes := if every.Some? then Count(every.value, "minute") else None;
    var hours := if every.Some? then Count(every.value, "hour") else None;
    var daily := match (if every.Some? then Word(every.value, "day") else Word(lower, "daily"))
                 case None => None
                 case Some(rest) => AtTime(rest);
    var weekday := match (if every.Some? then Word(every.value, "weekday") else None)
                   case None => None
                   case Some(rest) => AtTime(rest);
    var weekly := if every.Some? then DayAt(every.value, 0) else None;
    if minutes.Some? then (if 1 <= minutes.value <= 59 then Some(EveryMinutes(minutes.value)) else None)
    else if hours.Some? then (if 1 <= hours.value <= 23 then Some(EveryHours(hours.value)) else None)
    else if every == Some("hour") || lower == "hourly" then Some(EveryHour)
    else if daily.Some? then
      (match ParseTime(daily.value) case None => None case Some((h, m)) => Some(Daily(h, m)))
    else if weekday.Some? then
      (match ParseTime(weekday.value) case None => None case Some((h, m)) => Some(Weekdays(h, m)))
    else if weekly.Some? then
      (match ParseTime(weekly.value.1) case None => None case Some((h, m)) => Some(Weekly(weekly.value.0, h, m)))
    else None
  }

  /** The cron expression and the description of a phrase. */
  function Parse(input: string): Option<(string, string)> {
    match ParsePlan(Lower(Trim(input)))
    case None => None
    case Some(plan) =>
      PlansAreInRange(Lower(Trim(input)));
      Some((plan.Cron(), plan.Description()))
  }

  lemma PlansAreInRange(lower: string)
    ensures ParsePlan(lower).Some? ==> ParsePlan(lower).value.InRange()
  {
    hide Count, AtTime, WordBlanks, Word, Value;
    DayInRange(if WordBlanks(lower, "every").Some? then WordBlanks(lower, "every").value else "", 0);
  }

  lemma {:induction false} DayInRange(s: string, k: nat)
    ensures DayAt(s, k).Some? ==> DayAt(s, k).value.0 <= 6
    decreases 7 - k
  {
    hide AtTime, Word;
    if k < 7 {
      DayInRange(s, k + 1);
    }
  }

  /** The 12-hour clock: noon and midnight are 12, and the two halves cover the day. */
  lemma TwelveHourClock(hour: string, minute: string)
    requires Value(minute) <= 59 && 1 <= Value(hour) <= 12
    ensures ParseTime(TimeText(hour, minute, "am")) == Some((Value(hour) % 12, Value(minute)))
    ensures ParseTime(TimeText(hour, minute, "pm")) == Some((Value(hour) % 12 + 12, Value(minute)))
  {
  }

  // ---------- scanning what was printed ----------

  lemma {:induction false} ReadDigits(d: string, rest: string)
    requires (forall i :: 0 <= i < |d| ==> IsDigit(d[i])) && (rest == [] || !IsDigit(rest[0]))
    ensures Digits(d + rest) == (d, rest)
  {
    if d == [] {
      assert d + rest == rest;
    } else {
      ReadDigits(d[1..], rest);
      assert (d + rest)[1..] == d[1..] + rest && [d[0]] + d[1..] == d;
    }
  }

  lemma ReadBlank(rest: string)
    requires rest != [] && !IsBlank(rest[0])
    ensures Blanks(" " + rest) == Some(rest)
  {
    assert (" " + rest)[1..] == rest;
    assert SkipBlanks(rest) == rest;
  }

  lemma ReadWord(w: string, rest: string)
    ensures Word(w + rest, w) == Some(rest)
  {
    assert (w + rest)[|w|..] == rest;
  }

  lemma ReadWordBlank(w: string, rest: string)
    requires rest != [] && !IsBlank(rest[0])
    ensures WordBlanks(w + (" " + rest), w) == Some(rest)
  {
    ReadWord(w, " " + rest);
    ReadBlank(rest);
  }

  lemma OtherWord(w: string, s: string, i: nat)
    requires i < |w| && i < |s| && w[i] != s[i]
    ensures Word(s, w) == None
  {
  }

  lemma DecimalIsDigits(n: nat)
    requires n < 100
    ensures 1 <= |Decimal(n)| <= 2 && forall i :: 0 <= i < |Decimal(n)| ==> IsDigit(Decimal(n)[i])
    ensures |Padded(n)| == 2 && forall i :: 0 <= i < |Padded(n)| ==> IsDigit(Padded(n)[i])
    ensures Value(Decimal(n)) == n && Value(Padded(n)) == n
  {
    TwoDigits(Digit(n / 10), Digit(n % 10));
    OneDigit(Digit(n % 10));
  }

  lemma OneDigit(c: char)
    requires IsDigit(c)
    ensures Value([c]) == c as int - '0' as int
  {
    assert [c][..0] == [];
  }

  lemma TwoDigits(b: char, c: char)
    requires IsDigit(b) && IsDigit(c)
    ensures Value([b, c]) == 10 * (b as int - '0' as int) + (c as int - '0' as int)
  {
    OneDigit(b);
    assert [b, c][..1] == [b];
  }

  lemma ReadCount(n: nat, unit: string)
    requires n < 100 && unit != [] && !IsBlank(unit[0])
    ensures Count(Decimal(n) + (" " + (unit + "s")), unit) == Some(n)
  {
    hide Decimal, Value;
    DecimalIsDigits(n);
    ReadDigits(Decimal(n), " " + (unit + "s"));
    ReadBlank(unit + "s");
  }

  lemma ReadClock(h: nat, m: nat)
    requires h <= 23 && m <= 59
    ensures AtTime(" at " + Clock(h, m)) == Some(TimeText(Padded(h), Padded(m), ""))
    ensures ParseTime(TimeText(Padded(h), Padded(m), "")) == Some((h, m))
  {
    hide Value, Digit;
    var clock := Clock(h, m);
    DecimalIsDigits(h);
    DecimalIsDigits(m);
    assert " at " + clock == " " + ("at" + (" " + clock));
    ReadBlank("at" + (" " + clock));
    assert clock[0] == Padded(h)[0];
    ReadWordBlank("at", clock);
    ReadTime(Padded(h), Padded(m));
  }

  lemma ReadTime(h: string, m: string)
    requires |h| == 2 && |m| == 2 && (forall i :: 0 <= i < 2 ==> IsDigit(h[i]) && IsDigit(m[i]))
    ensures TimeOfDay(h + (":" + m)) == Some(TimeText(h, m, ""))
  {
    ReadDigits(h, ":" + m);
    assert (":" + m)[1..] == m && m + [] == m;
    ReadDigits(m, []);
    assert SkipBlanks("") == "";
  }

  lemma CalmIsFixed(s: string)
    requires s != [] && Trimmed(s) && AllLower(s)
    ensures Lower(Trim(s)) == s
  {
    TrimFacts(s);
    assert Lower(s) == s;
  }

  // ---------- the description is a fixed point ----------

  lemma ReadEveryMinutes(n: nat)
    requires 1 <= n <= 59
    ensures ParsePlan(EveryMinutes(n).Description()) == Some(EveryMinutes(n))
  {
    hide Count, Value, Digits, Decimal, AtTime;
    var rest := Decimal(n) + " minutes";
    DecimalIsDigits(n);
    assert "every " + rest == "every" + (" " + rest);
    ReadWordBlank("every", rest);
    assert " minutes" == " " + ("minute" + "s");
    ReadCount(n, "minute");
  }

  lemma ReadEveryHours(n: nat)
    requires 1 <= n <= 23
    ensures ParsePlan(EveryHours(n).Description()) == Some(EveryHours(n))
  {
    hide Value, Decimal, AtTime;
    var rest := Decimal(n) + " hours";
    DecimalIsDigits(n);
    assert "every " + rest == "every" + (" " + rest);
    ReadWordBlank("every", rest);
    assert " hours" == " " + ("hour" + "s");
    ReadCount(n, "hour");
    ReadDigits(Decimal(n), " hours");
    ReadBlank("hours");
  }

  /** A phrase "every X ..." whose X does not start with a digit is no count. */
  lemma NoCount(rest: string, unit: string)
    requires rest != [] && !IsDigit(rest[0])
    ensures Count(rest, unit) == None
  {
  }

  lemma ReadEveryHour()
    ensures ParsePlan(EveryHour.Description()) == Some(EveryHour)
  {
    hide Count, AtTime;
    assert "every hour" == "every" + (" " + "hour");
    ReadWordBlank("every", "hour");
    NoCount("hour", "minute");
    NoCount("hour", "hour");
  }

  lemma ReadDaily(h: nat, m: nat)
    requires h <= 23 && m <= 59
    ensures ParsePlan(Daily(h, m).Description()) == Some(Daily(h, m))
  {
    hide Count, AtTime, ParseTime, Clock;
    var tail := " at " + Clock(h, m);
    OtherWord("every", "daily" + tail, 0);
    ReadWord("daily", tail);
    assert ("daily" + tail)[0] != "hourly"[0];
    ReadClock(h, m);
  }

  lemma ReadWeekdays(h: nat, m: nat)
    requires h <= 23 && m <= 59
    ensures ParsePlan(Weekdays(h, m).Description()) == Some(Weekdays(h, m))
  {
    hide Count, AtTime, ParseTime, Clock, DayAt;
    var tail := " at " + Clock(h, m);
    var rest := "weekday" + tail;
    assert "every " + rest == "every" + (" " + rest);
    ReadWordBlank("every", rest);
    NoCount(rest, "minute");
    NoCount(rest, "hour");
    OtherWord("day", rest, 0);
    ReadWord("weekday", tail);
    assert rest[0] != "hour"[0] && ("every " + rest)[0] != "hourly"[0];
    ReadClock(h, m);
  }

  lemma DaysDiffer(k: nat, d: nat)
    requires k < d <= 6
    ensures |DAYS[k]| >= 6 && |DAYS[d]| >= 6
    ensures DAYS[k][0] != DAYS[d][0] || DAYS[k][1] != DAYS[d][1]
  {
    assert k == 0 || k == 1 || k == 2 || k == 3 || k == 4 || k == 5;
    assert d == 1 || d == 2 || d == 3 || d == 4 || d == 5 || d == 6;
  }

  /** No day is mistaken for "hour", "day" or "weekday", or for a number. */
  lemma DayStarts(d: nat)
    requires d <= 6
    ensures |DAYS[d]| >= 6 && !IsDigit(DAYS[d][0]) && !IsBlank(DAYS[d][0])
    ensures DAYS[d][0] != 'h' && DAYS[d][0] != 'd' && (DAYS[d][0] != 'w' || DAYS[d][2] != 'e')
  {
    assert d == 0 || d == 1 || d == 2 || d == 3 || d == 4 || d == 5 || d == 6;
  }

  lemma {:induction false} ReadDay(d: nat, k: nat, tail: string)
    requires k <= d <= 6 && AtTime(tail).Some?
    ensures DayAt(DAYS[d] + tail, k) == Some((d, AtTime(tail).value))
    decreases d - k
  {
    hide AtTime;
    if k == d {
      ReadWord(DAYS[d], tail);
    } else {
      DaysDiffer(k, d);
      OtherWord(DAYS[k], DAYS[d] + tail, if DAYS[k][0] != DAYS[d][0] then 0 else 1);
      ReadDay(d, k + 1, tail);
    }
  }

  lemma ReadWeekly(d: nat, h: nat, m: nat)
    requires d <= 6 && h <= 23 && m <= 59
    ensures ParsePlan(Weekly(d, h, m).Description()) == Some(Weekly(d, h, m))
  {
    hide Count, AtTime, ParseTime, Clock, DayAt;
    var tail := " at " + Clock(h, m);
    var rest := DAYS[d] + tail;
    DayStarts(d);
    assert rest[0] == DAYS[d][0] && rest[2] == DAYS[d][2];
    assert "every " + rest == "every" + (" " + rest);
    ReadWordBlank("every", rest);
    NoCount(rest, "minute");
    NoCount(rest, "hour");
    OtherWord("day", rest, 0);
    OtherWord("weekday", rest, if rest[0] != 'w' then 0 else 2);
    assert rest[0] != "hour"[0] && ("every " + rest)[0] != "hourly"[0];
    ReadClock(h, m);
    ReadDay(d, 0, tail);
  }

  predicate AllLower(s: string) {
    forall i :: 0 <= i < |s| ==> LowerChar(s[i]) == s[i]
  }

  lemma LowerConcat(a: string, b: string)
    requires AllLower(a) && AllLower(b)
    ensures AllLower(a + b)
  {
  }

  lemma LowerNumbers(n: nat, m: nat)
    requires n < 100 && m < 100
    ensures AllLower(Decimal(n)) && AllLower(Clock(n, m)) && |Clock(n, m)| == 5
    ensures !IsSpace(Clock(n, m)[4])
  {
    DecimalIsDigits(n);
    DecimalIsDigits(m);
  }

  lemma LowerWords(d: nat)
    requires d <= 6
    ensures AllLower(DAYS[d])
    ensures AllLower("every ") && AllLower(" minutes") && AllLower(" hours") && AllLower("every hour")
    ensures AllLower("daily") && AllLower("weekday") && AllLower(" at ")
  {
    assert d == 0 || d == 1 || d == 2 || d == 3 || d == 4 || d == 5 || d == 6;
  }

  lemma LastIsNoSpace(plan: Plan)
    requires plan.InRange()
    ensures var s := plan.Description(); s != [] && Trimmed(s)
  {
    hide Decimal, Clock;
    if plan.Daily? || plan.Weekdays? || plan.Weekly? {
      LowerNumbers(plan.hour, plan.minute);
    }
  }

  lemma DescriptionIsCalm(plan: Plan)
    requires plan.InRange()
    ensures Lower(Trim(plan.Description())) == plan.Description()
  {
    hide AllLower, Trim, Lower, Decimal, Clock;
    var s := plan.Description();
    LowerWords(if plan.Weekly? then plan.day else 0);
    match plan {
      case EveryMinutes(n) =>
        LowerNumbers(n, 0);
        LowerConcat(Decimal(n), " minutes");
        LowerConcat("every ", Decimal(n) + " minutes");
      case EveryHours(n) =>
        LowerNumbers(n, 0);
        LowerConcat(Decimal(n), " hours");
        LowerConcat("every ", Decimal(n) + " hours");
      case EveryHour =>
      case Daily(h, m) =>
        LowerNumbers(h, m);
        LowerConcat(" at ", Clock(h, m));
        LowerConcat("daily", " at " + Clock(h, m));
      case Weekdays(h, m) =>
        LowerNumbers(h, m);
        LowerConcat(" at ", Clock(h, m));
        LowerConcat("weekday", " at " + Clock(h, m));
        LowerConcat("every ", "weekday" + (" at " + Clock(h, m)));
      case Weekly(d, h, m) =>
        LowerNumbers(h, m);
        LowerConcat(" at ", Clock(h, m));
        LowerConcat(DAYS[d], " at " + Clock(h, m));
        LowerConcat("every ", DAYS[d] + (" at " + Clock(h, m)));
    }
    LastIsNoSpace(plan);
    CalmIsFixed(s);
  }

  lemma DescriptionParses(plan: Plan)
    requires plan.InRange()
    ensures ParsePlan(plan.Description()) == Some(plan)
  {
    hide ParsePlan, Plan.Description;
    match plan
    case EveryMinutes(n) => ReadEveryMinutes(n);
    case EveryHours(n) => ReadEveryHours(n);
    case EveryHour => ReadEveryHour();
    case Daily(h, m) => ReadDaily(h, m);
    case Weekdays(h, m) => ReadWeekdays(h, m);
    case Weekly(d, h, m) => ReadWeekly(d, h, m);
  }

  /**
   For every accepted phrase, parsing the returned description gives the same cron expression and
   the same description, and every field of the expression is in range.
   */
  lemma DescriptionIsFixedPoint(input: string)
    requires Parse(input).Some?
    ensures Parse(Parse(input).value.1) == Parse(input)
    ensures var plan := ParsePlan(Lower(Trim(input))).value;
            plan.InRange() && Parse(input).value == (plan.Cron(), plan.Description())
  {
    hide ParsePlan, Plan.Description, Plan.Cron, Lower, Trim;
    PlansAreInRange(Lower(Trim(input)));
    var plan := ParsePlan(Lower(Trim(input))).value;
    DescriptionIsCalm(plan);
    DescriptionParses(plan);
  }
}
