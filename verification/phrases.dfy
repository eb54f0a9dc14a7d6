/**
 What the schedule phrases mean: a grammar of the phrases with the minutes they name, an independent
 reading of cron expressions, and the proof that the parser turns the one into the other.
 */
module Phrases {
  import opened Common
  import opened Text
  import opened NaturalLanguage

  // ---------- reading a cron expression ----------

  /** The fields of an expression, between single spaces. */
  function Fields(s: string): (fields: seq<string>)
    ensures |fields| >= 1
  {
    if s == [] then [""]
    else if s[0] == ' ' then [""] + Fields(s[1..])
    else
      var rest := Fields(s[1..]);
      [[s[0]] + rest[0]] + rest[1..]
  }

  predicate AllDigits(s: string) {
    forall i :: 0 <= i < |s| ==> IsDigit(s[i])
  }

  predicate IsNumber(s: string) {
    s != [] && AllDigits(s)
  }

  /** A field is an asterisk, a step, a number or a range of numbers. */
  ghost predicate Matches(f: string, v: nat) {
    || f == "*"
    || ("*/" <= f && IsNumber(f[2..]) && Value(f[2..]) >= 1 && v % Value(f[2..]) == 0)
    || (IsNumber(f) && v == Value(f))
    || (exists a, b :: f == a + "-" + b && IsNumber(a) && IsNumber(b) && Value(a) <= v <= Value(b))
  }

  /** The expression is due in this minute, this hour and on this day of the week (0 is Sunday). */
  ghost predicate CronDue(expression: string, minute: nat, hour: nat, day: nat) {
    var f := Fields(expression);
    && |f| == 5 && f[2] == "*" && f[3] == "*"
    && Matches(f[0], minute) && Matches(f[1], hour) && Matches(f[4], day)
  }

  lemma {:induction false} FieldThenRest(s: string, t: string)
    requires ' ' !in s
    ensures Fields(s + (" " + t)) == [s] + Fields(t)
  {
    var all := s + (" " + t);
    if s == [] {
      assert all[1..] == t;
    } else {
      FieldThenRest(s[1..], t);
      assert all[1..] == s[1..] + (" " + t);
      assert [s[0]] + s[1..] == s;
    }
  }

  lemma {:induction false} LastField(s: string)
    requires ' ' !in s
    ensures Fields(s) == [s]
  {
    if s != [] {
      LastField(s[1..]);
      assert [s[0]] + s[1..] == s;
    }
  }

  lemma FiveFields(a: string, b: string, c: string)
    requires ' ' !in a && ' ' !in b && ' ' !in c
    ensures Fields(a + (" " + (b + (" " + ("*" + (" " + ("*" + (" " + c)))))))) == [a, b, "*", "*", c]
  {
    hide Fields;
    LastField(c);
    FieldThenRest("*", c);
    FieldThenRest("*", "*" + (" " + c));
    FieldThenRest(b, "*" + (" " + ("*" + (" " + c))));
    FieldThenRest(a, b + (" " + ("*" + (" " + ("*" + (" " + c))))));
  }

  lemma NumberMatches(n: nat, v: nat)
    requires n < 100
    ensures ' ' !in Decimal(n) && (Matches(Decimal(n), v) <==> v == n)
  {
    DecimalIsDigits(n);
    var f := Decimal(n);
    assert forall c :: c in f ==> IsDigit(c);
    forall a: string, b: string ensures f != a + "-" + b {
      assert '-' in a + "-" + b by { assert (a + "-" + b)[|a|] == '-'; }
    }
  }

  lemma StepMatches(n: nat, v: nat)
    requires 1 <= n < 100
    ensures ' ' !in "*/" + Decimal(n) && (Matches("*/" + Decimal(n), v) <==> v % n == 0)
  {
    DecimalIsDigits(n);
    var f := "*/" + Decimal(n);
    assert f[2..] == Decimal(n) && f[0] == '*' && f[1] == '/';
    assert !IsDigit(f[0]);
    forall a, b | f == a + "-" + b ensures !IsNumber(a) {
      assert a != [] ==> a[0] == f[0];
    }
  }

  lemma WeekdaysMatch(v: nat)
    ensures ' ' !in "1-5" && (Matches("1-5", v) <==> 1 <= v <= 5)
  {
    var f := "1-5";
    OneDigit('1');
    OneDigit('5');
    assert f == "1" + "-" + "5" && IsNumber("1") && IsNumber("5");
    assert !IsDigit(f[1]);
    forall a, b | f == a + "-" + b ensures a == "1" && b == "5" {
      assert f[|a|] == '-';
      assert |a| == 1 && a == f[..1] && b == f[2..];
    }
  }

  lemma AnyMatches(v: nat)
    ensures ' ' !in "*" && Matches("*", v)
  {
  }

  // ---------- the grammar ----------

  predicate AllBlank(s: string) {
    forall i :: 0 <= i < |s| ==> IsBlank(s[i])
  }

  predicate Gap(s: string) {
    s != [] && AllBlank(s)
  }

  /** A time of day: one or two digits, perhaps two more after a colon, perhaps am or pm. */
  datatype Time = Time(hour: string, minute: string, gap: string, half: string) {
    predicate Valid() {
      && 1 <= |hour| <= 2 && AllDigits(hour) && (|minute| == 0 || |minute| == 2) && AllDigits(minute)
      && AllBlank(gap) && (half == "" || half == "am" || half == "pm")
    }

    function Text(): string {
      hour + ((if minute == "" then "" else ":" + minute) + (gap + half))
    }

    /** The hour on the 24-hour clock: 12am is midnight, 12pm is noon, other pm hours are 12 later. */
    function Hour(): nat {
      var h := Value(hour);
      if half == "am" then (if h == 12 then 0 else h)
      else if half == "pm" then (if h == 12 then 12 else h + 12)
      else h
    }

    function Minute(): nat {
      Value(minute)
    }
  }

  function DayName(day: nat): string {
    if day == 0 then "sunday" else if day == 1 then "monday" else if day == 2 then "tuesday"
    else if day == 3 then "wednesday" else if day == 4 then "thursday" else if day == 5 then "friday" else "saturday"
  }

  /** The days a phrase with a time of day names, as they are written. */
  datatype Days =
    | JustDaily
    | EveryDay(gap: string)
    | EveryWeekday(gap: string)
    | EveryNamed(gap: string, day: nat)
  {
    predicate Valid() {
      (!JustDaily? ==> Gap(gap)) && (EveryNamed? ==> day <= 6)
    }

    function Text(): string {
      match this
      case JustDaily => "daily"
      case EveryDay(g) => "every" + (g + "day")
      case EveryWeekday(g) => "every" + (g + "weekday")
      case EveryNamed(g, d) => "every" + (g + DayName(d))
    }

    predicate Names(day: nat) {
      (EveryWeekday? ==> 1 <= day <= 5) && (EveryNamed? ==> day == this.day)
    }
  }

  datatype Phrase =
    | Counted(gap1: string, digits: string, gap2: string, hours: bool, plural: bool)
    | EachHour(gap: string)
    | Hourly
    | At(days: Days, gap1: string, gap2: string, time: Time)
  {
    predicate Valid() {
      match this
      case Counted(g1, d, g2, _, _) => Gap(g1) && IsNumber(d) && Gap(g2)
      case EachHour(g) => Gap(g)
      case Hourly => true
      case At(days, g1, g2, t) => days.Valid() && Gap(g1) && Gap(g2) && t.Valid()
    }

    function Text(): string {
      match this
      case Counted(g1, d, g2, hours, plural) =>
        "every" + (g1 + (d + (g2 + ((if hours then "hour" else "minute") + (if plural then "s" else "")))))
      case EachHour(g) => "every" + (g + "hour")
      case Hourly => "hourly"
      case At(days, g1, g2, t) => days.Text() + (g1 + ("at" + (g2 + t.Text())))
    }

    /** The numbers in the phrase make sense. */
    predicate InRange() {
      match this
      case Counted(_, d, _, hours, _) => 1 <= Value(d) <= (if hours then 23 else 59)
      case EachHour(_) => true
      case Hourly => true
      case At(_, _, _, t) => t.Hour() <= 23 && t.Minute() <= 59
    }

    /** The minutes that the phrase names. */
    predicate Names(minute: nat, hour: nat, day: nat)
      requires InRange()
    {
      match this
      case Counted(_, d, _, hours, _) => if hours then minute == 0 && hour % Value(d) == 0 else minute % Value(d) == 0
      case EachHour(_) => minute == 0
      case Hourly => minute == 0
      case At(days, _, _, t) => minute == t.Minute() && hour == t.Hour() && days.Names(day)
    }

    function Means(): Option<Plan> {
      if !InRange() then None
      else
        match this
        case Counted(_, d, _, hours, _) => Some(if hours then EveryHours(Value(d)) else EveryMinutes(Value(d)))
        case EachHour(_) => Some(EveryHour)
        case Hourly => Some(EveryHour)
        case At(days, _, _, t) =>
          match days
          case EveryWeekday(_) => Some(Weekdays(t.Hour(), t.Minute()))
          case EveryNamed(_, d) => Some(Weekly(d, t.Hour(), t.Minute()))
          case _ => Some(Daily(t.Hour(), t.Minute()))
    }
  }

  // ---------- the expression is due when the phrase says ----------

  lemma MinutesAreDue(n: nat, minute: nat, hour: nat, day: nat)
    requires 1 <= n <= 59
    ensures CronDue(EveryMinutes(n).Cron(), minute, hour, day) <==> minute % n == 0
  {
    hide Fields, Matches, Decimal;
    AnyMatches(hour);
    AnyMatches(day);
    StepMatches(n, minute);
    FiveFields("*/" + Decimal(n), "*", "*");
    assert EveryMinutes(n).Cron() == "*/" + Decimal(n) + (" " + ("*" + (" " + ("*" + (" " + ("*" + (" " + "*")))))));
  }

  lemma HoursAreDue(n: nat, minute: nat, hour: nat, day: nat)
    requires 1 <= n <= 23
    ensures CronDue(EveryHours(n).Cron(), minute, hour, day) <==> minute == 0 && hour % n == 0
  {
    hide Fields, Matches, Decimal;
    AnyMatches(day);
    ZeroMatches(minute);
    StepMatches(n, hour);
    FiveFields("0", "*/" + Decimal(n), "*");
    assert EveryHours(n).Cron() == "0" + (" " + ("*/" + Decimal(n) + (" " + ("*" + (" " + ("*" + (" " + "*")))))));
  }

  lemma EachHourIsDue(minute: nat, hour: nat, day: nat)
    ensures CronDue(EveryHour.Cron(), minute, hour, day) <==> minute == 0
  {
    hide Fields, Matches;
    AnyMatches(hour);
    AnyMatches(day);
    ZeroMatches(minute);
    FiveFields("0", "*", "*");
    assert EveryHour.Cron() == "0" + (" " + ("*" + (" " + ("*" + (" " + ("*" + (" " + "*")))))));
  }

  lemma DaysAreDue(plan: Plan, minute: nat, hour: nat, day: nat)
    requires plan.InRange() && (plan.Daily? || plan.Weekdays? || plan.Weekly?)
    ensures CronDue(plan.Cron(), minute, hour, day) <==>
            && minute == plan.minute && hour == plan.hour
            && (plan.Weekdays? ==> 1 <= day <= 5) && (plan.Weekly? ==> day == plan.day)
  {
    hide CronDue, Matches, Decimal;
    match plan {
      case Daily(h, m) =>
        AnyMatches(day);
        TimeIsDue(plan, h, m, "*", minute, hour, day);
      case Weekdays(h, m) =>
        WeekdaysMatch(day);
        TimeIsDue(plan, h, m, "1-5", minute, hour, day);
      case Weekly(d, h, m) =>
        NumberMatches(d, day);
        TimeIsDue(plan, h, m, Decimal(d), minute, hour, day);
    }
  }

  lemma ExpressionIsDue(ph: Phrase, minute: nat, hour: nat, day: nat)
    requires ph.Valid() && ph.InRange()
    ensures ph.Means().Some? && ph.Means().value.InRange()
    ensures CronDue(ph.Means().value.Cron(), minute, hour, day) <==> ph.Names(minute, hour, day)
  {
    hide CronDue, Value, Plan.Cron, Time.Hour, Time.Minute;
    match ph.Means().value {
      case EveryMinutes(n) => MinutesAreDue(n, minute, hour, day);
      case EveryHours(n) => HoursAreDue(n, minute, hour, day);
      case EveryHour => EachHourIsDue(minute, hour, day);
      case plan => DaysAreDue(plan, minute, hour, day);
    }
  }

  lemma ZeroMatches(v: nat)
    ensures ' ' !in "0" && (Matches("0", v) <==> v == 0)
  {
    NumberMatches(0, v);
    assert Decimal(0) == "0";
  }

  lemma TimeIsDue(plan: Plan, h: nat, m: nat, days: string, minute: nat, hour: nat, day: nat)
    requires h <= 23 && m <= 59 && ' ' !in days && plan.InRange()
    requires plan.Cron() == Decimal(m) + " " + Decimal(h) + " * * " + days
    ensures CronDue(plan.Cron(), minute, hour, day) <==> minute == m && hour == h && Matches(days, day)
  {
    hide Fields, Matches, Decimal;
    NumberMatches(m, minute);
    NumberMatches(h, hour);
    FiveFields(Decimal(m), Decimal(h), days);
    assert plan.Cron() == Decimal(m) + (" " + (Decimal(h) + (" " + ("*" + (" " + ("*" + (" " + days)))))));
  }

  // ---------- every phrase is read ----------

  lemma {:induction false} SkipGap(gap: string, rest: string)
    requires AllBlank(gap) && (rest == [] || !IsBlank(rest[0]))
    ensures SkipBlanks(gap + rest) == rest
  {
    if gap == [] {
      assert gap + rest == rest;
    } else {
      SkipGap(gap[1..], rest);
      assert (gap + rest)[1..] == gap[1..] + rest;
    }
  }

  lemma ReadGap(gap: string, rest: string)
    requires Gap(gap) && rest != [] && !IsBlank(rest[0])
    ensures Blanks(gap + rest) == Some(rest)
  {
    SkipGap(gap, rest);
  }

  lemma ReadWordGap(w: string, gap: string, rest: string)
    requires Gap(gap) && rest != [] && !IsBlank(rest[0])
    ensures WordBlanks(w + (gap + rest), w) == Some(rest)
  {
    ReadWord(w, gap + rest);
    ReadGap(gap, rest);
  }

  /** What comes after the digits of a time. */
  lemma ReadHalf(gap: string, half: string)
    requires AllBlank(gap) && (half == "" || half == "am" || half == "pm")
    ensures Half(gap + half) == Some(half)
    ensures gap + half == [] || (!IsDigit((gap + half)[0]) && (gap + half)[0] != ':')
  {
    hide SkipBlanks;
    SkipGap(gap, half);
    assert gap + half != [] ==> (gap + half)[0] == if gap != [] then gap[0] else half[0];
  }

  lemma ReadTimeText(t: Time)
    requires t.Valid()
    ensures TimeOfDay(t.Text()) == Some(TimeText(t.hour, t.minute, t.half))
    ensures t.Text() != [] && !IsBlank(t.Text()[0])
  {
    hide Half, Digits;
    var tail := t.gap + t.half;
    ReadHalf(t.gap, t.half);
    assert t.Text()[0] == t.hour[0];
    if t.minute == "" {
      assert t.Text() == t.hour + tail;
      ReadDigits(t.hour, tail);
    } else {
      var rest := ":" + (t.minute + tail);
      assert t.Text() == t.hour + rest;
      ReadDigits(t.hour, rest);
      assert rest[1..] == t.minute + tail;
      ReadDigits(t.minute, tail);
    }
  }

  lemma ReadAt(gap1: string, gap2: string, t: Time)
    requires Gap(gap1) && Gap(gap2) && t.Valid()
    ensures AtTime(gap1 + ("at" + (gap2 + t.Text()))) == Some(TimeText(t.hour, t.minute, t.half))
    ensures ParseTime(TimeText(t.hour, t.minute, t.half)) ==
            if t.Hour() <= 23 && t.Minute() <= 59 then Some((t.Hour(), t.Minute())) else None
  {
    hide TimeOfDay, Value, Time.Text;
    ReadTimeText(t);
    ReadWordGap("at", gap2, t.Text());
    ReadGap(gap1, "at" + (gap2 + t.Text()));
  }

  lemma ReadCounted(gap1: string, digits: string, gap2: string, unit: string, plural: bool, other: string)
    requires Gap(gap1) && IsNumber(digits) && Gap(gap2)
    requires (unit == "minute" && other == "hour") || (unit == "hour" && other == "minute")
    ensures var rest := digits + (gap2 + (unit + (if plural then "s" else "")));
            && WordBlanks("every" + (gap1 + rest), "every") == Some(rest)
            && Count(rest, unit) == Some(Value(digits)) && Count(rest, other) == None
  {
    hide Value;
    var u := unit + (if plural then "s" else "");
    assert u[0] == unit[0] && u[0] != other[0];
    ReadDigits(digits, gap2 + u);
    ReadGap(gap2, u);
    ReadWordGap("every", gap1, digits + (gap2 + u));
  }

  lemma CountedParses(ph: Phrase)
    requires ph.Valid() && ph.Counted?
    ensures ParsePlan(ph.Text()) == ph.Means()
  {
    hide Count, Value, WordBlanks, AtTime, DayAt, Word;
    var unit, other := if ph.hours then "hour" else "minute", if ph.hours then "minute" else "hour";
    ReadCounted(ph.gap1, ph.digits, ph.gap2, unit, ph.plural, other);
  }

  lemma HourParses(ph: Phrase)
    requires ph.Valid() && (ph.EachHour? || ph.Hourly?)
    ensures ParsePlan(ph.Text()) == ph.Means()
  {
    hide Count, AtTime, DayAt;
    if ph.EachHour? {
      ReadWordGap("every", ph.gap, "hour");
      NoCount("hour", "minute");
      NoCount("hour", "hour");
    } else {
      OtherWord("every", "hourly", 0);
    }
  }

  lemma DayNames(d: nat)
    requires d <= 6
    ensures DAYS[d] == DayName(d)
  {
    assert d == 0 || d == 1 || d == 2 || d == 3 || d == 4 || d == 5 || d == 6;
  }

  lemma DailyParses(ph: Phrase)
    requires ph.Valid() && ph.At? && ph.days.JustDaily?
    ensures ParsePlan(ph.Text()) == ph.Means()
  {
    hide Count, AtTime, DayAt, ParseTime, Time.Text, Time.Hour, Time.Minute;
    var tail := ph.gap1 + ("at" + (ph.gap2 + ph.time.Text()));
    ReadAt(ph.gap1, ph.gap2, ph.time);
    OtherWord("every", "daily" + tail, 0);
    ReadWord("daily", tail);
    assert ("daily" + tail)[0] != "hourly"[0];
  }

  /** "every" and a word that is no number and not "hour". */
  lemma ReadEvery(gap: string, rest: string)
    requires Gap(gap) && rest != [] && !IsBlank(rest[0]) && !IsDigit(rest[0]) && rest[0] != 'h'
    ensures var lower := "every" + (gap + rest);
            && WordBlanks(lower, "every") == Some(rest) && rest != "hour" && lower != "hourly"
            && Count(rest, "minute") == None && Count(rest, "hour") == None
  {
    ReadWordGap("every", gap, rest);
    NoCount(rest, "minute");
    NoCount(rest, "hour");
    assert ("every" + (gap + rest))[0] != "hourly"[0];
  }

  lemma EveryDayParses(ph: Phrase)
    requires ph.Valid() && ph.At? && !ph.days.JustDaily?
    ensures ParsePlan(ph.Text()) == ph.Means()
  {
    hide Count, AtTime, DayAt, ParseTime, Time.Text, Time.Hour, Time.Minute, WordBlanks;
    var days, gap := ph.days, ph.days.gap;
    var tail := ph.gap1 + ("at" + (ph.gap2 + ph.time.Text()));
    ReadAt(ph.gap1, ph.gap2, ph.time);
    match days {
      case EveryDay(_) =>
        assert ph.Text() == "every" + (gap + ("day" + tail));
        ReadEvery(gap, "day" + tail);
        ReadWord("day", tail);
      case EveryWeekday(_) =>
        var rest := "weekday" + tail;
        assert ph.Text() == "every" + (gap + rest);
        ReadEvery(gap, rest);
        OtherWord("day", rest, 0);
        ReadWord("weekday", tail);
      case EveryNamed(_, d) =>
        var rest := DAYS[d] + tail;
        DayNames(d);
        DayStarts(d);
        assert ph.Text() == "every" + (gap + rest);
        assert rest[0] == DAYS[d][0] && rest[2] == DAYS[d][2];
        ReadEvery(gap, rest);
        OtherWord("day", rest, 0);
        OtherWord("weekday", rest, if rest[0] != 'w' then 0 else 2);
        ReadDay(d, 0, tail);
    }
  }

  lemma PhraseParses(ph: Phrase)
    requires ph.Valid()
    ensures ParsePlan(ph.Text()) == ph.Means()
  {
    if ph.Counted? {
      CountedParses(ph);
    } else if ph.EachHour? || ph.Hourly? {
      HourParses(ph);
    } else if ph.days.JustDaily? {
      DailyParses(ph);
    } else {
      EveryDayParses(ph);
    }
  }

  // ---------- nothing else is read ----------

  lemma {:induction false} SkippedIsGap(s: string) returns (gap: string)
    ensures AllBlank(gap) && s == gap + SkipBlanks(s)
  {
    gap := [];
    if s != [] && IsBlank(s[0]) {
      var rest := SkippedIsGap(s[1..]);
      gap := [s[0]] + rest;
      assert s == [s[0]] + s[1..];
    }
  }

  lemma BlanksAreGap(s: string) returns (gap: string)
    requires Blanks(s).Some?
    ensures Gap(gap) && s == gap + Blanks(s).value
  {
    gap := SkippedIsGap(s);
    assert gap == [] ==> SkipBlanks(s) == s;
    SkipsSome(s);
  }

  lemma {:induction false} SkipsSome(s: string)
    ensures SkipBlanks(s) == [] || !IsBlank(SkipBlanks(s)[0])
  {
    if s != [] && IsBlank(s[0]) {
      SkipsSome(s[1..]);
    }
  }

  lemma WordIsPrefix(s: string, w: string)
    requires Word(s, w).Some?
    ensures s == w + Word(s, w).value
  {
  }

  lemma {:induction false} DigitsArePrefix(s: string)
    ensures s == Digits(s).0 + Digits(s).1 && AllDigits(Digits(s).0)
  {
    if s != [] && IsDigit(s[0]) {
      DigitsArePrefix(s[1..]);
      assert s == [s[0]] + s[1..];
    }
  }

  lemma HalfIsRead(s: string) returns (gap: string)
    requires Half(s).Some?
    ensures AllBlank(gap) && s == gap + Half(s).value
    ensures Half(s).value == "" || Half(s).value == "am" || Half(s).value == "pm"
  {
    gap := SkippedIsGap(s);
  }

  lemma TimeIsRead(s: string) returns (t: Time)
    requires TimeOfDay(s).Some?
    ensures t.Valid() && t.Text() == s
  {
    hide Digits, Half, IsDigit;
    var (h, rest) := Digits(s);
    DigitsArePrefix(s);
    if rest != [] && rest[0] == ':' && |Digits(rest[1..]).0| == 2 {
      var (m, after) := Digits(rest[1..]);
      DigitsArePrefix(rest[1..]);
      assert rest == ":" + rest[1..];
      var gap := HalfIsRead(after);
      t := Time(h, m, gap, Half(after).value);
      assert t.Text() == h + (":" + m + (gap + t.half));
      assert ":" + m + after == ":" + (m + after);
    } else {
      var gap := HalfIsRead(rest);
      t := Time(h, "", gap, Half(rest).value);
      assert t.Text() == h + ("" + (gap + t.half));
    }
  }

  lemma AtIsRead(s: string) returns (gap1: string, gap2: string, t: Time)
    requires AtTime(s).Some?
    ensures Gap(gap1) && Gap(gap2) && t.Valid() && s == gap1 + ("at" + (gap2 + t.Text()))
  {
    hide TimeOfDay, SkipBlanks;
    gap1 := BlanksAreGap(s);
    var a := Blanks(s).value;
    WordIsPrefix(a, "at");
    gap2 := BlanksAreGap(Word(a, "at").value);
    t := TimeIsRead(WordBlanks(a, "at").value);
  }

  lemma {:induction false} NamedDayIsRead(s: string, k: nat) returns (day: nat, tail: string)
    requires DayAt(s, k).Some?
    ensures day <= 6 && s == DAYS[day] + tail && AtTime(tail).Some?
    decreases 7 - k
  {
    hide AtTime;
    if Word(s, DAYS[k]).Some? {
      WordIsPrefix(s, DAYS[k]);
      day, tail := k, Word(s, DAYS[k]).value;
    } else {
      day, tail := NamedDayIsRead(s, k + 1);
    }
  }

  lemma CountIsRead(s: string, unit: string) returns (digits: string, gap: string, plural: bool)
    requires Count(s, unit).Some?
    ensures IsNumber(digits) && Gap(gap) && s == digits + (gap + (unit + (if plural then "s" else "")))
  {
    hide Digits, Blanks;
    digits := Digits(s).0;
    DigitsArePrefix(s);
    gap := BlanksAreGap(Digits(s).1);
    plural := Blanks(Digits(s).1).value == unit + "s";
    assert unit + "" == unit;
  }

  lemma EveryIsRead(lower: string) returns (gap: string)
    requires WordBlanks(lower, "every").Some?
    ensures Gap(gap) && lower == "every" + (gap + WordBlanks(lower, "every").value)
  {
    hide Blanks;
    WordIsPrefix(lower, "every");
    gap := BlanksAreGap(Word(lower, "every").value);
  }

  lemma AtIsPhrase(days: Days, tail: string) returns (ph: Phrase)
    requires days.Valid() && AtTime(tail).Some?
    ensures ph.Valid() && ph.Text() == days.Text() + tail
  {
    hide AtTime;
    var g1, g2, t := AtIsRead(tail);
    ph := At(days, g1, g2, t);
  }

  lemma EveryPhraseIsRead(lower: string, rest: string) returns (ph: Phrase)
    requires WordBlanks(lower, "every") == Some(rest) && ParsePlan(lower).Some?
    ensures ph.Valid() && ph.Text() == lower
  {
    hide WordBlanks, Count, AtTime, DayAt, ParseTime, Value, Word;
    var gap := EveryIsRead(lower);
    if Count(rest, "minute").Some? {
      var d, g, plural := CountIsRead(rest, "minute");
      ph := Counted(gap, d, g, false, plural);
    } else if Count(rest, "hour").Some? {
      var d, g, plural := CountIsRead(rest, "hour");
      ph := Counted(gap, d, g, true, plural);
    } else if rest == "hour" {
      ph := EachHour(gap);
    } else if lower == "hourly" {
      ph := Hourly;
    } else {
      ph := EveryAtIsRead(lower, rest, gap);
    }
  }

  lemma EveryAtIsRead(lower: string, rest: string, gap: string) returns (ph: Phrase)
    requires Gap(gap) && lower == "every" + (gap + rest)
    requires || (Word(rest, "day").Some? && AtTime(Word(rest, "day").value).Some?)
             || (Word(rest, "weekday").Some? && AtTime(Word(rest, "weekday").value).Some?)
             || DayAt(rest, 0).Some?
    ensures ph.Valid() && ph.Text() == lower
  {
    hide AtTime, DayAt, Word;
    if Word(rest, "day").Some? && AtTime(Word(rest, "day").value).Some? {
      WordIsPrefix(rest, "day");
      ph := AtIsPhrase(EveryDay(gap), Word(rest, "day").value);
    } else if Word(rest, "weekday").Some? && AtTime(Word(rest, "weekday").value).Some? {
      WordIsPrefix(rest, "weekday");
      ph := AtIsPhrase(EveryWeekday(gap), Word(rest, "weekday").value);
    } else {
      var day, tail := NamedDayIsRead(rest, 0);
      DayNames(day);
      ph := AtIsPhrase(EveryNamed(gap, day), tail);
    }
  }

  /** Whatever the parser accepts is one of the phrases. */
  lemma OnlyPhrasesParse(lower: string) returns (ph: Phrase)
    requires ParsePlan(lower).Some?
    ensures ph.Valid() && ph.Text() == lower && ph.InRange()
  {
    hide WordBlanks, Count, AtTime, DayAt, ParseTime, Value, Word;
    if WordBlanks(lower, "every").Some? {
      ph := EveryPhraseIsRead(lower, WordBlanks(lower, "every").value);
    } else if lower == "hourly" {
      ph := Hourly;
    } else {
      WordIsPrefix(lower, "daily");
      ph := AtIsPhrase(JustDaily, Word(lower, "daily").value);
    }
    PhraseParses(ph);
  }

  // ---------- the whole parser ----------

  /** `input` is `text` in any mixture of cases, with any space around it. */
  ghost predicate Spells(input: string, text: string) {
    exists left, body, right ::
      && input == left + body + right && AllSpace(left) && AllSpace(right) && |body| == |text|
      && forall i :: 0 <= i < |text| ==>
                       body[i] == text[i] || ('a' <= text[i] <= 'z' && text[i] as int - body[i] as int == 32)
  }

  lemma SpellingIsIgnored(input: string, text: string)
    requires text != [] && Trimmed(text) && AllLower(text) && Spells(input, text)
    ensures Lower(Trim(input)) == text
  {
    hide Trim;
    var left, body, right :|
      && input == left + body + right && AllSpace(left) && AllSpace(right) && |body| == |text|
      && forall i :: 0 <= i < |text| ==>
                       body[i] == text[i] || ('a' <= text[i] <= 'z' && text[i] as int - body[i] as int == 32);
    assert Trimmed(body);
    TrimPadded(left, body, right);
    assert forall i :: 0 <= i < |text| ==> LowerChar(body[i]) == text[i];
    assert Lower(body) == text;
  }

  lemma BlanksAreLower(s: string)
    requires AllBlank(s) || AllDigits(s)
    ensures AllLower(s)
  {
  }

  lemma TimeIsLower(t: Time)
    requires t.Valid()
    ensures AllLower(t.Text())
  {
  }

  lemma DaysAreLower(days: Days)
    requires days.Valid()
    ensures AllLower(days.Text()) && days.Text() != [] && !IsSpace(days.Text()[0])
  {
    hide AllLower;
    if !days.JustDaily? {
      BlanksAreLower(days.gap);
      var name := if days.EveryDay? then "day" else if days.EveryWeekday? then "weekday" else DayName(days.day);
      LowerDay(days);
      assert days.Text() == "every" + (days.gap + name);
      LowerConcat(days.gap, name);
      LowerConcat("every", days.gap + name);
    } else {
      LowerDay(days);
    }
  }

  lemma LowerDay(days: Days)
    requires days.Valid()
    ensures AllLower("every") && AllLower("daily") && AllLower("day") && AllLower("weekday")
    ensures days.EveryNamed? ==> AllLower(DayName(days.day))
  {
  }

  lemma PhraseIsLower(ph: Phrase)
    requires ph.Valid()
    ensures AllLower(ph.Text()) && ph.Text() != []
  {
    hide AllLower, Days.Text, Time.Text;
    LowerRest();
    match ph {
      case Counted(g1, d, g2, hours, plural) =>
        BlanksAreLower(g1);
        BlanksAreLower(d);
        BlanksAreLower(g2);
        var unit, s := if hours then "hour" else "minute", if plural then "s" else "";
        LowerConcat(unit, s);
        LowerConcat(g2, unit + s);
        LowerConcat(d, g2 + (unit + s));
        LowerConcat(g1, d + (g2 + (unit + s)));
        LowerConcat("every", g1 + (d + (g2 + (unit + s))));
      case EachHour(g) =>
        BlanksAreLower(g);
        LowerConcat(g, "hour");
        LowerConcat("every", g + "hour");
      case Hourly =>
      case At(days, g1, g2, t) =>
        BlanksAreLower(g1);
        BlanksAreLower(g2);
        TimeIsLower(t);
        DaysAreLower(days);
        LowerConcat(g2, t.Text());
        LowerConcat("at", g2 + t.Text());
        LowerConcat(g1, "at" + (g2 + t.Text()));
        LowerConcat(days.Text(), g1 + ("at" + (g2 + t.Text())));
    }
  }

  lemma LowerRest()
    ensures AllLower("every") && AllLower("hour") && AllLower("minute") && AllLower("hourly") && AllLower("at")
    ensures AllLower("s") && AllLower("")
  {
  }

  /**
   Every phrase, in any case, with any blanks in it and any space around it, is accepted exactly when
   its numbers make sense, and then the expression is due exactly at the minutes the phrase names.
   */
  lemma PhrasesMeanWhatTheySay(input: string, ph: Phrase)
    requires ph.Valid() && Trimmed(ph.Text()) && Spells(input, ph.Text())
    ensures Parse(input).Some? <==> ph.InRange()
    ensures Parse(input).Some? ==>
              var cron := Parse(input).value.0;
              forall minute, hour, day :: CronDue(cron, minute, hour, day) <==> ph.Names(minute, hour, day)
  {
    hide Phrase.Text, Phrase.Names, CronDue, Plan.Cron, Plan.Description, Lower, Trim, ParsePlan;
    PhraseIsLower(ph);
    SpellingIsIgnored(input, ph.Text());
    PhraseParses(ph);
    if ph.InRange() {
      forall minute, hour, day
        ensures CronDue(Parse(input).value.0, minute, hour, day) <==> ph.Names(minute, hour, day)
      {
        ExpressionIsDue(ph, minute, hour, day);
      }
    }
  }

  /** The phrase as it is usually written: single blanks, plural units, and a 24-hour time hh:mm. */
  function Usual(plan: Plan): Phrase
    requires plan.InRange()
  {
    match plan
    case EveryMinutes(n) => Counted(" ", Decimal(n), " ", false, true)
    case EveryHours(n) => Counted(" ", Decimal(n), " ", true, true)
    case EveryHour => EachHour(" ")
    case Daily(h, m) => At(JustDaily, " ", " ", Time(Padded(h), Padded(m), "", ""))
    case Weekdays(h, m) => At(EveryWeekday(" "), " ", " ", Time(Padded(h), Padded(m), "", ""))
    case Weekly(d, h, m) => At(EveryNamed(" ", d), " ", " ", Time(Padded(h), Padded(m), "", ""))
  }

  lemma UsualCount(n: nat, hours: bool)
    requires 1 <= n <= (if hours then 23 else 59)
    ensures var ph := Counted(" ", Decimal(n), " ", hours, true);
            var plan := if hours then EveryHours(n) else EveryMinutes(n);
            ph.Valid() && ph.Means() == Some(plan) && ph.Text() == plan.Description()
  {
    hide Decimal, Value;
    DecimalIsDigits(n);
    var unit := if hours then " hours" else " minutes";
    assert " " + ((if hours then "hour" else "minute") + "s") == unit;
    assert "every" + (" " + (Decimal(n) + unit)) == "every " + (Decimal(n) + unit);
  }

  lemma UsualAt(days: Days, h: nat, m: nat)
    requires days.Valid() && h <= 23 && m <= 59
    ensures var t := Time(Padded(h), Padded(m), "", "");
            && At(days, " ", " ", t).Valid() && t.Hour() == h && t.Minute() == m
            && At(days, " ", " ", t).Text() == days.Text() + (" at " + Clock(h, m))
  {
    hide Padded, Value, Days.Text, Clock, Time.Text;
    UsualTime(h, m);
    assert " " + ("at" + (" " + Clock(h, m))) == " at " + Clock(h, m);
  }

  lemma EverySpace(word: string, tail: string)
    ensures "every" + (" " + word) + tail == "every " + (word + tail)
  {
  }

  lemma UsualEvery(plan: Plan)
    requires plan.InRange() && (plan.Weekdays? || plan.Weekly?)
    ensures Usual(plan).Valid() && Usual(plan).Means() == Some(plan) && Usual(plan).Text() == plan.Description()
  {
    hide Padded, Value, Clock, Time.Text, Time.Hour, Time.Minute, DayName;
    var tail := " at " + Clock(plan.hour, plan.minute);
    if plan.Weekdays? {
      UsualAt(EveryWeekday(" "), plan.hour, plan.minute);
      EverySpace("weekday", tail);
    } else {
      UsualAt(EveryNamed(" ", plan.day), plan.hour, plan.minute);
      DayNames(plan.day);
      EverySpace(DAYS[plan.day], tail);
    }
  }

  /** The description is the usual phrase for what was understood. */
  lemma DescriptionIsUsual(plan: Plan)
    requires plan.InRange()
    ensures Usual(plan).Valid() && Usual(plan).Means() == Some(plan) && Usual(plan).Text() == plan.Description()
  {
    hide Decimal, Padded, Value, Clock, Time.Text, Time.Hour, Time.Minute;
    match plan {
      case EveryMinutes(n) => UsualCount(n, false);
      case EveryHours(n) => UsualCount(n, true);
      case EveryHour => assert "every" + (" " + "hour") == "every hour";
      case Daily(h, m) => UsualAt(JustDaily, h, m);
      case Weekdays(_, _) => UsualEvery(plan);
      case Weekly(_, _, _) => UsualEvery(plan);
    }
  }

  lemma UsualTime(h: nat, m: nat)
    requires h <= 23 && m <= 59
    ensures var t := Time(Padded(h), Padded(m), "", "");
            t.Valid() && t.Hour() == h && t.Minute() == m && t.Text() == Clock(h, m)
  {
    DecimalIsDigits(h);
    DecimalIsDigits(m);
  }

  /** Nothing else is accepted. */
  lemma AcceptedIsAPhrase(input: string) returns (ph: Phrase)
    requires Parse(input).Some?
    ensures ph.Valid() && ph.InRange() && Lower(Trim(input)) == ph.Text()
  {
    ph := OnlyPhrasesParse(Lower(Trim(input)));
  }
}
