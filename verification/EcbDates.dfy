/** The date and timestamp texts an ECB row may carry, and the instants they denote. */
module EcbDates {
  import opened Prelude
  import opened Calendar

  const MS_PER_DAY := 86_400_000
  const MS_PER_MINUTE := 60_000

  /** An empty text denotes no date; a text of another form is an invalid field. */
  datatype Parsed = NoDate | Instant(ms: int) | InvalidField

  // ---- Digits ----

  predicate IsDigit(c: char) { '0' <= c <= '9' }

  predicate Digits(s: string) { forall i :: 0 <= i < |s| ==> IsDigit(s[i]) }

  function Value(s: string): nat
    requires Digits(s)
  {
    if s == "" then 0 else Value(s[..|s| - 1]) * 10 + (s[|s| - 1] as int - '0' as int)
  }

  function Digit(n: nat): char
    requires n < 10
  {
    (n + '0' as int) as char
  }

  /** `width` decimal digits. */
  function Pad(n: nat, width: nat): (s: string)
    ensures Digits(s) && |s| == width
  {
    if width == 0 then "" else Pad(n / 10, width - 1) + [Digit(n % 10)]
  }

  function Power10(k: nat): nat { if k == 0 then 1 else 10 * Power10(k - 1) }

  lemma {:induction false} PadValue(n: nat, width: nat)
    requires n < Power10(width)
    ensures Value(Pad(n, width)) == n
  {
    if width > 0 {
      PadValue(n / 10, width - 1);
      assert Pad(n, width)[..width - 1] == Pad(n / 10, width - 1);
    }
  }

  lemma {:induction false} ValueBound(s: string)
    requires Digits(s)
    ensures Value(s) < Power10(|s|)
  {
    if s != "" { ValueBound(s[..|s| - 1]); }
  }

  lemma Powers()
    ensures Power10(1) == 10 && Power10(2) == 100 && Power10(3) == 1000 && Power10(4) == 10_000
  {
    assert Power10(2) == 100;
    assert Power10(3) == 10 * Power10(2);
  }

  // ---- Three fields around a separator ----

  function IndexOf(s: string, c: char): (i: nat)
    ensures i <= |s|
    ensures forall j :: 0 <= j < i ==> s[j] != c
    ensures i < |s| ==> s[i] == c
  {
    if s == "" || s[0] == c then 0 else 1 + IndexOf(s[1..], c)
  }

  /** The parts of `a c b c rest`: what lies before the first, between the first two, and after. */
  function Split3(s: string, c: char): Option<(string, string, string)> {
    var i := IndexOf(s, c);
    if i == |s| then None
    else
      var tail := s[i + 1..];
      var j := IndexOf(tail, c);
      if j == |tail| then None else Some((s[..i], tail[..j], tail[j + 1..]))
  }

  lemma IndexOfSeparator(a: string, c: char, rest: string)
    requires c !in a
    ensures IndexOf(a + [c] + rest, c) == |a|
  {
    var s := a + [c] + rest;
    assert s[|a|] == c;
    forall j | 0 <= j < |a| ensures s[j] != c { assert s[j] == a[j]; }
  }

  lemma Split3Joined(a: string, b: string, d: string, c: char)
    requires c !in a && c !in b
    ensures Split3(a + [c] + b + [c] + d, c) == Some((a, b, d))
  {
    var s := a + [c] + b + [c] + d;
    assert s == a + [c] + (b + [c] + d);
    IndexOfSeparator(a, c, b + [c] + d);
    var tail := b + [c] + d;
    assert s[..|a|] == a && s[|a| + 1..] == tail;
    IndexOfSeparator(b, c, d);
    assert tail[..|b|] == b && tail[|b| + 1..] == d;
  }

  predicate Width(s: string, low: nat, high: nat) { Digits(s) && low <= |s| <= high }

  // ---- Dates ----

  function Checked(y: nat, month: nat, day: nat): Parsed {
    if ValidCalendarDate(y, month, day) then Instant(UtcDay(y, month - 1, day) * MS_PER_DAY) else InvalidField
  }

  predicate IsCompact(s: string) { Width(s, 8, 8) }

  predicate IsDashed(s: string) {
    var parts := Split3(s, '-');
    parts.Some? && Width(parts.value.0, 4, 4) && Width(parts.value.1, 1, 2) && Width(parts.value.2, 1, 2)
  }

  predicate IsSlashed(s: string) {
    var parts := Split3(s, '/');
    parts.Some? && Width(parts.value.0, 1, 2) && Width(parts.value.1, 1, 2) && Width(parts.value.2, 4, 4)
  }

  /** Parses a trimmed text, trying the forms in order. */
  function ParseEcbDate(text: string): Parsed {
    if text == "" then NoDate
    else if IsCompact(text) then Checked(Value(text[..4]), Value(text[4..6]), Value(text[6..]))
    else if IsDashed(text) then
      var (y, m, d) := Split3(text, '-').value;
      Checked(Value(y), Value(m), Value(d))
    else if IsSlashed(text) then
      var (m, d, y) := Split3(text, '/').value;
      Checked(Value(y), Value(m), Value(d))
    else
      match ParseIsoTimestamp(text)
      case Some(ms) => Instant(ms)
      case None => InvalidField
  }

  // ---- Timestamps ----

  /** The first three digits of the fraction, filled with zeros on the right. */
  function Milliseconds(fraction: string): nat
    requires Digits(fraction)
  {
    var padded := fraction + "000";
    assert Digits(padded[..3]);
    Value(padded[..3])
  }

  datatype Zone = Utc | Offset(ahead: bool, hours: nat, minutes: nat)
  {
    predicate Ok() { Offset? ==> hours <= 23 && minutes <= 59 }
    function Minutes(): int { if Utc? then 0 else (if ahead then 1 else -1) * (hours * 60 + minutes) }
  }

  function ParseZone(s: string): Option<Zone> {
    if s == "Z" then Some(Utc)
    else if |s| == 6 && (s[0] == '+' || s[0] == '-') && Digits(s[1..3]) && s[3] == ':' && Digits(s[4..6])
    then Some(Offset(s[0] == '+', Value(s[1..3]), Value(s[4..6])))
    else None
  }

  /** Index of the first character that is no digit. */
  function DigitRun(s: string): (n: nat)
    ensures n <= |s| && Digits(s[..n]) && (n < |s| ==> !IsDigit(s[n]))
  {
    if s == "" || !IsDigit(s[0]) then 0
    else
      var rest := DigitRun(s[1..]);
      assert s[..1 + rest] == [s[0]] + s[1..][..rest];
      1 + rest
  }

  /** Fraction and zone: what follows the seconds. */
  function ParseTail(s: string): Option<(string, Zone)> {
    if s == "" then None
    else if s[0] == '.' then
      var n := DigitRun(s[1..]);
      if 1 <= n <= 9 && ParseZone(s[1 + n..]).Some? then Some((s[1..][..n], ParseZone(s[1 + n..]).value)) else None
    else if ParseZone(s).Some? then Some(("", ParseZone(s).value))
    else None
  }

  predicate HasTimestampHead(s: string) {
    && 19 <= |s|
    && Digits(s[0..4]) && s[4] == '-' && Digits(s[5..7]) && s[7] == '-' && Digits(s[8..10]) && s[10] == 'T'
    && Digits(s[11..13]) && s[13] == ':' && Digits(s[14..16]) && s[16] == ':' && Digits(s[17..19])
  }

  datatype Stamp = Stamp(year: nat, month: nat, day: nat, hour: nat, minute: nat, second: nat, fraction: string, zone: Zone)
  {
    /** Ranges of the fields that are checked. */
    predicate Ok() {
      ValidCalendarDate(year, month, day) && hour <= 23 && minute <= 59 && second <= 59 && zone.Ok()
    }

    /** Every field fits its digits. */
    predicate Writable() {
      && year < 10_000 && month < 100 && day < 100 && hour < 100 && minute < 100 && second < 100
      && Digits(fraction) && |fraction| <= 9
      && (zone.Offset? ==> zone.hours < 100 && zone.minutes < 100)
    }

    function LocalMs(): int
      requires Digits(fraction)
    {
      UtcDay(year, month - 1, day) * MS_PER_DAY
      + hour * 3_600_000 + minute * MS_PER_MINUTE + second * 1000 + Milliseconds(fraction)
    }
  }

  function ReadStamp(s: string): Option<Stamp> {
    if !HasTimestampHead(s) then None
    else
      match ParseTail(s[19..])
      case None => None
      case Some((fraction, zone)) =>
        Some(Stamp(Value(s[0..4]), Value(s[5..7]), Value(s[8..10]), Value(s[11..13]), Value(s[14..16]), Value(s[17..19]),
                   fraction, zone))
  }

  lemma TailDigits(s: string)
    ensures ParseTail(s).Some? ==> Digits(ParseTail(s).value.0) && |ParseTail(s).value.0| <= 9
  {
  }

  function ParseIsoTimestamp(s: string): Option<int> {
    match ReadStamp(s)
    case None => None
    case Some(stamp) =>
      TailDigits(s[19..]);
      if stamp.Ok() then Some(stamp.LocalMs() - stamp.zone.Minutes() * MS_PER_MINUTE) else None
  }

  // ---- Printing ----

  function Compact(y: nat, month: nat, day: nat): string { Pad(y, 4) + Pad(month, 2) + Pad(day, 2) }

  function Dashed(y: nat, month: nat, day: nat): string { Joined(Pad(y, 4), Pad(month, 2), Pad(day, 2), '-') }

  function Slashed(y: nat, month: nat, day: nat): string { Joined(Pad(month, 2), Pad(day, 2), Pad(y, 4), '/') }

  function ZoneText(zone: Zone): string {
    match zone
    case Utc => "Z"
    case Offset(ahead, hours, minutes) => [if ahead then '+' else '-'] + Pad(hours, 2) + [':'] + Pad(minutes, 2)
  }

  /** Three fields around two separators. */
  function Joined(a: string, b: string, d: string, c: char): string { a + [c] + b + [c] + d }

  function TailText(t: Stamp): string { (if t.fraction == "" then "" else ['.'] + t.fraction) + ZoneText(t.zone) }

  function StampText(t: Stamp): string {
    Joined(Pad(t.year, 4), Pad(t.month, 2), Pad(t.day, 2), '-') + ['T']
    + Joined(Pad(t.hour, 2), Pad(t.minute, 2), Pad(t.second, 2), ':') + TailText(t)
  }

  // ---- What the parser accepts ----

  lemma CompactIsChecked(y: nat, month: nat, day: nat)
    requires y < 10_000 && month < 100 && day < 100
    ensures ParseEcbDate(Compact(y, month, day)) == Checked(y, month, day)
  {
    hide ValidCalendarDate, ParseIsoTimestamp, IsDashed, IsSlashed, Pad, Value;
    Powers();
    PadValue(y, 4);
    PadValue(month, 2);
    PadValue(day, 2);
    var text := Compact(y, month, day);
    assert text[..4] == Pad(y, 4) && text[4..6] == Pad(month, 2) && text[6..] == Pad(day, 2);
  }

  lemma NoSeparatorInDigits(s: string, c: char)
    requires Digits(s) && !IsDigit(c)
    ensures c !in s
  {
  }

  /** Any writing of the three fields with the right number of digits, around dashes. */
  lemma DashedIsChecked(y: string, month: string, day: string)
    requires Width(y, 4, 4) && Width(month, 1, 2) && Width(day, 1, 2)
    ensures ParseEcbDate(y + ['-'] + month + ['-'] + day) == Checked(Value(y), Value(month), Value(day))
  {
    hide ValidCalendarDate, ParseIsoTimestamp, Split3, Value;
    var text := y + ['-'] + month + ['-'] + day;
    NoSeparatorInDigits(y, '-');
    NoSeparatorInDigits(month, '-');
    Split3Joined(y, month, day, '-');
    assert text[4] == '-';
  }

  lemma SlashedIsChecked(y: string, month: string, day: string)
    requires Width(y, 4, 4) && Width(month, 1, 2) && Width(day, 1, 2)
    ensures ParseEcbDate(month + ['/'] + day + ['/'] + y) == Checked(Value(y), Value(month), Value(day))
  {
    hide ValidCalendarDate, ParseIsoTimestamp, Value, IndexOf;
    var text := month + ['/'] + day + ['/'] + y;
    NoSeparatorInDigits(month, '/');
    NoSeparatorInDigits(day, '/');
    Split3Joined(month, day, y, '/');
    assert text[|month|] == '/';
    SlashHasNoDash(text);
  }

  lemma SlashHasNoDash(text: string)
    requires '-' !in text
    ensures !IsDashed(text)
  {
  }

  /** The fields of a text in one of the three numeric forms. */
  function FieldsOf(text: string): Option<(nat, nat, nat)> {
    if IsCompact(text) then Some((Value(text[..4]), Value(text[4..6]), Value(text[6..])))
    else if IsDashed(text) then
      var (y, m, d) := Split3(text, '-').value;
      Some((Value(y), Value(m), Value(d)))
    else if IsSlashed(text) then
      var (m, d, y) := Split3(text, '/').value;
      Some((Value(y), Value(m), Value(d)))
    else None
  }

  lemma FieldsSmall(text: string)
    requires FieldsOf(text).Some?
    ensures var (y, month, day) := FieldsOf(text).value; y < 10_000 && month < 100 && day < 100
  {
    hide Split3;
    Powers();
    if IsCompact(text) {
      ValueBound(text[..4]);
      ValueBound(text[4..6]);
      ValueBound(text[6..]);
    } else if IsDashed(text) {
      var (y, m, d) := Split3(text, '-').value;
      FieldBounds(y, m, d);
    } else {
      var (m, d, y) := Split3(text, '/').value;
      FieldBounds(y, m, d);
    }
  }

  lemma FieldBounds(y: string, m: string, d: string)
    requires Width(y, 4, 4) && Width(m, 1, 2) && Width(d, 1, 2)
    ensures Value(y) < 10_000 && Value(m) < 100 && Value(d) < 100
  {
    Powers();
    ValueBound(y);
    ValueBound(m);
    ValueBound(d);
  }

  /**
   * A numeric date, in any of its forms, is accepted exactly when it is a real Gregorian day of the
   * year 100 or later, and then denotes midnight of that day; otherwise the field is invalid.
   */
  lemma NumericDatesExactly(text: string)
    requires text != "" && FieldsOf(text).Some?
    ensures var (y, month, day) := FieldsOf(text).value;
            ParseEcbDate(text) == if RealDay(y, month, day) && 100 <= y
                                  then Instant(MakeDay(y, month - 1, day) * MS_PER_DAY) else InvalidField
  {
    hide ParseIsoTimestamp, Split3, Value, ValidCalendarDate, RealDay, MakeDay;
    var (y, month, day) := FieldsOf(text).value;
    FieldsSmall(text);
    ValidExactly(y, month, day);
    assert ParseEcbDate(text) == Checked(y, month, day);
  }

  /** The three forms of a day denote the same instant. */
  lemma FormsAgree(y: nat, month: nat, day: nat)
    requires y < 10_000 && month < 100 && day < 100
    ensures ParseEcbDate(Compact(y, month, day)) == ParseEcbDate(Dashed(y, month, day)) == ParseEcbDate(Slashed(y, month, day))
    ensures ParseEcbDate(Compact(y, month, day)).Instant? <==> RealDay(y, month, day) && 100 <= y
  {
    hide ParseEcbDate, Value, Pad, RealDay, ValidCalendarDate;
    Powers();
    PadValue(y, 4);
    PadValue(month, 2);
    PadValue(day, 2);
    CompactIsChecked(y, month, day);
    DashedIsChecked(Pad(y, 4), Pad(month, 2), Pad(day, 2));
    SlashedIsChecked(Pad(y, 4), Pad(month, 2), Pad(day, 2));
    ValidExactly(y, month, day);
  }

  /** Printing the day of an instant and parsing it gives the instant back, for days of the years 100 to 9999. */
  lemma PrintedDayParsesBack(n: int)
    requires 100 <= YearOf(n) <= 9999
    ensures ParseEcbDate(Dashed(YearOf(n), MonthOf(n) + 1, DateOf(n))) == Instant(n * MS_PER_DAY)
  {
    hide ParseEcbDate, Value, Pad, ValidCalendarDate, YearOf, MonthOf, DateOf, MakeDay;
    var y, month, day := YearOf(n), MonthOf(n) + 1, DateOf(n);
    Powers();
    InstantRoundTrip(n);
    PadValue(y, 4);
    PadValue(month, 2);
    PadValue(day, 2);
    DashedIsChecked(Pad(y, 4), Pad(month, 2), Pad(day, 2));
    ValidExactly(y, month, day);
  }

  /** Parsing a printed real day gives an instant whose day prints as the same text. */
  lemma ParsedDayPrintsBack(y: nat, month: nat, day: nat, n: int)
    requires 100 <= y <= 9999 && RealDay(y, month, day)
    requires ParseEcbDate(Dashed(y, month, day)) == Instant(n * MS_PER_DAY)
    ensures YearOf(n) == y && MonthOf(n) + 1 == month && DateOf(n) == day
  {
    hide ParseEcbDate, Dashed, ValidCalendarDate, YearOf, MonthOf, DateOf, MakeDay, RealDay;
    FieldsRoundTrip(y, month, day);
    PrintedDayParsesBack(MakeDay(y, month - 1, day));
  }

  // ---- Timestamps ----

  lemma ZoneParses(zone: Zone)
    requires zone.Offset? ==> zone.hours < 100 && zone.minutes < 100
    ensures ParseZone(ZoneText(zone)) == Some(zone)
    ensures ZoneText(zone) != "" && ZoneText(zone)[0] != '.' && !IsDigit(ZoneText(zone)[0])
  {
    if zone.Offset? {
      Powers();
      PadValue(zone.hours, 2);
      PadValue(zone.minutes, 2);
      hide Pad, Value, Power10;
      var text := ZoneText(zone);
      assert text[1..3] == Pad(zone.hours, 2) && text[4..6] == Pad(zone.minutes, 2);
    }
  }

  lemma {:induction false} DigitRunStops(digits: string, rest: string)
    requires Digits(digits) && (rest == "" || !IsDigit(rest[0]))
    ensures DigitRun(digits + rest) == |digits|
  {
    if digits == "" {
      assert digits + rest == rest;
    } else {
      assert (digits + rest)[1..] == digits[1..] + rest;
      DigitRunStops(digits[1..], rest);
    }
  }

  lemma TailParses(fraction: string, zone: Zone)
    requires Digits(fraction) && |fraction| <= 9
    requires zone.Offset? ==> zone.hours < 100 && zone.minutes < 100
    ensures ParseTail((if fraction == "" then "" else ['.'] + fraction) + ZoneText(zone)) == Some((fraction, zone))
  {
    hide ParseZone, ZoneText;
    ZoneParses(zone);
    if fraction == "" {
      assert "" + ZoneText(zone) == ZoneText(zone);
    } else {
      var tail := ['.'] + fraction + ZoneText(zone);
      assert tail[1..] == fraction + ZoneText(zone);
      DigitRunStops(fraction, ZoneText(zone));
      assert tail[1..][..|fraction|] == fraction && tail[1 + |fraction|..] == ZoneText(zone);
    }
  }

  lemma JoinedParts(a: string, b: string, d: string, c: char)
    ensures var s := Joined(a, b, d, c);
            && |s| == |a| + |b| + |d| + 2
            && s[..|a|] == a && s[|a|] == c && s[|a| + 1..|a| + 1 + |b|] == b && s[|a| + 1 + |b|] == c
            && s[|a| + |b| + 2..] == d
  {
  }

  lemma SliceOfPrefix(s: string, from: nat, head: string, lo: nat, hi: nat)
    requires from + |head| <= |s| && s[from..from + |head|] == head && lo <= hi <= |head|
    ensures s[from + lo..from + hi] == head[lo..hi]
    ensures lo < |head| ==> s[from + lo] == head[lo]
  {
    var window := s[from..from + |head|];
    forall i | 0 <= i < |head| ensures s[from + i] == head[i] {
      assert window[i] == s[from + i];
    }
  }

  lemma HeadOf(t: Stamp)
    requires t.Writable()
    ensures var s := StampText(t);
            && HasTimestampHead(s)
            && s[0..4] == Pad(t.year, 4) && s[5..7] == Pad(t.month, 2) && s[8..10] == Pad(t.day, 2)
            && s[11..13] == Pad(t.hour, 2) && s[14..16] == Pad(t.minute, 2) && s[17..19] == Pad(t.second, 2)
            && s[19..] == TailText(t)
  {
    hide Pad, ZoneText, TailText, Joined;
    var date := Joined(Pad(t.year, 4), Pad(t.month, 2), Pad(t.day, 2), '-');
    var time := Joined(Pad(t.hour, 2), Pad(t.minute, 2), Pad(t.second, 2), ':');
    JoinedParts(Pad(t.year, 4), Pad(t.month, 2), Pad(t.day, 2), '-');
    JoinedParts(Pad(t.hour, 2), Pad(t.minute, 2), Pad(t.second, 2), ':');
    var s := StampText(t);
    assert s[0..0 + 10] == date && s[10] == 'T' && s[11..11 + 8] == time && s[19..] == TailText(t);
    SliceOfPrefix(s, 0, date, 0, 4);
    SliceOfPrefix(s, 0, date, 4, 4);
    SliceOfPrefix(s, 0, date, 5, 7);
    SliceOfPrefix(s, 0, date, 7, 7);
    SliceOfPrefix(s, 0, date, 8, 10);
    SliceOfPrefix(s, 11, time, 0, 2);
    SliceOfPrefix(s, 11, time, 2, 2);
    SliceOfPrefix(s, 11, time, 3, 5);
    SliceOfPrefix(s, 11, time, 5, 5);
    SliceOfPrefix(s, 11, time, 6, 8);
  }

  lemma StampReads(t: Stamp)
    requires t.Writable()
    ensures ReadStamp(StampText(t)) == Some(t)
  {
    hide Pad, ZoneText, StampText, ParseTail, HasTimestampHead, Value, Joined;
    Powers();
    HeadOf(t);
    TailParses(t.fraction, t.zone);
    PadValue(t.year, 4);
    PadValue(t.month, 2);
    PadValue(t.day, 2);
    PadValue(t.hour, 2);
    PadValue(t.minute, 2);
    PadValue(t.second, 2);
  }

  lemma TimestampIsNoDate(s: string)
    requires HasTimestampHead(s)
    ensures s != "" && !IsCompact(s) && !IsDashed(s) && !IsSlashed(s)
  {
    if Split3(s, '-').Some? {
      DashesOfTimestamp(s);
    }
    if Split3(s, '/').Some? {
      var first := Split3(s, '/').value.0;
      assert |first| <= 2 ==> s[|first|] == '/';
    }
  }

  lemma DashesOfTimestamp(s: string)
    requires HasTimestampHead(s) && Split3(s, '-').Some?
    ensures !Digits(Split3(s, '-').value.2) || |Split3(s, '-').value.2| > 2
  {
    var i := IndexOf(s, '-');
    assert s[i] == '-' && i <= 4;
    var tail := s[i + 1..];
    var j := IndexOf(tail, '-');
    assert tail[7 - i - 1] == '-';
  }

  /**
   * A timestamp with its fields in range denotes its local fields minus its offset; with any field
   * out of range it is an invalid field.
   */
  lemma TimestampInstant(t: Stamp)
    requires t.Writable()
    ensures ParseEcbDate(StampText(t))
            == if t.Ok() then Instant(t.LocalMs() - t.zone.Minutes() * MS_PER_MINUTE) else InvalidField
  {
    hide Split3, ReadStamp, HasTimestampHead, IsCompact, IsDashed, IsSlashed, StampText, ValidCalendarDate;
    StampReads(t);
    HeadOf(t);
    TimestampIsNoDate(StampText(t));
  }

  lemma ZeroAppended(s: string)
    requires Digits(s)
    ensures Digits(s + "0") && Value(s + "0") == 10 * Value(s)
  {
    assert (s + "0")[..|s|] == s;
  }

  /** Only the first three digits of a fraction count, and missing ones are zero. */
  lemma FractionIsThreeDigits(s: string)
    requires Digits(s)
    ensures |s| >= 3 ==> Milliseconds(s) == Value(s[..3])
    ensures |s| == 2 ==> Milliseconds(s) == 10 * Value(s)
    ensures |s| == 1 ==> Milliseconds(s) == 100 * Value(s)
    ensures |s| == 0 ==> Milliseconds(s) == 0
  {
    hide Value;
    ZeroAppended(s);
    ZeroAppended(s + "0");
    if |s| >= 3 {
      assert (s + "000")[..3] == s[..3];
    } else if |s| == 2 {
      assert (s + "000")[..3] == s + "0";
    } else if |s| == 1 {
      assert (s + "000")[..3] == s + "0" + "0";
    } else {
      assert (s + "000")[..3] == "000";
      NoMilliseconds();
    }
  }

  lemma NoMilliseconds()
    ensures Digits("000") && Value("000") == 0
  {
    ZeroAppended("");
    ZeroAppended("0");
    ZeroAppended("00");
    assert "" + "0" == "0" && "0" + "0" == "00" && "00" + "0" == "000";
  }
}
