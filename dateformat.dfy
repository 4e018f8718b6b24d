/** `format_date`: parse "Mon DD, YYYY HH:MM AM|PM ZONE" with
    `datetime.strptime` -- first with a named zone (`%Z`), then with a
    numeric offset (`%z`) -- and print the result as "%Y-%m-%d %H:%M:%S".

    strptime turns each space of its format into the pattern `\s+` and must
    consume the whole input. Every numeric field is followed by a non-digit
    (',', ':' or whitespace), so a field matches exactly the maximal run of
    digits at its position, and the run's length and value decide whether
    the field's pattern accepts it. The zone is parsed and then never used
    by the output. */
module DateFormat {
  import opened Wrappers
  import opened Text

  /** A parsed piece and the input left after it. */
  datatype Scan<T> = Scan(value: T, rest: string)

  /** The fields `%b %d, %Y %I:%M %p` read; `pm` is the `%p` value. */
  datatype Clock = Clock(year: nat, month: nat, day: nat, hour12: nat, minute: nat, pm: bool)

  /** The naive date-time that `strftime` prints. */
  datatype Stamp = Stamp(year: nat, month: nat, day: nat, hour: nat, minute: nat, second: nat)

  datatype DateError = UnparsableDate(text: string)

  const MonthAbbreviations: seq<string> :=
    ["jan", "feb", "mar", "apr", "may", "jun", "jul", "aug", "sep", "oct", "nov", "dec"]

  // -----------------------------------------------------------------------
  // The pieces of the strptime pattern

  /** Length of the run of ASCII digits that starts `s`. */
  function DigitRun(s: string): (n: nat)
    ensures n <= |s|
    ensures forall i :: 0 <= i < n ==> IsAsciiDigit(s[i])
    ensures n < |s| ==> !IsAsciiDigit(s[n])
  {
    if s != [] && IsAsciiDigit(s[0]) then 1 + DigitRun(s[1..]) else 0
  }

  predicate AllDigits(s: string) {
    forall i :: 0 <= i < |s| ==> IsAsciiDigit(s[i])
  }

  /** Decimal value of a string of ASCII digits. */
  function NumberValue(ds: string): nat
    requires forall i :: 0 <= i < |ds| ==> IsAsciiDigit(ds[i])
  {
    if ds == [] then 0 else NumberValue(ds[..|ds| - 1]) * 10 + DigitValue(ds[|ds| - 1])
  }

  /** A numeric field: the digit run at the start of `s` must be
      `minLen..maxLen` long and its value within `lo..hi`. */
  function Field(s: string, minLen: nat, maxLen: nat, lo: nat, hi: nat): (r: Option<Scan<nat>>)
    ensures r.Some? ==> lo <= r.value.value <= hi
    ensures r.Some? ==> |r.value.rest| <= |s| && var ds := s[..|s| - |r.value.rest|];
      && s == ds + r.value.rest
      && minLen <= |ds| <= maxLen && AllDigits(ds) && r.value.value == NumberValue(ds)
      && (r.value.rest == [] || !IsAsciiDigit(r.value.rest[0]))
  {
    var n := DigitRun(s);
    if minLen <= n <= maxLen && lo <= NumberValue(s[..n]) <= hi
    then Some(Scan(NumberValue(s[..n]), s[n..]))
    else None
  }

  /** `\s+`. */
  function Spaces(s: string): Option<string> {
    if s != [] && s[0] in Whitespace then Some(TrimStart(s, Whitespace)) else None
  }

  /** One literal character of the format. */
  function Literal(s: string, c: char): Option<string> {
    if s != [] && s[0] == c then Some(s[1..]) else None
  }

  function LowerPrefix(s: string, n: nat): string
    requires n <= |s|
  {
    seq(n, i requires 0 <= i < n => LowerAscii(s[i]))
  }

  function IndexOf(xs: seq<string>, x: string): (i: nat)
    requires x in xs
    ensures i < |xs| && xs[i] == x
  {
    if xs[0] == x then 0 else 1 + IndexOf(xs[1..], x)
  }

  /** `%b`: a three-letter month abbreviation in any case. */
  function Month(s: string): (r: Option<Scan<nat>>)
    ensures r.Some? ==> 1 <= r.value.value <= 12
    ensures r.Some? ==>
      |s| >= 3 && r.value.rest == s[3..] && LowerPrefix(s, 3) == MonthAbbreviations[r.value.value - 1]
  {
    if |s| >= 3 && LowerPrefix(s, 3) in MonthAbbreviations then
      var m: nat := IndexOf(MonthAbbreviations, LowerPrefix(s, 3)) + 1;
      Some(Scan(m, s[3..]))
    else None
  }

  /** `%p`: "AM" or "PM" in any case; the value says PM. */
  function AmPm(s: string): Option<Scan<bool>> {
    if |s| >= 2 && LowerPrefix(s, 2) == "am" then Some(Scan(false, s[2..]))
    else if |s| >= 2 && LowerPrefix(s, 2) == "pm" then Some(Scan(true, s[2..]))
    else None
  }

  /** Everything up to the zone: `%b\s+%d,\s+%Y\s+%I:%M\s+%p\s+`. */
  function ParseClock(s: string): (r: Option<Scan<Clock>>)
    ensures r.Some? ==> ClockInRange(r.value.value)
  {
    var month :- Month(s);
    var r1 :- Spaces(month.rest);
    var day :- Field(r1, 1, 2, 1, 31);
    var r2 :- Literal(day.rest, ',');
    var r3 :- Spaces(r2);
    var year :- Field(r3, 4, 4, 0, 9999);
    var r4 :- Spaces(year.rest);
    var hour :- Field(r4, 1, 2, 1, 12);
    var r5 :- Literal(hour.rest, ':');
    var minute :- Field(r5, 1, 2, 0, 59);
    var r6 :- Spaces(minute.rest);
    var ampm :- AmPm(r6);
    var r7 :- Spaces(ampm.rest);
    Some(Scan(Clock(year.value, month.value, day.value, hour.value, minute.value, ampm.value), r7))
  }

  /** `%Z`: the names strptime knows on a host whose local zone is UTC,
      in any case. */
  predicate IsZoneName(z: string) {
    |z| == 3 && LowerPrefix(z, 3) in {"utc", "gmt"}
  }

  /** `%z`: "Z", "+HHMM" or "+HH:MM" (sign '+' or '-'), as a number of
      minutes east of UTC; `datetime.timezone` refuses a day or more. */
  function OffsetMinutes(z: string): (r: Option<int>)
    ensures r.Some? ==> -24 * 60 < r.value < 24 * 60
  {
    if z == "Z" then Some(0)
    else if |z| != 5 && |z| != 6 then None
    else if z[0] != '+' && z[0] != '-' then None
    else
      var mm := if |z| == 6 then z[4..] else z[3..];
      if |z| == 6 && z[3] != ':' then None
      else if !(IsAsciiDigit(z[1]) && IsAsciiDigit(z[2])) then None
      else if !('0' <= mm[0] <= '5' && IsAsciiDigit(mm[1])) then None
      else
        var hours := DigitValue(z[1]) * 10 + DigitValue(z[2]);
        var minutes := DigitValue(mm[0]) * 10 + DigitValue(mm[1]);
        if hours > 23 then None
        else if z[0] == '-' then Some(-(hours * 60 + minutes))
        else Some(hours * 60 + minutes)
  }

  predicate IsLeapYear(y: nat) {
    y % 4 == 0 && (y % 100 != 0 || y % 400 == 0)
  }

  function DaysInMonth(y: nat, m: nat): nat
    requires 1 <= m <= 12
  {
    if m == 2 then (if IsLeapYear(y) then 29 else 28)
    else if m in {4, 6, 9, 11} then 30
    else 31
  }

  /** The ranges the field patterns enforce. */
  predicate ClockInRange(c: Clock) {
    1 <= c.month <= 12 && 1 <= c.day <= 31 && c.year <= 9999
    && 1 <= c.hour12 <= 12 && c.minute <= 59
  }

  /** What the `datetime` constructor accepts. */
  predicate ValidDate(c: Clock) {
    1 <= c.year <= 9999 && 1 <= c.month <= 12 && 1 <= c.day <= DaysInMonth(c.year, c.month)
  }

  /** `datetime.strptime(s, "%b %d, %Y %I:%M %p %Z")`. */
  function ParseNamedZone(s: string): (r: Option<Clock>)
    ensures r.Some? ==> ValidDate(r.value) && ClockInRange(r.value)
  {
    var c :- ParseClock(s);
    if IsZoneName(c.rest) && ValidDate(c.value) then Some(c.value) else None
  }

  /** `datetime.strptime(s, "%b %d, %Y %I:%M %p %z")`. */
  function ParseOffsetZone(s: string): (r: Option<Clock>)
    ensures r.Some? ==> ValidDate(r.value) && ClockInRange(r.value)
  {
    var c :- ParseClock(s);
    if OffsetMinutes(c.rest).Some? && ValidDate(c.value) then Some(c.value) else None
  }

  // -----------------------------------------------------------------------
  // 12-hour to 24-hour clock and the output format

  /** strptime's `%I`/`%p` rule: 12 AM is hour 0, 12 PM stays 12, any other
      PM hour gains 12. */
  function Hour24(hour12: nat, pm: bool): nat {
    if pm then (if hour12 != 12 then hour12 + 12 else hour12)
    else (if hour12 == 12 then 0 else hour12)
  }

  /** The 12-hour reading of a 24-hour hour (inverse of Hour24). */
  function Hour12(hour: nat): (nat, bool) {
    if hour == 0 then (12, false)
    else if hour < 12 then (hour, false)
    else if hour == 12 then (12, true)
    else (hour - 12, true)
  }

  /** Seconds are not in the input format, so they are always zero. */
  function ToStamp(c: Clock): (st: Stamp)
    requires ClockInRange(c)
    ensures StampInRange(st) && st.hour < 24
  {
    Stamp(c.year, c.month, c.day, Hour24(c.hour12, c.pm), c.minute, 0)
  }

  function Pow10(w: nat): nat {
    if w == 0 then 1 else 10 * Pow10(w - 1)
  }

  /** `n` as exactly `w` zero-padded decimal digits. */
  function Pad(n: nat, w: nat): (r: string)
    requires n < Pow10(w)
    ensures |r| == w
  {
    if w == 0 then "" else Pad(n / 10, w - 1) + [DigitChar(n % 10)]
  }

  predicate StampInRange(st: Stamp) {
    st.year < 10000 && st.month < 100 && st.day < 100 && st.hour < 100
    && st.minute < 100 && st.second < 100
  }

  /** `strftime("%Y-%m-%d %H:%M:%S")`. */
  function Render(st: Stamp): string
    requires StampInRange(st)
  {
    Pad(st.year, 4) + ("-" + (Pad(st.month, 2) + ("-" + (Pad(st.day, 2) + (" "
    + (Pad(st.hour, 2) + (":" + (Pad(st.minute, 2) + (":" + Pad(st.second, 2))))))))))
  }

  /** Exactly `w` digits. */
  function FixedDigits(s: string, w: nat): Option<Scan<nat>> {
    if |s| >= w && AllDigits(s[..w]) then Some(Scan(NumberValue(s[..w]), s[w..])) else None
  }

  /** Reads "YYYY-MM-DD HH:MM:SS" back: the partner of Render. */
  function ParseStamp(s: string): Option<Stamp> {
    var year :- FixedDigits(s, 4);
    var r1 :- Literal(year.rest, '-');
    var month :- FixedDigits(r1, 2);
    var r2 :- Literal(month.rest, '-');
    var day :- FixedDigits(r2, 2);
    var r3 :- Literal(day.rest, ' ');
    var hour :- FixedDigits(r3, 2);
    var r4 :- Literal(hour.rest, ':');
    var minute :- FixedDigits(r4, 2);
    var r5 :- Literal(minute.rest, ':');
    var second :- FixedDigits(r5, 2);
    if second.rest == [] then Some(Stamp(year.value, month.value, day.value, hour.value, minute.value, second.value))
    else None
  }

  /** `format_date`: named zone first, numeric offset second; when neither
      format matches, the `ValueError` escapes. */
  function FormatDate(s: string): Result<string, DateError> {
    match ParseNamedZone(s)
    case Some(c) => Ok(Render(ToStamp(c)))
    case None =>
      match ParseOffsetZone(s)
      case Some(c) => Ok(Render(ToStamp(c)))
      case None => Err(UnparsableDate(s))
  }

  // -----------------------------------------------------------------------
  // Lemmas

  /** The 12-hour to 24-hour rule is a bijection from 1..12 x {AM, PM}
      onto 0..23. */
  lemma Hour24Bijection(hour12: nat, pm: bool, hour: nat)
    ensures 1 <= hour12 <= 12 ==> Hour24(hour12, pm) < 24 && Hour12(Hour24(hour12, pm)) == (hour12, pm)
    ensures hour < 24 ==> 1 <= Hour12(hour).0 <= 12 && Hour24(Hour12(hour).0, Hour12(hour).1) == hour
  {
  }

  lemma {:induction false} NumberValueOfPad(n: nat, w: nat)
    requires n < Pow10(w)
    ensures AllDigits(Pad(n, w)) && NumberValue(Pad(n, w)) == n
  {
    if w > 0 {
      assert n / 10 < Pow10(w - 1);
      NumberValueOfPad(n / 10, w - 1);
      var p := Pad(n, w);
      assert p[..|p| - 1] == Pad(n / 10, w - 1);
    }
  }

  lemma FixedDigitsOfPad(n: nat, w: nat, rest: string)
    requires n < Pow10(w)
    ensures FixedDigits(Pad(n, w) + rest, w) == Some(Scan(n, rest))
  {
    NumberValueOfPad(n, w);
    var s := Pad(n, w) + rest;
    assert s[..w] == Pad(n, w);
    assert s[w..] == rest;
  }

  lemma LiteralOf(c: char, rest: string)
    ensures Literal([c] + rest, c) == Some(rest)
  {
    assert ([c] + rest)[1..] == rest;
  }

  /** Reading the printed stamp gives the stamp back, so the output has
      the shape YYYY-MM-DD HH:MM:SS and each field carries its value. */
  lemma RenderRoundTrip(st: Stamp)
    requires StampInRange(st)
    ensures |Render(st)| == 19
    ensures ParseStamp(Render(st)) == Some(st)
  {
    var t5 := Pad(st.second, 2) + [];
    assert t5 == Pad(st.second, 2);
    var t4 := Pad(st.minute, 2) + (":" + Pad(st.second, 2));
    var t3 := Pad(st.hour, 2) + (":" + t4);
    var t2 := Pad(st.day, 2) + (" " + t3);
    var t1 := Pad(st.month, 2) + ("-" + t2);
    var t0 := Pad(st.year, 4) + ("-" + t1);
    assert Render(st) == t0;
    FixedDigitsOfPad(st.year, 4, "-" + t1);
    LiteralOf('-', t1);
    FixedDigitsOfPad(st.month, 2, "-" + t2);
    LiteralOf('-', t2);
    FixedDigitsOfPad(st.day, 2, " " + t3);
    LiteralOf(' ', t3);
    FixedDigitsOfPad(st.hour, 2, ":" + t4);
    LiteralOf(':', t4);
    FixedDigitsOfPad(st.minute, 2, ":" + t5);
    LiteralOf(':', t5);
    FixedDigitsOfPad(st.second, 2, []);
  }

  /** format_date succeeds exactly when the text up to the zone parses to
      a real calendar date and the zone is a known name or a valid offset;
      the output is then the 24-hour wall-clock time of the input with
      seconds 00, whatever the zone says. */
  lemma FormatDateMeaning(s: string)
    ensures FormatDate(s).Ok? <==>
      && ParseClock(s).Some?
      && ValidDate(ParseClock(s).value.value)
      && (IsZoneName(ParseClock(s).value.rest) || OffsetMinutes(ParseClock(s).value.rest).Some?)
    ensures FormatDate(s).Ok? ==>
      var c := ParseClock(s).value.value;
      && ParseStamp(FormatDate(s).value)
         == Some(Stamp(c.year, c.month, c.day, Hour24(c.hour12, c.pm), c.minute, 0))
  {
    if FormatDate(s).Ok? {
      var c := ParseClock(s).value.value;
      RenderRoundTrip(ToStamp(c));
    }
  }

  /** The zone is never applied: two inputs that agree up to the zone give
      the same output, whether the zone is a name or any numeric offset. */
  lemma ZoneNeverApplied(s1: string, s2: string)
    requires ParseClock(s1).Some? && ParseClock(s2).Some?
    requires ParseClock(s1).value.value == ParseClock(s2).value.value
    requires FormatDate(s1).Ok? && FormatDate(s2).Ok?
    ensures FormatDate(s1) == FormatDate(s2)
  {
    FormatDateValue(s1);
    FormatDateValue(s2);
  }

  /** Whichever format matched, the output is the clock read before the
      zone. */
  lemma FormatDateValue(s: string)
    requires FormatDate(s).Ok?
    ensures ParseClock(s).Some?
    ensures FormatDate(s) == Ok(Render(ToStamp(ParseClock(s).value.value)))
  {
  }

  // -----------------------------------------------------------------------
  // The input format, printed and read back

  const MonthNames: seq<string> :=
    ["Jan", "Feb", "Mar", "Apr", "May", "Jun", "Jul", "Aug", "Sep", "Oct", "Nov", "Dec"]

  /** The clock written in the input format, "Mon DD, YYYY HH:MM AM|PM",
      followed by `tail`. */
  function ClockText(c: Clock, tail: string): string
    requires ClockInRange(c)
  {
    MonthNames[c.month - 1] + (" " + (Pad(c.day, 2) + ("," + (" " + (Pad(c.year, 4) + (" "
    + (Pad(c.hour12, 2) + (":" + (Pad(c.minute, 2) + (" " + ((if c.pm then "PM" else "AM") + tail)))))))))))
  }

  /** The clock written in the input format, "Mon DD, YYYY HH:MM AM|PM". */
  function ShowClock(c: Clock): string
    requires ClockInRange(c)
  {
    ClockText(c, "")
  }

  /** A maximal run of digits is read as its value. */
  lemma {:induction false} DigitRunOf(ds: string, rest: string)
    requires AllDigits(ds)
    requires rest == [] || !IsAsciiDigit(rest[0])
    ensures DigitRun(ds + rest) == |ds|
  {
    if ds != [] {
      assert (ds + rest)[1..] == ds[1..] + rest;
      DigitRunOf(ds[1..], rest);
    } else {
      assert ds + rest == rest;
    }
  }

  /** Conversely to Field's contract: any digit string of an accepted
      length and value, not followed by a digit, is read as its value. */
  lemma FieldOf(ds: string, rest: string, minLen: nat, maxLen: nat, lo: nat, hi: nat)
    requires AllDigits(ds) && minLen <= |ds| <= maxLen && lo <= NumberValue(ds) <= hi
    requires rest == [] || !IsAsciiDigit(rest[0])
    ensures Field(ds + rest, minLen, maxLen, lo, hi) == Some(Scan(NumberValue(ds), rest))
  {
    DigitRunOf(ds, rest);
    assert (ds + rest)[..|ds|] == ds;
    assert (ds + rest)[|ds|..] == rest;
  }

  /** One space followed by a non-space is one `\s+`. */
  lemma SpacesOf(rest: string)
    requires rest == [] || rest[0] !in Whitespace
    ensures Spaces(" " + rest) == Some(rest)
  {
    var s := " " + rest;
    assert s[1..] == rest;
    assert LeadCount(s, Whitespace) == 1;
  }

  /** IndexOf finds the first occurrence. */
  lemma {:induction false} FirstIndex(xs: seq<string>, i: nat, x: string)
    requires i < |xs| && xs[i] == x
    requires forall j :: 0 <= j < i ==> xs[j] != x
    ensures x in xs && IndexOf(xs, x) == i
  {
    if i > 0 {
      assert xs[1..][i - 1] == x;
      FirstIndex(xs[1..], i - 1, x);
    }
  }

  lemma MonthAbbreviationsDistinct(i: nat)
    requires i < 12
    ensures forall j :: 0 <= j < i ==> MonthAbbreviations[j] != MonthAbbreviations[i]
  {
    var m := MonthAbbreviations;
    forall j | 0 <= j < i
      ensures m[j] != m[i]
    {
      assert m[j][0] != m[i][0] || m[j][1] != m[i][1] || m[j][2] != m[i][2];
    }
  }

  /** `%b` reads the month whose abbreviation is written, in any letter
      case, and nothing more. */
  lemma MonthOf(name: string, i: nat, rest: string)
    requires i < 12 && |name| == 3
    requires forall k :: 0 <= k < 3 ==> LowerAscii(name[k]) == MonthAbbreviations[i][k]
    ensures Month(name + rest) == Some(Scan((i + 1) as nat, rest))
  {
    var s := name + rest;
    assert LowerPrefix(s, 3) == MonthAbbreviations[i];
    assert s[3..] == rest;
    MonthAbbreviationsDistinct(i);
    FirstIndex(MonthAbbreviations, i, MonthAbbreviations[i]);
  }

  /** The printed month names are the abbreviations `%b` reads. */
  lemma MonthNameOf(i: nat)
    requires i < 12
    ensures |MonthNames[i]| == 3
    ensures forall k :: 0 <= k < 3 ==> LowerAscii(MonthNames[i][k]) == MonthAbbreviations[i][k]
  {
  }

  lemma AmPmOf(pm: bool, rest: string)
    ensures AmPm((if pm then "PM" else "AM") + rest) == Some(Scan(pm, rest))
  {
    var s := (if pm then "PM" else "AM") + rest;
    assert s[2..] == rest;
    assert LowerPrefix(s, 2) == (if pm then "pm" else "am");
  }

  /** ParseClock as the chain of its steps. */
  lemma ParseClockSteps(s: string, m: Scan<nat>, r1: string, d: Scan<nat>, r2: string, r3: string,
                        y: Scan<nat>, r4: string, h: Scan<nat>, r5: string, mi: Scan<nat>, r6: string,
                        p: Scan<bool>, r7: string)
    requires Month(s) == Some(m) && Spaces(m.rest) == Some(r1)
    requires Field(r1, 1, 2, 1, 31) == Some(d) && Literal(d.rest, ',') == Some(r2)
    requires Spaces(r2) == Some(r3) && Field(r3, 4, 4, 0, 9999) == Some(y)
    requires Spaces(y.rest) == Some(r4) && Field(r4, 1, 2, 1, 12) == Some(h)
    requires Literal(h.rest, ':') == Some(r5) && Field(r5, 1, 2, 0, 59) == Some(mi)
    requires Spaces(mi.rest) == Some(r6) && AmPm(r6) == Some(p) && Spaces(p.rest) == Some(r7)
    ensures ParseClock(s) == Some(Scan(Clock(y.value, m.value, d.value, h.value, mi.value, p.value), r7))
  {
  }

  /** A zero-padded field followed by a non-digit is read as its value. */
  lemma PaddedField(n: nat, w: nat, rest: string, minLen: nat, maxLen: nat, lo: nat, hi: nat)
    requires n < Pow10(w) && minLen <= w <= maxLen && lo <= n <= hi
    requires rest == [] || !IsAsciiDigit(rest[0])
    ensures Field(Pad(n, w) + rest, minLen, maxLen, lo, hi) == Some(Scan(n, rest))
  {
    NumberValueOfPad(n, w);
    FieldOf(Pad(n, w), rest, minLen, maxLen, lo, hi);
  }

  /** A space before a zero-padded field is one `\s+`. */
  lemma SpacesBeforePad(n: nat, w: nat, rest: string)
    requires n < Pow10(w) && w > 0
    ensures Spaces(" " + (Pad(n, w) + rest)) == Some(Pad(n, w) + rest)
  {
    NumberValueOfPad(n, w);
    assert (Pad(n, w) + rest)[0] == Pad(n, w)[0];
    SpacesOf(Pad(n, w) + rest);
  }

  lemma SpacesBeforeAmPm(pm: bool, rest: string)
    ensures Spaces(" " + ((if pm then "PM" else "AM") + rest)) == Some((if pm then "PM" else "AM") + rest)
  {
    var t := (if pm then "PM" else "AM") + rest;
    assert t[0] == (if pm then 'P' else 'A');
    SpacesOf(t);
  }

  /** Reading the printed clock back, up to a zone that does not start
      with whitespace, gives the clock and leaves the zone. */
  lemma ClockTextRoundTrip(c: Clock, zone: string)
    requires ClockInRange(c)
    requires zone == [] || zone[0] !in Whitespace
    ensures ParseClock(ClockText(c, " " + zone)) == Some(Scan(c, zone))
  {
    var t9 := (if c.pm then "PM" else "AM") + (" " + zone);
    var t7 := Pad(c.minute, 2) + (" " + t9);
    var t5 := Pad(c.hour12, 2) + (":" + t7);
    var t3 := Pad(c.year, 4) + (" " + t5);
    var t1 := Pad(c.day, 2) + ("," + (" " + t3));
    var s := MonthNames[c.month - 1] + (" " + t1);
    assert ClockText(c, " " + zone) == s;
    MonthNameOf(c.month - 1);
    MonthOf(MonthNames[c.month - 1], c.month - 1, " " + t1);
    SpacesBeforePad(c.day, 2, "," + (" " + t3));
    PaddedField(c.day, 2, "," + (" " + t3), 1, 2, 1, 31);
    LiteralOf(',', " " + t3);
    SpacesBeforePad(c.year, 4, " " + t5);
    PaddedField(c.year, 4, " " + t5, 4, 4, 0, 9999);
    SpacesBeforePad(c.hour12, 2, ":" + t7);
    PaddedField(c.hour12, 2, ":" + t7, 1, 2, 1, 12);
    LiteralOf(':', t7);
    PaddedField(c.minute, 2, " " + t9, 1, 2, 0, 59);
    SpacesBeforeAmPm(c.pm, " " + zone);
    AmPmOf(c.pm, " " + zone);
    SpacesOf(zone);
    ParseClockSteps(s, Scan(c.month, " " + t1), t1, Scan(c.day, "," + (" " + t3)), " " + t3, t3,
      Scan(c.year, " " + t5), t5, Scan(c.hour12, ":" + t7), t7, Scan(c.minute, " " + t9), t9,
      Scan(c.pm, " " + zone), zone);
  }

  /** The same for the printed clock followed by one space and the zone. */
  lemma ShowClockRoundTrip(c: Clock, zone: string)
    requires ClockInRange(c)
    requires zone == [] || zone[0] !in Whitespace
    ensures ParseClock(ShowClock(c) + " " + zone) == Some(Scan(c, zone))
  {
    AppendAssoc(ShowClock(c), " ", zone);
    ClockTextThen(c, " " + zone);
    ClockTextRoundTrip(c, zone);
  }

  lemma ClockTextThen(c: Clock, tail: string)
    requires ClockInRange(c)
    ensures ShowClock(c) + tail == ClockText(c, tail)
  {
    var ap := if c.pm then "PM" else "AM";
    var s9, t9 := ap + "", ap + tail;
    assert s9 == ap;
    var s8, t8 := PrependBoth(" ", s9, t9, tail);
    var s7, t7 := PrependBoth(Pad(c.minute, 2), s8, t8, tail);
    var s6, t6 := PrependBoth(":", s7, t7, tail);
    var s5, t5 := PrependBoth(Pad(c.hour12, 2), s6, t6, tail);
    var s4, t4 := PrependBoth(" ", s5, t5, tail);
    var s3, t3 := PrependBoth(Pad(c.year, 4), s4, t4, tail);
    var s2, t2 := PrependBoth(" ", s3, t3, tail);
    var s1, t1 := PrependBoth(",", s2, t2, tail);
    var s0, t0 := PrependBoth(Pad(c.day, 2), s1, t1, tail);
    var r1, q1 := PrependBoth(" ", s0, t0, tail);
    var r0, q0 := PrependBoth(MonthNames[c.month - 1], r1, q1, tail);
    assert r0 == ShowClock(c) && q0 == ClockText(c, tail);
  }

  /** Prepending the same text keeps `s + tail == t`. */
  lemma PrependBoth(x: string, s: string, t: string, tail: string) returns (xs: string, xt: string)
    requires s + tail == t
    ensures xs == x + s && xt == x + t && xs + tail == xt
  {
    AppendAssoc(x, s, tail);
    xs, xt := x + s, x + t;
  }

  /** format_date of a printed clock and an accepted zone is that clock on
      the 24-hour dial with seconds 00, whatever the zone. */
  lemma FormatDateOfShown(c: Clock, zone: string)
    requires ClockInRange(c) && ValidDate(c)
    requires zone == [] || zone[0] !in Whitespace
    requires IsZoneName(zone) || OffsetMinutes(zone).Some?
    ensures FormatDate(ShowClock(c) + " " + zone) == Ok(Render(ToStamp(c)))
  {
    ShowClockRoundTrip(c, zone);
  }

  // -----------------------------------------------------------------------
  // Zone offsets, printed and read back

  /** An offset of less than a day, in minutes east of UTC, written as
      "+HHMM", or "+HH:MM" when `colon` (sign '-' west of UTC). */
  function ShowOffset(minutes: int, colon: bool): string
    requires -24 * 60 < minutes < 24 * 60
  {
    var a := if minutes < 0 then -minutes else minutes;
    var sign := if minutes < 0 then '-' else '+';
    var hh, mm := Pad(a / 60, 2), Pad(a % 60, 2);
    if colon then [sign, hh[0], hh[1], ':', mm[0], mm[1]] else [sign, hh[0], hh[1], mm[0], mm[1]]
  }

  lemma PadTwo(n: nat)
    requires n < 100
    ensures Pad(n, 2) == [DigitChar(n / 10), DigitChar(n % 10)]
  {
    var a := n / 10;
    assert a < 10 && a / 10 == 0 && a % 10 == a;
    assert Pad(a, 1) == Pad(0, 0) + [DigitChar(a)];
    assert Pad(n, 2) == Pad(a, 1) + [DigitChar(n % 10)];
  }

  /** `%z` reads a signed "HHMM" or "HH:MM" as that many minutes. */
  lemma OffsetOfDigits(sign: char, h1: char, h2: char, m1: char, m2: char, colon: bool)
    requires sign == '+' || sign == '-'
    requires IsAsciiDigit(h1) && IsAsciiDigit(h2) && '0' <= m1 <= '5' && IsAsciiDigit(m2)
    requires DigitValue(h1) * 10 + DigitValue(h2) <= 23
    ensures var minutes := (DigitValue(h1) * 10 + DigitValue(h2)) * 60 + DigitValue(m1) * 10 + DigitValue(m2);
      OffsetMinutes(if colon then [sign, h1, h2, ':', m1, m2] else [sign, h1, h2, m1, m2])
      == Some(if sign == '-' then -minutes else minutes)
  {
    var z := if colon then [sign, h1, h2, ':', m1, m2] else [sign, h1, h2, m1, m2];
    assert (if colon then z[4..] else z[3..]) == [m1, m2];
  }

  /** Every offset of less than a day, printed with or without the colon,
      reads back as itself. */
  lemma OffsetRoundTrip(minutes: int, colon: bool)
    requires -24 * 60 < minutes < 24 * 60
    ensures OffsetMinutes(ShowOffset(minutes, colon)) == Some(minutes)
  {
    var a := if minutes < 0 then -minutes else minutes;
    assert a == a / 60 * 60 + a % 60;
    OffsetOfPads(if minutes < 0 then '-' else '+', a / 60, a % 60, colon);
  }

  lemma OffsetOfPads(sign: char, h: nat, m: nat, colon: bool)
    requires sign == '+' || sign == '-'
    requires h < 24 && m < 60
    ensures var hh, mm := Pad(h, 2), Pad(m, 2);
      OffsetMinutes(if colon then [sign, hh[0], hh[1], ':', mm[0], mm[1]] else [sign, hh[0], hh[1], mm[0], mm[1]])
      == Some(if sign == '-' then -(h * 60 + m) else h * 60 + m)
  {
    PadTwo(h);
    PadTwo(m);
    assert DigitValue(DigitChar(h / 10)) * 10 + DigitValue(DigitChar(h % 10)) == h;
    assert DigitValue(DigitChar(m / 10)) * 10 + DigitValue(DigitChar(m % 10)) == m;
    OffsetOfDigits(sign, DigitChar(h / 10), DigitChar(h % 10), DigitChar(m / 10), DigitChar(m % 10), colon);
  }
}
