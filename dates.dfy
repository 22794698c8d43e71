/**
 * Calendar dates (`chrono::NaiveDate`) and the one date pattern the tabroom feed uses,
 * `%m/%d/%Y`, as `NaiveDate::parse_from_str` reads it: before each number any Unicode
 * white space is skipped; the month and the day are one or two digits; the year is one
 * to four digits, or a sign followed by any number of digits; each `/` must be there
 * literally; nothing may follow the year; and the three numbers must name a day of the
 * proleptic Gregorian calendar inside the range `NaiveDate` represents.
 */
module Dates {
  import opened Wrappers
  import opened Numeric

  /** The years `NaiveDate` can represent. */
  const MIN_YEAR: int := -262144
  const MAX_YEAR: int := 262143

  const I32_MIN: int := -0x8000_0000
  const I32_MAX: int := 0x7fff_ffff

  datatype Date = Date(year: int, month: int, day: int)

  predicate IsLeapYear(y: int) {
    y % 4 == 0 && (y % 100 != 0 || y % 400 == 0)
  }

  function DaysInMonth(year: int, month: int): (n: int)
    requires 1 <= month <= 12
    ensures 28 <= n <= 31
  {
    if month == 2 then (if IsLeapYear(year) then 29 else 28)
    else if month == 4 || month == 6 || month == 9 || month == 11 then 30
    else 31
  }

  /** A day of the calendar that `NaiveDate` can hold. */
  predicate IsValid(d: Date) {
    && MIN_YEAR <= d.year <= MAX_YEAR
    && 1 <= d.month <= 12
    && 1 <= d.day <= DaysInMonth(d.year, d.month)
  }

  /** `chrono::NaiveDate`: only a day of the calendar can be held. */
  type NaiveDate = d: Date | IsValid(d) witness Date(1970, 1, 1)

  /** chrono's `ParseErrorKind`, the reason a text is not a date of the pattern. */
  datatype ParseErrorKind = OutOfRange | Impossible | NotEnough | Invalid | TooShort | TooLong | BadFormat

  /** The message chrono's `ParseError` displays for each kind. */
  function ErrorText(k: ParseErrorKind): string {
    match k
    case OutOfRange => "input is out of range"
    case Impossible => "no possible date and time matching input"
    case NotEnough => "input is not enough for unique date and time"
    case Invalid => "input contains invalid characters"
    case TooShort => "premature end of input"
    case TooLong => "trailing input"
    case BadFormat => "bad or unsupported format string"
  }

  /** Rust's `char::is_whitespace`: the Unicode `White_Space` property. */
  predicate IsWhitespace(c: char) {
    || '\U{0009}' <= c <= '\U{000D}'
    || c == '\U{0020}'
    || c == '\U{0085}'
    || c == '\U{00A0}'
    || c == '\U{1680}'
    || '\U{2000}' <= c <= '\U{200A}'
    || c == '\U{2028}'
    || c == '\U{2029}'
    || c == '\U{202F}'
    || c == '\U{205F}'
    || c == '\U{3000}'
  }

  /** `str::trim_start`: drops the leading white space and nothing else. */
  function TrimStart(s: string): string {
    if s != [] && IsWhitespace(s[0]) then TrimStart(s[1..]) else s
  }

  /** Text that starts with a digit has no white space to skip. */
  lemma TrimStartAtDigit(s: string)
    requires s != [] && IsDigit(s[0])
    ensures TrimStart(s) == s
  {
  }

  /** How many digits `scan::number` reads: the leading run of digits, at most `max` of them. */
  function DigitRun(s: string, max: nat): (n: nat)
    ensures n <= max && n <= |s|
    ensures forall i :: 0 <= i < n ==> IsDigit(s[i])
    ensures n < max && n < |s| ==> !IsDigit(s[n])
  {
    if max == 0 || s == [] || !IsDigit(s[0]) then 0 else 1 + DigitRun(s[1..], max - 1)
  }

  /**
   * chrono's `scan::number(s, 1, max)`: at least one and at most `max` leading digits,
   * their value, and the text after them.
   */
  function ScanNumber(s: string, max: nat): (r: Result<(nat, string), ParseErrorKind>)
    ensures r.Ok? ==> var n := |s| - |r.value.1|;
      0 < n <= max && s[n..] == r.value.1 && AllDigits(s[..n]) && r.value.0 == DigitsValue(s[..n])
  {
    if |s| < 1 then Err(TooShort)
    else
      var n := DigitRun(s, max);
      if n == 0 then Err(Invalid) else Ok((DigitsValue(s[..n]), s[n..]))
  }

  /** A literal item of the pattern: the text must go on with exactly `c`. */
  function ScanLiteral(s: string, c: char): (r: Result<string, ParseErrorKind>)
    ensures r.Ok? <==> s != [] && s[0] == c
    ensures r.Ok? ==> r.value == s[1..]
  {
    if |s| < 1 then Err(TooShort)
    else if s[0] != c then Err(Invalid)
    else Ok(s[1..])
  }

  /**
   * The `%Y` item: an explicit sign lets any number of digits follow, otherwise at most
   * four are read. A value that does not fit `i32` is out of range at once.
   */
  function ScanYear(s: string): (r: Result<(int, string), ParseErrorKind>)
    ensures r.Ok? ==> I32_MIN <= r.value.0 <= I32_MAX && |r.value.1| < |s|
  {
    var signed := |s| > 0 && (s[0] == '-' || s[0] == '+');
    var scanned :- if signed then ScanNumber(s[1..], |s| - 1) else ScanNumber(s, 4);
    var year: int := if signed && s[0] == '-' then -(scanned.0 as int) else scanned.0;
    if I32_MIN <= year <= I32_MAX then Ok((year, scanned.1)) else Err(OutOfRange)
  }

  /** `NaiveDate::from_ymd_opt`: the day the three numbers name, or out of range when they name none. */
  function FromYmd(year: int, month: int, day: int): (r: Result<NaiveDate, ParseErrorKind>)
    ensures r.Ok? <==> IsValid(Date(year, month, day))
    ensures r.Ok? ==> r.value == Date(year, month, day)
    ensures r.Err? ==> r.error == OutOfRange
  {
    var date := Date(year, month, day);
    if IsValid(date) then Ok(date) else Err(OutOfRange)
  }

  /**
   * A `%m` or `%d` item and the `/` after it: white space is skipped, one or two digits
   * are read, and the text must go on with `/`. The number read and the text after `/`.
   */
  function ParseItem(s: string): Result<(nat, string), ParseErrorKind> {
    var number :- ScanNumber(TrimStart(s), 2);
    var rest :- ScanLiteral(number.1, '/');
    Ok((number.0, rest))
  }

  /** The `%Y` item that ends the pattern: white space, the year, and nothing after it. */
  function ParseYear(s: string): Result<int, ParseErrorKind> {
    var year :- ScanYear(TrimStart(s));
    if year.1 != [] then Err(TooLong) else Ok(year.0)
  }

  /** `NaiveDate::parse_from_str(s, "%m/%d/%Y")`: the items in order, then the calendar. */
  function ParseDate(s: string): Result<NaiveDate, ParseErrorKind> {
    var month :- ParseItem(s);
    var day :- ParseItem(month.1);
    var year :- ParseYear(day.1);
    FromYmd(year, month.0, day.0)
  }

  /** `n` written with exactly `width` digits, zero-padded on the left. */
  function PadDigits(n: nat, width: nat): (s: string)
    ensures |s| == width && AllDigits(s)
  {
    if width == 0 then [] else PadDigits(n / 10, width - 1) + [DigitChar(n % 10)]
  }

  function Pow10(k: nat): (p: nat)
    ensures p >= 1
  {
    if k == 0 then 1 else 10 * Pow10(k - 1)
  }

  /** The padded digits read back as the number, when it fits the width. */
  lemma {:induction false} PadDigitsValue(n: nat, width: nat)
    requires n < Pow10(width)
    ensures DigitsValue(PadDigits(n, width)) == n
  {
    if width > 0 {
      var s := PadDigits(n, width);
      assert s[..|s| - 1] == PadDigits(n / 10, width - 1);
      PadDigitsValue(n / 10, width - 1);
    }
  }

  /** Scanning a zero-padded field of the full width reads back that number and stops after it. */
  lemma ScanPadded(n: nat, width: nat, rest: string)
    requires 0 < width && n < Pow10(width)
    requires rest == [] || !IsDigit(rest[0])
    ensures ScanNumber(PadDigits(n, width) + rest, width) == Ok((n, rest))
  {
    var s := PadDigits(n, width) + rest;
    assert s[..width] == PadDigits(n, width);
    assert s[width..] == rest;
    PadDigitsValue(n, width);
  }

  /** The `MM/DD/YYYY` text of a month, day and year of at most two, two and four digits. */
  function Render(month: nat, day: nat, year: nat): (s: string)
    requires month < 100 && day < 100 && year < 10000
    ensures |s| == 10
  {
    PadDigits(month, 2) + "/" + PadDigits(day, 2) + "/" + PadDigits(year, 4)
  }

  /** A zero-padded two-digit field followed by `/`: the number is read, then the `/` is consumed. */
  lemma ParsePaddedItem(n: nat, tail: string)
    requires n < 100
    ensures ParseItem(PadDigits(n, 2) + ("/" + tail)) == Ok((n, tail))
  {
    var s := PadDigits(n, 2) + ("/" + tail);
    assert Pow10(2) == 100;
    TrimStartAtDigit(s);
    ScanPadded(n, 2, "/" + tail);
    assert ("/" + tail)[1..] == tail;
  }

  /** Once each item of the pattern has matched, only the calendar decides. */
  lemma ParseDateOfItems(s: string, month: nat, r2: string, day: nat, r4: string, year: int)
    requires ParseItem(s) == Ok((month, r2)) && ParseItem(r2) == Ok((day, r4)) && ParseYear(r4) == Ok(year)
    ensures ParseDate(s) == FromYmd(year, month, day)
  {
  }

  /** A four-digit year field at the end of the text is read back whole. */
  lemma ParsePaddedYear(year: nat)
    requires year < 10000
    ensures ParseYear(PadDigits(year, 4)) == Ok(year as int)
  {
    var y := PadDigits(year, 4);
    assert Pow10(4) == 10000;
    TrimStartAtDigit(y);
    assert y == y + [];
    ScanPadded(year, 4, []);
    assert !(y[0] == '-' || y[0] == '+') by { assert IsDigit(y[0]); }
  }

  /**
   * Text in the feed's canonical form decodes to the date it names, and to an
   * out-of-range error when it names no day of the calendar (a month 13, a 30th of
   * February): never to some default date.
   */
  lemma ParseRendered(month: nat, day: nat, year: nat)
    requires month < 100 && day < 100 && year < 10000
    ensures ParseDate(Render(month, day, year))
         == if IsValid(Date(year, month, day)) then Ok(Date(year, month, day)) else Err(OutOfRange)
  {
    var m, d, y := PadDigits(month, 2), PadDigits(day, 2), PadDigits(year, 4);
    var s := Render(month, day, year);
    assert s == m + ("/" + (d + ("/" + y)));
    ParsePaddedItem(month, d + ("/" + y));
    ParsePaddedItem(day, y);
    ParsePaddedYear(year);
    ParseDateOfItems(s, month, d + ("/" + y), day, y, year);
  }

  /** Every valid date of a four-digit year survives being written out and read back. */
  lemma ParseRenderRoundTrip(date: Date)
    requires IsValid(date) && 0 <= date.year < 10000
    ensures ParseDate(Render(date.month, date.day, date.year)) == Ok(date)
  {
    ParseRendered(date.month, date.day, date.year);
  }

  /** The start date of the National Parliamentary Debate Invitational feed. */
  lemma ParseFixtureStartDate()
    ensures ParseDate("11/14/2020") == Ok(Date(2020, 11, 14))
  {
    assert Render(11, 14, 2020) == "11/14/2020";
    ParseRendered(11, 14, 2020);
  }

  /** The end date of the same feed: the day after its last day of competition. */
  lemma ParseFixtureEndDate()
    ensures ParseDate("11/16/2020") == Ok(Date(2020, 11, 16))
  {
    assert Render(11, 16, 2020) == "11/16/2020";
    ParseRendered(11, 16, 2020);
  }

  /** An ISO-formatted date is not the feed's pattern: its year is taken as a month, then `/` is missing. */
  lemma ParseRejectsIsoDate()
    ensures ParseDate("2020-11-14") == Err(Invalid)
  {
    var s := "2020-11-14";
    TrimStartAtDigit(s);
    assert DigitRun(s, 2) == 2;
    assert s[..2] == "20" && s[2..] == "20-11-14";
    assert DigitsValue("20") == 20 by { assert "20"[..1] == "2"; }
    assert ScanNumber(s, 2) == Ok((20, "20-11-14"));
    assert ParseItem(s) == Err(Invalid);
  }

  // Every text the pattern accepts, described piece by piece.

  /** Text made only of white space, as `char::is_whitespace` counts it. */
  predicate AllWhitespace(s: string) {
    forall i :: 0 <= i < |s| ==> IsWhitespace(s[i])
  }

  /**
   * A text split into the pieces `%m/%d/%Y` reads: white space, the month, `/`, white
   * space, the day, `/`, white space and the year.
   */
  datatype Fields = Fields(lead: string, month: string, dayLead: string, day: string, yearLead: string, year: string)

  /** A year field: a sign and at least one digit, or one to four digits. */
  predicate IsYearField(y: string) {
    if |y| > 0 && (y[0] == '-' || y[0] == '+') then |y| >= 2 && AllDigits(y[1..])
    else 1 <= |y| <= 4 && AllDigits(y)
  }

  function YearValue(y: string): int
    requires IsYearField(y)
  {
    if y[0] == '-' then -(DigitsValue(y[1..]) as int)
    else if y[0] == '+' then DigitsValue(y[1..])
    else DigitsValue(y)
  }

  /** The pieces are of the pattern's shape: the month and the day have one or two digits. */
  predicate WellFormed(f: Fields) {
    && AllWhitespace(f.lead) && AllWhitespace(f.dayLead) && AllWhitespace(f.yearLead)
    && 1 <= |f.month| <= 2 && AllDigits(f.month)
    && 1 <= |f.day| <= 2 && AllDigits(f.day)
    && IsYearField(f.year)
  }

  function Layout(f: Fields): string {
    f.lead + f.month + "/" + f.dayLead + f.day + "/" + f.yearLead + f.year
  }

  /** The numbers the pieces name, taken as a year, a month and a day. */
  function FieldsDate(f: Fields): Date
    requires WellFormed(f)
  {
    Date(YearValue(f.year), DigitsValue(f.month), DigitsValue(f.day))
  }

  lemma {:induction false} TrimStartLead(w: string, t: string)
    requires AllWhitespace(w) && (t == [] || !IsWhitespace(t[0]))
    ensures TrimStart(w + t) == t
  {
    if w != [] {
      assert (w + t)[1..] == w[1..] + t;
      TrimStartLead(w[1..], t);
    }
  }

  lemma {:induction false} DigitRunOf(m: string, max: nat, rest: string)
    requires AllDigits(m) && |m| <= max
    requires rest == [] || !IsDigit(rest[0])
    ensures DigitRun(m + rest, max) == |m|
  {
    if m != [] {
      assert (m + rest)[1..] == m[1..] + rest;
      DigitRunOf(m[1..], max - 1, rest);
    }
  }

  /** A run of one to `max` digits that the next character ends is read whole. */
  lemma ScanDigits(m: string, max: nat, rest: string)
    requires 1 <= |m| <= max && AllDigits(m)
    requires rest == [] || !IsDigit(rest[0])
    ensures ScanNumber(m + rest, max) == Ok((DigitsValue(m), rest))
  {
    DigitRunOf(m, max, rest);
    assert (m + rest)[..|m|] == m && (m + rest)[|m|..] == rest;
  }

  /** A year field that the next character ends is read whole, and fails only when it does not fit `i32`. */
  lemma ScanYearField(y: string, rest: string)
    requires IsYearField(y)
    requires rest == [] || !IsDigit(rest[0])
    ensures ScanYear(y + rest)
         == if I32_MIN <= YearValue(y) <= I32_MAX then Ok((YearValue(y), rest)) else Err(OutOfRange)
  {
    var s := y + rest;
    assert s[0] == y[0];
    if y[0] == '-' || y[0] == '+' {
      assert s[1..] == y[1..] + rest;
      ScanDigits(y[1..], |s| - 1, rest);
    } else {
      ScanDigits(y, 4, rest);
    }
  }

  /** A year field read whole is of the field's shape, and its value is the one read. */
  lemma ScanYearWhole(y: string, year: int)
    requires ScanYear(y) == Ok((year, []))
    ensures IsYearField(y) && YearValue(y) == year
  {
    if |y| > 0 && (y[0] == '-' || y[0] == '+') {
      var scanned := ScanNumber(y[1..], |y| - 1);
      assert scanned.Ok? && scanned.value.1 == [];
      assert y[1..][..|y| - 1] == y[1..];
    } else {
      var scanned := ScanNumber(y, 4);
      assert scanned.Ok? && scanned.value.1 == [];
      assert y[..|y|] == y;
    }
  }

  /** White space, a one- or two-digit number and `/`: the item reads the number and stops after the `/`. */
  lemma ParseItemOfPieces(lead: string, digits: string, rest: string)
    requires AllWhitespace(lead) && 1 <= |digits| <= 2 && AllDigits(digits)
    ensures ParseItem(lead + (digits + ("/" + rest))) == Ok((DigitsValue(digits), rest))
  {
    assert IsDigit(digits[0]);
    TrimStartLead(lead, digits + ("/" + rest));
    ScanDigits(digits, 2, "/" + rest);
    assert ("/" + rest)[1..] == rest;
  }

  /** White space and a year field: the year is read, or is out of range when it does not fit `i32`. */
  lemma ParseYearOfPieces(lead: string, year: string)
    requires AllWhitespace(lead) && IsYearField(year)
    ensures ParseYear(lead + year)
         == if I32_MIN <= YearValue(year) <= I32_MAX then Ok(YearValue(year)) else Err(OutOfRange)
  {
    assert !IsWhitespace(year[0]);
    TrimStartLead(lead, year);
    assert year + [] == year;
    ScanYearField(year, []);
  }

  /** A year field that fits `i32` followed by text that does not go on with a digit: trailing input. */
  lemma ParseYearTrailing(lead: string, year: string, rest: string)
    requires AllWhitespace(lead) && IsYearField(year) && I32_MIN <= YearValue(year) <= I32_MAX
    requires rest != [] && !IsDigit(rest[0])
    ensures ParseYear(lead + (year + rest)) == Err(TooLong)
  {
    assert (year + rest)[0] == year[0];
    assert !IsWhitespace(year[0]);
    TrimStartLead(lead, year + rest);
    ScanYearField(year, rest);
  }

  /** A year the `%Y` item rejects as out of range makes the whole text out of range. */
  lemma ParseDateYearOutOfRange(s: string, month: nat, r2: string, day: nat, r4: string)
    requires ParseItem(s) == Ok((month, r2)) && ParseItem(r2) == Ok((day, r4)) && ParseYear(r4) == Err(OutOfRange)
    ensures ParseDate(s) == Err(OutOfRange)
  {
  }

  /** The pieces laid out, nested to the right. */
  lemma LayoutNested(f: Fields)
    ensures Layout(f) == f.lead + (f.month + ("/" + (f.dayLead + (f.day + ("/" + (f.yearLead + f.year))))))
  {
  }

  /**
   * Every text of the pattern's shape is read as the numbers it shows: the date they
   * name, or out of range when they name no day `NaiveDate` holds.
   */
  lemma ParseDateComplete(f: Fields)
    requires WellFormed(f)
    ensures ParseDate(Layout(f)) == FromYmd(YearValue(f.year), DigitsValue(f.month), DigitsValue(f.day))
  {
    var r4 := f.yearLead + f.year;
    var r2 := f.dayLead + (f.day + ("/" + r4));
    var s := Layout(f);
    LayoutNested(f);
    ParseItemOfPieces(f.lead, f.month, r2);
    ParseItemOfPieces(f.dayLead, f.day, r4);
    ParseYearOfPieces(f.yearLead, f.year);
    var year, month, day := YearValue(f.year), DigitsValue(f.month), DigitsValue(f.day);
    if I32_MIN <= year <= I32_MAX {
      ParseDateOfItems(s, month, r2, day, r4, year);
    } else {
      ParseDateYearOutOfRange(s, month, r2, day, r4);
    }
  }

  /**
   * `TrimStart` drops only white space, and all of it: what it drops, followed by what
   * it keeps, is the text, and what it keeps does not start with white space.
   */
  lemma {:induction false} TrimStartSplit(s: string) returns (lead: string)
    ensures s == lead + TrimStart(s) && AllWhitespace(lead)
    ensures TrimStart(s) == [] || !IsWhitespace(TrimStart(s)[0])
  {
    if s != [] && IsWhitespace(s[0]) {
      var rest := TrimStartSplit(s[1..]);
      lead := [s[0]] + rest;
      assert s == [s[0]] + s[1..];
    } else {
      lead := [];
    }
  }

  /** The digits `ScanNumber` reads, followed by what it leaves, are the text. */
  lemma ScanNumberSplit(t: string, max: nat) returns (digits: string)
    requires ScanNumber(t, max).Ok?
    ensures t == digits + ScanNumber(t, max).value.1
    ensures 1 <= |digits| <= max && AllDigits(digits) && ScanNumber(t, max).value.0 == DigitsValue(digits)
  {
    var r := ScanNumber(t, max).value.1;
    digits := t[..|t| - |r|];
    assert t == digits + t[|t| - |r|..];
  }

  /** Text an item was read from, split into its white space, its digits, `/` and the rest. */
  lemma SplitItem(s: string, n: nat, rest: string) returns (lead: string, digits: string)
    requires ParseItem(s) == Ok((n, rest))
    ensures s == lead + (digits + ("/" + rest))
    ensures AllWhitespace(lead) && 1 <= |digits| <= 2 && AllDigits(digits) && n == DigitsValue(digits)
  {
    var t := TrimStart(s);
    var number := ScanNumber(t, 2);
    assert number.Ok? && number.value.0 == n && ScanLiteral(number.value.1, '/') == Ok(rest);
    var r := number.value.1;
    assert r == "/" + rest;
    lead := TrimStartSplit(s);
    digits := ScanNumberSplit(t, 2);
  }

  /** Text the year item was read from, split into white space and the year field. */
  lemma SplitYear(s: string, year: int) returns (lead: string, field: string)
    requires ParseYear(s) == Ok(year)
    ensures s == lead + field && AllWhitespace(lead) && IsYearField(field) && YearValue(field) == year
  {
    field := TrimStart(s);
    lead := TrimStartSplit(s);
    ScanYearWhole(field, year);
  }

  /** What an accepted text's items read, in order, and the date they name. */
  lemma ParseDateItems(s: string) returns (month: nat, r2: string, day: nat, r4: string, year: int)
    requires ParseDate(s).Ok?
    ensures ParseItem(s) == Ok((month, r2)) && ParseItem(r2) == Ok((day, r4)) && ParseYear(r4) == Ok(year)
    ensures ParseDate(s).value == Date(year, month, day)
  {
    month, r2 := ParseItem(s).value.0, ParseItem(s).value.1;
    day, r4 := ParseItem(r2).value.0, ParseItem(r2).value.1;
    year := ParseYear(r4).value;
  }

  /** Pieces split off one after the other lay the text out, and name the numbers read. */
  lemma FieldsOfPieces(f: Fields, s: string, r2: string, r4: string, year: int, month: nat, day: nat)
    requires s == f.lead + (f.month + ("/" + r2)) && r2 == f.dayLead + (f.day + ("/" + r4)) && r4 == f.yearLead + f.year
    requires WellFormed(f)
    requires YearValue(f.year) == year && DigitsValue(f.month) == month && DigitsValue(f.day) == day
    ensures Layout(f) == s && FieldsDate(f) == Date(year, month, day)
  {
    LayoutNested(f);
  }

  /**
   * Every text the pattern accepts is of its shape, and the date read is the one its
   * numbers name: nothing else is ever taken for a date.
   */
  lemma ParseDateSound(s: string)
    requires ParseDate(s).Ok?
    ensures exists f :: WellFormed(f) && Layout(f) == s && FieldsDate(f) == ParseDate(s).value
  {
    var month, r2, day, r4, year := ParseDateItems(s);
    var lead, digitsM := SplitItem(s, month, r2);
    var dayLead, digitsD := SplitItem(r2, day, r4);
    var yearLead, digitsY := SplitYear(r4, year);
    var f := Fields(lead, digitsM, dayLead, digitsD, yearLead, digitsY);
    FieldsOfPieces(f, s, r2, r4, year, month, day);
  }

  /** Zero-padding is not required: each of the month and the day may be a single digit. */
  lemma ParseFixtureUnpadded()
    ensures ParseDate("1/2/2020") == Ok(Date(2020, 1, 2))
  {
    var f := Fields("", "1", "", "2", "", "2020");
    assert "2020"[..3] == "202" && "202"[..2] == "20" && "20"[..1] == "2";
    assert DigitsValue("2020") == 2020;
    assert YearValue("2020") == 2020 && DigitsValue("1") == 1 && DigitsValue("2") == 2;
    assert FromYmd(2020, 1, 2) == Ok(Date(2020, 1, 2));
    assert WellFormed(f) && Layout(f) == "1/2/2020";
    ParseDateComplete(f);
  }

  /**
   * Nothing may follow the year: a text of the pattern's shape whose year fits `i32`,
   * followed by anything that does not extend the year's digits (white space
   * included), is trailing input, whatever date its numbers name.
   */
  lemma ParseDateTrailing(f: Fields, rest: string)
    requires WellFormed(f) && I32_MIN <= YearValue(f.year) <= I32_MAX
    requires rest != [] && !IsDigit(rest[0])
    ensures ParseDate(Layout(f) + rest) == Err(TooLong)
  {
    var r4 := f.yearLead + (f.year + rest);
    var r2 := f.dayLead + (f.day + ("/" + r4));
    LayoutNested(f);
    assert Layout(f) + rest == f.lead + (f.month + ("/" + r2));
    ParseItemOfPieces(f.lead, f.month, r2);
    ParseItemOfPieces(f.dayLead, f.day, r4);
    ParseYearTrailing(f.yearLead, f.year, rest);
  }
}
