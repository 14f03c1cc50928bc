/** The UTC timestamp printer and parser of the event envelope (RFC 3339, section 5.6). */
module Timestamps {
  import opened Wrappers
  import opened Strings

  /** A UTC wall-clock time, as Python's datetime keeps it. */
  datatype DateTime = DateTime(year: nat, month: nat, day: nat, hour: nat, minute: nat, second: nat, micro: nat)

  predicate IsLeap(year: nat) {
    year % 4 == 0 && (year % 100 != 0 || year % 400 == 0)
  }

  function DaysInMonth(year: nat, month: nat): nat {
    if month == 2 then (if IsLeap(year) then 29 else 28)
    else if month in {4, 6, 9, 11} then 30
    else 31
  }

  predicate Valid(t: DateTime) {
    && 1 <= t.year <= 9999 && 1 <= t.month <= 12 && 1 <= t.day <= DaysInMonth(t.year, t.month)
    && t.hour < 24 && t.minute < 60 && t.second < 60 && t.micro < 1_000_000
  }

  /** The time cut to whole milliseconds, the precision of the printed form. */
  function FloorMillis(t: DateTime): DateTime {
    t.(micro := t.micro - t.micro % 1000)
  }

  predicate Earlier(a: DateTime, b: DateTime) {
    if a.year != b.year then a.year < b.year
    else if a.month != b.month then a.month < b.month
    else if a.day != b.day then a.day < b.day
    else if a.hour != b.hour then a.hour < b.hour
    else if a.minute != b.minute then a.minute < b.minute
    else if a.second != b.second then a.second < b.second
    else a.micro < b.micro
  }

  // ---------------------------------------------------------------- decimal digits

  predicate IsDigit(c: char) {
    '0' <= c <= '9'
  }

  predicate AllDigits(s: string) {
    forall i :: 0 <= i < |s| ==> IsDigit(s[i])
  }

  function DigitChar(d: nat): (c: char)
    requires d < 10
    ensures IsDigit(c)
  {
    ('0' as int + d) as char
  }

  function Pow10(width: nat): nat {
    if width == 0 then 1 else 10 * Pow10(width - 1)
  }

  /** The last `width` decimal digits of n, zero-padded. */
  function Digits(n: nat, width: nat): (s: string)
    ensures |s| == width && AllDigits(s)
  {
    if width == 0 then "" else Digits(n / 10, width - 1) + [DigitChar(n % 10)]
  }

  /** n in decimal with no padding. */
  function Decimal(n: nat): (s: string)
    ensures |s| >= 1 && AllDigits(s)
    ensures n < 10 ==> |s| == 1
    ensures n < 100 ==> |s| <= 2
    ensures n < 1000 ==> |s| <= 3
  {
    if n < 10 then [DigitChar(n)] else Decimal(n / 10) + [DigitChar(n % 10)]
  }

  function NumberOf(s: string): nat
    requires AllDigits(s)
  {
    if s == "" then 0
    else 10 * NumberOf(s[..|s| - 1]) + (s[|s| - 1] as int - '0' as int)
  }

  lemma {:induction false} NumberOfDigits(n: nat, width: nat)
    requires n < Pow10(width)
    ensures NumberOf(Digits(n, width)) == n
  {
    if width > 0 {
      NumberOfDigits(n / 10, width - 1);
      assert Digits(n, width)[..width - 1] == Digits(n / 10, width - 1);
    }
  }

  lemma {:induction false} DigitsOfNumber(s: string)
    requires AllDigits(s)
    ensures NumberOf(s) < Pow10(|s|) && Digits(NumberOf(s), |s|) == s
  {
    if s != "" {
      var init := s[..|s| - 1];
      DigitsOfNumber(init);
      var d := s[|s| - 1] as int - '0' as int;
      assert NumberOf(s) / 10 == NumberOf(init) && NumberOf(s) % 10 == d;
      assert s == init + [s[|s| - 1]];
    }
  }

  /** On equal widths, string order is numeric order. */
  lemma {:induction false} DigitsOrder(m: nat, n: nat, width: nat)
    requires m < Pow10(width) && n < Pow10(width)
    ensures Less(Digits(m, width), Digits(n, width)) <==> m < n
    ensures Digits(m, width) == Digits(n, width) <==> m == n
  {
    NumberOfDigits(m, width);
    NumberOfDigits(n, width);
    if width > 0 {
      DigitsOrder(m / 10, n / 10, width - 1);
      LessOfConcat(Digits(m / 10, width - 1), [DigitChar(m % 10)], Digits(n / 10, width - 1), [DigitChar(n % 10)]);
    }
  }

  lemma NumberOfAppended(s: string, c: char)
    requires AllDigits(s) && IsDigit(c)
    ensures NumberOf(s + [c]) == 10 * NumberOf(s) + (c as int - '0' as int)
  {
    assert (s + [c])[..|s|] == s;
  }

  // ---------------------------------------------------------------- printing

  /** strftime's %Y: the year is not padded below 1000. */
  function YearText(year: nat): string {
    if year >= 1000 then Digits(year, 4) else Decimal(year)
  }

  /** The field texts with their separators. */
  function Join(year: string, month: string, day: string, hour: string, minute: string, second: string,
                millis: string): string {
    year + ("-" + (month + ("-" + (day + ("T"
          + (hour + (":" + (minute + (":" + (second + ("." + (millis + "Z"))))))))))))
  }

  function FormatUtc(t: DateTime): string {
    Join(YearText(t.year), Digits(t.month, 2), Digits(t.day, 2), Digits(t.hour, 2), Digits(t.minute, 2),
         Digits(t.second, 2), Digits(t.micro / 1000, 3))
  }

  // ---------------------------------------------------------------- parsing

  /** YYYY-MM-DDTHH:MM:SS with an optional fraction of at least one digit. */
  predicate CanonicalShape(s: string) {
    && |s| >= 19
    && AllDigits(s[0..4]) && s[4] == '-' && AllDigits(s[5..7]) && s[7] == '-' && AllDigits(s[8..10])
    && s[10] == 'T' && AllDigits(s[11..13]) && s[13] == ':' && AllDigits(s[14..16]) && s[16] == ':'
    && AllDigits(s[17..19])
    && (|s| == 19 || (|s| > 20 && s[19] == '.' && AllDigits(s[20..])))
  }

  /** Six fraction digits: missing ones are zero, extra ones are cut. */
  function Micros(fraction: string): nat
    requires AllDigits(fraction)
  {
    NumberOf((fraction + "000000")[..6])
  }

  function FieldsOf(s: string): DateTime
    requires CanonicalShape(s)
  {
    DateTime(NumberOf(s[0..4]), NumberOf(s[5..7]), NumberOf(s[8..10]), NumberOf(s[11..13]),
             NumberOf(s[14..16]), NumberOf(s[17..19]), if |s| == 19 then 0 else Micros(s[20..]))
  }

  /** The Z suffix is required. `other` is the reading fromisoformat gives to every other shape. */
  function ParseUtc(other: string -> Option<DateTime>, s: string): Option<DateTime> {
    if !EndsWith(s, "Z") then None
    else
      var body := s[..|s| - 1];
      if !CanonicalShape(body) then other(body)
      else
        var t := FieldsOf(body);
        if Valid(t) then Some(t) else None
  }

  // ---------------------------------------------------------------- the printer and the parser agree

  lemma Pow10Values()
    ensures Pow10(2) == 100 && Pow10(3) == 1000 && Pow10(4) == 10000
  {
    assert Pow10(1) == 10;
  }

  ghost predicate FieldWidths(year: string, month: string, day: string, hour: string, minute: string, second: string,
                              millis: string) {
    |year| == 4 && |month| == 2 && |day| == 2 && |hour| == 2 && |minute| == 2 && |second| == 2 && |millis| == 3
  }

  /** Take one field and its separator off the front of what is left of s. */
  lemma Peel(s: string, k: nat, a: string, separator: string, rest: string)
    requires k <= |s| && s[k..] == a + (separator + rest) && |separator| == 1
    ensures |s| == k + |a| + 1 + |rest| && s[k..k + |a|] == a && s[k + |a|] == separator[0] && s[k + |a| + 1..] == rest
  {
    assert s[k..k + |a|] == s[k..][..|a|] == a;
    assert s[k + |a|] == s[k..][|a|];
    assert s[k + |a| + 1..] == s[k..][|a| + 1..] == rest;
  }

  /** Where Join puts each field. */
  lemma JoinLayout(year: string, month: string, day: string, hour: string, minute: string, second: string,
                   millis: string)
    requires FieldWidths(year, month, day, hour, minute, second, millis)
    ensures var s := Join(year, month, day, hour, minute, second, millis);
      && |s| == 24 && s[0..4] == year && s[4] == '-' && s[5..7] == month && s[7] == '-' && s[8..10] == day
      && s[10] == 'T'
      && s[11..13] == hour && s[13] == ':' && s[14..16] == minute && s[16] == ':' && s[17..19] == second
      && s[19] == '.' && s[20..23] == millis && s[23] == 'Z'
  {
    var s := Join(year, month, day, hour, minute, second, millis);
    var f := millis + "Z";
    var e := second + ("." + f);
    var d := minute + (":" + e);
    var c := hour + (":" + d);
    var b := day + ("T" + c);
    var a := month + ("-" + b);
    assert s[0..] == s;
    Peel(s, 0, year, "-", a);
    Peel(s, 5, month, "-", b);
    Peel(s, 8, day, "T", c);
    Peel(s, 11, hour, ":", d);
    Peel(s, 14, minute, ":", e);
    Peel(s, 17, second, ".", f);
    assert "Z" + "" == "Z";
    Peel(s, 20, millis, "Z", "");
  }

  /** The slices of a prefix that lie inside it are the slices of the whole. */
  lemma SliceOfPrefix(s: string, n: nat, i: nat, j: nat)
    requires i <= j <= n <= |s|
    ensures s[..n][i..j] == s[i..j]
  {
  }

  lemma PrefixFields(s: string)
    requires |s| == 24
    ensures var b := s[..23];
      && b[0..4] == s[0..4] && b[5..7] == s[5..7] && b[8..10] == s[8..10] && b[11..13] == s[11..13]
      && b[14..16] == s[14..16] && b[17..19] == s[17..19] && b[20..] == s[20..23]
  {
    SliceOfPrefix(s, 23, 0, 4);
    SliceOfPrefix(s, 23, 5, 7);
    SliceOfPrefix(s, 23, 8, 10);
    SliceOfPrefix(s, 23, 11, 13);
    SliceOfPrefix(s, 23, 14, 16);
    SliceOfPrefix(s, 23, 17, 19);
    SliceOfPrefix(s, 23, 20, 23);
  }

  /** A string with the separators in place is the join of its own fields. */
  lemma JoinOfFields(s: string)
    requires |s| == 24 && s[4] == '-' && s[7] == '-' && s[10] == 'T' && s[13] == ':' && s[16] == ':' && s[19] == '.'
      && s[23] == 'Z'
    ensures s == Join(s[0..4], s[5..7], s[8..10], s[11..13], s[14..16], s[17..19], s[20..23])
  {
    assert s[20..] == s[20..23] + "Z";
    assert s[17..] == s[17..19] + ("." + s[20..]);
    assert s[14..] == s[14..16] + (":" + s[17..]);
    assert s[11..] == s[11..13] + (":" + s[14..]);
    assert s[8..] == s[8..10] + ("T" + s[11..]);
    assert s[5..] == s[5..7] + ("-" + s[8..]);
    assert s == s[0..4] + ("-" + s[5..]);
  }

  lemma MicrosOfMillis(ms: nat)
    requires ms < 1000
    ensures Micros(Digits(ms, 3)) == 1000 * ms
  {
    Pow10Values();
    NumberOfDigits(ms, 3);
    var d := Digits(ms, 3);
    NumberOfAppended(d, '0');
    NumberOfAppended(d + "0", '0');
    NumberOfAppended(d + "0" + "0", '0');
    assert (d + "000000")[..6] == d + "0" + "0" + "0";
  }

  lemma NumbersOfFormat(t: DateTime)
    requires Valid(t)
    ensures NumberOf(Digits(t.year, 4)) == t.year && NumberOf(Digits(t.month, 2)) == t.month
    ensures NumberOf(Digits(t.day, 2)) == t.day && NumberOf(Digits(t.hour, 2)) == t.hour
    ensures NumberOf(Digits(t.minute, 2)) == t.minute && NumberOf(Digits(t.second, 2)) == t.second
  {
    Pow10Values();
    NumberOfDigits(t.year, 4);
    NumberOfDigits(t.month, 2);
    NumberOfDigits(t.day, 2);
    NumberOfDigits(t.hour, 2);
    NumberOfDigits(t.minute, 2);
    NumberOfDigits(t.second, 2);
  }

  /** The printed form of a time from year 1000 on, field by field. */
  lemma FieldsOfFormat(t: DateTime)
    requires Valid(t) && t.year >= 1000
    ensures var s := FormatUtc(t);
      |s| == 24 && s[23] == 'Z' && CanonicalShape(s[..23]) && FieldsOf(s[..23]) == FloorMillis(t)
  {
    JoinLayout(Digits(t.year, 4), Digits(t.month, 2), Digits(t.day, 2), Digits(t.hour, 2), Digits(t.minute, 2),
               Digits(t.second, 2), Digits(t.micro / 1000, 3));
    PrefixFields(FormatUtc(t));
    NumbersOfFormat(t);
    MicrosOfMillis(t.micro / 1000);
  }

  /** Parsing a printed time gives that time cut to the millisecond, and printing that gives the same text. */
  lemma ParseOfFormat(other: string -> Option<DateTime>, t: DateTime)
    requires Valid(t) && t.year >= 1000
    ensures ParseUtc(other, FormatUtc(t)) == Some(FloorMillis(t))
    ensures Valid(FloorMillis(t)) && FormatUtc(FloorMillis(t)) == FormatUtc(t)
  {
    FieldsOfFormat(t);
    assert FloorMillis(t).micro / 1000 == t.micro / 1000;
  }

  lemma FractionOfMillis(fraction: string)
    requires |fraction| == 3 && AllDigits(fraction)
    ensures Micros(fraction) < 1_000_000 && Digits(Micros(fraction) / 1000, 3) == fraction
  {
    Pow10Values();
    DigitsOfNumber(fraction);
    MicrosOfMillis(NumberOf(fraction));
  }

  lemma TextsOfFields(b: string)
    requires |b| == 23 && CanonicalShape(b) && FieldsOf(b).year >= 1000
    ensures FormatUtc(FieldsOf(b)) == Join(b[0..4], b[5..7], b[8..10], b[11..13], b[14..16], b[17..19], b[20..])
  {
    DigitsOfNumber(b[0..4]);
    DigitsOfNumber(b[5..7]);
    DigitsOfNumber(b[8..10]);
    DigitsOfNumber(b[11..13]);
    DigitsOfNumber(b[14..16]);
    DigitsOfNumber(b[17..19]);
    FractionOfMillis(b[20..]);
  }

  /** Printing a parsed 24-character time from year 1000 on gives the same text back. */
  lemma FormatOfParse(other: string -> Option<DateTime>, s: string)
    requires |s| == 24 && EndsWith(s, "Z") && CanonicalShape(s[..23])
    requires ParseUtc(other, s).Some? && ParseUtc(other, s).value.year >= 1000
    ensures FormatUtc(ParseUtc(other, s).value) == s
  {
    PrefixFields(s);
    TextsOfFields(s[..23]);
    JoinOfFields(s);
  }

  /** The printed form has the shape the parser reads itself exactly from year 1000 on. */
  lemma CanonicalFromYear1000(t: DateTime)
    requires Valid(t)
    ensures var s := FormatUtc(t); |s| > 0 && (CanonicalShape(s[..|s| - 1]) <==> t.year >= 1000)
  {
    var s := FormatUtc(t);
    if t.year >= 1000 {
      FieldsOfFormat(t);
    } else {
      var width := |Decimal(t.year)|;
      assert width <= 3 && s[width] == '-';
      assert s[0..4][width] == '-';
      assert |s| > 19 ==> s[..|s| - 1][0..4] == s[0..4];
    }
  }

  lemma FieldOrder(m: nat, n: nat, width: nat, separator: string, b: string, d: string)
    requires m < Pow10(width) && n < Pow10(width)
    ensures Less(Digits(m, width) + (separator + b), Digits(n, width) + (separator + d)) <==>
      m < n || (m == n && Less(b, d))
  {
    LessOfConcat(Digits(m, width), separator + b, Digits(n, width), separator + d);
    LessOfConcat(separator, b, separator, d);
    LessIrreflexive(separator);
    DigitsOrder(m, n, width);
  }

  /** Printed times sort as text exactly as the times, cut to the millisecond, sort in time. */
  lemma FormatIsMonotone(a: DateTime, b: DateTime)
    requires Valid(a) && Valid(b) && a.year >= 1000 && b.year >= 1000
    ensures Less(FormatUtc(a), FormatUtc(b)) <==> Earlier(FloorMillis(a), FloorMillis(b))
  {
    Pow10Values();
    var ra, rb := Digits(a.micro / 1000, 3) + ("Z" + ""), Digits(b.micro / 1000, 3) + ("Z" + "");
    FieldOrder(a.micro / 1000, b.micro / 1000, 3, "Z", "", "");
    assert "Z" + "" == "Z";
    FieldOrder(a.second, b.second, 2, ".", ra, rb);
    var sa, sb := Digits(a.second, 2) + ("." + ra), Digits(b.second, 2) + ("." + rb);
    FieldOrder(a.minute, b.minute, 2, ":", sa, sb);
    var ma, mb := Digits(a.minute, 2) + (":" + sa), Digits(b.minute, 2) + (":" + sb);
    FieldOrder(a.hour, b.hour, 2, ":", ma, mb);
    var ha, hb := Digits(a.hour, 2) + (":" + ma), Digits(b.hour, 2) + (":" + mb);
    FieldOrder(a.day, b.day, 2, "T", ha, hb);
    var da, db := Digits(a.day, 2) + ("T" + ha), Digits(b.day, 2) + ("T" + hb);
    FieldOrder(a.month, b.month, 2, "-", da, db);
    var oa, ob := Digits(a.month, 2) + ("-" + da), Digits(b.month, 2) + ("-" + db);
    FieldOrder(a.year, b.year, 4, "-", oa, ob);
  }
}
