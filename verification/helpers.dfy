/**
 * Small pure helpers of the reservation form: phone-number masking, the
 * 12-hour clock, the guest-count clamp and slider, table counts and table
 * configuration strings, and the food-type prefix tests.
 */
module Helpers {
  import opened Wrappers

  // ----- Characters and numbers -----

  predicate IsDigit(c: char)
  {
    '0' <= c <= '9'
  }

  predicate AllDigits(s: string)
  {
    forall i :: 0 <= i < |s| ==> IsDigit(s[i])
  }

  /** The white space `trim` and `parseInt` skip (space, tab, line breaks, form feed, no-break space). */
  predicate IsSpace(c: char)
  {
    c == ' ' || c == '\t' || c == '\n' || c == '\r' || c == '\U{000B}' || c == '\U{000C}' || c == '\U{00A0}'
  }

  /** True when `s.trim()` is empty. */
  predicate IsBlank(s: string)
  {
    forall i :: 0 <= i < |s| ==> IsSpace(s[i])
  }

  function DigitChar(d: nat): char
    requires d < 10
  {
    (d + '0' as int) as char
  }

  function DigitValue(c: char): nat
    requires IsDigit(c)
  {
    (c as int - '0' as int) as nat
  }

  /** `String(n)` for a non-negative integer. */
  function NatToString(n: nat): (s: string)
    ensures |s| >= 1 && AllDigits(s)
    decreases n
  {
    if n < 10 then [DigitChar(n)] else NatToString(n / 10) + [DigitChar(n % 10)]
  }

  /** `String(n)` for any integer. */
  function IntToString(n: int): string
  {
    if n >= 0 then NatToString(n) else "-" + NatToString(-n)
  }

  /** The value of a string of decimal digits. */
  function DigitsValue(s: string): nat
    requires AllDigits(s)
    decreases |s|
  {
    if s == [] then 0 else DigitsValue(s[..|s| - 1]) * 10 + DigitValue(s[|s| - 1])
  }

  /** The longest prefix of `s` made of digits. */
  function LeadingDigits(s: string): (d: string)
    ensures AllDigits(d) && |d| <= |s| && d == s[..|d|]
    ensures |d| < |s| ==> !IsDigit(s[|d|])
  {
    if s != [] && IsDigit(s[0]) then [s[0]] + LeadingDigits(s[1..]) else []
  }

  /** `s` without its leading white space. */
  function SkipSpaces(s: string): (r: string)
    ensures |r| <= |s| && r == s[|s| - |r|..]
    ensures r != [] ==> !IsSpace(r[0])
  {
    if s != [] && IsSpace(s[0]) then SkipSpaces(s[1..]) else s
  }

  /** The value of the digits `t` starts with; None when it starts with none. */
  function ParseUnsigned(t: string): (r: Option<nat>)
    ensures r.Some? <==> t != [] && IsDigit(t[0])
  {
    var digits := LeadingDigits(t);
    if digits == [] then None else Some(DigitsValue(digits))
  }

  /**
   * `parseInt(s)` without a radix, on decimal text; None stands for NaN. A
   * "0x" prefix, which `parseInt` reads as hexadecimal, is read here as the 0
   * before the "x".
   */
  function ParseInt(s: string): Option<int>
  {
    var t := SkipSpaces(s);
    if t != [] && t[0] == '-' then
      (match ParseUnsigned(t[1..]) case None => None case Some(v) => Some(-(v as int)))
    else if t != [] && t[0] == '+' then
      (match ParseUnsigned(t[1..]) case None => None case Some(v) => Some(v))
    else
      (match ParseUnsigned(t) case None => None case Some(v) => Some(v))
  }

  lemma {:induction false} DigitsValueOfNatToString(n: nat)
    ensures DigitsValue(NatToString(n)) == n
    decreases n
  {
    if n >= 10 {
      DigitsValueOfNatToString(n / 10);
      var s := NatToString(n);
      assert s[..|s| - 1] == NatToString(n / 10);
    }
  }

  lemma {:induction false} LeadingDigitsOfDigits(s: string)
    requires AllDigits(s)
    ensures LeadingDigits(s) == s
    decreases |s|
  {
    if s != [] {
      LeadingDigitsOfDigits(s[1..]);
    }
  }

  lemma ParseUnsignedOfDigits(digits: string)
    requires AllDigits(digits) && digits != []
    ensures ParseUnsigned(digits) == Some(DigitsValue(digits))
  {
    LeadingDigitsOfDigits(digits);
  }

  lemma ParseIntOfDigits(digits: string)
    requires AllDigits(digits) && digits != []
    ensures ParseInt(digits) == Some(DigitsValue(digits))
  {
    ParseUnsignedOfDigits(digits);
    assert !IsSpace(digits[0]) && digits[0] != '-' && digits[0] != '+';
    assert SkipSpaces(digits) == digits;
  }

  lemma ParseIntOfNegatedDigits(digits: string)
    requires AllDigits(digits) && digits != []
    ensures ParseInt("-" + digits) == Some(-(DigitsValue(digits) as int))
  {
    ParseUnsignedOfDigits(digits);
    var s := "-" + digits;
    assert !IsSpace(s[0]);
    assert SkipSpaces(s) == s;
    assert s[1..] == digits;
  }

  lemma ParseIntOfNatString(n: nat)
    ensures ParseInt(NatToString(n)) == Some(n)
  {
    DigitsValueOfNatToString(n);
    ParseIntOfDigits(NatToString(n));
  }

  lemma ParseIntOfNegativeString(n: nat)
    requires n > 0
    ensures ParseInt("-" + NatToString(n)) == Some(-(n as int))
  {
    DigitsValueOfNatToString(n);
    ParseIntOfNegatedDigits(NatToString(n));
  }

  /** `parseInt` reads back what `String` wrote, for every integer. */
  lemma ParseIntOfIntToString(n: int)
    ensures ParseInt(IntToString(n)) == Some(n)
  {
    if n >= 0 {
      ParseIntOfNatString(n);
    } else {
      ParseIntOfNegativeString(-n);
    }
  }

  // ----- Phone numbers -----

  /** `s.replace(/\D/g, '')`: the digits of `s`, in order. */
  function StripNonDigits(s: string): (r: string)
    ensures AllDigits(r) && |r| <= |s|
    decreases |s|
  {
    if s == [] then []
    else (if IsDigit(s[0]) then [s[0]] else []) + StripNonDigits(s[1..])
  }

  /** `s.substring(a, b)` for `0 <= a <= b`: both ends are clamped to the length. */
  function Substring(s: string, a: nat, b: nat): (r: string)
    requires a <= b
    ensures |r| <= b - a
  {
    var lo := if a < |s| then a else |s|;
    var hi := if b < |s| then b else |s|;
    s[lo..hi]
  }

  /** `formatPhoneNumberString`: (XXX) XXX-XXXX, shown progressively as digits arrive. */
  function FormatPhoneNumberString(numbersOnly: string): string
  {
    if |numbersOnly| == 0 then ""
    else if |numbersOnly| <= 3 then numbersOnly
    else if |numbersOnly| <= 6 then "(" + numbersOnly[..3] + ") " + numbersOnly[3..]
    else "(" + numbersOnly[..3] + ") " + numbersOnly[3..6] + "-" + Substring(numbersOnly, 6, 10)
  }

  /** `formatPhoneNumber`: keep the digits, at most ten of them, and mask them. */
  function FormatPhoneNumber(value: string): string
  {
    var digits := StripNonDigits(value);
    var capped := if |digits| > 10 then digits[..10] else digits;
    FormatPhoneNumberString(capped)
  }

  lemma {:induction false} StripNonDigitsAppend(a: string, b: string)
    ensures StripNonDigits(a + b) == StripNonDigits(a) + StripNonDigits(b)
    decreases |a|
  {
    if a != [] {
      StripNonDigitsAppend(a[1..], b);
      var head := if IsDigit(a[0]) then [a[0]] else [];
      assert (a + b)[0] == a[0];
      assert (a + b)[1..] == a[1..] + b;
      assert StripNonDigits(a) == head + StripNonDigits(a[1..]);
      assert StripNonDigits(a + b) == head + StripNonDigits(a[1..] + b);
    } else {
      assert a + b == b;
    }
  }

  lemma {:induction false} StripNonDigitsOfDigits(s: string)
    requires AllDigits(s)
    ensures StripNonDigits(s) == s
    decreases |s|
  {
    if s != [] {
      StripNonDigitsOfDigits(s[1..]);
    }
  }

  /** A string of punctuation only. */
  predicate NoDigits(p: string)
  {
    forall i :: 0 <= i < |p| ==> !IsDigit(p[i])
  }

  lemma {:induction false} StripNonDigitsOfPunctuation(p: string)
    requires NoDigits(p)
    ensures StripNonDigits(p) == []
    decreases |p|
  {
    if p != [] {
      StripNonDigitsOfPunctuation(p[1..]);
    }
  }

  /** Punctuation followed by a group of digits strips to the group. */
  lemma StripGroup(p: string, x: string)
    requires NoDigits(p)
    requires AllDigits(x)
    ensures StripNonDigits(p + x) == x
  {
    StripNonDigitsAppend(p, x);
    StripNonDigitsOfPunctuation(p);
    StripNonDigitsOfDigits(x);
  }

  /** Two digit groups, each after its punctuation, strip to the two groups. */
  lemma StripTwoGroups(p: string, a: string, q: string, b: string)
    requires NoDigits(p) && NoDigits(q) && AllDigits(a) && AllDigits(b)
    ensures StripNonDigits(p + a + q + b) == a + b
  {
    StripGroup(p, a);
    StripGroup(q, b);
    assert p + a + q + b == (p + a) + (q + b);
    StripNonDigitsAppend(p + a, q + b);
  }

  /** Three digit groups, each after its punctuation, strip to the three groups. */
  lemma StripThreeGroups(p: string, a: string, q: string, b: string, r: string, c: string)
    requires NoDigits(p) && NoDigits(q) && NoDigits(r) && AllDigits(a) && AllDigits(b) && AllDigits(c)
    ensures StripNonDigits(p + a + q + b + r + c) == a + b + c
  {
    StripTwoGroups(p, a, q, b);
    StripGroup(r, c);
    assert p + a + q + b + r + c == (p + a + q + b) + (r + c);
    StripNonDigitsAppend(p + a + q + b, r + c);
  }

  /**
   * The mask adds only punctuation: the digits of a formatted number are the
   * first ten digits it was given, in order.
   */
  lemma PhoneMaskKeepsDigits(numbersOnly: string)
    requires AllDigits(numbersOnly)
    ensures StripNonDigits(FormatPhoneNumberString(numbersOnly))
            == if |numbersOnly| <= 10 then numbersOnly else numbersOnly[..10]
  {
    var d := numbersOnly;
    if |d| <= 3 {
      StripNonDigitsOfDigits(d);
    } else if |d| <= 6 {
      assert NoDigits("(") && NoDigits(") ");
      StripTwoGroups("(", d[..3], ") ", d[3..]);
      assert d[..3] + d[3..] == d;
    } else {
      var c := Substring(d, 6, 10);
      assert NoDigits("(") && NoDigits(") ") && NoDigits("-");
      StripThreeGroups("(", d[..3], ") ", d[3..6], "-", c);
      if |d| <= 10 {
        assert d[..3] + d[3..6] + c == d;
      } else {
        assert d[..3] + d[3..6] + c == d[..10];
      }
    }
  }

  /** Masking an already masked number changes nothing. */
  lemma FormatPhoneNumberIdempotent(value: string)
    ensures FormatPhoneNumber(FormatPhoneNumber(value)) == FormatPhoneNumber(value)
  {
    var digits := StripNonDigits(value);
    var capped := if |digits| > 10 then digits[..10] else digits;
    PhoneMaskKeepsDigits(capped);
  }

  /** A masked number is never longer than "(XXX) XXX-XXXX". */
  lemma FormatPhoneNumberLength(value: string)
    ensures |FormatPhoneNumber(value)| <= 14
  {
  }

  // ----- 12-hour clock -----

  /** A value of a time input: "HH:MM". */
  predicate IsTime24(t: string)
  {
    |t| == 5 && IsDigit(t[0]) && IsDigit(t[1]) && t[2] == ':' && IsDigit(t[3]) && IsDigit(t[4])
  }

  function Hour12(hour: int): int
  {
    if hour == 0 then 12 else if hour > 12 then hour - 12 else hour
  }

  /** Back from the 12-hour clock to the 24-hour one. */
  function Hour24(hour12: int, pm: bool): int
  {
    if pm then (if hour12 == 12 then 12 else hour12 + 12)
    else (if hour12 == 12 then 0 else hour12)
  }

  /** `formatTime12Hour`: "13:05" becomes "1:05 PM"; an empty time stays empty. */
  function FormatTime12Hour(time24: string): string
    requires time24 == "" || IsTime24(time24)
  {
    if time24 == "" then "" else TimeText(DigitsValue(time24[..2]), time24[3..])
  }

  /** The template `${hour12}:${minutes} ${ampm}` for an hour and the minutes as written. */
  function TimeText(hour: int, minutes: string): string
  {
    var ampm := if hour >= 12 then "PM" else "AM";
    IntToString(Hour12(hour)) + ":" + minutes + " " + ampm
  }

  /**
   * On the hours of a day the 12-hour reading is 1..12 and, with its AM/PM
   * marker, determines the hour: no two hours are shown alike.
   */
  lemma Hour12RoundTrip(hour: int)
    requires 0 <= hour <= 23
    ensures 1 <= Hour12(hour) <= 12
    ensures Hour24(Hour12(hour), hour >= 12) == hour
  {
  }

  /**
   * For every "HH:MM" of a day the 12-hour text is `String` of the 12-hour
   * hour, ":" and the minutes as given, then " AM" exactly before noon and
   * " PM" otherwise; the 12-hour hour and the marker give back the hour.
   */
  lemma FormatTime12HourReadsBack(t: string)
    requires IsTime24(t) && DigitsValue(t[..2]) <= 23
    ensures var out := FormatTime12Hour(t);
      var h := DigitsValue(t[..2]);
      && |out| >= 7
      && out[..|out| - 6] == IntToString(Hour12(h))
      && out[|out| - 6..|out| - 3] == ":" + t[3..]
      && (out[|out| - 3..] == " AM" <==> h < 12)
      && (out[|out| - 3..] == " PM" <==> h >= 12)
      && 1 <= Hour12(h) <= 12
      && Hour24(Hour12(h), out[|out| - 3..] == " PM") == h
  {
    TimeTextReadsBack(DigitsValue(t[..2]), t[3..]);
  }

  /** The same facts about the text built from an hour of the day and two minute characters. */
  lemma TimeTextReadsBack(h: int, mm: string)
    requires 0 <= h <= 23 && |mm| == 2
    ensures var out := TimeText(h, mm);
      && |out| >= 7
      && out[..|out| - 6] == IntToString(Hour12(h))
      && out[|out| - 6..|out| - 3] == ":" + mm
      && (out[|out| - 3..] == " AM" <==> h < 12)
      && (out[|out| - 3..] == " PM" <==> h >= 12)
      && 1 <= Hour12(h) <= 12
      && Hour24(Hour12(h), out[|out| - 3..] == " PM") == h
  {
    AmPmText(IntToString(Hour12(h)), mm, h >= 12);
    Hour12RoundTrip(h);
  }

  /** Where the pieces of `hour:mm AM` or `hour:mm PM` sit in the text. */
  lemma AmPmText(hour: string, mm: string, pm: bool)
    requires |mm| == 2
    ensures var out := hour + ":" + mm + " " + (if pm then "PM" else "AM");
      && |out| == |hour| + 6
      && out[..|out| - 6] == hour
      && out[|out| - 6..|out| - 3] == ":" + mm
      && (out[|out| - 3..] == " AM" <==> !pm)
      && (out[|out| - 3..] == " PM" <==> pm)
  {
    var out := hour + ":" + mm + " " + (if pm then "PM" else "AM");
    assert out[|out| - 3..] == if pm then " PM" else " AM";
    assert " PM"[1] != " AM"[1];
  }

  lemma FormatTime12HourExamples()
    ensures FormatTime12Hour("00:30") == "12:30 AM"
    ensures FormatTime12Hour("13:05") == "1:05 PM"
  {
    assert "00:30"[..2] == "00" && "13:05"[..2] == "13";
    assert DigitsValue("00") == 0 by {
      assert "00"[..1] == "0";
    }
    assert DigitsValue("13") == 13 by {
      assert "13"[..1] == "1";
    }
    assert NatToString(12) == "12" by {
      assert NatToString(1) == "1";
    }
    assert "00:30"[3..] == "30" && "13:05"[3..] == "05";
  }

  // ----- Guest count -----

  /** The manual guest count is clamped to [1, 500]. */
  function ClampGuestCount(value: int): (r: int)
    ensures 1 <= r <= 500
    ensures 1 <= value <= 500 ==> r == value
    ensures value < 1 ==> r == 1
    ensures value > 500 ==> r == 500
  {
    if value < 1 then 1 else if value > 500 then 500 else value
  }

  /** `Math.round(value / 10) * 10`: the nearest multiple of ten, halves rounded up. */
  function RoundToTen(value: int): int
  {
    ((value + 5) / 10) * 10
  }

  lemma RoundToTenIsNearest(value: int)
    ensures RoundToTen(value) % 10 == 0
    ensures value - 5 < RoundToTen(value) <= value + 5
  {
    var q := (value + 5) / 10;
    assert value + 5 == q * 10 + (value + 5) % 10;
  }

  /** What the slider, the manual input and the display show after a manual entry. */
  datatype GuestSync = GuestSync(manual: int, slider: int, display: int)

  /** `syncGuestCountFromManual`: nothing happens while the input is empty or not a number. */
  function SyncGuestCountFromManual(input: Option<int>): Option<GuestSync>
  {
    match input
    case None => None
    case Some(v) =>
      var value := ClampGuestCount(v);
      Some(GuestSync(value, RoundToTen(value), value))
  }

  /** After a manual entry the count is within [1, 500] and the slider is its nearest ten. */
  lemma SyncGuestCountBounds(v: int)
    ensures var r := SyncGuestCountFromManual(Some(v)).value;
      && 1 <= r.manual <= 500 && r.display == r.manual
      && r.slider % 10 == 0 && 0 <= r.slider <= 500
      && r.manual - 5 < r.slider <= r.manual + 5
  {
    RoundToTenIsNearest(ClampGuestCount(v));
  }

  /** The slider position `editReservation` restores: nearest ten, kept within [10, 200]. */
  function EditSliderValue(guestCount: int): (r: int)
    ensures 10 <= r <= 200
  {
    var rounded := RoundToTen(guestCount);
    if rounded > 200 then 200 else if rounded < 10 then 10 else rounded
  }

  lemma EditSliderValueOnStep(guestCount: int)
    ensures EditSliderValue(guestCount) % 10 == 0
    ensures 10 <= guestCount <= 200 ==> guestCount - 5 < EditSliderValue(guestCount) <= guestCount + 5
  {
    RoundToTenIsNearest(guestCount);
  }

  // ----- Tables -----

  /** `calculateTableCount`: tables needed to seat every guest, or 0 without a count. */
  function CalculateTableCount(guestCount: int, seatsPerTable: int): (r: int)
    ensures guestCount > 0 && seatsPerTable > 0 ==>
      r * seatsPerTable >= guestCount && (r - 1) * seatsPerTable < guestCount
    ensures !(guestCount > 0 && seatsPerTable > 0) ==> r == 0
  {
    if guestCount > 0 && seatsPerTable > 0 then
      var q := (guestCount + seatsPerTable - 1) / seatsPerTable;
      var rem := (guestCount + seatsPerTable - 1) % seatsPerTable;
      assert guestCount + seatsPerTable - 1 == q * seatsPerTable + rem;
      assert (q - 1) * seatsPerTable == q * seatsPerTable - seatsPerTable;
      q
    else 0
  }

  /** `s.split(sep)`. */
  function Split(s: string, sep: char): (parts: seq<string>)
    ensures |parts| >= 1
    decreases |s|
  {
    if s == [] then [""]
    else
      var rest := Split(s[1..], sep);
      if s[0] == sep then [""] + rest else [[s[0]] + rest[0]] + rest[1..]
  }

  lemma {:induction false} SplitWithoutSeparator(s: string, sep: char)
    requires sep !in s
    ensures Split(s, sep) == [s]
    decreases |s|
  {
    if s != [] {
      SplitWithoutSeparator(s[1..], sep);
      assert [s[0]] + s[1..] == s;
    }
  }

  lemma {:induction false} SplitAround(t: string, u: string, sep: char)
    requires sep !in t && sep !in u
    ensures Split(t + [sep] + u, sep) == [t, u]
    decreases |t|
  {
    if t == [] {
      assert t + [sep] + u == [sep] + u;
      assert ([sep] + u)[1..] == u;
      SplitWithoutSeparator(u, sep);
    } else {
      SplitAround(t[1..], u, sep);
      assert (t + [sep] + u)[1..] == t[1..] + [sep] + u;
      assert [t[0]] + t[1..] == t;
    }
  }

  /** The table shape and seats parsed from a selector value such as "round-8". */
  datatype TableConfig = TableConfig(tableType: Option<string>, seatsPerTable: Option<int>)

  /** `parseTableConfiguration`. */
  function ParseTableConfiguration(tableValue: string): (r: TableConfig)
    ensures tableValue == "" ==> r == TableConfig(None, None)
    ensures r.seatsPerTable.Some? ==> r.seatsPerTable.value != 0
  {
    if tableValue == "" then TableConfig(None, None)
    else
      var parts := Split(tableValue, '-');
      if |parts| == 2 then
        var seats := ParseInt(parts[1]);
        TableConfig(Some(parts[0]), if seats.Some? && seats.value != 0 then seats else None)
      else TableConfig(None, None)
  }

  /** `formatTableConfiguration`: empty unless both parts are present and truthy. */
  function FormatTableConfiguration(tableType: Option<string>, seatsPerTable: Option<int>): string
  {
    if tableType.None? || tableType.value == "" || seatsPerTable.None? || seatsPerTable.value == 0 then ""
    else tableType.value + "-" + IntToString(seatsPerTable.value)
  }

  /**
   * A shape without a dash and a positive seat count survive formatting and
   * parsing back.
   */
  lemma TableConfigurationRoundTrip(tableType: string, seats: int)
    requires tableType != "" && '-' !in tableType && seats > 0
    ensures ParseTableConfiguration(FormatTableConfiguration(Some(tableType), Some(seats)))
            == TableConfig(Some(tableType), Some(seats))
  {
    var digits := IntToString(seats);
    assert '-' !in digits by {
      assert AllDigits(digits);
    }
    var v := tableType + "-" + digits;
    assert v == tableType + ['-'] + digits;
    SplitAround(tableType, digits, '-');
    ParseIntOfIntToString(seats);
  }

  /** Formatting what was parsed from a well-formed value gives the value back. */
  lemma TableConfigurationFormatParse(tableType: string, seats: nat)
    requires tableType != "" && '-' !in tableType && seats > 0
    ensures var v := tableType + "-" + NatToString(seats);
      var c := ParseTableConfiguration(v);
      FormatTableConfiguration(c.tableType, c.seatsPerTable) == v
  {
    TableConfigurationRoundTrip(tableType, seats);
  }

  // ----- Food-type prefixes -----

  predicate StartsWith(s: string, prefix: string)
  {
    |prefix| <= |s| && s[..|prefix|] == prefix
  }

  /** `isBuffet`: a string value starting with "buffet". */
  predicate IsBuffet(value: Option<string>)
  {
    value.Some? && StartsWith(value.value, "buffet")
  }

  /** `isBreakfast`: a string value starting with "desayuno". */
  predicate IsBreakfast(value: Option<string>)
  {
    value.Some? && StartsWith(value.value, "desayuno")
  }

  /** `isDessert`: exactly "postres". */
  predicate IsDessert(value: Option<string>)
  {
    value.Some? && value.value == "postres"
  }

  /** The three food families never overlap; a missing value is none of them. */
  lemma FoodFamiliesDisjoint(value: Option<string>)
    ensures !(IsBuffet(value) && IsBreakfast(value))
    ensures IsDessert(value) ==> !IsBuffet(value) && !IsBreakfast(value)
    ensures value.None? ==> !IsBuffet(value) && !IsBreakfast(value) && !IsDessert(value)
  {
    if value.Some? {
      FirstOfPrefix(value.value, "buffet");
      FirstOfPrefix(value.value, "desayuno");
    }
  }

  lemma FirstOfPrefix(s: string, prefix: string)
    ensures prefix != [] && StartsWith(s, prefix) ==> s != [] && s[0] == prefix[0]
  {
    if prefix != [] && StartsWith(s, prefix) {
      assert s[..|prefix|][0] == s[0];
    }
  }
}
