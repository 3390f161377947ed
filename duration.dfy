/**
 * The time label of the player: `formatDuration` turns a number of seconds into
 * `M:SS` below one hour and `H:MM:SS` from one hour on. The label is modelled on
 * whole seconds (`FormatDuration`); `FormatSeconds` is the same routine on a
 * non-negative real, flooring each field as the player does, and is proved to
 * agree with `FormatDuration` of the floored input.
 */
module Duration {
  import opened Options

  // ---------------------------------------------------------------------------
  // Decimal numerals
  // ---------------------------------------------------------------------------

  predicate IsDigit(c: char) { '0' <= c <= '9' }

  predicate AllDigits(s: string) { forall i :: 0 <= i < |s| ==> IsDigit(s[i]) }

  /** A non-empty string of decimal digits. */
  predicate IsNumeral(s: string) { |s| > 0 && AllDigits(s) }

  /** A numeral without a superfluous leading zero ("0" itself is allowed). */
  predicate NoLeadingZero(s: string) requires |s| > 0 { |s| == 1 || s[0] != '0' }

  function DigitValue(c: char): (d: nat)
    requires IsDigit(c)
    ensures d < 10
  {
    c as int - '0' as int
  }

  function DigitChar(d: nat): (c: char)
    requires d < 10
    ensures IsDigit(c) && DigitValue(c) == d
  {
    ('0' as int + d) as char
  }

  /** The number a string of decimal digits denotes (the empty string denotes 0). */
  function ValueOf(s: string): nat
    requires AllDigits(s)
  {
    if |s| == 0 then 0 else ValueOf(s[..|s| - 1]) * 10 + DigitValue(s[|s| - 1])
  }

  /** How a whole number is written when concatenated to a string. */
  function Decimal(n: nat): (r: string)
    ensures IsNumeral(r) && NoLeadingZero(r)
    ensures ValueOf(r) == n
    ensures |r| == 1 <==> n < 10
    ensures ':' !in r
  {
    if n < 10 then [DigitChar(n)]
    else
      var prefix := Decimal(n / 10);
      var r := prefix + [DigitChar(n % 10)];
      assert r[..|r| - 1] == prefix;
      r
  }

  /** A numeral whose first digit is not zero denotes a positive number. */
  lemma {:induction false} LeadingDigitPositive(s: string)
    requires IsNumeral(s) && s[0] != '0'
    ensures ValueOf(s) >= 1
  {
    if |s| > 1 {
      LeadingDigitPositive(s[..|s| - 1]);
    }
  }

  /** A non-zero multiple of `d` is at least `d` away from zero. */
  lemma ScaledGap(k: int, d: int)
    requires d > 0
    ensures k >= 1 ==> k * d >= d
    ensures k <= -1 ==> k * d <= -d
  {
  }

  /** Quotient and remainder are determined by the division identity. */
  lemma DivModUnique(t: int, d: int, q: int, r: int)
    requires d > 0 && t == q * d + r && 0 <= r < d
    ensures t / d == q && t % d == r
  {
    ScaledGap(t / d - q, d);
    assert (t / d - q) * d == t % d - r;
  }

  /** Appending a digit to a positive number appends its character to the numeral. */
  lemma DecimalAppend(m: nat, d: nat)
    requires m >= 1 && d < 10
    ensures Decimal(m * 10 + d) == Decimal(m) + [DigitChar(d)]
  {
    DivModUnique(m * 10 + d, 10, m, d);
  }

  lemma DecimalOfDigit(c: char)
    requires IsDigit(c)
    ensures Decimal(DigitValue(c)) == [c]
  {
    assert DigitChar(DigitValue(c)) == c;
  }

  /** Writing out the value of a numeral without a leading zero gives the numeral back. */
  lemma {:induction false} DecimalOfValue(s: string)
    requires IsNumeral(s) && NoLeadingZero(s)
    ensures Decimal(ValueOf(s)) == s
  {
    if |s| == 1 {
      DecimalOfDigit(s[0]);
      assert s == [s[0]];
    } else {
      var prefix, last := s[..|s| - 1], s[|s| - 1];
      assert s == prefix + [last];
      LeadingDigitPositive(prefix);
      DecimalOfValue(prefix);
      DecimalAppend(ValueOf(prefix), DigitValue(last));
      DecimalOfDigit(last);
    }
  }

  // ---------------------------------------------------------------------------
  // The formatter
  // ---------------------------------------------------------------------------

  /** A field of the label written with at least two digits. */
  function TwoDigits(n: nat): string
  {
    (if n < 10 then "0" else "") + Decimal(n)
  }

  lemma TwoDigitsShape(n: nat)
    requires n < 60
    ensures IsNumeral(TwoDigits(n)) && |TwoDigits(n)| == 2
    ensures ValueOf(TwoDigits(n)) == n && ':' !in TwoDigits(n)
  {
    if n < 10 {
      assert TwoDigits(n)[..1] == "0";
    }
  }

  /** A two-digit numeral is the two-digit rendering of its own value. */
  lemma TwoDigitsOfValue(s: string)
    requires IsNumeral(s) && |s| == 2
    ensures TwoDigits(ValueOf(s)) == s
  {
    var hi, lo := DigitValue(s[0]), DigitValue(s[1]);
    assert s[..1] == [s[0]];
    assert ValueOf([s[0]]) == hi;
    var n := ValueOf(s);
    assert n == hi * 10 + lo;
    DecimalOfDigit(s[0]);
    DecimalOfDigit(s[1]);
    if hi == 0 {
      assert s == "0" + [s[1]];
    } else {
      DecimalAppend(hi, lo);
      assert s == [s[0]] + [s[1]];
    }
  }

  /**
   * The label assembled from its three fields: the hour field and its colon
   * only when there are hours, the minutes padded to two digits only after an
   * hour field, the seconds always padded to two digits.
   */
  function Render(hours: nat, minutes: nat, seconds: nat): string
  {
    var displayHours := if hours > 0 then Decimal(hours) + ":" else "";
    var displayMinutes := (if displayHours != "" && minutes < 10 then "0" else "") + Decimal(minutes) + ":";
    var displaySeconds := (if seconds < 10 then "0" else "") + Decimal(seconds);
    displayHours + displayMinutes + displaySeconds
  }

  /** The label for a whole number of seconds. */
  function FormatDuration(t: nat): string
  {
    Render(t / 3600, (t % 3600) / 60, t % 60)
  }

  // ---------------------------------------------------------------------------
  // Reading a label back
  // ---------------------------------------------------------------------------

  /** The pieces of a string between colons. */
  function Split(s: string): (fields: seq<string>)
    ensures |fields| >= 1
  {
    if |s| == 0 then [""]
    else
      var rest := Split(s[1..]);
      if s[0] == ':' then [""] + rest else [[s[0]] + rest[0]] + rest[1..]
  }

  /** The pieces joined with colons between them. */
  function Join(fields: seq<string>): string
    requires |fields| >= 1
  {
    if |fields| == 1 then fields[0] else fields[0] + ":" + Join(fields[1..])
  }

  lemma {:induction false} SplitNoColon(a: string)
    requires ':' !in a
    ensures Split(a) == [a]
  {
    if |a| > 0 {
      SplitNoColon(a[1..]);
      assert [a[0]] + a[1..] == a;
    }
  }

  lemma {:induction false} SplitAfterField(a: string, b: string)
    requires ':' !in a
    ensures Split(a + ":" + b) == [a] + Split(b)
  {
    if |a| == 0 {
      assert a + ":" + b == [':'] + b;
      assert (a + ":" + b)[1..] == b;
    } else {
      assert (a + ":" + b)[1..] == a[1..] + ":" + b;
      SplitAfterField(a[1..], b);
      assert [a[0]] + a[1..] == a;
    }
  }

  /** Splitting at the colons loses nothing. */
  lemma {:induction false} JoinSplit(s: string)
    ensures Join(Split(s)) == s
  {
    if |s| > 0 {
      var rest := Split(s[1..]);
      JoinSplit(s[1..]);
      if s[0] == ':' {
        assert ([""] + rest)[1..] == rest;
        assert s == [':'] + s[1..];
      } else if |rest| == 1 {
        assert s == [s[0]] + s[1..];
      } else {
        var fields := [[s[0]] + rest[0]] + rest[1..];
        assert fields[1..] == rest[1..];
        assert Join(rest) == rest[0] + ":" + Join(rest[1..]);
        assert s == [s[0]] + s[1..];
      }
    }
  }

  /** `M:SS` or `H:MM:SS` with any numerals as fields, read as a number of seconds. */
  function ReadFields(fields: seq<string>): Option<nat>
  {
    if |fields| == 2 && IsNumeral(fields[0]) && IsNumeral(fields[1]) then
      Some(ValueOf(fields[0]) * 60 + ValueOf(fields[1]))
    else if |fields| == 3 && IsNumeral(fields[0]) && IsNumeral(fields[1]) && IsNumeral(fields[2]) then
      Some(ValueOf(fields[0]) * 3600 + ValueOf(fields[1]) * 60 + ValueOf(fields[2]))
    else None
  }

  /** Reads a label back into a number of seconds. */
  function ParseDuration(s: string): Option<nat>
  {
    ReadFields(Split(s))
  }

  /** A leading field: a numeral without a superfluous leading zero. */
  predicate LeadField(f: string) { IsNumeral(f) && NoLeadingZero(f) }

  /** A field after a colon: exactly two digits, below 60. */
  predicate PaddedField(f: string) { IsNumeral(f) && |f| == 2 && ValueOf(f) < 60 }

  /**
   * The fields of a label the formatter produces: minutes below 60 and
   * seconds, or non-zero hours, minutes and seconds.
   */
  predicate CanonicalFields(fields: seq<string>)
  {
    (|fields| == 2 && LeadField(fields[0]) && ValueOf(fields[0]) < 60 && PaddedField(fields[1])) ||
    (|fields| == 3 && LeadField(fields[0]) && ValueOf(fields[0]) > 0 &&
     PaddedField(fields[1]) && PaddedField(fields[2]))
  }

  predicate Canonical(s: string)
  {
    CanonicalFields(Split(s))
  }

  lemma FormatBelowHour(t: nat)
    requires t < 3600
    ensures FormatDuration(t) == Decimal(t / 60) + ":" + TwoDigits(t % 60)
  {
    assert t / 3600 == 0 && (t % 3600) / 60 == t / 60;
  }

  lemma FormatFromHour(t: nat)
    requires t >= 3600
    ensures FormatDuration(t) == Decimal(t / 3600) + ":" + (TwoDigits((t % 3600) / 60) + ":" + TwoDigits(t % 60))
  {
    var displayHours := Decimal(t / 3600) + ":";
    assert displayHours != "";
  }

  /** Below one hour the label is `M:SS`, from one hour on it is `H:MM:SS`. */
  lemma FormatShape(t: nat)
    ensures var fields := Split(FormatDuration(t));
      (t < 3600 ==> fields == [Decimal(t / 60), TwoDigits(t % 60)]) &&
      (t >= 3600 ==> fields == [Decimal(t / 3600), TwoDigits((t % 3600) / 60), TwoDigits(t % 60)])
  {
    var m, sec := (t % 3600) / 60, t % 60;
    TwoDigitsShape(m);
    TwoDigitsShape(sec);
    SplitNoColon(TwoDigits(sec));
    if t < 3600 {
      FormatBelowHour(t);
      SplitAfterField(Decimal(t / 60), TwoDigits(sec));
    } else {
      FormatFromHour(t);
      SplitAfterField(Decimal(t / 3600), TwoDigits(m) + ":" + TwoDigits(sec));
      SplitAfterField(TwoDigits(m), TwoDigits(sec));
    }
  }

  lemma MinutesLabel(s: string, m: nat, sec: nat)
    requires m < 60 && sec < 60 && Split(s) == [Decimal(m), TwoDigits(sec)]
    ensures Canonical(s) && ParseDuration(s) == Some(m * 60 + sec)
  {
    TwoDigitsShape(sec);
  }

  lemma HoursLabel(s: string, h: nat, m: nat, sec: nat)
    requires h > 0 && m < 60 && sec < 60 && Split(s) == [Decimal(h), TwoDigits(m), TwoDigits(sec)]
    ensures Canonical(s) && ParseDuration(s) == Some(h * 3600 + m * 60 + sec)
  {
    TwoDigitsShape(m);
    TwoDigitsShape(sec);
  }

  /** The three fields add back up to the number of seconds. */
  lemma FieldsAddUp(t: nat)
    ensures (t % 3600) / 60 < 60
    ensures t < 3600 ==> t == (t / 60) * 60 + t % 60
    ensures t == (t / 3600) * 3600 + ((t % 3600) / 60) * 60 + t % 60
  {
    var h, r := t / 3600, t % 3600;
    var m, sec := r / 60, r % 60;
    assert t == h * 3600 + r;
    assert r == m * 60 + sec;
    DivModUnique(t, 60, h * 60 + m, sec);
  }

  /** Every label is canonical, and reading it back gives the seconds it was made from. */
  lemma FormatRoundTrip(t: nat)
    ensures Canonical(FormatDuration(t))
    ensures |Split(FormatDuration(t))| == (if t < 3600 then 2 else 3)
    ensures ParseDuration(FormatDuration(t)) == Some(t)
  {
    FormatShape(t);
    FieldsAddUp(t);
    if t < 3600 {
      MinutesLabel(FormatDuration(t), t / 60, t % 60);
    } else {
      HoursLabel(FormatDuration(t), t / 3600, (t % 3600) / 60, t % 60);
    }
  }

  lemma CanonicalMinutes(t: nat, mm: string, ss: string)
    requires IsNumeral(mm) && NoLeadingZero(mm) && ValueOf(mm) < 60
    requires IsNumeral(ss) && |ss| == 2 && ValueOf(ss) < 60
    requires t == ValueOf(mm) * 60 + ValueOf(ss)
    ensures FormatDuration(t) == mm + ":" + ss
  {
    assert t < 3600 && t / 60 == ValueOf(mm) && t % 60 == ValueOf(ss);
    FormatBelowHour(t);
    DecimalOfValue(mm);
    TwoDigitsOfValue(ss);
  }

  lemma CanonicalHours(t: nat, hh: string, mm: string, ss: string)
    requires IsNumeral(hh) && NoLeadingZero(hh) && ValueOf(hh) > 0
    requires IsNumeral(mm) && |mm| == 2 && ValueOf(mm) < 60
    requires IsNumeral(ss) && |ss| == 2 && ValueOf(ss) < 60
    requires t == ValueOf(hh) * 3600 + ValueOf(mm) * 60 + ValueOf(ss)
    ensures FormatDuration(t) == hh + ":" + (mm + ":" + ss)
  {
    DivModOfParts(t, ValueOf(hh), ValueOf(mm), ValueOf(ss));
    FormatFromHour(t);
    DecimalOfValue(hh);
    TwoDigitsOfValue(mm);
    TwoDigitsOfValue(ss);
  }

  /** Conversely, every canonical label is the label of the seconds it denotes. */
  lemma CanonicalIsFormatted(s: string)
    requires Canonical(s)
    ensures ParseDuration(s).Some?
    ensures FormatDuration(ParseDuration(s).value) == s
  {
    var fields := Split(s);
    JoinSplit(s);
    if |fields| == 2 {
      assert fields == [fields[0], fields[1]];
      CanonicalMinutes(ParseDuration(s).value, fields[0], fields[1]);
    } else {
      assert fields == [fields[0], fields[1], fields[2]];
      assert Join(fields[1..]) == fields[1] + ":" + fields[2];
      CanonicalHours(ParseDuration(s).value, fields[0], fields[1], fields[2]);
    }
  }

  lemma DivModOfParts(t: nat, hh: nat, mm: nat, ss: nat)
    requires mm < 60 && ss < 60 && t == hh * 3600 + mm * 60 + ss
    ensures t / 3600 == hh && (t % 3600) / 60 == mm && t % 60 == ss
  {
    DivModUnique(t, 3600, hh, mm * 60 + ss);
    DivModUnique(mm * 60 + ss, 60, mm, ss);
    DivModUnique(t, 60, hh * 60 + mm, ss);
  }

  /** The examples the player's label has to reproduce. */
  lemma Examples()
    ensures FormatDuration(0) == "0:00"
    ensures FormatDuration(59) == "0:59"
    ensures FormatDuration(60) == "1:00"
    ensures FormatDuration(3661) == "1:01:01"
  {
  }

  // ---------------------------------------------------------------------------
  // The formatter on real-valued seconds
  // ---------------------------------------------------------------------------

  /**
   * The remainder operator `%` of the player's language truncates towards
   * zero; for the non-negative operands used here that is the floored quotient.
   */
  function Remainder(x: real, m: real): real
    requires x >= 0.0 && m > 0.0
  {
    x - m * ((x / m).Floor as real)
  }

  /** Multiplying by a positive real keeps the order. */
  lemma ScaleOrder(a: real, b: real, c: real)
    requires c > 0.0
    ensures a <= b <==> a * c <= b * c
    ensures a < b <==> a * c < b * c
  {
    assert b * c - a * c == (b - a) * c;
  }

  lemma QuotientBounds(x: real, c: real, lo: real, hi: real)
    requires c > 0.0 && lo * c <= x < hi * c
    ensures lo <= x / c < hi
  {
    var y := x / c;
    assert y * c == x;
    ScaleOrder(lo, y, c);
    ScaleOrder(y, hi, c);
  }

  lemma FloorBetween(y: real, q: int)
    requires q as real <= y < (q + 1) as real
    ensures y.Floor == q
  {
  }

  lemma CastProduct(a: int, b: int)
    ensures (a * b) as real == a as real * b as real
  {
  }

  lemma FloorBracket(x: real, d: nat)
    requires x >= 0.0 && d > 0
    ensures x.Floor / d * d <= x.Floor < (x.Floor / d + 1) * d
  {
    var n := x.Floor;
    assert n == n / d * d + n % d;
  }

  /** Flooring a quotient of a non-negative real is dividing its floor. */
  lemma FloorOfQuotient(x: real, d: nat)
    requires x >= 0.0 && d > 0
    ensures (x / d as real).Floor == x.Floor / d
  {
    var q := x.Floor / d;
    FloorBracket(x, d);
    CastProduct(q, d);
    CastProduct(q + 1, d);
    assert (q * d) as real <= x < ((q + 1) * d) as real;
    QuotientBounds(x, d as real, q as real, (q + 1) as real);
    FloorBetween(x / d as real, q);
  }

  /** The remainder of a non-negative real keeps its fractional part. */
  lemma RemainderOfFloor(x: real, d: nat)
    requires x >= 0.0 && d > 0
    ensures Remainder(x, d as real) == (x.Floor % d) as real + (x - x.Floor as real)
    ensures Remainder(x, d as real).Floor == x.Floor % d
  {
    var n := x.Floor;
    FloorOfQuotient(x, d);
    assert n == n / d * d + n % d;
    CastProduct(n / d, d);
  }

  /** Flooring each field of a real time gives the fields of its floor. */
  lemma FlooredFields(time: real)
    requires time >= 0.0
    ensures (time / 3600.0).Floor == time.Floor / 3600
    ensures (Remainder(time, 3600.0) / 60.0).Floor == (time.Floor % 3600) / 60
    ensures Remainder(time, 60.0).Floor == time.Floor % 60
  {
    FloorOfQuotient(time, 3600);
    RemainderOfFloor(time, 3600);
    FloorOfQuotient(Remainder(time, 3600.0), 60);
    RemainderOfFloor(time, 60);
  }

  /** The label for a non-negative real number of seconds, each field floored. */
  function FormatSeconds(time: real): (r: string)
    requires time >= 0.0
    ensures r == FormatDuration(time.Floor)
  {
    FlooredFields(time);
    var hours := (time / 3600.0).Floor;
    var minutes := (Remainder(time, 3600.0) / 60.0).Floor;
    var seconds := Remainder(time, 60.0).Floor;
    Render(hours, minutes, seconds)
  }
}
