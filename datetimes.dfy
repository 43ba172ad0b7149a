/**
 * Naive `datetime` values as `datetime.now()` returns them, and their
 * `isoformat()` rendering: "YYYY-MM-DDTHH:MM:SS", followed by ".ffffff"
 * only when the microsecond is not zero.
 */
module DateTimes {

  datatype DateTime = DateTime(year: nat, month: nat, day: nat,
                               hour: nat, minute: nat, second: nat, microsecond: nat)
  {
    /** The ranges `datetime` itself enforces. */
    predicate Valid() {
      && 1 <= year <= 9999
      && 1 <= month <= 12
      && 1 <= day <= DaysInMonth(year, month)
      && hour < 24 && minute < 60 && second < 60
      && microsecond < 1000000
    }
  }

  /** A reading of the clock: always a well-formed date and time. */
  type Timestamp = t: DateTime | t.Valid() witness DateTime(1, 1, 1, 0, 0, 0, 0)

  predicate IsLeapYear(y: nat) {
    (y % 4 == 0 && y % 100 != 0) || y % 400 == 0
  }

  function DaysInMonth(y: nat, m: nat): nat {
    if m == 2 then (if IsLeapYear(y) then 29 else 28)
    else if m == 4 || m == 6 || m == 9 || m == 11 then 30
    else 31
  }

  /** Chronological order: `a <= b` on datetime values. */
  predicate NotAfter(a: DateTime, b: DateTime) {
    if a.year != b.year then a.year < b.year
    else if a.month != b.month then a.month < b.month
    else if a.day != b.day then a.day < b.day
    else if a.hour != b.hour then a.hour < b.hour
    else if a.minute != b.minute then a.minute < b.minute
    else if a.second != b.second then a.second < b.second
    else a.microsecond <= b.microsecond
  }

  function Pow10(w: nat): (p: nat)
    ensures p >= 1
  {
    if w == 0 then 1 else 10 * Pow10(w - 1)
  }

  predicate IsDigit(c: char) {
    '0' <= c <= '9'
  }

  /** `f"{n:0{w}d}"`: `n` in decimal, zero-padded to exactly `w` digits. */
  function Pad(n: nat, w: nat): (s: string)
    requires n < Pow10(w)
    ensures |s| == w
    ensures forall i :: 0 <= i < |s| ==> IsDigit(s[i])
  {
    if w == 0 then "" else Pad(n / 10, w - 1) + [(48 + n % 10) as char]
  }

  /** The number a string of decimal digits denotes. */
  function DigitsValue(s: string): nat {
    if s == [] then 0
    else
      var d := s[|s| - 1] as int - 48;
      DigitsValue(s[..|s| - 1]) * 10 + (if 0 <= d then d else 0)
  }

  lemma {:induction false} DigitsValueOfPad(n: nat, w: nat)
    requires n < Pow10(w)
    ensures DigitsValue(Pad(n, w)) == n
  {
    if w > 0 {
      var s := Pad(n, w);
      assert s[..|s| - 1] == Pad(n / 10, w - 1);
      DigitsValueOfPad(n / 10, w - 1);
    }
  }

  /** `t.isoformat()`. */
  function IsoFormat(t: Timestamp): (s: string)
    ensures |s| == if t.microsecond == 0 then 19 else 26
  {
    DatePart(t) + ['T'] + ClockPart(t) + FractionPart(t)
  }

  /** "YYYY-MM-DD". */
  function DatePart(t: Timestamp): (s: string)
    ensures |s| == 10
  {
    Pad(t.year, 4) + ['-'] + Pad(t.month, 2) + ['-'] + Pad(t.day, 2)
  }

  /** "HH:MM:SS". */
  function ClockPart(t: Timestamp): (s: string)
    ensures |s| == 8
  {
    Pad(t.hour, 2) + [':'] + Pad(t.minute, 2) + [':'] + Pad(t.second, 2)
  }

  /** ".ffffff", or nothing when the microsecond is zero. */
  function FractionPart(t: Timestamp): (s: string)
    ensures |s| == if t.microsecond == 0 then 0 else 7
  {
    if t.microsecond == 0 then "" else ['.'] + Pad(t.microsecond, 6)
  }

  /** The three fields of "a<x>b<y>c" sit where their lengths say. */
  lemma ThreeFields(a: string, x: char, b: string, y: char, c: string)
    ensures (a + [x] + b + [y] + c)[..|a|] == a
    ensures (a + [x] + b + [y] + c)[|a| + 1..|a| + 1 + |b|] == b
    ensures (a + [x] + b + [y] + c)[|a| + 2 + |b|..] == c
  {
    var s := a + [x] + b + [y] + c;
    assert s == a + ([x] + (b + ([y] + c)));
  }

  /** Reads the fields back out of an `isoformat()` string (the role of `datetime.fromisoformat`). */
  function FromIso(s: string): DateTime
    requires |s| >= 19
  {
    var date := s[..10];
    var clock := s[11..19];
    var fraction := s[19..];
    DateTime(DigitsValue(date[..4]), DigitsValue(date[5..7]), DigitsValue(date[8..]),
             DigitsValue(clock[..2]), DigitsValue(clock[3..5]), DigitsValue(clock[6..]),
             if |fraction| >= 7 then DigitsValue(fraction[1..7]) else 0)
  }

  /** The pieces of "a<x>b" followed by `c` sit where their lengths say. */
  lemma TwoFieldsThenRest(a: string, x: char, b: string, c: string)
    ensures (a + [x] + b + c)[..|a|] == a
    ensures (a + [x] + b + c)[|a| + 1..|a| + 1 + |b|] == b
    ensures (a + [x] + b + c)[|a| + 1 + |b|..] == c
  {
    var s := a + [x] + b + c;
    assert s == a + ([x] + (b + c));
  }

  lemma DateRoundTrip(t: Timestamp)
    ensures var d := DatePart(t);
      DigitsValue(d[..4]) == t.year && DigitsValue(d[5..7]) == t.month && DigitsValue(d[8..]) == t.day
  {
    ThreeFields(Pad(t.year, 4), '-', Pad(t.month, 2), '-', Pad(t.day, 2));
    DigitsValueOfPad(t.year, 4);
    DigitsValueOfPad(t.month, 2);
    DigitsValueOfPad(t.day, 2);
  }

  lemma ClockRoundTrip(t: Timestamp)
    ensures var c := ClockPart(t);
      DigitsValue(c[..2]) == t.hour && DigitsValue(c[3..5]) == t.minute && DigitsValue(c[6..]) == t.second
  {
    ThreeFields(Pad(t.hour, 2), ':', Pad(t.minute, 2), ':', Pad(t.second, 2));
    DigitsValueOfPad(t.hour, 2);
    DigitsValueOfPad(t.minute, 2);
    DigitsValueOfPad(t.second, 2);
  }

  lemma FractionRoundTrip(t: Timestamp)
    ensures var f := FractionPart(t);
      (if |f| >= 7 then DigitsValue(f[1..7]) else 0) == t.microsecond
  {
    if t.microsecond != 0 {
      assert FractionPart(t)[1..7] == Pad(t.microsecond, 6);
      DigitsValueOfPad(t.microsecond, 6);
    }
  }

  /** `isoformat()` loses nothing: the rendered text gives the datetime back. */
  lemma IsoRoundTrip(t: Timestamp)
    ensures FromIso(IsoFormat(t)) == t
  {
    TwoFieldsThenRest(DatePart(t), 'T', ClockPart(t), FractionPart(t));
    DateRoundTrip(t);
    ClockRoundTrip(t);
    FractionRoundTrip(t);
  }

  /** Distinct datetimes render as distinct strings. */
  lemma IsoInjective(a: Timestamp, b: Timestamp)
    requires IsoFormat(a) == IsoFormat(b)
    ensures a == b
  {
    IsoRoundTrip(a);
    IsoRoundTrip(b);
  }
}
