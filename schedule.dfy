/**
 * Times of day and absolute instants for the temperature schedule
 * (src/main.cpp, the `setTime` lambda and the day-number/time pairs built by
 * `setDates`). An instant is a Julian day number with the milliseconds into
 * that day, compared lexicographically as `QDateTime` compares them.
 */
module Schedule {
  import opened Wrappers

  /** `QTime(hour, minute)`: the seconds are always zero. */
  datatype Time = Time(hour: int, minute: int)

  /** A Julian day number and the milliseconds since midnight of that day. */
  datatype Instant = Instant(day: int, msec: int)

  /** A time `QTime` accepts: an hour of the day and a minute of the hour. */
  predicate ValidTime(t: Time) {
    0 <= t.hour < 24 && 0 <= t.minute < 60
  }

  /** `QDateTime(QDate::fromJulianDay(day), t)`: the instant on that day at
      that time, a whole number of minutes into the day. */
  function At(day: int, t: Time): (r: Instant)
    ensures r.day == day
    ensures ValidTime(t) ==> 0 <= r.msec < 86_400_000 && r.msec % 60_000 == 0
  {
    Instant(day, (t.hour * 3600 + t.minute * 60) * 1000)
  }

  /** `a > b` on date-times: a later day, or the same day at a later time. */
  predicate Later(a: Instant, b: Instant) {
    a.day > b.day || (a.day == b.day && a.msec > b.msec)
  }

  /** `>` on date-times is a strict total order. */
  lemma LaterIsStrictOrder(a: Instant, b: Instant, c: Instant)
    ensures !Later(a, a)
    ensures Later(a, b) ==> !Later(b, a)
    ensures Later(a, b) && Later(b, c) ==> Later(a, c)
    ensures a != b ==> Later(a, b) || Later(b, a)
  {
  }

  /** On one day, a later time of day is a later instant, with the hour
      deciding before the minute; any time on a later day is later still. */
  lemma AtOrder(day: int, t: Time, day': int, t': Time)
    requires ValidTime(t) && ValidTime(t')
    ensures day == day' ==>
      (Later(At(day, t), At(day', t')) <==>
        t.hour > t'.hour || (t.hour == t'.hour && t.minute > t'.minute))
    ensures day > day' ==> Later(At(day, t), At(day', t'))
  {
    var a, b := At(day, t).msec, At(day', t').msec;
    if t.hour > t'.hour {
      assert a >= (t'.hour + 1) * 3_600_000 > b;
    } else if t.hour < t'.hour {
      assert b >= (t.hour + 1) * 3_600_000 > a;
    }
  }

  function Min(a: int, b: int): int {
    if a <= b then a else b
  }

  /**
   * `std::string::substr(pos, n)`: throws `out_of_range` when `pos` is past
   * the end, otherwise yields at most `n` characters from `pos`.
   */
  function Substr(s: string, pos: nat, n: nat): (r: Option<string>)
    ensures r.Some? <==> pos <= |s|
    ensures r.Some? ==> |r.value| == Min(n, |s| - pos)
    ensures r.Some? ==> forall i :: 0 <= i < |r.value| ==> r.value[i] == s[pos + i]
  {
    if pos > |s| then None
    else Some(s[pos..pos + Min(n, |s| - pos)])
  }

  const IntMin := -0x8000_0000
  const IntMax := 0x7fff_ffff

  /** The characters `isspace` accepts in the "C" locale. */
  predicate IsSpace(c: char) {
    c == ' ' || c == '\t' || c == '\n' || c == '\U{000B}' || c == '\U{000C}' || c == '\r'
  }

  predicate IsDigit(c: char) {
    '0' as int <= c as int <= '9' as int
  }

  /** `s` without its leading white space. */
  function SkipSpace(s: string): (r: string)
    ensures |r| <= |s| && r == s[|s| - |r|..]
    ensures forall i :: 0 <= i < |s| - |r| ==> IsSpace(s[i])
    ensures r != [] ==> !IsSpace(r[0])
  {
    if s != [] && IsSpace(s[0]) then SkipSpace(s[1..]) else s
  }

  /** The number of decimal digits at the front of `s`. */
  function DigitRun(s: string): (n: nat)
    ensures n <= |s|
    ensures forall i :: 0 <= i < n ==> IsDigit(s[i])
    ensures n < |s| ==> !IsDigit(s[n])
  {
    if s != [] && IsDigit(s[0]) then 1 + DigitRun(s[1..]) else 0
  }

  function Pow10(n: nat): (r: nat)
    ensures r >= 1
  {
    if n == 0 then 1 else 10 * Pow10(n - 1)
  }

  /** The value of a string of decimal digits: below 10 to the number of
      digits, and a single digit stands for itself. */
  function DigitsValue(d: string): (v: nat)
    requires forall i :: 0 <= i < |d| ==> IsDigit(d[i])
    ensures v < Pow10(|d|)
    ensures |d| == 1 ==> v == d[0] as int - '0' as int
  {
    if d == [] then 0
    else
      assert IsDigit(d[|d| - 1]);
      var digit := d[|d| - 1] as int - '0' as int;
      DigitsValue(d[..|d| - 1]) * 10 + digit
  }

  /** The value of the run of decimal digits at the front of `u`, if there is one. */
  function Magnitude(u: string): (r: Option<nat>)
    ensures r.Some? <==> u != [] && IsDigit(u[0])
  {
    var n := DigitRun(u);
    if n == 0 then None
    else
      assert forall i :: 0 <= i < n ==> IsDigit(u[..n][i]);
      Some(DigitsValue(u[..n]))
  }

  /**
   * What `std::stoi` makes of its argument once the leading white space is
   * skipped: an optional sign and at least one decimal digit; conversion
   * stops at the first other character, and a value outside the `int`
   * range throws.
   */
  function Convert(t: string): (r: Option<int>)
    ensures r.Some? ==> IntMin <= r.value <= IntMax
    ensures r.Some? ==> t != [] && (IsDigit(t[0]) || (|t| > 1 && IsDigit(t[1])))
  {
    if t != [] && t[0] == '-' then
      match Magnitude(t[1..])
      case None => None
      case Some(m) => if IntMin <= -(m as int) then Some(-(m as int)) else None
    else
      var u := if t != [] && t[0] == '+' then t[1..] else t;
      match Magnitude(u)
      case None => None
      case Some(m) => if m <= IntMax then Some(m as int) else None
  }

  /**
   * `std::stoi`: optional leading white space, an optional sign and at least
   * one decimal digit. It throws when there is no digit or the value does
   * not fit in an `int`.
   */
  function Stoi(s: string): (r: Option<int>)
    ensures r.Some? ==> IntMin <= r.value <= IntMax
    ensures r.Some? ==> exists k :: 0 <= k < |s| && IsDigit(s[k])
  {
    var t := SkipSpace(s);
    var r := Convert(t);
    assert r.Some? ==> IsDigit(s[|s| - |t|]) || IsDigit(s[|s| - |t| + 1]);
    r
  }

  /** White space in front of a string that does not start with white space is skipped entirely. */
  lemma {:induction false} SkipSpaceOver(w: string, t: string)
    requires forall i :: 0 <= i < |w| ==> IsSpace(w[i])
    requires t == [] || !IsSpace(t[0])
    ensures SkipSpace(w + t) == t
  {
    if w != [] {
      assert (w + t)[1..] == w[1..] + t;
      SkipSpaceOver(w[1..], t);
    }
  }

  /** A run of digits followed by the end or by a non-digit is the whole leading run. */
  lemma {:induction false} DigitRunOver(d: string, rest: string)
    requires forall i :: 0 <= i < |d| ==> IsDigit(d[i])
    requires rest == [] || !IsDigit(rest[0])
    ensures DigitRun(d + rest) == |d|
  {
    if d != [] {
      assert (d + rest)[1..] == d[1..] + rest;
      DigitRunOver(d[1..], rest);
    }
  }

  /** Digits `d` followed by a rest that does not start with a digit have the value of `d`. */
  lemma MagnitudeDigits(d: string, rest: string)
    requires d != [] && forall i :: 0 <= i < |d| ==> IsDigit(d[i])
    requires rest == [] || !IsDigit(rest[0])
    ensures Magnitude(d + rest) == Some(DigitsValue(d))
  {
    DigitRunOver(d, rest);
    assert (d + rest)[..|d|] == d;
  }

  /** `stoi` converts what follows its leading white space. */
  lemma StoiAfterSpace(w: string, t: string)
    requires forall i :: 0 <= i < |w| ==> IsSpace(w[i])
    requires t == [] || !IsSpace(t[0])
    ensures Stoi(w + t) == Convert(t)
  {
    SkipSpaceOver(w, t);
  }

  /**
   * Unsigned digits `d`, up to the first non-digit: their value when it
   * fits in an `int`; otherwise the conversion throws.
   */
  lemma ConvertDigits(d: string, rest: string)
    requires d != [] && forall i :: 0 <= i < |d| ==> IsDigit(d[i])
    requires rest == [] || !IsDigit(rest[0])
    ensures var m: int := DigitsValue(d);
      Convert(d + rest) == if m <= IntMax then Some(m) else None
  {
    assert (d + rest)[0] == d[0];
    MagnitudeDigits(d, rest);
  }

  /** After a '-' the magnitude of the rest is negated. */
  lemma ConvertMinus(t: string, m: nat)
    requires t != [] && t[0] == '-' && Magnitude(t[1..]) == Some(m)
    ensures Convert(t) == if IntMin <= -(m as int) then Some(-(m as int)) else None
  {
  }

  /** A '-' and then digits `d`: minus their value when that fits in an `int`. */
  lemma ConvertMinusDigits(t: string, d: string, rest: string)
    requires d != [] && forall i :: 0 <= i < |d| ==> IsDigit(d[i])
    requires rest == [] || !IsDigit(rest[0])
    requires t != [] && t[0] == '-' && t[1..] == d + rest
    ensures Convert(t).Some? <==> IntMin <= -(DigitsValue(d) as int)
    ensures Convert(t).Some? ==> Convert(t).value == -(DigitsValue(d) as int)
  {
    MagnitudeDigits(d, rest);
    ConvertMinus(t, DigitsValue(d));
  }

  /** A '+' and then digits `d`: their value, as without the sign. */
  lemma ConvertPlusDigits(t: string, d: string, rest: string)
    requires d != [] && forall i :: 0 <= i < |d| ==> IsDigit(d[i])
    requires rest == [] || !IsDigit(rest[0])
    requires t != [] && t[0] == '+' && t[1..] == d + rest
    ensures var m: int := DigitsValue(d);
      Convert(t) == if m <= IntMax then Some(m) else None
  {
    MagnitudeDigits(d, rest);
  }

  /** A sign followed by no digit makes the conversion throw. */
  lemma ConvertSignNoDigits(t: string)
    requires t != [] && (t[0] == '-' || t[0] == '+')
    requires |t| == 1 || !IsDigit(t[1])
    ensures Convert(t) == None
  {
    assert DigitRun(t[1..]) == 0;
  }

  /** Neither a sign nor a digit first: the conversion throws. */
  lemma ConvertNoDigits(t: string)
    requires t != [] ==> !IsDigit(t[0]) && t[0] != '-' && t[0] != '+'
    ensures Convert(t) == None
  {
    assert DigitRun(t) == 0;
  }

  /**
   * What `stoi` converts without a sign: after leading white space `w`,
   * the longest run of digits `d` gives its value when that fits in an
   * `int`, and otherwise the conversion throws.
   */
  lemma StoiDigits(w: string, d: string, rest: string)
    requires forall i :: 0 <= i < |w| ==> IsSpace(w[i])
    requires d != [] && forall i :: 0 <= i < |d| ==> IsDigit(d[i])
    requires rest == [] || !IsDigit(rest[0])
    ensures Stoi(w + d + rest) == if DigitsValue(d) <= IntMax then Some(DigitsValue(d) as int) else None
  {
    var t := d + rest;
    assert w + d + rest == w + t;
    assert t[0] == d[0];
    StoiAfterSpace(w, t);
    ConvertDigits(d, rest);
  }

  /**
   * `setTime`: the hour is read from characters 0-1 and the minute from
   * characters 3-4 of an "HH:MM:SS" string; the rest is ignored. Either
   * conversion may throw, which is `None` here.
   */
  function ParseTime(s: string): (r: Option<Time>)
    ensures |s| <= 3 ==> r.None?
  {
    var hh := Substr(s, 0, 2);
    var mm := Substr(s, 3, 2);
    if hh.None? || mm.None? then None
    else
      var h := Stoi(hh.value);
      var m := Stoi(mm.value);
      if h.None? || m.None? then None else Some(Time(h.value, m.value))
  }

  /** The two schedule boundaries as `setTime` converts `time_start` and
      `time_end`; `None` where the conversion throws. */
  datatype Bounds = Bounds(start: Option<Time>, end: Option<Time>) {
    predicate Ok() {
      start.Some? && end.Some?
    }
  }

  function BoundsOf(timeStart: string, timeEnd: string): (r: Bounds)
    ensures r.start.Some? ==> 3 < |timeStart|
    ensures r.end.Some? ==> 3 < |timeEnd|
  {
    Bounds(ParseTime(timeStart), ParseTime(timeEnd))
  }

  function DigitChar(d: nat): char
    requires d < 10
  {
    ('0' as int + d) as char
  }

  /** `n` written with two decimal digits, as in "06". */
  function TwoDigits(n: nat): (s: string)
    requires n < 100
  {
    [DigitChar(n / 10), DigitChar(n % 10)]
  }

  lemma StoiTwoDigits(n: nat)
    requires n < 100
    ensures Stoi(TwoDigits(n)) == Some(n)
  {
    var s := TwoDigits(n);
    assert SkipSpace(s) == s;
    assert DigitRun(s[1..]) == 1 by {
      assert DigitRun(s[1..][1..]) == 0;
    }
    assert s[..2] == s;
    assert s[..1] == [s[0]] && [s[0]][..0] == [];
    assert DigitsValue([s[0]]) == n / 10;
    assert DigitsValue(s) == (n / 10) * 10 + n % 10;
  }

  /**
   * A string whose characters 0-1 and 3-4 are two-digit numbers parses to
   * exactly that hour and minute, whatever the separator and the seconds.
   */
  lemma ParseTimeDigits(s: string, h: nat, m: nat)
    requires h < 100 && m < 100 && |s| >= 5
    requires s[..2] == TwoDigits(h) && s[3..5] == TwoDigits(m)
    ensures ParseTime(s) == Some(Time(h, m))
  {
    assert Substr(s, 0, 2) == Some(TwoDigits(h));
    assert Substr(s, 3, 2) == Some(TwoDigits(m));
    StoiTwoDigits(h);
    StoiTwoDigits(m);
  }

  /** A digit followed by a non-digit converts to that digit. */
  lemma StoiOneDigit(n: nat, c: char)
    requires n < 10 && !IsDigit(c)
    ensures Stoi([DigitChar(n), c]) == Some(n)
  {
    var d := [DigitChar(n)];
    assert d[..0] == [];
    assert DigitsValue(d) == n;
    StoiDigits([], d, [c]);
    assert [] + d + [c] == [DigitChar(n), c];
  }

  /**
   * A single-digit hour or minute is read with the character after it:
   * "7:30:00" reads the hour from "7:" and the minute from "0:", so it is
   * 07:00, not 07:30.
   */
  lemma ParseTimeOneDigit(s: string, h: nat, m: nat)
    requires h < 10 && m < 10 && |s| >= 5
    requires s[0] == DigitChar(h) && !IsDigit(s[1]) && s[3] == DigitChar(m) && !IsDigit(s[4])
    ensures ParseTime(s) == Some(Time(h, m))
  {
    assert s[0..2] == [s[0], s[1]] && s[3..5] == [s[3], s[4]];
    StoiOneDigit(h, s[1]);
    StoiOneDigit(m, s[4]);
  }

  /** "7:30:00" is read as 07:00. */
  lemma SevenThirtyReadsSeven()
    ensures ParseTime("7:30:00") == Some(Time(7, 0))
  {
    assert DigitChar(7) == '7' && DigitChar(0) == '0';
    ParseTimeOneDigit("7:30:00", 7, 0);
  }

  /** Only characters 0, 1, 3 and 4 decide what `setTime` reads. */
  lemma ParseTimeReadsFields(s: string, s': string)
    requires |s| >= 5 && |s'| >= 5
    requires s[0] == s'[0] && s[1] == s'[1] && s[3] == s'[3] && s[4] == s'[4]
    ensures ParseTime(s) == ParseTime(s')
  {
    assert s[0..2] == s'[0..2];
    assert s[3..5] == s'[3..5];
  }

  /** The default start boundary "17:00:00" is 17:00. */
  lemma DefaultStartParses()
    ensures ParseTime("17:00:00") == Some(Time(17, 0))
  {
    assert TwoDigits(17) == ['1', '7'] && TwoDigits(0) == ['0', '0'];
    ParseTimeDigits("17:00:00", 17, 0);
  }

  /** The default end boundary "06:00:00" is 06:00. */
  lemma DefaultEndParses()
    ensures ParseTime("06:00:00") == Some(Time(6, 0))
  {
    assert TwoDigits(6) == ['0', '6'] && TwoDigits(0) == ['0', '0'];
    ParseTimeDigits("06:00:00", 6, 0);
  }
}
