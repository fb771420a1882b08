/**
 * The date arithmetic of 18_working_with_datetime.py: a person's age from
 * the birth date and today's date, and a number of seconds split into
 * days, hours, minutes and seconds. `date.today()` is a parameter.
 */
module DateTime {
  import opened PyCore

  /** A calendar date as `datetime.date` holds it. */
  datatype Date = Date(year: int, month: int, day: int)

  /** Tuple order on (year, month, day), as Python compares tuples. */
  predicate Before(a: Date, b: Date)
  {
    a.year < b.year || (a.year == b.year && (a.month < b.month || (a.month == b.month && a.day < b.day)))
  }

  /** `(a.month, a.day) < (b.month, b.day)`. */
  predicate EarlierInYear(a: Date, b: Date)
  {
    a.month < b.month || (a.month == b.month && a.day < b.day)
  }

  /** The birth date moved on by `years` years (possibly a 29 February that does not exist; only its order matters). */
  function Anniversary(birth: Date, years: int): Date
  {
    Date(birth.year + years, birth.month, birth.day)
  }

  /**
   * calculate_age(birth_date) with `today` given: the year difference, less
   * one when this year's birthday is still to come. It is the number of
   * anniversaries reached: the `age`-th is on or before today and the next
   * one is after it.
   */
  function CalculateAge(birth: Date, today: Date): (age: int)
    ensures !Before(today, Anniversary(birth, age))
    ensures Before(today, Anniversary(birth, age + 1))
    ensures !Before(today, birth) ==> age >= 0
  {
    var age := today.year - birth.year;
    if EarlierInYear(today, birth) then age - 1 else age
  }

  /** Only one count of years lies between an anniversary reached and the next one not reached. */
  lemma AgeUnique(birth: Date, today: Date, a: int)
    requires !Before(today, Anniversary(birth, a)) && Before(today, Anniversary(birth, a + 1))
    ensures a == CalculateAge(birth, today)
  {
  }

  /** On the birthday itself the comparison is strict, so the full year difference counts. */
  lemma AgeOnBirthday(birth: Date, year: int)
    ensures CalculateAge(birth, Date(year, birth.month, birth.day)) == year - birth.year
  {
  }

  /** The day before the birthday, one year less. */
  lemma AgeDayBefore(birth: Date, year: int)
    requires birth.day > 1
    ensures CalculateAge(birth, Date(year, birth.month, birth.day - 1)) == year - birth.year - 1
  {
  }

  /** The lesson's birth date 1990-05-15 on an example day. */
  lemma AgeDemo()
    ensures CalculateAge(Date(1990, 5, 15), Date(2024, 5, 14)) == 33
    ensures CalculateAge(Date(1990, 5, 15), Date(2024, 5, 15)) == 34
  {
  }

  // ---------------------------------------------------------------- durations

  /** The four numbers format_duration prints. */
  datatype Duration = Duration(days: int, hours: int, minutes: int, secs: int)

  predicate Normalized(d: Duration)
  {
    0 <= d.hours < 24 && 0 <= d.minutes < 60 && 0 <= d.secs < 60
  }

  function TotalSeconds(d: Duration): int
  {
    d.days * 86400 + d.hours * 3600 + d.minutes * 60 + d.secs
  }

  /** Euclidean division is unique: a quotient and remainder in range are the ones `/` and `%` give. */
  lemma DivModUnique(x: int, m: int, q: int, r: int)
    requires m > 0 && x == m * q + r && 0 <= r < m
    ensures x / m == q && x % m == r
  {
    var q0, r0 := x / m, x % m;
    assert x == m * q0 + r0;
    assert m * q - m * q0 == r0 - r;
    MulSub(m, q, q0);
    if q > q0 {
      MulAtLeast(m, q - q0);
    } else if q < q0 {
      MulSub(m, q0, q);
      MulAtLeast(m, q0 - q);
    }
  }

  lemma MulSub(m: int, a: int, b: int)
    ensures m * (a - b) == m * a - m * b
  {
  }

  lemma MulAtLeast(m: int, e: int)
    requires m > 0 && e >= 1
    ensures m * e >= m
  {
    assert m * e == m + m * (e - 1);
  }

  /** Taking the remainder by a multiple of m first does not change the remainder by m. */
  lemma ModOfMod(x: int, m: int, k: int)
    requires m > 0 && k > 0
    ensures (x % (m * k)) % m == x % m
  {
    var big := m * k;
    var q, r := x / big, x % big;
    assert x == big * q + r;
    var q2, r2 := r / m, r % m;
    assert r == m * q2 + r2;
    assert x == m * (k * q + q2) + r2;
    DivModUnique(x, m, k * q + q2, r2);
  }

  /**
   * The parts of format_duration(seconds): `//` and `%` by positive divisors
   * floor in Python exactly as Euclidean division does, so these are the
   * same numbers for negative seconds too.
   */
  function DurationParts(seconds: int): (d: Duration)
    ensures Normalized(d)
    ensures TotalSeconds(d) == seconds
  {
    var d := Duration(seconds / 86400, (seconds % 86400) / 3600, (seconds % 3600) / 60, seconds % 60);
    ModOfMod(seconds, 3600, 24);
    ModOfMod(seconds, 60, 60);
    var r := seconds % 86400;
    assert r == 3600 * (r / 3600) + r % 3600;
    var r2 := seconds % 3600;
    assert r2 == 60 * (r2 / 60) + r2 % 60;
    assert seconds == 86400 * (seconds / 86400) + r;
    d
  }

  /** A normalized duration is split back into exactly its own parts. */
  lemma DurationRoundTrip(d: Duration)
    requires Normalized(d)
    ensures DurationParts(TotalSeconds(d)) == d
  {
    var t := TotalSeconds(d);
    var p := DurationParts(t);
    var rest := d.hours * 3600 + d.minutes * 60 + d.secs;
    DivModUnique(t, 86400, d.days, rest);
    DivModUnique(rest, 3600, d.hours, d.minutes * 60 + d.secs);
    var low := d.minutes * 60 + d.secs;
    assert t == 3600 * (d.days * 24 + d.hours) + low;
    DivModUnique(t, 3600, d.days * 24 + d.hours, low);
    DivModUnique(low, 60, d.minutes, d.secs);
    assert t == 60 * (d.days * 1440 + d.hours * 60 + d.minutes) + d.secs;
    DivModUnique(t, 60, d.days * 1440 + d.hours * 60 + d.minutes, d.secs);
  }

  /** Splitting is injective: two second counts with the same parts are equal. */
  lemma DurationPartsInjective(s1: int, s2: int)
    requires DurationParts(s1) == DurationParts(s2)
    ensures s1 == s2
  {
  }

  /** format_duration(seconds). */
  function FormatDuration(seconds: int): string
  {
    var d := DurationParts(seconds);
    IntToString(d.days) + " days, " + IntToString(d.hours) + " hours, "
      + IntToString(d.minutes) + " minutes, " + IntToString(d.secs) + " seconds"
  }

  /** The demo: 3661 seconds is one hour, one minute and one second. */
  lemma FormatDurationDemo()
    ensures DurationParts(3661) == Duration(0, 1, 1, 1)
    ensures FormatDuration(3661) == "0" + " days, " + "1" + " hours, " + "1" + " minutes, " + "1" + " seconds"
  {
    DurationPartsDemo();
  }

  lemma DurationPartsDemo()
    ensures DurationParts(3661) == Duration(0, 1, 1, 1)
  {
    DurationRoundTrip(Duration(0, 1, 1, 1));
  }
}
