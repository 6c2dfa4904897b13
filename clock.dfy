/** Python `datetime` values as the routes and tasks render and parse them:
    `isoformat()`, `fromisoformat()`, and the `strftime` patterns the code
    uses. Only whole-second values, naive or at UTC, are modelled. */
module Clock {
  import opened Common

  /** A `datetime` without microseconds; `utc` marks an aware value at +00:00. */
  datatype DateTime = DateTime(year: int, month: int, day: int, hour: int, minute: int, second: int, utc: bool)

  predicate IsLeapYear(y: int) {
    (y % 4 == 0 && y % 100 != 0) || y % 400 == 0
  }

  function DaysInMonth(y: int, m: int): int {
    if m == 2 then (if IsLeapYear(y) then 29 else 28)
    else if m == 4 || m == 6 || m == 9 || m == 11 then 30
    else 31
  }

  /** The values `datetime` accepts (years 1 to 9999). */
  predicate Valid(dt: DateTime) {
    1 <= dt.year <= 9999 && 1 <= dt.month <= 12 && 1 <= dt.day <= DaysInMonth(dt.year, dt.month) &&
    0 <= dt.hour < 24 && 0 <= dt.minute < 60 && 0 <= dt.second < 60
  }

  /** `%02d`. */
  function Pad2(n: int): (r: string)
    requires 0 <= n < 100
    ensures |r| == 2 && AllDigits(r)
  {
    [DigitChar(n / 10), DigitChar(n % 10)]
  }

  /** `%04d`. */
  function Pad4(n: int): (r: string)
    requires 0 <= n < 10000
    ensures |r| == 4 && AllDigits(r)
  {
    [DigitChar(n / 1000), DigitChar(n / 100 % 10), DigitChar(n / 10 % 10), DigitChar(n % 10)]
  }

  /** The value of one decimal digit. */
  function DigitValue(c: char): int {
    (c as int) - ('0' as int)
  }

  function Value2(s: string): int
    requires |s| == 2
  {
    10 * DigitValue(s[0]) + DigitValue(s[1])
  }

  function Value4(s: string): int
    requires |s| == 4
  {
    1000 * DigitValue(s[0]) + 100 * DigitValue(s[1]) + 10 * DigitValue(s[2]) + DigitValue(s[3])
  }

  /** `strftime("%Y-%m-%d")`. */
  function DateStamp(dt: DateTime): (r: string)
    requires Valid(dt)
    ensures |r| == 10
    ensures r[..4] == Pad4(dt.year) && r[4] == '-' && r[5..7] == Pad2(dt.month) && r[7] == '-'
    ensures r[8..] == Pad2(dt.day)
  {
    Pad4(dt.year) + "-" + Pad2(dt.month) + "-" + Pad2(dt.day)
  }

  /** `strftime("%H:%M")`. */
  function ClockStamp(dt: DateTime): (r: string)
    requires Valid(dt)
    ensures |r| == 5
    ensures r[..2] == Pad2(dt.hour) && r[2] == ':' && r[3..] == Pad2(dt.minute)
  {
    Pad2(dt.hour) + ":" + Pad2(dt.minute)
  }

  /** The date and time fields, `YYYY-MM-DDTHH:MM:SS`. */
  function LocalStamp(dt: DateTime): (r: string)
    requires Valid(dt)
    ensures |r| == 19
    ensures r[..10] == DateStamp(dt) && r[10] == 'T' && r[11..16] == ClockStamp(dt)
    ensures r[16] == ':' && r[17..] == Pad2(dt.second)
  {
    DateStamp(dt) + "T" + ClockStamp(dt) + ":" + Pad2(dt.second)
  }

  /** `isoformat()`: the fields, then `+00:00` for an aware value. */
  function IsoFormat(dt: DateTime): string
    requires Valid(dt)
  {
    LocalStamp(dt) + (if dt.utc then "+00:00" else "")
  }

  /** `strftime("%Y-%m-%dT%H:%M:%SZ")`: the fields with a literal `Z`, whatever the zone. */
  function ZuluStamp(dt: DateTime): string
    requires Valid(dt)
  {
    LocalStamp(dt) + "Z"
  }

  predicate DigitsAt(s: string, i: int, n: nat) {
    0 <= i && i + n <= |s| && AllDigits(s[i..i + n])
  }

  /** The fields of a `YYYY-MM-DDTHH:MM:SS` prefix, when its shape is right. */
  function ParseLocal(s: string, utc: bool): Option<DateTime>
    requires |s| == 19
  {
    if DigitsAt(s, 0, 4) && s[4] == '-' && DigitsAt(s, 5, 2) && s[7] == '-' && DigitsAt(s, 8, 2) &&
       s[10] == 'T' && DigitsAt(s, 11, 2) && s[13] == ':' && DigitsAt(s, 14, 2) && s[16] == ':' &&
       DigitsAt(s, 17, 2)
    then
      var dt := DateTime(Value4(s[0..4]), Value2(s[5..7]), Value2(s[8..10]),
                         Value2(s[11..13]), Value2(s[14..16]), Value2(s[17..19]), utc);
      if Valid(dt) then Some(dt) else None
    else None
  }

  /** `datetime.fromisoformat(s)` on the two shapes `isoformat()` produces for
      whole-second values: naive, or followed by `+00:00`. */
  function ParseIso(s: string): (r: Option<DateTime>)
    ensures r.Some? ==> Valid(r.value)
  {
    if |s| == 19 then ParseLocal(s, false)
    else if |s| == 25 && s[19..] == "+00:00" then ParseLocal(s[..19], true)
    else None
  }

  lemma Pad2Value(n: int)
    requires 0 <= n < 100
    ensures Value2(Pad2(n)) == n
  {
    var s := Pad2(n);
    assert DigitValue(s[0]) == n / 10 && DigitValue(s[1]) == n % 10;
  }

  lemma Pad4Value(n: int)
    requires 0 <= n < 10000
    ensures Value4(Pad4(n)) == n
  {
    var s := Pad4(n);
    assert DigitValue(s[0]) == n / 1000 && DigitValue(s[1]) == n / 100 % 10;
    assert DigitValue(s[2]) == n / 10 % 10 && DigitValue(s[3]) == n % 10;
    assert n == 10 * (n / 10) + n % 10;
    assert n / 10 == 10 * (n / 100) + n / 10 % 10;
    assert n / 100 == 10 * (n / 1000) + n / 100 % 10;
  }

  /** `fromisoformat(isoformat(dt)) == dt`. */
  lemma IsoRoundTrip(dt: DateTime)
    requires Valid(dt)
    ensures ParseIso(IsoFormat(dt)) == Some(dt)
  {
    var local := LocalStamp(dt);
    var y, mo, d, h, mi, se := Pad4(dt.year), Pad2(dt.month), Pad2(dt.day), Pad2(dt.hour), Pad2(dt.minute), Pad2(dt.second);
    assert local == y + "-" + mo + "-" + d + "T" + h + ":" + mi + ":" + se;
    assert local[0..4] == y && local[5..7] == mo && local[8..10] == d;
    assert local[11..13] == h && local[14..16] == mi && local[17..19] == se;
    Pad4Value(dt.year);
    Pad2Value(dt.month);
    Pad2Value(dt.day);
    Pad2Value(dt.hour);
    Pad2Value(dt.minute);
    Pad2Value(dt.second);
    assert ParseLocal(local, dt.utc) == Some(dt);
    var s := IsoFormat(dt);
    if dt.utc {
      assert s[..19] == local && s[19..] == "+00:00";
    } else {
      assert s == local;
    }
  }

  /** `isoformat()` never contains `Z`, so `.replace('Z', '+00:00')` leaves it alone. */
  lemma IsoHasNoZ(dt: DateTime)
    requires Valid(dt)
    ensures 'Z' !in IsoFormat(dt)
    ensures ReplaceAll(IsoFormat(dt), "Z", "+00:00") == IsoFormat(dt)
  {
    var s := IsoFormat(dt);
    forall i | 0 <= i < |s|
      ensures s[i] != 'Z'
    {
      var local := LocalStamp(dt);
      if i < 19 {
        assert s[i] == local[i];
        var y, mo, d, h, mi, se := Pad4(dt.year), Pad2(dt.month), Pad2(dt.day), Pad2(dt.hour), Pad2(dt.minute), Pad2(dt.second);
        assert local == y + "-" + mo + "-" + d + "T" + h + ":" + mi + ":" + se;
      } else {
        assert s[19..] == "+00:00";
        assert s[i] == s[19..][i - 19];
      }
    }
    ReplaceWithoutLead(s, "Z", "+00:00");
  }

  /** The `Z` stamp, read back the way the meeting task reads a start time,
      denotes the same fields at UTC. */
  lemma ZuluReadsAsUtc(dt: DateTime)
    requires Valid(dt)
    ensures ParseIso(ReplaceAll(ZuluStamp(dt), "Z", "+00:00")) == Some(dt.(utc := true))
  {
    var aware := dt.(utc := true);
    assert LocalStamp(aware) == LocalStamp(dt);
    IsoHasNoZ(dt.(utc := false));
    assert IsoFormat(dt.(utc := false)) == LocalStamp(dt);
    ReplaceOnlySuffix(LocalStamp(dt), "Z", "+00:00");
    IsoRoundTrip(aware);
  }
}
