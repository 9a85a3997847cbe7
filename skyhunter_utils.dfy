/**
 * Reply decoding and angle arithmetic for the iOptron mount.
 *
 * Angles are integer counts of 0.01 arc-second, the unit the mount speaks:
 * one degree is 360000 counts and a full turn is 129,600,000 counts. The
 * degree values the Python helpers return are these counts divided by
 * 360000 (`Degrees`); the final rounding to five decimals is not modelled.
 */
module SkyhunterUtils {
  import opened Wrappers
  import opened PyText

  /** A `:GAC#` reply is a sign, 17 digits and `#`. */
  const ReplyLength: nat := 19
  const UnitsPerDegree: nat := 360000
  const FullTurn: int := 129_600_000
  const HalfTurn: int := 64_800_000

  /** An altitude and an azimuth, both in counts of 0.01 arc-second. */
  datatype AltAz = AltAz(alt: int, az: int)

  function Degrees(count: int): real
  {
    count as real / UnitsPerDegree as real
  }

  lemma Pow10Values()
    ensures Pow10(2) == 100 && Pow10(3) == 1000
    ensures Pow10(8) == 100_000_000 && Pow10(9) == 1_000_000_000
    ensures Pow10(13) == 10_000_000_000_000
  {
  }

  // ---------------------------------------------------------------------
  // parse_alt_az
  // ---------------------------------------------------------------------

  /** A reply longer than 19 characters is cut down to its last 19. */
  function TrimReply(response: string): (t: string)
    ensures |t| == Min(|response|, ReplyLength)
    ensures |response| <= ReplyLength ==> t == response
    ensures response == response[..|response| - |t|] + t
  {
    if |response| > ReplyLength then response[|response| - ReplyLength..] else response
  }

  /** Characters 1..8 of the reply: the altitude magnitude. */
  function AltitudeField(t: string): string
  {
    Slice(t, 1, 9)
  }

  /** Characters 9..17 of the reply (9..16 for a latitude/longitude reply): the azimuth. */
  function AzimuthField(t: string, isLatLong: bool): string
  {
    if isLatLong then Slice(t, 9, 17) else Slice(t, 9, 18)
  }

  /**
   * An azimuth over 360 degrees is brought back by one turn; exactly 360
   * degrees is kept.
   */
  function WrapAzimuth(az: int): (w: int)
    ensures w == az || w == az - FullTurn
    ensures az <= FullTurn <==> w == az
    ensures 0 <= az <= 2 * FullTurn ==> 0 <= w <= FullTurn
  {
    if az > FullTurn then az - FullTurn else az
  }

  /**
   * `parse_alt_az(response, is_latlong)` in counts. An empty reply fails on
   * `response[0]` with `IndexError`; a field that is not an integer literal
   * fails with `ValueError`. The altitude keeps its sign only when the sign
   * character is `'+'`.
   */
  function ParseAltAz(response: string, isLatLong: bool): (r: Result<AltAz, PyError>)
    ensures response == [] <==> r == Failure(IndexError)
    ensures r.Success? ==>
              var t := TrimReply(response);
              && ParseInt(AltitudeField(t)) == Some(if t[0] == '+' then r.value.alt else -r.value.alt)
              && exists raw :: ParseInt(AzimuthField(t, isLatLong)) == Some(raw) && r.value.az == WrapAzimuth(raw)
  {
    var t := TrimReply(response);
    if t == [] then Failure(IndexError)
    else
      var sign := t[0];
      match (ParseInt(AltitudeField(t)), ParseInt(AzimuthField(t, isLatLong)))
      case (Some(a), Some(z)) => Success(AltAz(if sign == '+' then a else -a, WrapAzimuth(z)))
      case _ => Failure(ValueError)
  }

  /** Anything in front of the last 19 characters of a reply is ignored. */
  lemma ParseIgnoresPrefix(junk: string, reply: string, isLatLong: bool)
    requires |reply| == ReplyLength
    ensures ParseAltAz(junk + reply, isLatLong) == ParseAltAz(reply, isLatLong)
  {
    assert TrimReply(junk + reply) == reply by {
      assert (junk + reply)[|junk|..] == reply;
    }
  }

  /**
   * A full-length reply whose altitude and azimuth fields are all digits
   * decodes to the fields' values, the altitude negated unless the first
   * character is `'+'` and the azimuth wrapped.
   */
  lemma ParseFullReply(t: string)
    requires |t| == ReplyLength && AllDigits(t[1..9]) && AllDigits(t[9..18])
    ensures var v: int := DigitsValue(t[1..9]);
            ParseAltAz(t, false) == Success(AltAz(if t[0] == '+' then v else -v, WrapAzimuth(DigitsValue(t[9..18]))))
  {
    assert ParseInt(t[1..9]) == Some(DigitsValue(t[1..9]));
    assert ParseInt(t[9..18]) == Some(DigitsValue(t[9..18]));
  }

  /**
   * A reply made of a sign, eight altitude digits and nine azimuth digits
   * decodes to the digits' values: the altitude negated unless the sign is
   * `'+'`, the azimuth wrapped; a raw azimuth within the documented range
   * is returned as sent.
   */
  lemma {:induction false} ParseDigitReply(sign: char, altDigits: string, azDigits: string, rest: string)
    requires |altDigits| == 8 && AllDigits(altDigits)
    requires |azDigits| == 9 && AllDigits(azDigits)
    requires |rest| <= 1
    ensures var v: int := DigitsValue(altDigits);
            var raw := DigitsValue(azDigits);
            && ParseAltAz([sign] + altDigits + azDigits + rest, false)
               == Success(AltAz(if sign == '+' then v else -v, WrapAzimuth(raw)))
            && (raw <= FullTurn ==> WrapAzimuth(raw) == raw)
  {
    var t := [sign] + altDigits + azDigits + rest;
    assert TrimReply(t) == t;
    assert AltitudeField(t) == altDigits by {
      assert t[1..9] == altDigits;
    }
    assert AzimuthField(t, false) == azDigits by {
      assert t[9..18] == azDigits;
    }
    assert ParseInt(altDigits) == Some(DigitsValue(altDigits));
    assert ParseInt(azDigits) == Some(DigitsValue(azDigits));
  }

  /** In a latitude/longitude reply only eight azimuth digits are read. */
  lemma {:induction false} ParseLatLongReply(sign: char, altDigits: string, azDigits: string, rest: string)
    requires |altDigits| == 8 && AllDigits(altDigits)
    requires |azDigits| == 8 && AllDigits(azDigits)
    requires |rest| <= 2
    ensures var v: int := DigitsValue(altDigits);
            ParseAltAz([sign] + altDigits + azDigits + rest, true)
              == Success(AltAz(if sign == '+' then v else -v, WrapAzimuth(DigitsValue(azDigits))))
  {
    var t := [sign] + altDigits + azDigits + rest;
    assert TrimReply(t) == t;
    assert AltitudeField(t) == altDigits by {
      assert t[1..9] == altDigits;
    }
    assert AzimuthField(t, true) == azDigits by {
      assert t[9..17] == azDigits;
    }
    assert ParseInt(altDigits) == Some(DigitsValue(altDigits));
    assert ParseInt(azDigits) == Some(DigitsValue(azDigits));
  }

  // ---------------------------------------------------------------------
  // angular_difference
  // ---------------------------------------------------------------------

  /**
   * `angular_difference(target, current)`: `target - current` brought into
   * the half-open turn [-180, 180) degrees. Python's `%` with a positive
   * modulus never returns a negative remainder, as Dafny's `%` does not.
   */
  function AngularDifference(target: int, current: int): (d: int)
    ensures -HalfTurn <= d < HalfTurn
    ensures (target - current - d) % FullTurn == 0
  {
    var x := target - current + HalfTurn;
    var q := x / FullTurn;
    assert x == q * FullTurn + x % FullTurn;
    assert target - current - (x % FullTurn - HalfTurn) == q * FullTurn;
    x % FullTurn - HalfTurn
  }

  /** A difference already in [-180, 180) degrees is returned unchanged. */
  lemma AngularDifferenceInRange(target: int, current: int)
    requires -HalfTurn <= target - current < HalfTurn
    ensures AngularDifference(target, current) == target - current
  {
    var x := target - current + HalfTurn;
    assert 0 <= x < FullTurn;
  }

  /** Two values in [-180, 180) degrees that differ by whole turns are equal. */
  lemma SameTurnClass(a: int, b: int)
    requires -HalfTurn <= a < HalfTurn && -HalfTurn <= b < HalfTurn
    requires (a - b) % FullTurn == 0
    ensures a == b
  {
    var q := (a - b) / FullTurn;
    assert a - b == q * FullTurn;
  }

  /**
   * The result is the only value in [-180, 180) degrees that differs from
   * `target - current` by whole turns.
   */
  lemma AngularDifferenceUnique(target: int, current: int, d: int)
    requires -HalfTurn <= d < HalfTurn
    requires (target - current - d) % FullTurn == 0
    ensures AngularDifference(target, current) == d
  {
    var r := AngularDifference(target, current);
    var p := (target - current - d) / FullTurn;
    var q := (target - current - r) / FullTurn;
    assert target - current - d == p * FullTurn;
    assert target - current - r == q * FullTurn;
    assert r - d == (p - q) * FullTurn;
    SameTurnClass(r, d);
  }

  /** Going from 10 to 350 degrees is a turn of -20 degrees. */
  lemma AngularDifferenceExample()
    ensures AngularDifference(350 * UnitsPerDegree, 10 * UnitsPerDegree) == -20 * UnitsPerDegree
  {
    AngularDifferenceUnique(350 * UnitsPerDegree, 10 * UnitsPerDegree, -20 * UnitsPerDegree);
  }

  // ---------------------------------------------------------------------
  // offset_utc_time
  // ---------------------------------------------------------------------

  const SecondsPerDay: int := 86400
  const MinutesPerDay: int := 1440

  /** `abs(int(offset))`: `int` truncates toward zero. */
  function WholeMinutes(offset: real): (m: nat)
    ensures offset >= 0.0 ==> m as real <= offset < m as real + 1.0
    ensures offset < 0.0 ==> m as real <= -offset < m as real + 1.0
  {
    if offset >= 0.0 then offset.Floor else (-offset).Floor
  }

  /** `timedelta(minutes=m).seconds` for `m >= 0`: the seconds within the last day. */
  function OffsetSeconds(offset: real): (s: nat)
    ensures s < SecondsPerDay
  {
    (60 * WholeMinutes(offset)) % SecondsPerDay
  }

  /**
   * `offset_utc_time(unix, offset)`: an offset below 1 subtracts the
   * day-wrapped shift and any other offset adds it. The source's third
   * branch, for an offset of exactly 0, is never reached, because an offset
   * of 0 is below 1.
   */
  function OffsetUtcTime(unix: real, offset: real): (t: real)
    ensures -(SecondsPerDay as real) < t - unix < SecondsPerDay as real
  {
    if offset < 1.0 then unix - OffsetSeconds(offset) as real
    else unix + OffsetSeconds(offset) as real
  }

  /** A zero offset, or any offset in [0, 1), leaves the time unchanged. */
  lemma OffsetBelowOneMinute(unix: real, offset: real)
    requires 0.0 <= offset < 1.0
    ensures OffsetUtcTime(unix, offset) == unix
  {
    assert WholeMinutes(offset) == 0;
  }

  /** A whole number of minutes under a day shifts the time by that many minutes, in either direction. */
  lemma OffsetWholeMinutes(unix: real, m: int)
    requires -MinutesPerDay < m < MinutesPerDay
    ensures OffsetUtcTime(unix, m as real) == unix + (60 * m) as real
  {
    assert WholeMinutes(m as real) == Abs(m);
    assert 60 * Abs(m) < SecondsPerDay;
  }

  /**
   * Any whole number of minutes: a positive offset adds `60 * m` seconds
   * taken modulo a day, and any other offset subtracts `60 * |m|` seconds
   * taken modulo a day.
   */
  lemma OffsetWholeMinutesWrapped(unix: real, m: int)
    ensures m >= 1 ==> OffsetUtcTime(unix, m as real) == unix + ((60 * m) % SecondsPerDay) as real
    ensures m < 1 ==> OffsetUtcTime(unix, m as real) == unix - ((60 * Abs(m)) % SecondsPerDay) as real
  {
    assert WholeMinutes(m as real) == Abs(m);
  }

  /** Shifting by `m` minutes and then by `-m` minutes gives back the original time. */
  lemma OffsetRoundTrip(unix: real, m: int)
    requires -MinutesPerDay < m < MinutesPerDay
    ensures OffsetUtcTime(OffsetUtcTime(unix, m as real), (-m) as real) == unix
  {
    OffsetWholeMinutes(unix, m);
    OffsetWholeMinutes(unix + (60 * m) as real, -m);
  }

  /** Whole days of offset are dropped: only the shift within a day applies. */
  lemma OffsetDayWrap(unix: real, m: int)
    requires m >= 1
    ensures OffsetUtcTime(unix, (m + MinutesPerDay) as real) == OffsetUtcTime(unix, m as real)
  {
    assert WholeMinutes((m + MinutesPerDay) as real) == m + MinutesPerDay;
    assert WholeMinutes(m as real) == m;
    assert 60 * (m + MinutesPerDay) == 60 * m + SecondsPerDay;
    DayPeriod(60 * m);
  }

  /** Adding one day of seconds does not change the seconds within the day. */
  lemma DayPeriod(x: nat)
    ensures (x + SecondsPerDay) % SecondsPerDay == x % SecondsPerDay
  {
    var q := x / SecondsPerDay;
    var r := x % SecondsPerDay;
    assert x + SecondsPerDay == (q + 1) * SecondsPerDay + r;
  }
}
