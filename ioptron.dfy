/**
 * The iOptron mount driver: the command strings it builds, the replies it
 * interprets, the cached system status and the request/response sequences
 * its methods run on the serial link.
 *
 * Angles are integer counts of 0.01 arc-second (see `SkyhunterUtils`); the
 * driver's `int(abs(x) * 360000)` conversion from float degrees is not
 * modelled, its inputs are already counts.
 */
module Ioptron {
  import opened Wrappers
  import opened PyText
  import opened SkyhunterUtils
  import opened UsbSerial

  // ---------------------------------------------------------------------
  // Command framing
  // ---------------------------------------------------------------------

  /** Every command is `:` + mnemonic + parameters + `#`. */
  function Framed(mnemonic: string, arg: string): (c: string)
    ensures |c| == |mnemonic| + |arg| + 2
    ensures c[0] == ':' && c[|c| - 1] == '#'
    ensures MnemonicOf(c, |mnemonic|) == mnemonic && ArgumentOf(c, |mnemonic|) == arg
  {
    var c := ":" + mnemonic + arg + "#";
    assert c[1..1 + |mnemonic|] == mnemonic;
    assert c[1 + |mnemonic|..|c| - 1] == arg;
    c
  }

  /** The `k` characters after the leading `:`. */
  function MnemonicOf(c: string, k: nat): string
  {
    Slice(c, 1, 1 + k)
  }

  /** What follows a `k`-character mnemonic, without the final `#`. */
  function ArgumentOf(c: string, k: nat): string
  {
    Slice(c, 1 + k, if |c| >= 1 then |c| - 1 else 0)
  }

  // ---------------------------------------------------------------------
  // Encoders
  // ---------------------------------------------------------------------

  /** A sign (`'+'` for zero and above) followed by the magnitude zero-padded to `w` digits. */
  function SignedField(n: int, w: nat): (s: string)
    ensures |s| >= 2 && s[0] == (if n >= 0 then '+' else '-')
    ensures AllDigits(s[1..]) && DigitsValue(s[1..]) == Abs(n)
    ensures ParseInt(s) == Some(n)
    ensures w >= 1 && Abs(n) < Pow10(w) ==> |s| == w + 1
  {
    var d := ZeroPad(Abs(n), w);
    var sign := if n >= 0 then '+' else '-';
    var s := [sign] + d;
    assert s[1..] == d;
    assert DigitsValue(d) == Abs(n);
    ParseSigned(sign, d);
    s
  }

  /** `:Sa` with the signed altitude, eight digits: `set_alt`. */
  function AltCommand(alt: int): (c: string)
    ensures MnemonicOf(c, 2) == "Sa"
    ensures |ArgumentOf(c, 2)| >= 2 && ArgumentOf(c, 2)[0] == (if alt >= 0 then '+' else '-')
    ensures ParseInt(ArgumentOf(c, 2)) == Some(alt)
    ensures Abs(alt) < 100_000_000 ==> |c| == 13
  {
    Pow10Values();
    Framed("Sa", SignedField(alt, 8))
  }

  /** Nine azimuth digits: the magnitude only, so the sign of a negative azimuth is dropped. */
  function AzField(az: int): (s: string)
    ensures AllDigits(s) && DigitsValue(s) == Abs(az)
    ensures Abs(az) < 1_000_000_000 ==> |s| == 9
  {
    Pow10Values();
    ZeroPad(Abs(az), 9)
  }

  /** `:Sz` with nine unsigned digits: `set_az`. */
  function AzCommand(az: int): (c: string)
    ensures MnemonicOf(c, 2) == "Sz"
    ensures AllDigits(ArgumentOf(c, 2)) && DigitsValue(ArgumentOf(c, 2)) == Abs(az)
    ensures Abs(az) < 1_000_000_000 ==> |c| == 13
  {
    Framed("Sz", AzField(az))
  }

  /** `:SRA` with nine unsigned digits: `set_ra`. */
  function RaCommand(ra: int): (c: string)
    ensures MnemonicOf(c, 3) == "SRA"
    ensures AllDigits(ArgumentOf(c, 3)) && DigitsValue(ArgumentOf(c, 3)) == Abs(ra)
    ensures Abs(ra) < 1_000_000_000 ==> |c| == 14
  {
    Framed("SRA", AzField(ra))
  }

  /** `:Sd` with `'{:08d}'` of the declination, whose `-` counts in the width: `set_dec`. */
  function DecCommand(dec: int): (c: string)
    ensures MnemonicOf(c, 2) == "Sd"
    ensures ParseInt(ArgumentOf(c, 2)) == Some(dec)
    ensures 0 <= dec < 100_000_000 || -10_000_000 < dec < 0 ==> |c| == 12
  {
    Pow10Values();
    assert Pow10(7) == 10_000_000;
    Framed("Sd", FormatInt(dec, 8))
  }

  /** `:SAL` with `'{:02d}'` of the limit in degrees: `set_alt_limit`. */
  function AltLimitCommand(limit: int): (c: string)
    ensures MnemonicOf(c, 3) == "SAL"
    ensures ParseInt(ArgumentOf(c, 3)) == Some(limit)
    ensures 0 <= limit < 100 || -10 < limit < 0 ==> |c| == 7
  {
    Pow10Values();
    Framed("SAL", FormatInt(limit, 2))
  }

  /** The limit of -89 degrees set at start-up is sent with three characters, its `-` included. */
  lemma AltLimitStartup()
    ensures AltLimitCommand(-89) == ":SAL-89#"
  {
    assert Digits(89) == "89" by {
      assert Digits(8) == "8";
    }
    assert ZeroPad(89, 1) == "89";
  }

  /** `:SR` with `str(speed)`, for a speed the driver accepts: `set_arrow_speed`. */
  function ArrowSpeedCommand(speed: int): (c: string)
    requires 0 <= speed <= 9
    ensures MnemonicOf(c, 2) == "SR" && |c| == 5
    ensures ArgumentOf(c, 2) == [DigitChar(speed)]
  {
    assert StrInt(speed) == [DigitChar(speed)];
    Framed("SR", StrInt(speed))
  }

  /**
   * `:SG` with the time-zone offset in minutes: `str(offset).zfill(3)`,
   * preceded by `+` unless the offset is negative. A negative offset's `-`
   * counts in the width of 3, so it gets one digit fewer than a positive one.
   */
  function TimezoneCommand(offset: int): (c: string)
    ensures MnemonicOf(c, 2) == "SG"
    ensures ParseInt(ArgumentOf(c, 2)) == Some(offset)
    ensures 0 <= offset < 1000 ==> |c| == 8 && ArgumentOf(c, 2) == "+" + ZeroPad(offset, 3)
    ensures -100 < offset < 0 ==> |c| == 7 && ArgumentOf(c, 2) == "-" + ZeroPad(-offset, 2)
  {
    var tz := ZFill(StrInt(offset), 3);
    ZFillOfStrInt(offset, 3);
    Pow10Values();
    if offset < 0 then
      Framed("SG", tz)
    else
      ParseSigned('+', tz);
      Framed("SG", "+" + tz)
  }

  /** `:SPA+` with `'{:08d}'` of the azimuth, the first command of `set_park_position`. */
  function ParkAzCommand(az: int): (c: string)
    ensures MnemonicOf(c, 4) == "SPA+"
    ensures ParseInt(ArgumentOf(c, 4)) == Some(az)
    ensures az >= 0 ==> AllDigits(ArgumentOf(c, 4))
    ensures 0 <= az < 100_000_000 || -10_000_000 < az < 0 ==> |c| == 14
  {
    Pow10Values();
    assert Pow10(7) == 10_000_000;
    Framed("SPA+", FormatInt(az, 8))
  }

  /** `:SPH+` with `'{:08d}'` of the altitude, the second command of `set_park_position`. */
  function ParkAltCommand(alt: int): (c: string)
    ensures MnemonicOf(c, 4) == "SPH+"
    ensures ParseInt(ArgumentOf(c, 4)) == Some(alt)
    ensures alt >= 0 ==> AllDigits(ArgumentOf(c, 4))
    ensures 0 <= alt < 100_000_000 || -10_000_000 < alt < 0 ==> |c| == 14
  {
    Pow10Values();
    assert Pow10(7) == 10_000_000;
    Framed("SPH+", FormatInt(alt, 8))
  }

  /** The words `set_hemisphere` accepts, after lower-casing. */
  predicate IsHemisphereWord(w: string)
  {
    w == "north" || w == "south" || w == "n" || w == "s"
  }

  /**
   * `set_hemisphere`: the lower-cased word must name a hemisphere, but the
   * hemisphere code is chosen from the first character as given, so only a
   * lower-case `s` selects the southern hemisphere (code 0).
   */
  function HemisphereCommand(direction: string): (r: Result<string, PyError>)
    ensures r.Failure? <==> !IsHemisphereWord(Lower(direction))
    ensures r.Failure? ==> r.error == AssertionError
    ensures r.Success? ==> MnemonicOf(r.value, 3) == "SHE"
    ensures r.Success? ==> (ArgumentOf(r.value, 3) == "0" <==> Slice(direction, 0, 1) == "s")
    ensures r.Success? ==> (ArgumentOf(r.value, 3) == "1" <==> Slice(direction, 0, 1) != "s")
  {
    if !IsHemisphereWord(Lower(direction)) then Failure(AssertionError)
    else Success(Framed("SHE", if Slice(direction, 0, 1) == "s" then "0" else "1"))
  }

  /** "South" is accepted but selects the northern hemisphere. */
  lemma CapitalSouthSelectsNorth()
    ensures HemisphereCommand("South") == Success(":SHE1#")
  {
    var l := Lower("South");
    assert l == "south" by {
      assert |l| == 5 && LowerChar('S') == 's';
      assert l[0] == 's' && l[1] == 'o' && l[2] == 'u' && l[3] == 't' && l[4] == 'h';
    }
    assert IsHemisphereWord(l);
    assert Slice("South", 0, 1) == "S" && "S" != "s";
    assert Framed("SHE", "1") == ":SHE1#";
  }

  /** The arrow-key mnemonics of `slew_arrow_forever`. */
  function ArrowMnemonic(direction: string): (r: Option<string>)
    ensures r.Some? <==> direction in {"up", "right", "down", "left"}
    ensures r.Some? ==> |r.value| == 2 && r.value[0] == 'm'
  {
    if direction == "up" then Some("mn")
    else if direction == "right" then Some("me")
    else if direction == "down" then Some("ms")
    else if direction == "left" then Some("mw")
    else None
  }

  /** The move command for a direction, whatever its case; any other word fails the assertion. */
  function DirectionCommand(direction: string): (r: Result<string, PyError>)
    ensures r.Failure? <==> Lower(direction) !in {"up", "right", "down", "left"}
    ensures r.Failure? ==> r.error == AssertionError
    ensures r.Success? ==> |r.value| == 4 && MnemonicOf(r.value, 2) == ArrowMnemonic(Lower(direction)).value
  {
    match ArrowMnemonic(Lower(direction))
    case None => Failure(AssertionError)
    case Some(m) => Success(Framed(m, ""))
  }

  /** Lower-casing twice is lower-casing once. */
  lemma LowerIdempotent(s: string)
    ensures Lower(Lower(s)) == Lower(s)
  {
    var l := Lower(s);
    assert forall i :: 0 <= i < |s| ==> LowerChar(l[i]) == l[i];
  }

  /** The direction word is case-insensitive. */
  lemma DirectionCaseInsensitive(direction: string)
    ensures DirectionCommand(direction) == DirectionCommand(Lower(direction))
  {
    LowerIdempotent(direction);
  }

  /** Different directions move the mount with different commands. */
  lemma DirectionCommandsDistinct(a: string, b: string)
    requires DirectionCommand(a).Success? && DirectionCommand(b).Success?
    requires Lower(a) != Lower(b)
    ensures DirectionCommand(a).value != DirectionCommand(b).value
  {
    var ca := DirectionCommand(a).value;
    var cb := DirectionCommand(b).value;
    assert MnemonicOf(ca, 2) != MnemonicOf(cb, 2);
  }

  // ---------------------------------------------------------------------
  // Replies
  // ---------------------------------------------------------------------

  /** The mount acknowledges an accepted command with the reply `"1"`. */
  predicate Accepted(reply: string)
  {
    reply == "1"
  }

  /** The reply of a mount at `alt`, `az`: the `set_alt` field, the `set_az` field and `#`. */
  function AltAzReply(alt: int, az: int): string
  {
    SignedField(alt, 8) + AzField(az) + "#"
  }

  /** A signed nine-character field and a nine-digit field, then `#`, decode to the fields' values. */
  lemma FieldsDecode(a: string, z: string, alt: int, az: int)
    requires |a| == 9 && AllDigits(a[1..])
    requires |z| == 9 && AllDigits(z)
    requires var v: int := DigitsValue(a[1..]); (if a[0] == '+' then v else -v) == alt
    requires WrapAzimuth(DigitsValue(z)) == az
    ensures ParseAltAz(a + z + "#", false) == Success(AltAz(alt, az))
  {
    FieldsOfReply(a, z, "#");
    ParseFullReply(a + z + "#");
  }

  /** Where the two fields sit in `a + z + rest`. */
  lemma FieldsOfReply(a: string, z: string, rest: string)
    requires |a| == 9 && |z| == 9
    ensures var t := a + z + rest;
            |t| == 18 + |rest| && t[0] == a[0] && t[1..9] == a[1..] && t[9..18] == z
  {
    var t := a + z + rest;
    assert t[1..9] == a[1..] by {
      forall i | 0 <= i < 8 ensures t[1..9][i] == a[1..][i] {
        assert t[1 + i] == a[1 + i];
      }
    }
    assert t[9..18] == z by {
      forall i | 0 <= i < 9 ensures t[9..18][i] == z[i] {
        assert t[9 + i] == z[i];
      }
    }
  }

  /** The two fields alone make a full-length reply that decodes to them. */
  lemma AltAzFieldsDecode(alt: int, az: int)
    requires Abs(alt) < 100_000_000
    requires 0 <= az <= FullTurn
    ensures |AltAzReply(alt, az)| == ReplyLength
    ensures ParseAltAz(AltAzReply(alt, az), false) == Success(AltAz(alt, az))
  {
    AltFieldValue(alt);
    AzFieldValue(az);
    FieldsDecode(SignedField(alt, 8), AzField(az), alt, az);
  }

  /** The altitude field is nine characters whose sign and digits give back the altitude. */
  lemma AltFieldValue(alt: int)
    requires Abs(alt) < 100_000_000
    ensures var a := SignedField(alt, 8);
            var v: int := DigitsValue(a[1..]);
            |a| == 9 && (if a[0] == '+' then v else -v) == alt
  {
    Pow10Values();
  }

  /** The azimuth field is nine digits whose value, wrapped, is the azimuth. */
  lemma AzFieldValue(az: int)
    requires 0 <= az <= FullTurn
    ensures |AzField(az)| == 9 && WrapAzimuth(DigitsValue(AzField(az))) == az
  {
    Pow10Values();
  }

  /**
   * The `set_alt` altitude field followed by the `set_az` azimuth field
   * decodes, through `parse_alt_az`, to the same altitude and azimuth, with
   * whatever came in front of them on the line.
   */
  lemma AltAzRoundTrip(junk: string, alt: int, az: int)
    requires Abs(alt) < 100_000_000
    requires 0 <= az <= FullTurn
    ensures ParseAltAz(junk + AltAzReply(alt, az), false) == Success(AltAz(alt, az))
  {
    AltAzFieldsDecode(alt, az);
    ParseIgnoresPrefix(junk, AltAzReply(alt, az), false);
  }

  /**
   * The `:GPC#` reply carries no sign; with `+` put in front it decodes to a
   * non-negative altitude.
   */
  lemma ParkReplyDecodes(altDigits: string, azDigits: string)
    requires |altDigits| == 8 && AllDigits(altDigits)
    requires |azDigits| == 9 && AllDigits(azDigits)
    ensures ParseAltAz("+" + altDigits + azDigits + "#", false)
              == Success(AltAz(DigitsValue(altDigits), WrapAzimuth(DigitsValue(azDigits))))
  {
    ParseDigitReply('+', altDigits, azDigits, "#");
  }

  /** The status code is the 19th character of the `:GLS#` reply, or nothing when the reply is shorter. */
  function StatusCodeOf(reply: string): (code: string)
    ensures |code| <= 1
    ensures |reply| >= 19 ==> code == [reply[18]]
  {
    Slice(reply, 18, 19)
  }

  /** The description and flags `update_status` stores. */
  datatype StatusFlags = StatusFlags(description: string, slewing: bool, tracking: bool, parked: bool)

  /** `code` is the one-character string `[c]`. */
  predicate IsCode(code: string, c: char)
  {
    |code| == 1 && code[0] == c
  }

  predicate KnownStatus(code: string)
  {
    |code| == 1 && '0' <= code[0] <= '7'
  }

  /**
   * The `status_actions` table. A code outside it, including the empty
   * code of a short reply, is "Unknown status" with every flag false; a
   * flag the table leaves out is false too.
   */
  function StatusFor(code: string): (f: StatusFlags)
    ensures f.slewing <==> IsCode(code, '2') || IsCode(code, '4')
    ensures f.tracking <==> IsCode(code, '1') || IsCode(code, '3') || IsCode(code, '5')
    ensures f.parked <==> IsCode(code, '6')
    ensures f.description == "Unknown status" <==> !KnownStatus(code)
  {
    if |code| != 1 then StatusFlags("Unknown status", false, false, false)
    else
      match code[0]
      case '0' => StatusFlags("stopped at non-zero position", false, false, false)
      case '1' => StatusFlags("tracking with periodic error correction disabled", false, true, false)
      case '2' => StatusFlags("slewing", true, false, false)
      case '3' => StatusFlags("auto-guiding", false, true, false)
      case '4' => StatusFlags("meridian flipping", true, false, false)
      case '5' => StatusFlags("tracking with periodic error correction enabled", false, true, false)
      case '6' => StatusFlags("parked", false, false, true)
      case '7' => StatusFlags("stopped at zero position (home position)", false, false, false)
      case _ => StatusFlags("Unknown status", false, false, false)
  }

  /** At most one of slewing, tracking and parked is reported. */
  lemma StatusFlagsExclusive(code: string)
    ensures var f := StatusFor(code);
            !(f.slewing && f.tracking) && !(f.slewing && f.parked) && !(f.tracking && f.parked)
  {
  }

  /** The fields of the `:GUT#` reply that `get_time_information` stores. */
  datatype TimeReading = TimeReading(utcOffset: real, dst: bool, millis: Option<int>)

  /**
   * Characters 0..3 are the UTC offset in minutes, stored in hours; character
   * 4 is the daylight-saving flag, which adds an hour; characters 5..17 are
   * the milliseconds since J2000. `None` when the offset is not an integer
   * (nothing is stored); `millis` is `None` when only the milliseconds are
   * not (the offset and flag are already stored when that `ValueError` is
   * raised).
   */
  function ReadTime(reply: string): (r: Option<TimeReading>)
    ensures r.None? <==> ParseInt(Slice(reply, 0, 4)).None?
    ensures r.Some? ==> r.value.dst == (Slice(reply, 4, 5) == "1")
    ensures r.Some? ==> r.value.utcOffset == ParseInt(Slice(reply, 0, 4)).value as real / 60.0 + (if r.value.dst then 1.0 else 0.0)
    ensures r.Some? ==> r.value.millis == ParseInt(Slice(reply, 5, 18))
  {
    match ParseInt(Slice(reply, 0, 4))
    case None => None
    case Some(minutes) =>
      var dst := Slice(reply, 4, 5) == "1";
      Some(TimeReading(minutes as real / 60.0 + (if dst then 1.0 else 0.0), dst, ParseInt(Slice(reply, 5, 18))))
  }

  /** The reply the mount sends to `:GUT#`: signed minutes, the flag, 13 digits of milliseconds. */
  function TimeReply(minutes: int, dst: bool, millis: nat): string
  {
    SignedField(minutes, 3) + (if dst then "1" else "0") + ZeroPad(millis, 13) + "#"
  }

  /** Every field of a well-formed `:GUT#` reply is read back as sent. */
  lemma ReadTimeRoundTrip(minutes: int, dst: bool, millis: nat)
    requires Abs(minutes) < 1000 && millis < 10_000_000_000_000
    ensures ReadTime(TimeReply(minutes, dst, millis))
              == Some(TimeReading(minutes as real / 60.0 + (if dst then 1.0 else 0.0), dst, Some(millis)))
  {
    Pow10Values();
    var a := SignedField(minutes, 3);
    var f := if dst then "1" else "0";
    var m := ZeroPad(millis, 13);
    var r := a + f + m + "#";
    assert |a| == 4 && |m| == 13;
    assert Slice(r, 0, 4) == a by {
      assert r[0..4] == a;
    }
    assert Slice(r, 4, 5) == f by {
      assert r[4..5] == f;
    }
    assert Slice(r, 5, 18) == m by {
      assert r[5..18] == m;
    }
  }

  /** The `:GUT#` exchange: a first reply starting with `1` is dropped and the command sent once more. */
  function TimeExchange(l: Line): (r: (Line, string))
    ensures var first := Transmit(l, ":GUT#").waiting;
            var retried := first != [] && first[0] == '1';
            && r.0.waiting == ""
            && r.0.sent == l.sent + (if retried then [":GUT#", ":GUT#"] else [":GUT#"])
            && (!retried ==> r.1 == first)
            && (retried ==> r.1 == Transmit(Drain(Transmit(l, ":GUT#")), ":GUT#").waiting)
  {
    var first := Transmit(l, ":GUT#");
    if first.waiting != [] && first.waiting[0] == '1' then
      var second := Transmit(Drain(first), ":GUT#");
      (Drain(second), second.waiting)
    else
      (Drain(first), first.waiting)
  }

  /** On a quiet line, a first reply starting with `1` is replaced by the second one. */
  lemma TimeExchangeRetries(l: Line)
    requires l.waiting == "" && |l.script| >= 2
    requires l.script[0] != [] && l.script[0][0] == '1'
    ensures TimeExchange(l).1 == l.script[1]
    ensures TimeExchange(l).0.sent == l.sent + [":GUT#", ":GUT#"]
  {
    var first := Transmit(l, ":GUT#");
    assert first.waiting == l.script[0];
    assert Drain(first).script[0] == l.script[1];
  }

  /**
   * Unparking reads no reply, so when a parked mount is slewed, the
   * acknowledgements of `:MP0#` and `:MSS#` are read together: two accepted
   * commands read `"11"`, which is not an acceptance.
   */
  lemma ParkedSlewReadsBothReplies(l: Line)
    requires l.waiting == "" && |l.script| >= 2
    requires l.script[0] == "1" && l.script[1] == "1"
    ensures Transmit(Transmit(l, ":MP0#"), ":MSS#").waiting == "11"
    ensures !Accepted(Transmit(Transmit(l, ":MP0#"), ":MSS#").waiting)
  {
    UnreadReplyIsPrepended(l, ":MP0#", ":MSS#");
  }

  // ---------------------------------------------------------------------
  // State
  // ---------------------------------------------------------------------

  /** The `SystemStatus` record: the last status code and what it means. */
  class SystemStatus {
    var code: string
    var description: string
    var isSlewing: bool
    var isTracking: bool
    var isParked: bool

    function Flags(): StatusFlags
      reads this
    {
      StatusFlags(description, isSlewing, isTracking, isParked)
    }

    constructor ()
      ensures code == "" && Flags() == StatusFlags("", false, false, false)
    {
      code := "";
      description := "";
      isSlewing := false;
      isTracking := false;
      isParked := false;
    }

    /** `update_status(code)`: all five fields are overwritten from the code alone. */
    method UpdateStatus(statusCode: string)
      modifies this
      ensures code == statusCode && Flags() == StatusFor(statusCode)
    {
      var f := StatusFor(statusCode);
      code := statusCode;
      description := f.description;
      isSlewing := f.slewing;
      isTracking := f.tracking;
      isParked := f.parked;
    }
  }

  /** The `TimeInfo` record; `millis` stands for the Julian date derived from it. */
  class TimeInfo {
    var utcOffset: Option<real>
    var dst: Option<bool>
    var millis: Option<int>

    constructor ()
      ensures utcOffset == None && dst == None && millis == None
    {
      utcOffset := None;
      dst := None;
      millis := None;
    }
  }

  /** The line after unparking when the cached flag says the mount is parked. */
  function UnparkedIfParked(l: Line, parked: bool): (n: Line)
    ensures !parked ==> n == l
    ensures parked ==> n.sent == l.sent + [":MP0#"] && l.waiting <= n.waiting
    ensures parked && l.script != [] ==> n.waiting == l.waiting + l.script[0] && n.script == l.script[1..]
  {
    if parked then Transmit(l, ":MP0#") else l
  }

  class IoptronMount {
    const scope: SerialLink
    const status: SystemStatus
    const time: TimeInfo
    /** `self.altitude`, `self.azimuth`: the last park position read. */
    var parkPosition: Option<AltAz>
    /** `self.altitude_deg`, `self.azimuth_deg`: the last position read. */
    var position: Option<AltAz>

    /** Wires the mount to an open link; the start-up exchange is not modelled. */
    constructor (link: SerialLink)
      ensures scope == link && fresh(status) && fresh(time)
      ensures status.code == "" && status.Flags() == StatusFlags("", false, false, false)
      ensures parkPosition == None && position == None
    {
      scope := link;
      status := new SystemStatus();
      time := new TimeInfo();
      parkPosition := None;
      position := None;
    }

    /** `get_park_position`: `:GPC#`, decoded with a `+` in front. */
    method GetParkPosition() returns (err: Option<PyError>)
      modifies scope, this
      ensures var l := Transmit(old(scope.State()), ":GPC#");
              && scope.State() == Drain(l)
              && match ParseAltAz("+" + l.waiting, false)
                 case Success(p) => err == None && parkPosition == Some(p)
                 case Failure(e) => err == Some(e) && parkPosition == old(parkPosition)
      ensures position == old(position)
    {
      scope.Send(":GPC#");
      var reply := scope.Recv();
      match ParseAltAz("+" + reply, false)
      case Success(p) =>
        parkPosition := Some(p);
        err := None;
      case Failure(e) =>
        err := Some(e);
    }

    /** `set_ra`: sends the command; `send` returns nothing and no reply is read. */
    method SetRa(ra: int)
      modifies scope
      ensures scope.State() == Transmit(old(scope.State()), RaCommand(ra))
    {
      scope.Send(RaCommand(ra));
    }

    /** `set_dec`: sends the command and reads no reply. */
    method SetDec(dec: int)
      modifies scope
      ensures scope.State() == Transmit(old(scope.State()), DecCommand(dec))
    {
      scope.Send(DecCommand(dec));
    }

    /** `set_alt`: sends the command; true exactly when the reply is `"1"`. */
    method SetAlt(alt: int) returns (accepted: bool)
      modifies scope
      ensures var l := Transmit(old(scope.State()), AltCommand(alt));
              scope.State() == Drain(l) && accepted == Accepted(l.waiting)
    {
      scope.Send(AltCommand(alt));
      var reply := scope.Recv();
      accepted := Accepted(reply);
    }

    /** `set_az`: sends the command and reads no reply. */
    method SetAz(az: int)
      modifies scope
      ensures scope.State() == Transmit(old(scope.State()), AzCommand(az))
    {
      scope.Send(AzCommand(az));
    }

    /** `unpark`: sends `:MP0#` but reads nothing, so the cached flag is always cleared and the result is false. */
    method Unpark() returns (ok: bool)
      modifies scope, status
      ensures scope.State() == Transmit(old(scope.State()), ":MP0#")
      ensures !ok
      ensures status.code == old(status.code) && status.Flags() == old(status.Flags()).(parked := false)
    {
      scope.Send(":MP0#");
      status.isParked := false;
      ok := false;
    }

    /** `park`: the cached flag becomes whether the mount accepted `:MP1#`. */
    method Park() returns (parked: bool)
      modifies scope, status
      ensures var l := Transmit(old(scope.State()), ":MP1#");
              scope.State() == Drain(l) && parked == Accepted(l.waiting)
      ensures status.code == old(status.code) && status.Flags() == old(status.Flags()).(parked := parked)
    {
      scope.Send(":MP1#");
      var reply := scope.Recv();
      status.isParked := Accepted(reply);
      parked := status.isParked;
    }

    /** `slew_to_defined_position`: unparks first when the cached flag is set, then `:MSS#`. */
    method SlewToDefinedPosition() returns (ok: bool)
      modifies scope, status
      ensures var l := Transmit(UnparkedIfParked(old(scope.State()), old(status.isParked)), ":MSS#");
              scope.State() == Drain(l) && ok == Accepted(l.waiting)
      ensures status.code == old(status.code) && status.Flags() == old(status.Flags()).(parked := false)
    {
      if status.isParked {
        var _ := Unpark();
      }
      scope.Send(":MSS#");
      var reply := scope.Recv();
      ok := Accepted(reply);
    }

    /** `slew_to_alt_az`: `set_alt`, `set_az`, then `slew_to_defined_position`. */
    method SlewToAltAz(alt: int, az: int)
      modifies scope, status
      ensures var l := Transmit(Drain(Transmit(old(scope.State()), AltCommand(alt))), AzCommand(az));
              scope.State() == Drain(Transmit(UnparkedIfParked(l, old(status.isParked)), ":MSS#"))
      ensures status.code == old(status.code) && status.Flags() == old(status.Flags()).(parked := false)
    {
      var _ := SetAlt(alt);
      SetAz(az);
      var _ := SlewToDefinedPosition();
    }

    /**
     * `slew_arrow_forever`: unparks first when the cached flag is set, even
     * when the direction then fails its assertion; otherwise sends the move
     * command and succeeds exactly when the reply is `"1"`.
     */
    method SlewArrowForever(direction: string) returns (r: Result<bool, PyError>)
      modifies scope, status
      ensures var l0 := UnparkedIfParked(old(scope.State()), old(status.isParked));
              match DirectionCommand(direction)
              case Failure(e) => r == Failure(e) && scope.State() == l0
              case Success(c) =>
                var l := Transmit(l0, c);
                r == Success(Accepted(l.waiting)) && scope.State() == Drain(l)
      ensures status.code == old(status.code) && status.Flags() == old(status.Flags()).(parked := false)
    {
      if status.isParked {
        var _ := Unpark();
      }
      match DirectionCommand(direction)
      case Failure(e) =>
        r := Failure(e);
      case Success(c) =>
        scope.Send(c);
        var reply := scope.Recv();
        r := Success(Accepted(reply));
    }

    /**
     * `set_arrow_speed`: a speed outside 0..9 fails its assertion before
     * anything is sent. The source returns `True` on reply `"1"` and `None`
     * otherwise; `Success(false)` stands for `None`.
     */
    method SetArrowSpeed(speed: int) returns (r: Result<bool, PyError>)
      modifies scope
      ensures !(0 <= speed <= 9) ==> r == Failure(AssertionError) && scope.State() == old(scope.State())
      ensures 0 <= speed <= 9 ==>
                var l := Transmit(old(scope.State()), ArrowSpeedCommand(speed));
                scope.State() == Drain(l) && r == Success(Accepted(l.waiting))
    {
      if !(0 <= speed <= 9) {
        return Failure(AssertionError);
      }
      scope.Send(ArrowSpeedCommand(speed));
      var reply := scope.Recv();
      r := Success(Accepted(reply));
    }

    /** `set_alt_limit`: true exactly when the reply is `"1"`. */
    method SetAltLimit(limit: int) returns (accepted: bool)
      modifies scope
      ensures var l := Transmit(old(scope.State()), AltLimitCommand(limit));
              scope.State() == Drain(l) && accepted == Accepted(l.waiting)
    {
      scope.Send(AltLimitCommand(limit));
      var reply := scope.Recv();
      accepted := Accepted(reply);
    }

    /** `set_hemisphere`: the reply is read and ignored; the result is always true. */
    method SetHemisphere(direction: string) returns (r: Result<bool, PyError>)
      modifies scope
      ensures match HemisphereCommand(direction)
              case Failure(e) => r == Failure(e) && scope.State() == old(scope.State())
              case Success(c) => r == Success(true) && scope.State() == Drain(Transmit(old(scope.State()), c))
    {
      match HemisphereCommand(direction)
      case Failure(e) =>
        r := Failure(e);
      case Success(c) =>
        scope.Send(c);
        var _ := scope.Recv();
        r := Success(true);
    }

    /** `set_timezone_offset(offset)`: the reply is read and ignored. */
    method SetTimezoneOffset(offset: int)
      modifies scope
      ensures scope.State() == Drain(Transmit(old(scope.State()), TimezoneCommand(offset)))
    {
      scope.Send(TimezoneCommand(offset));
      var _ := scope.Recv();
    }

    /** `set_park_position(alt, az)`: the azimuth, then the altitude; only the second reply decides. */
    method SetParkPosition(alt: int, az: int) returns (accepted: bool)
      modifies scope
      ensures var l := Transmit(Drain(Transmit(old(scope.State()), ParkAzCommand(az))), ParkAltCommand(alt));
              scope.State() == Drain(l) && accepted == Accepted(l.waiting)
    {
      scope.Send(ParkAzCommand(az));
      var _ := scope.Recv();
      scope.Send(ParkAltCommand(alt));
      var reply := scope.Recv();
      accepted := Accepted(reply);
    }

    /** `check_connection`: connected when the `:GLS#` reply is not empty. */
    method CheckConnection() returns (connected: bool)
      modifies scope
      ensures var l := Transmit(old(scope.State()), ":GLS#");
              scope.State() == Drain(l) && connected == (|l.waiting| > 0)
    {
      scope.Send(":GLS#");
      var reply := scope.Recv();
      connected := |reply| > 0;
    }

    /** `get_system_state`: the status is overwritten from the 19th character of the `:GLS#` reply. */
    method GetSystemState()
      modifies scope, status
      ensures var l := Transmit(old(scope.State()), ":GLS#");
              && scope.State() == Drain(l)
              && status.code == StatusCodeOf(l.waiting)
              && status.Flags() == StatusFor(StatusCodeOf(l.waiting))
    {
      scope.Send(":GLS#");
      var reply := scope.Recv();
      status.UpdateStatus(StatusCodeOf(reply));
    }

    /** `get_current_alt_az`: `:GAC#`, decoded as it comes. */
    method GetCurrentAltAz() returns (err: Option<PyError>)
      modifies scope, this
      ensures var l := Transmit(old(scope.State()), ":GAC#");
              && scope.State() == Drain(l)
              && match ParseAltAz(l.waiting, false)
                 case Success(p) => err == None && position == Some(p)
                 case Failure(e) => err == Some(e) && position == old(position)
      ensures parkPosition == old(parkPosition)
    {
      scope.Send(":GAC#");
      var reply := scope.Recv();
      match ParseAltAz(reply, false)
      case Success(p) =>
        position := Some(p);
        err := None;
      case Failure(e) =>
        err := Some(e);
    }

    /**
     * `get_time_information`, up to the fields it parses: an empty first
     * reply fails with `IndexError`; a bad offset field stores nothing; a bad
     * milliseconds field fails after the offset and flag are stored.
     */
    method GetTimeInformation() returns (err: Option<PyError>)
      modifies scope, time
      ensures var l := Transmit(old(scope.State()), ":GUT#");
              l.waiting == [] ==>
                && scope.State() == Drain(l) && err == Some(IndexError)
                && time.utcOffset == old(time.utcOffset) && time.dst == old(time.dst)
                && time.millis == old(time.millis)
      ensures var l := Transmit(old(scope.State()), ":GUT#");
              var (line, reply) := TimeExchange(old(scope.State()));
              l.waiting != [] ==>
                && scope.State() == line
                && match ReadTime(reply)
                   case None =>
                     && err == Some(ValueError)
                     && time.utcOffset == old(time.utcOffset) && time.dst == old(time.dst)
                     && time.millis == old(time.millis)
                   case Some(t) =>
                     && time.utcOffset == Some(t.utcOffset) && time.dst == Some(t.dst)
                     && (t.millis.None? ==> err == Some(ValueError) && time.millis == old(time.millis))
                     && (t.millis.Some? ==> err == None && time.millis == t.millis)
    {
      scope.Send(":GUT#");
      var reply := scope.Recv();
      if reply == [] {
        return Some(IndexError);
      }
      if reply[0] == '1' {
        scope.Send(":GUT#");
        reply := scope.Recv();
      }
      match ReadTime(reply)
      case None =>
        err := Some(ValueError);
      case Some(t) =>
        time.utcOffset := Some(t.utcOffset);
        time.dst := Some(t.dst);
        if t.millis.None? {
          err := Some(ValueError);
        } else {
          time.millis := t.millis;
          err := None;
        }
    }
  }
}
