# Skyhunter mount and photodiode electrometer drivers, modelled in Dafny

This project models three parts of the sky-brightness instrument's Python drivers:

- **Reply decoding and angle arithmetic for the iOptron mount** (`skyhunter/utils.py`).
  - `parse_alt_az` reads a fixed-width reply: a sign, eight altitude digits and nine azimuth digits, in units of 0.01 arc-second.
  - `angular_difference` brings a difference of angles into [-180, 180) degrees.
  - `offset_utc_time` shifts a time by a time-zone offset.
- **The mount's command protocol** (`skyhunter/ioptron.py`).
  - Commands have the form `:<mnemonic><parameters>#`.
  - Several commands are accepted when the mount replies `"1"`.
  - The mount reports a one-character status code, which the driver turns into slewing, tracking and parked flags.
  - The driver caches the parked flag and reads it before it slews.
  - The `:GUT#` time reply is read, with one retry.
  - All of this runs over a serial link (`skyhunter/usb_serial.py`). The link is a log of the commands sent, a script of the replies the device will give, and the characters that have arrived and not yet been read. `send` returns nothing. `recv` drains everything waiting, so a reply that was never read comes out in front of the next one.
- **The Keysight electrometer's parameter tracker** (`photodiode/keysight_usb.py`).
  - The driver keeps a dictionary of six parameters.
  - Each `set_*` method validates its argument, updates its own entry and writes a fixed sequence of messages that use the current mode as a prefix.
  - `sync_tracked_properties` replays the defaults in order.
  - The model also covers the predicted acquisition time and the clean-up of query replies.
  - The VISA link is a log of the messages written.

Units and representation:

- Angles are exact integer counts of 0.01 arc-second: 360000 per degree and 129,600,000 per turn.
- Times and electrometer values are `real`s.
- A Python exception is a `PyError` value, returned in a `Result`, an `Option` or an `Outcome`.
- The Python built-ins the drivers rely on are modelled in `PyText`: `int()`, `float()`, `str()` of an integer, `'{:0Nd}'`, `zfill`, clamped slicing, `strip` and `lower`.

Modules: `Wrappers` (Option, Result), `PyText`, `SkyhunterUtils`, `UsbSerial`, `Ioptron` and `KeysightUsb`. Each driver class is a Dafny `class` whose methods change its fields. Each method is specified by a function of the old state, and the properties are proved as lemmas about those functions.

Behaviours of the code as written that the proofs make explicit:

- `unpark` takes its "response" from `send`, which returns nothing.
  - So it never reads a reply, the parked flag always ends up false and the result is false (`Ioptron.IoptronMount.Unpark`).
  - Its acknowledgement is left waiting on the line. When a parked mount is slewed, the `:MSS#` reply is therefore read as `"11"`, which is not an acceptance (`Ioptron.ParkedSlewReadsBothReplies`).
- `set_hemisphere` checks the lower-cased word but picks the hemisphere from the first character as given. `"South"` therefore selects the northern hemisphere (`Ioptron.CapitalSouthSelectsNorth`).
- `set_timezone_offset` counts a negative offset's `-` in the `zfill(3)` width. A negative offset therefore gets one digit fewer than a positive one (`Ioptron.TimezoneCommand`).
- The startup altitude limit of -89 degrees is sent as `:SAL-89#`, with three characters in a two-digit field (`Ioptron.AltLimitStartup`).
- `offset_utc_time` can never reach its branch for an offset of 0. Whole days of offset are dropped (`SkyhunterUtils.OffsetUtcTime`, `SkyhunterUtils.OffsetDayWrap`).
- `sync_tracked_properties` writes the same eight messages from any starting state. It leaves each tracked entry at its default and every other entry as it was (`KeysightUsb.SyncRestoresDefaults`).

Where the code differs from how the drivers are described, the model follows the code:

- `unpark` is described as updating the parked flag from a `"1"` reply. The code reads no reply, so the flag is always cleared.
- The protocol is described as having no automatic retries, but `get_time_information` sends `:GUT#` a second time when the first reply starts with `1`.
- The errors are described in terms of their own kinds, but the code raises Python's `IndexError`, `ValueError`, `TypeError`, `ZeroDivisionError` and `AssertionError`, and these are what the model returns.

## Model

| member | source | states |
|---|---|---|
| `PyText.ZeroPad` | skyhunter/ioptron.py:81 | `'{:0Nd}'` of a natural number: all digits, denoting the number, exactly N long when the number fits, and never truncated |
| `PyText.FormatInt` | skyhunter/ioptron.py:195 | `'{:0Nd}'` of any integer parses back to it, starts with `-` exactly for negatives, is all digits otherwise, and has width N when the digits fit (the `-` counting in the width) |
| `PyText.StrInt` | skyhunter/ioptron.py:188 | `str(n)` parses back to `n` with `int()`; non-negative numbers give only digits |
| `PyText.ParseSigned` | skyhunter/utils.py:39 | `int()` of a sign character followed by digits is the digits' value, negated for `-` |
| `PyText.ParseInt` | skyhunter/utils.py:39-40 | `int()` of a digit string is the digits' value; the empty string fails; a result is negative only after a leading `-`, and a leading `-` never gives a positive result |
| `PyText.ZFill` | skyhunter/ioptron.py:290 | `zfill(w)` leaves a string of at least `w` characters unchanged, pads a shorter one to exactly `w`, and keeps the `int()` value of an integer literal, sign included |
| `PyText.ZFillOfStrInt` | skyhunter/ioptron.py:290 | `str(n).zfill(w)` is the same string as `'{:0wd}'.format(n)` for every integer |
| `PyText.Slice` | skyhunter/utils.py:32-36 | Python slicing clamps both bounds: the exact subsequence inside the string, the tail when the end is past it, empty when the start is past it |
| `PyText.Strip` | photodiode/keysight_usb.py:133 | the result is what is left after dropping stripped characters from both ends: it neither starts nor ends with one |
| `PyText.StripOfPadded` | photodiode/keysight_usb.py:133 | stripping a text padded with removable characters on both sides gives back exactly the text, when the text's own ends are not removable |
| `PyText.Lower` | skyhunter/ioptron.py:173 | `lower()` on ASCII text: the length is kept, `A`–`Z` become `a`–`z`, and every other character is left as it is |
| `PyText.ParseFloat` | photodiode/keysight_usb.py:204 | `float()` of the empty string fails |
| `PyText.ParseFloatOfIntLiteral` | photodiode/keysight_usb.py:204 | `float()` of an integer literal is the integer `int()` reads from it |
| `PyText.ParseFloatOfDecimal` | photodiode/keysight_usb.py:204 | `float()` of `w.f`, for digit strings not both empty, is the value of `w` plus that of `f` over `10^len(f)` |
| `SkyhunterUtils.TrimReply` | skyhunter/utils.py:27-29 | a reply over 19 characters becomes its last 19; a shorter one is unchanged |
| `SkyhunterUtils.WrapAzimuth` | skyhunter/utils.py:43-45 | an azimuth is reduced by one turn exactly when it is over 360 degrees; exactly 360 is kept; raw values up to 720 degrees land in [0, 360] |
| `SkyhunterUtils.ParseAltAz` | skyhunter/utils.py:17-45 | an empty reply fails with IndexError and no other does; a success reads the altitude from characters 1..8, negated unless character 0 is `+`, and the wrapped azimuth from characters 9..17 |
| `SkyhunterUtils.ParseIgnoresPrefix` | skyhunter/utils.py:27-29 | anything in front of the last 19 characters has no influence on the decoded result |
| `SkyhunterUtils.ParseFullReply` | skyhunter/utils.py:32-40 | a 19-character reply with digit fields decodes to the fields' values |
| `SkyhunterUtils.ParseDigitReply` | skyhunter/utils.py:32-45 | a sign, 8 and 9 digits decode to the digits' values; a raw azimuth within one turn comes back unchanged |
| `SkyhunterUtils.ParseLatLongReply` | skyhunter/utils.py:35-40 | with `is_latlong`, only eight azimuth digits (characters 9..16) are read |
| `SkyhunterUtils.AngularDifference` | skyhunter/utils.py:49-51 | the result lies in [-180, 180) degrees and differs from `target - current` by whole turns |
| `SkyhunterUtils.AngularDifferenceInRange` | skyhunter/utils.py:50 | a difference already in [-180, 180) is returned unchanged |
| `SkyhunterUtils.AngularDifferenceUnique` | skyhunter/utils.py:49-51 | the result is the only value in [-180, 180) congruent to `target - current` modulo a turn |
| `SkyhunterUtils.AngularDifferenceExample` | skyhunter/utils.py:50 | going from 10 to 350 degrees is a turn of -20 degrees |
| `SkyhunterUtils.WholeMinutes` | skyhunter/utils.py:91 | `abs(int(offset))` is the whole number `m` with `m <= abs(offset) < m + 1`, as truncation toward zero gives |
| `SkyhunterUtils.OffsetSeconds` | skyhunter/utils.py:91 | `timedelta(minutes=...).seconds` is below one day |
| `SkyhunterUtils.OffsetUtcTime` | skyhunter/utils.py:89-97 | the shift is less than a day in either direction |
| `SkyhunterUtils.OffsetBelowOneMinute` | skyhunter/utils.py:91-93 | an offset of 0, or any offset in [0, 1), leaves the time unchanged |
| `SkyhunterUtils.OffsetWholeMinutes` | skyhunter/utils.py:89-95 | a whole number of minutes under a day shifts the time by that many minutes, in either direction |
| `SkyhunterUtils.OffsetWholeMinutesWrapped` | skyhunter/utils.py:91-95 | a positive whole offset adds `60*m mod 86400` seconds; any other whole offset subtracts 60 times its magnitude, mod 86400 |
| `SkyhunterUtils.OffsetRoundTrip` | skyhunter/utils.py:89-95 | shifting by `m` minutes and then by `-m` minutes gives back the original time |
| `SkyhunterUtils.OffsetDayWrap` | skyhunter/utils.py:91 | adding a whole day of minutes to a positive offset changes nothing |
| `UsbSerial.Transmit` | skyhunter/usb_serial.py:37-42 | a send logs the command and makes the device's next scripted reply arrive, after whatever is already waiting |
| `UsbSerial.Drain` | skyhunter/usb_serial.py:44-50 | a receive leaves nothing waiting and changes nothing else |
| `UsbSerial.ExchangeOnQuietLine` | skyhunter/usb_serial.py:37-50 | on a quiet line the reply read after a command is the device's reply to that command |
| `UsbSerial.UnreadReplyIsPrepended` | skyhunter/usb_serial.py:44-50 | a reply left unread is read in front of the next reply |
| `UsbSerial.SerialLink.constructor` | skyhunter/usb_serial.py:15-35 | a newly opened port has sent nothing and has nothing waiting |
| `UsbSerial.SerialLink.Send` | skyhunter/usb_serial.py:37-42 | `send` changes the link as `Transmit` says and returns nothing |
| `UsbSerial.SerialLink.Recv` | skyhunter/usb_serial.py:44-50 | `recv` returns exactly the characters waiting and drains them |
| `Ioptron.Framed` | skyhunter/ioptron.py:196 | a command is `:`, the mnemonic, the parameters and `#`, and the mnemonic and parameters can be read back from it |
| `Ioptron.SignedField` | skyhunter/ioptron.py:72-73 | the sign (`+` from zero up), then the zero-padded magnitude; it parses back to the number and is w+1 long when the magnitude fits |
| `Ioptron.AltCommand` | skyhunter/ioptron.py:71-74 | `:Sa` with a signed field that parses back to the altitude; 13 characters for altitudes under 10^8 counts |
| `Ioptron.AzField` | skyhunter/ioptron.py:81 | nine digits of the magnitude: the sign of a negative azimuth is dropped |
| `Ioptron.AzCommand` | skyhunter/ioptron.py:80-84 | `:Sz` with digits denoting the azimuth's magnitude |
| `Ioptron.RaCommand` | skyhunter/ioptron.py:59-63 | `:SRA` with digits denoting the magnitude of the right ascension |
| `Ioptron.DecCommand` | skyhunter/ioptron.py:65-69 | `:Sd` with `'{:08d}'` of the declination, which parses back to it; a negative value's `-` takes one of the eight places |
| `Ioptron.AltLimitCommand` | skyhunter/ioptron.py:193-196 | `:SAL` with `'{:02d}'` of the limit, which parses back to it |
| `Ioptron.AltLimitStartup` | skyhunter/ioptron.py:36 | the start-up limit of -89 degrees is sent as `:SAL-89#` |
| `Ioptron.ArrowSpeedCommand` | skyhunter/ioptron.py:187-188 | `:SR` with the single digit of the speed |
| `Ioptron.TimezoneCommand` | skyhunter/ioptron.py:288-291 | `:SG` with a field that parses back to the offset: `+` and three digits from zero up, `-` and two digits for negatives |
| `Ioptron.ParkAzCommand` | skyhunter/ioptron.py:267-271 | `:SPA+` followed by `'{:08d}'` of the azimuth: it parses back, is all digits for a non-negative azimuth, and the command is 14 characters when the value fits in eight places, a `-` taking one |
| `Ioptron.ParkAltCommand` | skyhunter/ioptron.py:267-276 | `:SPH+` followed by `'{:08d}'` of the altitude: it parses back, is all digits for a non-negative altitude, and the command is 14 characters when the value fits in eight places, a `-` taking one |
| `Ioptron.HemisphereCommand` | skyhunter/ioptron.py:215-220 | fails the assertion exactly when the lower-cased word is not a hemisphere; code 0 exactly when the first character as given is `s` |
| `Ioptron.CapitalSouthSelectsNorth` | skyhunter/ioptron.py:218-219 | `"South"` passes the check and selects code 1, the northern hemisphere |
| `Ioptron.ArrowMnemonic` | skyhunter/ioptron.py:172 | the `directions` table has an entry exactly for up, right, down and left, each a two-letter mnemonic starting with `m` |
| `Ioptron.DirectionCommand` | skyhunter/ioptron.py:172-174 | fails the assertion exactly for words other than up, right, down and left, in any case; otherwise the four-character move command |
| `Ioptron.LowerIdempotent` | skyhunter/ioptron.py:173 | lower-casing twice is lower-casing once |
| `Ioptron.DirectionCaseInsensitive` | skyhunter/ioptron.py:173-174 | a direction word and its lower-cased form give the same command |
| `Ioptron.DirectionCommandsDistinct` | skyhunter/ioptron.py:172 | different directions give different commands |
| `Ioptron.FieldsDecode` | skyhunter/utils.py:32-40 | a signed nine-character field and nine digits, then `#`, decode to the values they denote |
| `Ioptron.AltFieldValue` | skyhunter/ioptron.py:72-73 | the altitude field is nine characters whose sign and digits give back the altitude |
| `Ioptron.AzFieldValue` | skyhunter/ioptron.py:81 | the azimuth field is nine digits that `parse_alt_az` gives back unwrapped |
| `Ioptron.AltAzFieldsDecode` | skyhunter/ioptron.py:71-84 | the `set_alt` and `set_az` fields form a 19-character reply that decodes to the same altitude and azimuth |
| `Ioptron.AltAzRoundTrip` | skyhunter/utils.py:27-40 | the same holds with anything in front of the fields |
| `Ioptron.ParkReplyDecodes` | skyhunter/ioptron.py:46-50 | the unsigned `:GPC#` reply with `+` in front decodes to a non-negative altitude |
| `Ioptron.StatusCodeOf` | skyhunter/ioptron.py:335 | the code is the 19th character of the `:GLS#` reply, or empty for a shorter reply |
| `Ioptron.StatusFor` | skyhunter/ioptron.py:360-384 | slewing exactly for codes 2 and 4, tracking exactly for 1, 3 and 5, parked exactly for 6; "Unknown status" exactly for codes outside the table |
| `Ioptron.StatusFlagsExclusive` | skyhunter/ioptron.py:360-369 | no code reports two of slewing, tracking and parked |
| `Ioptron.ReadTimeRoundTrip` | skyhunter/ioptron.py:305-313 | a well-formed `:GUT#` reply gives back its offset (in hours, plus one with daylight saving), its flag and its milliseconds |
| `Ioptron.ReadTime` | skyhunter/ioptron.py:305-313 | fails exactly when characters 0..3 are not an integer; otherwise the offset is those minutes in hours, plus one when character 4 is `1`, and the milliseconds are `int()` of characters 5..17, absent when that fails |
| `Ioptron.TimeExchange` | skyhunter/ioptron.py:297-302 | `:GUT#` is sent once, or twice when the first reply read starts with `1`; the reply used is the first one otherwise and the second one after a retry; the line is left drained |
| `Ioptron.TimeExchangeRetries` | skyhunter/ioptron.py:298-302 | a first reply starting with `1` is dropped, and the second reply is the one used |
| `Ioptron.ParkedSlewReadsBothReplies` | skyhunter/ioptron.py:97-106 | unparking leaves its reply unread, so slewing a parked mount reads `"11"` and reports failure |
| `Ioptron.SystemStatus.constructor` | skyhunter/ioptron.py:353-358 | the record starts with an empty code and all flags false |
| `Ioptron.SystemStatus.UpdateStatus` | skyhunter/ioptron.py:378-384 | all five fields are overwritten from the code alone, so the previous status has no influence |
| `Ioptron.TimeInfo.constructor` | skyhunter/ioptron.py:386-395 | every time field starts unset |
| `Ioptron.IoptronMount.constructor` | skyhunter/ioptron.py:13-29 | the mount uses the given link, with a fresh status record and time record |
| `Ioptron.IoptronMount.GetParkPosition` | skyhunter/ioptron.py:46-52 | sends `:GPC#`, reads the reply and stores its decoding with `+` in front, or returns the decoding error and keeps the old position |
| `Ioptron.IoptronMount.SetRa` | skyhunter/ioptron.py:59-63 | sends the right-ascension command and reads nothing |
| `Ioptron.IoptronMount.SetDec` | skyhunter/ioptron.py:65-69 | sends the declination command and reads nothing |
| `Ioptron.IoptronMount.SetAlt` | skyhunter/ioptron.py:71-78 | sends the altitude command; true exactly when the reply is `"1"` |
| `Ioptron.IoptronMount.SetAz` | skyhunter/ioptron.py:80-84 | sends the azimuth command and reads nothing |
| `Ioptron.IoptronMount.Unpark` | skyhunter/ioptron.py:207-213 | sends `:MP0#`, reads nothing, clears the cached parked flag and returns false |
| `Ioptron.IoptronMount.Park` | skyhunter/ioptron.py:200-205 | the cached parked flag and the result are both whether the reply to `:MP1#` is `"1"` |
| `Ioptron.UnparkedIfParked` | skyhunter/ioptron.py:99-101 | when parked, `:MP0#` is sent and its reply is left unread in front of what was waiting; otherwise the line is unchanged |
| `Ioptron.IoptronMount.SlewToDefinedPosition` | skyhunter/ioptron.py:97-106 | unparks first if the cached flag is set, then `:MSS#`; true exactly when the reply read is `"1"` |
| `Ioptron.IoptronMount.SlewToAltAz` | skyhunter/ioptron.py:86-95 | the altitude command and its reply, the azimuth command, then the slew sequence; the parked flag ends up false |
| `Ioptron.IoptronMount.SlewArrowForever` | skyhunter/ioptron.py:161-178 | unparks first if the cached flag is set, even when the direction then fails; otherwise the move command, succeeding exactly on `"1"` |
| `Ioptron.IoptronMount.SetArrowSpeed` | skyhunter/ioptron.py:180-191 | a speed outside 0..9 fails before anything is sent; otherwise `:SR<d>#` and true exactly on `"1"` |
| `Ioptron.IoptronMount.SetAltLimit` | skyhunter/ioptron.py:193-198 | sends the limit command; true exactly when the reply is `"1"` |
| `Ioptron.IoptronMount.SetHemisphere` | skyhunter/ioptron.py:215-223 | a failed check sends nothing; otherwise the command is sent, the reply is read and ignored, and the result is true |
| `Ioptron.IoptronMount.SetTimezoneOffset` | skyhunter/ioptron.py:288-294 | sends the time-zone command and drains the reply |
| `Ioptron.IoptronMount.SetParkPosition` | skyhunter/ioptron.py:265-280 | the azimuth command, then the altitude command; only the second reply decides the result |
| `Ioptron.IoptronMount.CheckConnection` | skyhunter/ioptron.py:324-328 | connected exactly when the `:GLS#` reply is not empty |
| `Ioptron.IoptronMount.GetSystemState` | skyhunter/ioptron.py:330-339 | the status is overwritten from the 19th character of the `:GLS#` reply |
| `Ioptron.IoptronMount.GetCurrentAltAz` | skyhunter/ioptron.py:250-256 | sends `:GAC#` and stores the decoded reply, or returns the decoding error and keeps the old position |
| `Ioptron.IoptronMount.GetTimeInformation` | skyhunter/ioptron.py:296-313 | an empty first reply fails with IndexError; a bad offset stores nothing; a bad milliseconds field fails after the offset and flag are stored; otherwise all three are stored |
| `KeysightUsb.NameInjective` | photodiode/keysight_usb.py:82-90 | the six dictionary keys are spelled differently, so the key enumeration holds the same entries as the dictionary |
| `KeysightUsb.Trunc` | photodiode/keysight_usb.py:362 | `int()` of a float truncates toward zero |
| `KeysightUsb.ToFloatOf` | photodiode/keysight_usb.py:204 | `float()` of an integer or a float never fails and keeps its value; of a string holding an integer literal it is that integer |
| `KeysightUsb.ToInt` | photodiode/keysight_usb.py:305 | `int()` of an integer is that integer |
| `KeysightUsb.ModeEffect` | photodiode/keysight_usb.py:260-263 | a mode outside CURR, CHAR, VOLT and RES raises ValueError and touches nothing; otherwise the mode is stored and `SENSe:FUNCtion:ON "<mode>"` written |
| `KeysightUsb.RangEffect` | photodiode/keysight_usb.py:275-282 | the range is stored as given first; `AUTO` writes one command; any other value must convert to a float, then `AUTO OFF` and the range are written, both prefixed by the mode |
| `KeysightUsb.NplcEffect` | photodiode/keysight_usb.py:291-296 | stored as given, never raises; `AUTO` writes one command, anything else `AUTO OFF` and the value |
| `KeysightUsb.NsamplesEffect` | photodiode/keysight_usb.py:305-308 | `int(n)` is stored and written; a value `int()` refuses raises ValueError and touches nothing |
| `KeysightUsb.DelayEffect` | photodiode/keysight_usb.py:317-320 | the float delay and `:TRIG:SOUR TIM` are written, then the delay is stored as given; a non-number raises before anything is written |
| `KeysightUsb.IntervalEffect` | photodiode/keysight_usb.py:329-331 | the interval is converted to a float, written and stored as that float |
| `KeysightUsb.Quotient` | photodiode/keysight_usb.py:362 | `t / interval` raises TypeError exactly when an operand is a string; for two numbers it succeeds exactly when the interval is nonzero, raises ZeroDivisionError when it is zero, and a success is the quotient |
| `KeysightUsb.AcquisitionTimeEffect` | photodiode/keysight_usb.py:362-363 | the sample count becomes `int(t / interval)`, or the division's error is raised with nothing changed |
| `KeysightUsb.SetParam` | photodiode/keysight_usb.py:126 | calling any setter keeps a valid mode in the dictionary |
| `KeysightUsb.SetParamOnlyOwnEntry` | photodiode/keysight_usb.py:251-331 | every setter leaves every other entry as it was |
| `KeysightUsb.OnlySetModeChangesMode` | photodiode/keysight_usb.py:251-331 | only `set_mode` changes the mode |
| `KeysightUsb.SetParamKeepsKeys` | photodiode/keysight_usb.py:251-331 | no setter removes an entry |
| `KeysightUsb.Default` | photodiode/keysight_usb.py:82-90 | each key's default is the one the defaults dictionary lists |
| `KeysightUsb.DefaultStep` | photodiode/keysight_usb.py:124-126 | setting a key to its default never raises and stores that default; with the default mode it writes the default messages |
| `KeysightUsb.Replay` | photodiode/keysight_usb.py:124-126 | calling setters in order keeps a valid mode; the first exception stops the loop |
| `KeysightUsb.ReplayDefaults` | photodiode/keysight_usb.py:124-126 | replaying defaults raises nothing and overwrites exactly the replayed keys with their defaults |
| `KeysightUsb.ReplayDefaultWrites` | photodiode/keysight_usb.py:124-126 | when the mode is the default or is replayed first, the messages written are the default messages of the keys in order |
| `KeysightUsb.SyncWritesInOrder` | photodiode/keysight_usb.py:82-91 | the default messages of the tracked keys, in the tracked order, are the eight sync messages |
| `KeysightUsb.SyncRestoresDefaults` | photodiode/keysight_usb.py:119-126 | the sync leaves `params + defaults`, writes the eight sync messages from any state and raises nothing |
| `KeysightUsb.AcquisitionTime` | photodiode/keysight_usb.py:202-204 | fails with ValueError exactly when one of nsamples, nplc and interval does not convert to a float |
| `KeysightUsb.DefaultAcquisitionTime` | photodiode/keysight_usb.py:202-204 | with the defaults (10 samples, 0.1 NPLC, 2 ms) the acquisition takes 0.02 s |
| `KeysightUsb.AcquisitionTimeProportional` | photodiode/keysight_usb.py:204 | the predicted time is the sample count times `(nplc/50 + interval)/2` |
| `KeysightUsb.CleanReply` | photodiode/keysight_usb.py:133 | the cleaned reply is no longer and neither starts nor ends with a double quote |
| `KeysightUsb.CleanReplyUnquotes` | photodiode/keysight_usb.py:133 | a quoted reply with whitespace around it comes back as the text between the quotes |
| `KeysightUsb.CleanReplyKeepsBareText` | photodiode/keysight_usb.py:133 | a reply with no whitespace or quote at either end comes back unchanged |
| `KeysightUsb.Keysight.constructor` | photodiode/keysight_usb.py:73-93 | the dictionary starts as a copy of the defaults, the tracked keys are the defaults' keys in order, and nothing is written |
| `KeysightUsb.Keysight.Write` | photodiode/keysight_usb.py:141-150 | the message is appended to the log and nothing else changes |
| `KeysightUsb.Keysight.SetMode` | photodiode/keysight_usb.py:251-263 | the new dictionary, messages and exception are those of `ModeEffect` |
| `KeysightUsb.Keysight.SetRang` | photodiode/keysight_usb.py:265-282 | the new dictionary, messages and exception are those of `RangEffect` |
| `KeysightUsb.Keysight.SetNplc` | photodiode/keysight_usb.py:284-296 | the new dictionary and messages are those of `NplcEffect` |
| `KeysightUsb.Keysight.SetNsamples` | photodiode/keysight_usb.py:298-308 | the new dictionary, messages and exception are those of `NsamplesEffect` |
| `KeysightUsb.Keysight.SetDelay` | photodiode/keysight_usb.py:310-320 | the new dictionary, messages and exception are those of `DelayEffect` |
| `KeysightUsb.Keysight.SetInterval` | photodiode/keysight_usb.py:322-331 | the new dictionary, messages and exception are those of `IntervalEffect` |
| `KeysightUsb.Keysight.SetAcquisitionTime` | photodiode/keysight_usb.py:355-364 | the new dictionary, messages and exception are those of `AcquisitionTimeEffect` |
| `KeysightUsb.Keysight.SetByKey` | photodiode/keysight_usb.py:126 | `getattr(self, 'set_' + key)` runs the setter of that key |
| `KeysightUsb.Keysight.SyncTrackedProperties` | photodiode/keysight_usb.py:119-126 | the loop leaves what `Replay` of the tracked keys leaves, which is `params + defaults` and the eight sync messages, with nothing raised |
| `KeysightUsb.Keysight.Acquire` | photodiode/keysight_usb.py:199-207 | stores the predicted time and writes `:INIT:ACQ` once, or raises the conversion error with nothing written |
| `KeysightUsb.Keysight.Query` | photodiode/keysight_usb.py:128-139 | writes the command and returns the cleaned reply, or nothing when the link reports an I/O error |

## Left out

- `int()` and `float()` of strings: surrounding whitespace, underscores, non-ASCII digits, `inf` and `nan` are not modelled. Such strings are treated like any other malformed literal.
- Python's `str()` of a float is not modelled. A message that embeds a value is kept as its text and the value (`Message.MsgWith`).
- Floating point: all arithmetic is exact, on integers and reals.
- SkyhunterUtils.ParseAltAz: returns integer counts. The final division by 360000 and `np.round(..., 5)` are not modelled.
- The float-degree inputs of `set_alt`, `set_az`, `set_ra`, `set_dec` and `set_park_position` are not modelled: the encoders take integer counts, so their `int(x * 360000)` truncation is left out.
- KeysightUsb.AcquisitionTime: computes on reals, so IEEE double rounding of the formula is not modelled.
- KeysightUsb.Keysight.SetAcquisitionTime: divides reals, so a float quotient that rounds across an integer is not modelled.
- Ioptron.IoptronMount.SetArrowSpeed: the source returns `True` or `None`. The model returns `Success(false)` for `None`.
- KeysightUsb.Keysight.Acquire: the wait loop after `:INIT:ACQ`, which polls the clock, is not modelled. Clocks are outside the model.
- Sleeps and timestamps are not modelled: the send wait, the `time.sleep` calls, `last_slew` and `last_update`.
- The serial port's byte-level I/O is not modelled: `inWaiting`, `read(1)`, UTF-8 encoding, logging, `open`, `close`, `recv_timestamp`. The link is the abstract log and reply script described above.
- The VISA plumbing is not modelled: `_config`, opening and closing the resource, timeouts, and the `EOFError` retry in `write`. `write` is a log append, and a VISA I/O error in `query` is an absent reply.
- `read`, `read_binary_data` (both definitions), `read_data`, `start_measurement`, `get_params` and every `get_*` query are not modelled. Their values come from the instrument or are decoded with numpy and struct.
- `find_instrument` and `explain_params` are not modelled: console input and output.
- `on`, `off`, `reset` and `set_trigger_out` are single fixed writes that no tracked parameter depends on, so they are not modelled.
- Astropy and datetime time handling is not modelled. This covers `set_time`, `set_current_time`, `get_utc_offset_min`, `convert_j2k_to_unix_utc`, `convert_unix_to_formatted` and `get_utc_time_in_j2k`. From `get_time_information` it covers the Julian-date, unix and local-time conversions and the printing: the model stores the milliseconds the date is derived from.
- The default argument of `set_timezone_offset` reads the host clock. The model takes the offset as a parameter.
- The defaults of `set_park_position(alt=90, az=0)` and `set_nsamples(nsamples=5500)` are not modelled: both values are required parameters of `Ioptron.IoptronMount.SetParkPosition` and `KeysightUsb.Keysight.SetNsamples`.
- PyText.Lower: ASCII letters only; Python's `lower()` also lower-cases other cased letters (`Ä` to `ä`) and can lengthen a string (`İ` gives two characters). No character outside ASCII lower-cases to a letter of the words `set_hemisphere` and `slew_arrow_forever` test for, so their outcomes are unaffected.
- `IoptronMount.__init__`'s start-up exchange is not modelled: the connection check, `sys.exit`, the time set, the status read, the version read and the altitude limit. The constructor only wires the link and the records. The limit command it sends is covered by `Ioptron.AltLimitStartup`.
- `slew_arrow` is not modelled: it is marked as not working, and `:05d` of a float duration raises.
- `slew_right`, `slew_left`, `slew_up`, `slew_down`, `stop`, `start_tracking`, `stop_tracking`, `get_mount_version`, `print_park_position` and `print_received` are not modelled. Each is a fixed command around a sleep, or text output.
- `getattr` by an arbitrary name is not modelled. The dictionary keys are the enumeration `Key`, because only the six default keys ever occur in the dictionary.
- The `__str__` methods, `__del__`, the example scripts, the tests, `setup.py` and the package `__init__` files are not modelled.
- The closed-loop positioning controller, the telemetry sampler and the other methods the scripts call without the drivers defining them are not part of this model.
