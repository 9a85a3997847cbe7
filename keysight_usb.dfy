/**
 * The Keysight B2983B electrometer driver: the parameter dictionary it
 * keeps, the commands each setter writes, the replay of the defaults, the
 * predicted acquisition time and the clean-up of query replies.
 *
 * The VISA link is a log of the messages written. A message that embeds a
 * value, as in `f':TRIG:ACQ:COUN {n}'`, is kept as its text and the value
 * (`MsgWith`), because Python's `str()` of a float is not modelled.
 */
module KeysightUsb {
  import opened Wrappers
  import opened PyText

  /** A parameter value as the driver receives and stores it. */
  datatype Value = Str(s: string) | Int(i: int) | Float(x: real)

  /**
   * The keys of the parameter dictionary. Only these six ever occur in it:
   * it starts as a copy of the defaults and each setter assigns its own key.
   */
  datatype Key = Mode | Rang | Nplc | Nsamples | Delay | Interval

  /** The key as the dictionary spells it; `set_` followed by it names the key's setter. */
  function Name(k: Key): (n: string)
    ensures |n| >= 4
  {
    match k
    case Mode => "mode"
    case Rang => "rang"
    case Nplc => "nplc"
    case Nsamples => "nsamples"
    case Delay => "delay"
    case Interval => "interval"
  }

  /** Different keys are spelled differently, so the dictionary and its model hold the same entries. */
  lemma NameInjective(a: Key, b: Key)
    requires a != b
    ensures Name(a) != Name(b)
  {
    assert Name(a)[0] != Name(b)[0] || Name(a)[1] != Name(b)[1];
  }

  type Params = map<Key, Value>

  /** A message written to the instrument: plain text, or text, a space and `str(arg)`. */
  datatype Message = Msg(text: string) | MsgWith(text: string, arg: Value)

  /** What a setter leaves behind: the dictionary, the messages it wrote, and the exception it raised. */
  datatype Outcome = Outcome(params: Params, writes: seq<Message>, raised: Option<PyError>)

  const DefaultParams: Params :=
    map[Mode := Str("CHAR"), Rang := Str("AUTO"), Nplc := Float(0.1),
        Nsamples := Int(10), Delay := Int(0), Interval := Float(0.002)]

  /** The keys of the defaults, in their insertion order. */
  const TrackedProperties: seq<Key> := [Mode, Rang, Nplc, Nsamples, Delay, Interval]

  /** The power-line frequency `acquire` assumes, in Hz. */
  const LineFrequency: real := 50.0

  predicate IsMode(m: string)
  {
    m == "CURR" || m == "CHAR" || m == "VOLT" || m == "RES"
  }

  /** The dictionary holds a measurement mode, used as the prefix of the range and NPLC commands. */
  predicate ModeSet(p: Params)
  {
    Mode in p && p[Mode].Str? && IsMode(p[Mode].s)
  }

  function ModeOf(p: Params): string
    requires ModeSet(p)
  {
    p[Mode].s
  }

  /** `int()` of a float truncates toward zero. */
  function Trunc(x: real): (n: int)
    ensures x >= 0.0 ==> n as real <= x < n as real + 1.0
    ensures x < 0.0 ==> n as real - 1.0 < x <= n as real
  {
    if x >= 0.0 then x.Floor else -((-x).Floor)
  }

  /** Python's `float(v)`; a string that is not a decimal literal raises `ValueError`. */
  function ToFloat(v: Value): (r: Option<real>)
  {
    match v
    case Str(s) => ParseFloat(s)
    case Int(i) => Some(i as real)
    case Float(x) => Some(x)
  }

  /** `float()` of a number never fails; of a string holding an integer literal it is that integer. */
  lemma ToFloatOf(v: Value)
    ensures !v.Str? ==> ToFloat(v).Some?
    ensures v.Int? ==> ToFloat(v) == Some(v.i as real)
    ensures v.Float? ==> ToFloat(v) == Some(v.x)
    ensures v.Str? && ParseInt(v.s).Some? ==> ToFloat(v) == Some(ParseInt(v.s).value as real)
  {
    if v.Str? {
      ParseFloatOfIntLiteral(v.s);
    }
  }

  /** Python's `int(v)`; a string that is not an integer literal raises `ValueError`. */
  function ToInt(v: Value): (r: Option<int>)
    ensures v.Int? ==> r == Some(v.i)
  {
    match v
    case Str(s) => ParseInt(s)
    case Int(i) => Some(i)
    case Float(x) => Some(Trunc(x))
  }

  // ---------------------------------------------------------------------
  // The setters
  // ---------------------------------------------------------------------

  /** `set_mode`: a mode outside the four raises `ValueError` before anything is touched. */
  function ModeEffect(p: Params, mode: Value): (o: Outcome)
    ensures !(mode.Str? && IsMode(mode.s)) <==> o == Outcome(p, [], Some(ValueError))
    ensures o.raised.None? ==> o.params == p[Mode := mode] && ModeSet(o.params)
    ensures o.raised.None? ==> o.writes == [Msg("SENSe:FUNCtion:ON \"" + mode.s + "\"")]
  {
    if !(mode.Str? && IsMode(mode.s)) then Outcome(p, [], Some(ValueError))
    else Outcome(p[Mode := mode], [Msg("SENSe:FUNCtion:ON \"" + mode.s + "\"")], None)
  }

  /**
   * `set_rang`: the value is stored first, as given. `'AUTO'` turns auto
   * range on; anything else must convert to a float, and then auto range is
   * turned off and the range written.
   */
  function RangEffect(p: Params, range: Value): (o: Outcome)
    requires ModeSet(p)
    ensures o.params == p[Rang := range]
    ensures o.raised.Some? <==> range != Str("AUTO") && ToFloat(range).None?
    ensures o.raised.Some? ==> o.raised == Some(ValueError) && o.writes == []
    ensures range == Str("AUTO") ==> o.writes == [Msg("SENS:" + ModeOf(p) + ":RANG:AUTO ON")]
    ensures range != Str("AUTO") && ToFloat(range).Some? ==>
              o.writes == [Msg("SENS:" + ModeOf(p) + ":RANG:AUTO OFF"),
                           MsgWith("SENS:" + ModeOf(p) + ":RANG", Float(ToFloat(range).value))]
  {
    var stored := p[Rang := range];
    var m := ModeOf(p);
    if range == Str("AUTO") then Outcome(stored, [Msg("SENS:" + m + ":RANG:AUTO ON")], None)
    else
      match ToFloat(range)
      case None => Outcome(stored, [], Some(ValueError))
      case Some(x) => Outcome(stored, [Msg("SENS:" + m + ":RANG:AUTO OFF"), MsgWith("SENS:" + m + ":RANG", Float(x))], None)
  }

  /** `set_nplc`: stored as given; `'AUTO'` turns auto NPLC on, anything else turns it off and is written as given. */
  function NplcEffect(p: Params, nplc: Value): (o: Outcome)
    requires ModeSet(p)
    ensures o.params == p[Nplc := nplc] && o.raised.None?
    ensures nplc == Str("AUTO") ==> o.writes == [Msg(":SENS:" + ModeOf(p) + ":NPLC:AUTO ON")]
    ensures nplc != Str("AUTO") ==>
              o.writes == [Msg(":SENS:" + ModeOf(p) + ":NPLC:AUTO OFF"), MsgWith(":SENS:" + ModeOf(p) + ":NPLC", nplc)]
  {
    var m := ModeOf(p);
    if nplc == Str("AUTO") then Outcome(p[Nplc := nplc], [Msg(":SENS:" + m + ":NPLC:AUTO ON")], None)
    else Outcome(p[Nplc := nplc], [Msg(":SENS:" + m + ":NPLC:AUTO OFF"), MsgWith(":SENS:" + m + ":NPLC", nplc)], None)
  }

  /** `set_nsamples`: `int(n)` is stored and written; a value `int` refuses raises `ValueError` first. */
  function NsamplesEffect(p: Params, n: Value): (o: Outcome)
    ensures ToInt(n).None? <==> o == Outcome(p, [], Some(ValueError))
    ensures ToInt(n).Some? ==>
              && o.params == p[Nsamples := Int(ToInt(n).value)] && o.raised.None?
              && o.writes == [MsgWith(":TRIG:ACQ:COUN", Int(ToInt(n).value))]
  {
    match ToInt(n)
    case None => Outcome(p, [], Some(ValueError))
    case Some(k) => Outcome(p[Nsamples := Int(k)], [MsgWith(":TRIG:ACQ:COUN", Int(k))], None)
  }

  /** `set_delay`: writes the delay as a float and selects the timer trigger, then stores the value as given. */
  function DelayEffect(p: Params, delay: Value): (o: Outcome)
    ensures ToFloat(delay).None? <==> o == Outcome(p, [], Some(ValueError))
    ensures ToFloat(delay).Some? ==>
              && o.params == p[Delay := delay] && o.raised.None?
              && o.writes == [MsgWith(":TRIG:ACQ:DEL", Float(ToFloat(delay).value)), Msg(":TRIG:SOUR TIM")]
  {
    match ToFloat(delay)
    case None => Outcome(p, [], Some(ValueError))
    case Some(x) => Outcome(p[Delay := delay], [MsgWith(":TRIG:ACQ:DEL", Float(x)), Msg(":TRIG:SOUR TIM")], None)
  }

  /** `set_interval`: the interval is converted to a float, written, and stored as that float. */
  function IntervalEffect(p: Params, interval: Value): (o: Outcome)
    ensures ToFloat(interval).None? <==> o == Outcome(p, [], Some(ValueError))
    ensures ToFloat(interval).Some? ==>
              && o.params == p[Interval := Float(ToFloat(interval).value)] && o.raised.None?
              && o.writes == [MsgWith(":TRIG:ACQ:TIM", Float(ToFloat(interval).value))]
  {
    match ToFloat(interval)
    case None => Outcome(p, [], Some(ValueError))
    case Some(x) => Outcome(p[Interval := Float(x)], [MsgWith(":TRIG:ACQ:TIM", Float(x))], None)
  }

  /** Python's `t / interval` on the values: a string raises `TypeError`, a zero interval `ZeroDivisionError`. */
  function Quotient(t: Value, interval: Value): (r: Result<real, PyError>)
    ensures (t.Str? || interval.Str?) <==> r == Failure(TypeError)
    ensures !t.Str? && !interval.Str? ==> (r.Success? <==> ToFloat(interval).value != 0.0)
    ensures !t.Str? && !interval.Str? && ToFloat(interval).value == 0.0 ==> r == Failure(ZeroDivisionError)
    ensures r.Success? ==> ToFloat(interval).value != 0.0 && r.value == ToFloat(t).value / ToFloat(interval).value
  {
    if t.Str? || interval.Str? then Failure(TypeError)
    else
      var d := ToFloat(interval).value;
      if d == 0.0 then Failure(ZeroDivisionError) else Success(ToFloat(t).value / d)
  }

  /** `set_acquisition_time(t)`: the sample count becomes `int(t / interval)`. */
  function AcquisitionTimeEffect(p: Params, t: Value): (o: Outcome)
    requires Interval in p
    ensures Quotient(t, p[Interval]).Failure? ==> o == Outcome(p, [], Some(Quotient(t, p[Interval]).error))
    ensures Quotient(t, p[Interval]).Success? ==>
              var n := Trunc(Quotient(t, p[Interval]).value);
              && o.params == p[Nsamples := Int(n)] && o.raised.None?
              && o.writes == [MsgWith(":TRIG:ACQ:COUN", Int(n))]
  {
    match Quotient(t, p[Interval])
    case Failure(e) => Outcome(p, [], Some(e))
    case Success(q) => NsamplesEffect(p, Int(Trunc(q)))
  }

  /** `getattr(self, f'set_{Name(key)}')(v)`: the setter of `key`. */
  function SetParam(p: Params, key: Key, v: Value): (o: Outcome)
    requires ModeSet(p)
    ensures ModeSet(o.params)
  {
    match key
    case Mode => ModeEffect(p, v)
    case Rang => RangEffect(p, v)
    case Nplc => NplcEffect(p, v)
    case Nsamples => NsamplesEffect(p, v)
    case Delay => DelayEffect(p, v)
    case Interval => IntervalEffect(p, v)
  }

  /** Every setter changes its own entry or none, and keeps every other entry. */
  lemma SetParamOnlyOwnEntry(p: Params, key: Key, v: Value, k: Key)
    requires ModeSet(p) && k in p && k != key
    ensures k in SetParam(p, key, v).params && SetParam(p, key, v).params[k] == p[k]
  {
  }

  /** Only `set_mode` changes the mode. */
  lemma OnlySetModeChangesMode(p: Params, key: Key, v: Value)
    requires ModeSet(p) && key != Mode
    ensures ModeOf(SetParam(p, key, v).params) == ModeOf(p)
  {
    SetParamOnlyOwnEntry(p, key, v, Mode);
  }

  /** A setter never removes an entry. */
  lemma SetParamKeepsKeys(p: Params, key: Key, v: Value)
    requires ModeSet(p)
    ensures p.Keys <= SetParam(p, key, v).params.Keys
  {
  }

  // ---------------------------------------------------------------------
  // sync_tracked_properties
  // ---------------------------------------------------------------------

  /** The default of each key, as `DefaultParams` lists it. */
  function Default(k: Key): (v: Value)
    ensures k in DefaultParams && DefaultParams[k] == v
  {
    match k
    case Mode => Str(DefaultMode)
    case Rang => Str("AUTO")
    case Nplc => Float(0.1)
    case Nsamples => Int(10)
    case Delay => Int(0)
    case Interval => Float(0.002)
  }

  const DefaultMode: string := "CHAR"

  /**
   * The messages setting `k` to its default writes while the mode is the
   * default mode.
   */
  function DefaultWrites(k: Key): seq<Message>
  {
    match k
    case Mode => [Msg("SENSe:FUNCtion:ON \"" + DefaultMode + "\"")]
    case Rang => [Msg("SENS:" + DefaultMode + ":RANG:AUTO ON")]
    case Nplc => [Msg(":SENS:" + DefaultMode + ":NPLC:AUTO OFF"), MsgWith(":SENS:" + DefaultMode + ":NPLC", Float(0.1))]
    case Nsamples => [MsgWith(":TRIG:ACQ:COUN", Int(10))]
    case Delay => [MsgWith(":TRIG:ACQ:DEL", Float(0.0)), Msg(":TRIG:SOUR TIM")]
    case Interval => [MsgWith(":TRIG:ACQ:TIM", Float(0.002))]
  }

  /**
   * Setting a key to its default never raises and stores exactly that
   * default; in the default mode it writes `DefaultWrites(k)`, and setting
   * the mode writes them from any mode.
   */
  lemma DefaultStep(p: Params, k: Key)
    requires ModeSet(p)
    ensures var o := SetParam(p, k, Default(k));
            && o.raised == None && o.params == p[k := Default(k)]
            && (k == Mode || ModeOf(p) == DefaultMode ==> o.writes == DefaultWrites(k))
  {
  }

  /**
   * Calling the setters for `keys` in order with their default values; the
   * first exception stops the replay.
   */
  function Replay(p: Params, keys: seq<Key>): (o: Outcome)
    requires ModeSet(p)
    ensures ModeSet(o.params)
    decreases |keys|
  {
    if keys == [] then Outcome(p, [], None)
    else
      var before := Replay(p, keys[..|keys| - 1]);
      if before.raised.Some? then before
      else
        var last := keys[|keys| - 1];
        var step := SetParam(before.params, last, Default(last));
        Outcome(step.params, before.writes + step.writes, step.raised)
  }

  /** Replaying one key more runs its setter on what the shorter replay left. */
  lemma ReplayOneMore(p: Params, keys: seq<Key>, i: nat)
    requires ModeSet(p) && i < |keys|
    ensures var before := Replay(p, keys[..i]);
            var step := SetParam(before.params, keys[i], Default(keys[i]));
            before.raised == None ==>
              Replay(p, keys[..i + 1]) == Outcome(step.params, before.writes + step.writes, step.raised)
  {
    assert keys[..i + 1][..i] == keys[..i];
  }

  /** One more tracked key in the replay: its setter runs with its default and raises nothing. */
  lemma SyncStep(p: Params, i: nat)
    requires ModeSet(p) && i < |TrackedProperties| && Replay(p, TrackedProperties[..i]).raised == None
    ensures var before := Replay(p, TrackedProperties[..i]);
            var k := TrackedProperties[i];
            var step := SetParam(before.params, k, DefaultParams[k]);
            && k in DefaultParams && step.raised == None
            && Replay(p, TrackedProperties[..i + 1]) == Outcome(step.params, before.writes + step.writes, None)
  {
    var before := Replay(p, TrackedProperties[..i]);
    var k := TrackedProperties[i];
    assert DefaultParams[k] == Default(k);
    DefaultStep(before.params, k);
    ReplayOneMore(p, TrackedProperties, i);
  }

  lemma AppendAssociates(a: seq<Message>, b: seq<Message>, c: seq<Message>)
    ensures a + b + c == a + (b + c)
  {
  }

  /** The messages of `DefaultWrites` for `keys`, one key after the other. */
  function AllDefaultWrites(keys: seq<Key>): seq<Message>
    decreases |keys|
  {
    if keys == [] then [] else AllDefaultWrites(keys[..|keys| - 1]) + DefaultWrites(keys[|keys| - 1])
  }

  /** Replaying defaults raises nothing and overwrites exactly the replayed entries. */
  lemma {:induction false} ReplayDefaults(p: Params, keys: seq<Key>)
    requires ModeSet(p)
    ensures var o := Replay(p, keys);
            && o.raised == None && o.params.Keys == p.Keys + (set k | k in keys)
            && (forall k :: k in o.params ==> o.params[k] == (if k in keys then Default(k) else p[k]))
    decreases |keys|
  {
    if keys != [] {
      var init := keys[..|keys| - 1];
      var last := keys[|keys| - 1];
      ReplayDefaults(p, init);
      var before := Replay(p, init);
      DefaultStep(before.params, last);
      assert Replay(p, keys).params == before.params[last := Default(last)];
      MembersOfSnoc(keys);
    }
  }

  /** A key is in a non-empty sequence exactly when it is in the front part or is the last one. */
  lemma MembersOfSnoc(keys: seq<Key>)
    requires keys != []
    ensures forall k :: k in keys <==> k in keys[..|keys| - 1] || k == keys[|keys| - 1]
  {
    assert keys == keys[..|keys| - 1] + [keys[|keys| - 1]];
  }

  /**
   * Replaying defaults writes `AllDefaultWrites(keys)` when the mode is
   * already the default or the mode is replayed first.
   */
  lemma {:induction false} ReplayDefaultWrites(p: Params, keys: seq<Key>)
    requires ModeSet(p)
    requires ModeOf(p) == DefaultMode || (keys != [] && keys[0] == Mode)
    ensures Replay(p, keys).writes == AllDefaultWrites(keys)
    decreases |keys|
  {
    if keys != [] {
      var init := keys[..|keys| - 1];
      var last := keys[|keys| - 1];
      var before := Replay(p, init);
      ReplayDefaults(p, init);
      if init != [] {
        assert init[0] == keys[0];
        ReplayDefaultWrites(p, init);
        assert Mode in init ==> before.params[Mode] == Default(Mode);
        assert ModeOf(before.params) == DefaultMode;
      }
      DefaultStep(before.params, last);
    }
  }

  /** The messages replaying the defaults writes, whatever the state was. */
  const SyncWrites: seq<Message> := [
    Msg("SENSe:FUNCtion:ON \"" + DefaultMode + "\""),
    Msg("SENS:" + DefaultMode + ":RANG:AUTO ON"),
    Msg(":SENS:" + DefaultMode + ":NPLC:AUTO OFF"), MsgWith(":SENS:" + DefaultMode + ":NPLC", Float(0.1)),
    MsgWith(":TRIG:ACQ:COUN", Int(10)),
    MsgWith(":TRIG:ACQ:DEL", Float(0.0)), Msg(":TRIG:SOUR TIM"),
    MsgWith(":TRIG:ACQ:TIM", Float(0.002))
  ]

  /** `SyncWrites` is the default messages of the tracked properties, in the tracked order. */
  lemma SyncWritesInOrder()
    ensures AllDefaultWrites(TrackedProperties) == SyncWrites
  {
    var keys := TrackedProperties;
    assert AllDefaultWrites(keys[..1]) == SyncWrites[..1] by {
      assert keys[..1][..0] == [];
    }
    assert AllDefaultWrites(keys[..2]) == SyncWrites[..2] by {
      assert keys[..2][..1] == keys[..1];
    }
    assert AllDefaultWrites(keys[..3]) == SyncWrites[..4] by {
      assert keys[..3][..2] == keys[..2];
    }
    assert AllDefaultWrites(keys[..4]) == SyncWrites[..5] by {
      assert keys[..4][..3] == keys[..3];
    }
    assert AllDefaultWrites(keys[..5]) == SyncWrites[..7] by {
      assert keys[..5][..4] == keys[..4];
    }
    assert keys[..6] == keys && keys[..5] == keys[..|keys| - 1];
  }

  /** A dictionary holding the defaults over the entries of `p` is `p + DefaultParams`. */
  lemma MergedDefaults(p: Params, q: Params)
    requires q.Keys == p.Keys + DefaultParams.Keys
    requires forall k :: k in q ==> q[k] == (if k in DefaultParams then Default(k) else p[k])
    ensures q == p + DefaultParams
  {
  }

  /**
   * Replaying the tracked properties raises nothing, leaves every tracked
   * entry at its default and every other entry as it was, and writes the
   * same messages from any starting state.
   */
  lemma SyncRestoresDefaults(p: Params)
    requires ModeSet(p)
    ensures Replay(p, TrackedProperties) == Outcome(p + DefaultParams, SyncWrites, None)
  {
    var keys := TrackedProperties;
    ReplayDefaults(p, keys);
    assert (set k | k in keys) == DefaultParams.Keys by {
      assert keys == [Mode, Rang, Nplc, Nsamples, Delay, Interval];
    }
    MergedDefaults(p, Replay(p, keys).params);
    ReplayDefaultWrites(p, keys);
    SyncWritesInOrder();
  }

  // ---------------------------------------------------------------------
  // acquire and query
  // ---------------------------------------------------------------------

  /**
   * `acquire`'s predicted acquisition time in seconds,
   * `nsamples * (nplc / 50 + interval) / 2`; each of the three entries must
   * convert to a float.
   */
  function AcquisitionTime(p: Params): (r: Result<real, PyError>)
    requires DefaultParams.Keys <= p.Keys
    ensures r.Failure? <==> ToFloat(p[Nsamples]).None? || ToFloat(p[Nplc]).None? || ToFloat(p[Interval]).None?
    ensures r.Failure? ==> r.error == ValueError
  {
    match (ToFloat(p[Nsamples]), ToFloat(p[Nplc]), ToFloat(p[Interval]))
    case (Some(n), Some(c), Some(i)) => Success(n * (c * 1.0 / LineFrequency + i) / 2.0)
    case _ => Failure(ValueError)
  }

  /** With the defaults (10 samples, 0.1 NPLC, 2 ms) an acquisition takes 0.02 s. */
  lemma DefaultAcquisitionTime()
    ensures AcquisitionTime(DefaultParams) == Success(0.02)
  {
  }

  /** The predicted time grows in proportion to the sample count. */
  lemma {:induction false} AcquisitionTimeProportional(p: Params, n: int)
    requires DefaultParams.Keys <= p.Keys && ToFloat(p[Nplc]).Some? && ToFloat(p[Interval]).Some?
    ensures var r := AcquisitionTime(p[Nsamples := Int(n)]);
            r.Success? && r.value == n as real * ((ToFloat(p[Nplc]).value / LineFrequency + ToFloat(p[Interval]).value) / 2.0)
  {
    var q := p[Nsamples := Int(n)];
    var c := ToFloat(p[Nplc]).value;
    var i := ToFloat(p[Interval]).value;
    assert DefaultParams.Keys <= q.Keys;
    assert ToFloat(q[Nplc]) == Some(c) && ToFloat(q[Interval]) == Some(i);
    assert ToFloat(q[Nsamples]) == Some(n as real);
    var s := c * 1.0 / LineFrequency + i;
    var r := AcquisitionTime(q);
    assert r.Success? && r.value == n as real * s / 2.0;
    var per := (c / LineFrequency + i) / 2.0;
    assert s / 2.0 == per;
    assert n as real * s / 2.0 == n as real * per;
  }

  predicate IsQuote(c: char) { c == '"' }

  /** `reply.strip().strip('"')`: surrounding whitespace, then surrounding double quotes, removed. */
  function CleanReply(reply: string): (r: string)
    ensures |r| <= |reply|
    ensures r != [] ==> !IsQuote(r[0]) && !IsQuote(r[|r| - 1])
  {
    Strip(Strip(reply, Whitespace), Chars({'"'}))
  }

  /** A quoted reply with whitespace around it comes back as the text between the quotes. */
  lemma CleanReplyUnquotes(lead: string, text: string, trail: string)
    requires forall i :: 0 <= i < |lead| ==> IsSpace(lead[i])
    requires forall i :: 0 <= i < |trail| ==> IsSpace(trail[i])
    requires text != [] ==> !IsQuote(text[0]) && !IsQuote(text[|text| - 1])
    ensures CleanReply(lead + "\"" + text + "\"" + trail) == text
  {
    var quoted := "\"" + text + "\"";
    assert lead + "\"" + text + "\"" + trail == lead + quoted + trail;
    assert quoted[0] == '"' && quoted[|quoted| - 1] == '"';
    StripOfPadded(lead, quoted, trail, Whitespace);
    assert quoted == "\"" + text + "\"";
    StripOfPadded("\"", text, "\"", Chars({'"'}));
  }

  /** A reply that neither starts nor ends with whitespace or a quote comes back unchanged. */
  lemma CleanReplyKeepsBareText(reply: string)
    requires reply != [] ==> !IsSpace(reply[0]) && !IsSpace(reply[|reply| - 1])
    requires reply != [] ==> !IsQuote(reply[0]) && !IsQuote(reply[|reply| - 1])
    ensures CleanReply(reply) == reply
  {
    assert [] + reply + [] == reply;
    StripOfPadded([], reply, [], Whitespace);
    StripOfPadded([], reply, [], Chars({'"'}));
  }

  // ---------------------------------------------------------------------
  // The driver object
  // ---------------------------------------------------------------------

  class Keysight {
    var params: Params
    /** The messages written to the instrument, oldest first. */
    var written: seq<Message>
    /** `self.t_acq`, once `acquire` has computed it. */
    var tAcq: Option<real>
    const defaultParams: Params
    const trackedProperties: seq<Key>

    /** A mode is set and every default entry is present; the defaults are never changed. */
    predicate Valid()
      reads this
    {
      && ModeSet(params) && DefaultParams.Keys <= params.Keys
      && defaultParams == DefaultParams && trackedProperties == TrackedProperties
    }

    /** `Keysight()`: the dictionary starts as a copy of the defaults; nothing is written. */
    constructor ()
      ensures Valid() && params == DefaultParams && written == [] && tAcq == None
    {
      defaultParams := DefaultParams;
      trackedProperties := TrackedProperties;
      params := DefaultParams;
      written := [];
      tAcq := None;
    }

    /** `write(message)`: the message goes to the instrument. */
    method Write(message: Message)
      modifies this
      ensures params == old(params) && tAcq == old(tAcq) && written == old(written) + [message]
    {
      written := written + [message];
    }

    method SetMode(mode: Value) returns (raised: Option<PyError>)
      requires Valid()
      modifies this
      ensures Valid() && tAcq == old(tAcq)
      ensures var o := ModeEffect(old(params), mode);
              params == o.params && written == old(written) + o.writes && raised == o.raised
    {
      if !(mode.Str? && IsMode(mode.s)) {
        return Some(ValueError);
      }
      params := params[Mode := mode];
      Write(Msg("SENSe:FUNCtion:ON \"" + mode.s + "\""));
      raised := None;
    }

    method SetRang(range: Value) returns (raised: Option<PyError>)
      requires Valid()
      modifies this
      ensures Valid() && tAcq == old(tAcq)
      ensures var o := RangEffect(old(params), range);
              params == o.params && written == old(written) + o.writes && raised == o.raised
    {
      var m := ModeOf(params);
      params := params[Rang := range];
      if range == Str("AUTO") {
        Write(Msg("SENS:" + m + ":RANG:AUTO ON"));
        return None;
      }
      var x := ToFloat(range);
      if x.None? {
        return Some(ValueError);
      }
      Write(Msg("SENS:" + m + ":RANG:AUTO OFF"));
      Write(MsgWith("SENS:" + m + ":RANG", Float(x.value)));
      raised := None;
    }

    method SetNplc(nplc: Value) returns (raised: Option<PyError>)
      requires Valid()
      modifies this
      ensures Valid() && tAcq == old(tAcq)
      ensures var o := NplcEffect(old(params), nplc);
              params == o.params && written == old(written) + o.writes && raised == o.raised
    {
      var m := ModeOf(params);
      params := params[Nplc := nplc];
      if nplc == Str("AUTO") {
        Write(Msg(":SENS:" + m + ":NPLC:AUTO ON"));
      } else {
        Write(Msg(":SENS:" + m + ":NPLC:AUTO OFF"));
        Write(MsgWith(":SENS:" + m + ":NPLC", nplc));
      }
      raised := None;
    }

    method SetNsamples(nsamples: Value) returns (raised: Option<PyError>)
      requires Valid()
      modifies this
      ensures Valid() && tAcq == old(tAcq)
      ensures var o := NsamplesEffect(old(params), nsamples);
              params == o.params && written == old(written) + o.writes && raised == o.raised
    {
      var n := ToInt(nsamples);
      if n.None? {
        return Some(ValueError);
      }
      params := params[Nsamples := Int(n.value)];
      Write(MsgWith(":TRIG:ACQ:COUN", Int(n.value)));
      raised := None;
    }

    method SetDelay(delay: Value) returns (raised: Option<PyError>)
      requires Valid()
      modifies this
      ensures Valid() && tAcq == old(tAcq)
      ensures var o := DelayEffect(old(params), delay);
              params == o.params && written == old(written) + o.writes && raised == o.raised
    {
      var x := ToFloat(delay);
      if x.None? {
        return Some(ValueError);
      }
      Write(MsgWith(":TRIG:ACQ:DEL", Float(x.value)));
      Write(Msg(":TRIG:SOUR TIM"));
      params := params[Delay := delay];
      raised := None;
    }

    method SetInterval(interval: Value) returns (raised: Option<PyError>)
      requires Valid()
      modifies this
      ensures Valid() && tAcq == old(tAcq)
      ensures var o := IntervalEffect(old(params), interval);
              params == o.params && written == old(written) + o.writes && raised == o.raised
    {
      var x := ToFloat(interval);
      if x.None? {
        return Some(ValueError);
      }
      Write(MsgWith(":TRIG:ACQ:TIM", Float(x.value)));
      params := params[Interval := Float(x.value)];
      raised := None;
    }

    method SetAcquisitionTime(t: Value) returns (raised: Option<PyError>)
      requires Valid()
      modifies this
      ensures Valid() && tAcq == old(tAcq)
      ensures var o := AcquisitionTimeEffect(old(params), t);
              params == o.params && written == old(written) + o.writes && raised == o.raised
    {
      var q := Quotient(t, params[Interval]);
      if q.Failure? {
        return Some(q.error);
      }
      raised := SetNsamples(Int(Trunc(q.value)));
    }

    /** The setter named `set_{Name(key)}`. */
    method SetByKey(key: Key, v: Value) returns (raised: Option<PyError>)
      requires Valid()
      modifies this
      ensures Valid() && tAcq == old(tAcq)
      ensures var o := SetParam(old(params), key, v);
              params == o.params && written == old(written) + o.writes && raised == o.raised
    {
      match key
      case Mode => raised := SetMode(v);
      case Rang => raised := SetRang(v);
      case Nplc => raised := SetNplc(v);
      case Nsamples => raised := SetNsamples(v);
      case Delay => raised := SetDelay(v);
      case Interval => raised := SetInterval(v);
    }

    /**
     * `sync_tracked_properties`: calls the setters in the tracked order with
     * the default values. Afterwards every tracked entry is at its default.
     */
    method SyncTrackedProperties() returns (raised: Option<PyError>)
      requires Valid()
      modifies this
      ensures Valid() && tAcq == old(tAcq)
      ensures var o := Replay(old(params), TrackedProperties);
              params == o.params && written == old(written) + o.writes && raised == o.raised
      ensures params == old(params) + DefaultParams && written == old(written) + SyncWrites && raised == None
    {
      var i := 0;
      while i < |trackedProperties|
        invariant 0 <= i <= |trackedProperties| && Valid() && tAcq == old(tAcq)
        invariant var o := Replay(old(params), TrackedProperties[..i]);
                  params == o.params && written == old(written) + o.writes && o.raised == None
      {
        ghost var before := written;
        SyncStep(old(params), i);
        var e := SetByKey(trackedProperties[i], defaultParams[trackedProperties[i]]);
        AppendAssociates(old(written), Replay(old(params), TrackedProperties[..i]).writes, written[|before|..]);
        i := i + 1;
      }
      assert TrackedProperties[..i] == TrackedProperties;
      SyncRestoresDefaults(old(params));
      raised := None;
    }

    /**
     * `acquire`: stores the predicted acquisition time and starts the
     * acquisition with `:INIT:ACQ`; the wait loop is not modelled.
     */
    method Acquire() returns (raised: Option<PyError>)
      requires Valid()
      modifies this
      ensures Valid() && params == old(params)
      ensures match AcquisitionTime(old(params))
              case Failure(e) => raised == Some(e) && written == old(written) && tAcq == old(tAcq)
              case Success(t) => raised == None && tAcq == Some(t) && written == old(written) + [Msg(":INIT:ACQ")]
    {
      match AcquisitionTime(params)
      case Failure(e) =>
        raised := Some(e);
      case Success(t) =>
        tAcq := Some(t);
        Write(Msg(":INIT:ACQ"));
        raised := None;
    }

    /**
     * `query(command)`: the command goes out and the instrument's reply is
     * cleaned; `reply` is `None` when VISA reports an I/O error, and then so
     * is the result.
     */
    method Query(command: string, reply: Option<string>) returns (r: Option<string>)
      modifies this
      ensures params == old(params) && tAcq == old(tAcq) && written == old(written) + [Msg(command)]
      ensures r == match reply case None => None case Some(text) => Some(CleanReply(text))
    {
      Write(Msg(command));
      match reply
      case None =>
        r := None;
      case Some(text) =>
        r := Some(CleanReply(text));
    }
  }
}
