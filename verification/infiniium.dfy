/**
 * The string logic of the `Infiniium` oscilloscope session: the fields of the
 * `*IDN?` identity reply, the firmware comparison, and the exact SCPI command
 * text handed to the transport by the setup and measurement helpers.
 */
module Infiniium {
  import opened PyResult
  import StrSplit
  import StrStrip
  import StrOrder
  import StrFormat

  /**
   * A session as the modelled members see it: `_instID`, the reply to `*IDN?`
   * (manufacturer, model, serial number, firmware, comma separated), or the
   * empty string when the connection could not be made.
   */
  datatype Instrument = Instrument(instID: string)

  /** What a member hands to the transport: text to `write`, or text to `query`. */
  datatype Command = Write(text: string) | Query(text: string)

  /** How many commas the identity holds (one fewer than its fields). */
  function Commas(inst: Instrument): nat
  {
    multiset(inst.instID)[',']
  }

  /**
   * End result of `__init__`: the `*IDN?` reply when the handshake succeeds;
   * otherwise `_instID` keeps its initial `''`, and then every identity field
   * accessor raises IndexError.
   */
  function Connect(idnReply: Option<string>): (inst: Instrument)
    ensures idnReply.Some? ==> inst.instID == idnReply.value
    ensures idnReply.None? ==> inst.instID == []
    ensures idnReply.None? ==>
      && Model(inst) == Err(IndexError)
      && Hostname(inst) == Err(IndexError)
      && SerialNumber(inst) == Err(IndexError)
      && Firmware(inst) == Err(IndexError)
  {
    match idnReply
    case Some(reply) => Instrument(reply)
    case None => Instrument([])
  }

  /** `self._instID.split(",")[i]`: field `i`, or IndexError past the last field. */
  function IdnField(inst: Instrument, i: nat): (r: Result<string>)
    ensures r.Ok? <==> i <= Commas(inst)
    ensures r.Ok? ==> ',' !in r.value
    ensures r.Err? ==> r.error == IndexError
  {
    var fields := StrSplit.Split(inst.instID, ',');
    if i < |fields| then Ok(fields[i]) else Err(IndexError)
  }

  /** Property `model`: field 1; IndexError when the identity has no comma. */
  function Model(inst: Instrument): (r: Result<string>)
    ensures r.Ok? <==> Commas(inst) >= 1
    ensures r.Ok? ==> ',' !in r.value
    ensures r.Err? ==> r.error == IndexError
  {
    IdnField(inst, 1)
  }

  /** Property `hostname`: field 2 (the same field as the serial number). */
  function Hostname(inst: Instrument): (r: Result<string>)
    ensures r.Ok? <==> Commas(inst) >= 2
    ensures r.Ok? ==> ',' !in r.value
    ensures r.Err? ==> r.error == IndexError
  {
    IdnField(inst, 2)
  }

  /** Property `serialnumber`: field 2. */
  function SerialNumber(inst: Instrument): (r: Result<string>)
    ensures r.Ok? <==> Commas(inst) >= 2
    ensures r.Ok? ==> ',' !in r.value
    ensures r.Err? ==> r.error == IndexError
  {
    IdnField(inst, 2)
  }

  /**
   * Property `firmware`: field 3 with every leading and trailing newline removed,
   * so it neither starts nor ends with one; IndexError below four fields.
   */
  function Firmware(inst: Instrument): (r: Result<string>)
    ensures r.Ok? <==> Commas(inst) >= 3
    ensures r.Ok? ==> ',' !in r.value && StrStrip.Clean(r.value, '\n')
    ensures r.Err? ==> r.error == IndexError
  {
    match IdnField(inst, 3)
    case Ok(f) =>
      var s := StrStrip.Strip(f, '\n');
      assert forall k :: 0 <= k < |s| ==> s[k] in f;
      Ok(s)
    case Err(e) => Err(e)
  }

  /** `hostname` and `serialnumber` read the same field, so they always agree. */
  lemma HostnameIsSerialNumber(inst: Instrument)
    ensures Hostname(inst) == SerialNumber(inst)
  {
  }

  /**
   * On an identity joined from comma-free fields, `split(",")[i]` is field `i`
   * when there is one, and IndexError past the last field.
   */
  lemma IdnFieldOfJoin(fields: seq<string>, i: nat)
    requires |fields| >= 1
    requires forall k :: 0 <= k < |fields| ==> ',' !in fields[k]
    ensures IdnField(Instrument(StrSplit.Join(fields, ',')), i)
      == if i < |fields| then Ok(fields[i]) else Err(IndexError)
  {
    StrSplit.SplitJoin(fields, ',');
  }

  /**
   * Reading back an identity joined from comma-free fields (manufacturer, model,
   * serial number, firmware, and possibly more): `model` is field 1,
   * `hostname` and `serialnumber` are field 2, `firmware` is field 3 with its
   * newlines stripped, each raising IndexError when the identity is too short.
   */
  lemma IdentityFields(fields: seq<string>)
    requires |fields| >= 1
    requires forall i :: 0 <= i < |fields| ==> ',' !in fields[i]
    ensures var inst := Instrument(StrSplit.Join(fields, ','));
      && Model(inst) == (if |fields| > 1 then Ok(fields[1]) else Err(IndexError))
      && Hostname(inst) == (if |fields| > 2 then Ok(fields[2]) else Err(IndexError))
      && SerialNumber(inst) == (if |fields| > 2 then Ok(fields[2]) else Err(IndexError))
      && Firmware(inst) == (if |fields| > 3 then Ok(StrStrip.Strip(fields[3], '\n')) else Err(IndexError))
  {
    StrSplit.SplitJoin(fields, ',');
  }

  /** A two-field reply still has a model. */
  lemma ShortIdentityExample()
    ensures Model(Instrument("KEYSIGHT,UXR")) == Ok("UXR")
  {
    ShortIdentityJoin();
    IdnFieldOfJoin(["KEYSIGHT", "UXR"], 1);
  }

  /** That reply is the join of its two fields. */
  lemma ShortIdentityJoin()
    ensures StrSplit.Join(["KEYSIGHT", "UXR"], ',') == "KEYSIGHT,UXR"
  {
    assert ["KEYSIGHT", "UXR"][1..] == ["UXR"];
    assert "KEYSIGHT" + "," + "UXR" == "KEYSIGHT,UXR";
  }

  /** The identity reply of a UXR scope is the join of its four fields. */
  lemma IdentityExampleJoin()
    ensures StrSplit.Join(["KEYSIGHT", "UXR0104A", "MY12345678", "6.5.0.0\n"], ',')
      == "KEYSIGHT,UXR0104A,MY12345678,6.5.0.0\n"
  {
    var fw := "6.5.0.0\n";
    var fields := ["KEYSIGHT", "UXR0104A", "MY12345678", fw];
    assert fields[1..] == ["UXR0104A", "MY12345678", fw];
    assert fields[2..] == ["MY12345678", fw];
    assert fields[3..] == [fw];
    assert StrSplit.Join(fields[2..], ',') == "MY12345678" + "," + fw;
    assert StrSplit.Join(fields[1..], ',') == "UXR0104A" + "," + ("MY12345678" + "," + fw);
    assert "KEYSIGHT" + "," + ("UXR0104A" + "," + ("MY12345678" + "," + fw)) == "KEYSIGHT,UXR0104A,MY12345678,6.5.0.0\n";
  }

  /** The identity reply of a UXR scope: its model and serial number. */
  lemma IdentityExample()
    ensures var inst := Instrument("KEYSIGHT,UXR0104A,MY12345678,6.5.0.0\n");
      && Model(inst) == Ok("UXR0104A")
      && Hostname(inst) == Ok("MY12345678")
      && SerialNumber(inst) == Ok("MY12345678")
  {
    IdentityExampleJoin();
    IdentityFields(["KEYSIGHT", "UXR0104A", "MY12345678", "6.5.0.0\n"]);
  }

  /** The identity reply of a UXR scope: its firmware, without the final newline. */
  lemma FirmwareExample()
    ensures Firmware(Instrument("KEYSIGHT,UXR0104A,MY12345678,6.5.0.0\n")) == Ok("6.5.0.0")
  {
    IdentityExampleJoin();
    IdentityFields(["KEYSIGHT", "UXR0104A", "MY12345678", "6.5.0.0\n"]);
    FirmwareFieldExample();
  }

  /** Stripping the firmware field of that reply drops its final newline. */
  lemma FirmwareFieldExample()
    ensures StrStrip.Strip("6.5.0.0\n", '\n') == "6.5.0.0"
  {
    var fw := "6.5.0.0\n";
    StrStrip.StripRemovesPadding(fw, '\n', 0, 7);
    assert fw[0..7] == "6.5.0.0";
  }

  /**
   * The heart of `check_firmware`: sort `[candidate, own]` as strings and answer
   * "newer" exactly when `own` comes first, i.e. when `own <= candidate`.
   */
  function CompareFirmware(own: string, candidate: string): (verdict: string)
    ensures verdict == "newer" || verdict == "older"
    ensures verdict == "newer" <==> StrOrder.LessEq(own, candidate)
  {
    var x := StrOrder.Sorted2(candidate, own);
    StrOrder.LessAsymmetric(own, candidate);
    if x[0] == own then "newer" else "older"
  }

  /** `check_firmware(candidate)`: raises whatever `firmware` raises, else compares. */
  function CheckFirmware(inst: Instrument, candidate: string): (r: Result<string>)
    ensures r.Ok? <==> Commas(inst) >= 3
    ensures r.Err? ==> r.error == IndexError
    ensures r.Ok? ==> r.value == "newer" || r.value == "older"
    ensures r.Ok? ==> (r.value == "newer" <==> StrOrder.LessEq(Firmware(inst).value, candidate))
  {
    match Firmware(inst)
    case Ok(own) => Ok(CompareFirmware(own, candidate))
    case Err(e) => Err(e)
  }

  /** For two different versions, swapping which one is the instrument's flips the answer. */
  lemma CompareFirmwareSwap(a: string, b: string)
    requires a != b
    ensures CompareFirmware(a, b) != CompareFirmware(b, a)
  {
    StrOrder.LessTotal(a, b);
    StrOrder.LessAsymmetric(a, b);
  }

  /** The comparison is on characters, not on numbers: "10.0" sorts before "2.0". */
  lemma CompareFirmwareExamples()
    ensures CompareFirmware("6.5", "6.4") == "older"
    ensures CompareFirmware("6.5", "6.6") == "newer"
    ensures CompareFirmware("6.5", "6.5") == "newer"
    ensures CompareFirmware("2.0", "10.0") == "older"
  {
  }

  /** `default_setup`: writes the preset-to-default command. */
  function DefaultSetup(): (c: Command)
    ensures c == Write(":SYSTem:PRESet DEFault")
  {
    Write(":SYSTem:PRESet DEFault")
  }

  /**
   * `setVerticalscale(vscale)`: writes the channel-1 scale control command with
   * `vscale / 1000` (millivolts to volts per division) placed inside the quotes.
   * `render` stands for Python's `str` of the number.
   */
  function SetVerticalscale(render: real -> string, vscale: real): (r: Result<Command>)
    ensures r == Ok(Write(":SYSTem:CONTrol \"Chan1Scale -1 " + render(vscale / 1000.0) + "\""))
  {
    var volts := render(vscale / 1000.0);
    var template := ":SYSTem:CONTrol \"Chan1Scale -1 {}\"";
    assert template == ":SYSTem:CONTrol \"Chan1Scale -1 " + "{}" + "\"";
    StrFormat.FormatOneField(":SYSTem:CONTrol \"Chan1Scale -1 ", "\"", volts);
    match StrFormat.Format(template, [volts])
    case Ok(text) => Ok(Write(text))
    case Err(e) => Err(e)
  }

  /**
   * `setTimescale(tscale)` as written: the template `:TIMebase:SCALe %s` has no
   * `{}` field, so `format` leaves it as it is and the scale never reaches the
   * instrument.
   */
  function SetTimescale(render: real -> string, tscale: real): (r: Result<Command>)
    ensures r == Ok(Write(":TIMebase:SCALe %s"))
  {
    var seconds := render(tscale * 0.000000001);
    assert StrFormat.BraceFree(":TIMebase:SCALe %s");
    match StrFormat.Format(":TIMebase:SCALe %s", [seconds])
    case Ok(text) => Ok(Write(text))
    case Err(e) => Err(e)
  }

  /**
   * `setTimescale(tscale)` as intended: the scale, converted from nanoseconds to
   * seconds per division, follows the command header.
   */
  function SetTimescaleIntended(render: real -> string, tscale: real): (r: Result<Command>)
    ensures r == Ok(Write(":TIMebase:SCALe " + render(tscale * 0.000000001)))
  {
    var seconds := render(tscale * 0.000000001);
    var template := ":TIMebase:SCALe {}";
    assert template == ":TIMebase:SCALe " + "{}" + "";
    StrFormat.FormatOneField(":TIMebase:SCALe ", "", seconds);
    assert ":TIMebase:SCALe " + seconds + "" == ":TIMebase:SCALe " + seconds;
    match StrFormat.Format(template, [seconds])
    case Ok(text) => Ok(Write(text))
    case Err(e) => Err(e)
  }

  /** The as-written `setTimescale` sends the same text whatever the scale. */
  lemma SetTimescaleIgnoresScale(render: real -> string, tscale: real, render': real -> string, tscale': real)
    ensures SetTimescale(render, tscale) == SetTimescale(render', tscale')
  {
  }

  /**
   * The as-written `setTimescale` differs from the intended command whenever the
   * rendered scale is anything but the two characters `%s`.
   */
  lemma SetTimescaleMissesIntended(render: real -> string, tscale: real)
    ensures render(tscale * 0.000000001) != "%s" ==>
      SetTimescale(render, tscale) != SetTimescaleIntended(render, tscale)
  {
    var seconds := render(tscale * 0.000000001);
    var sent := ":TIMebase:SCALe %s";
    var meant := ":TIMebase:SCALe " + seconds;
    assert sent[16..] == "%s";
    assert meant[16..] == seconds;
  }

  /** Default arguments of `setVerticalscale` (mV/div) and `setTimescale` (ns/div). */
  const DefaultVscale: real := 50.0
  const DefaultTscale: real := 100.0

  /**
   * With their defaults, `setVerticalscale` asks for 0.05 V/div, the intended
   * `setTimescale` for 1e-7 s/div, and the as-written one still sends `%s`.
   */
  lemma ScaleDefaults(render: real -> string)
    ensures SetVerticalscale(render, DefaultVscale)
      == Ok(Write(":SYSTem:CONTrol \"Chan1Scale -1 " + render(0.05) + "\""))
    ensures SetTimescaleIntended(render, DefaultTscale) == Ok(Write(":TIMebase:SCALe " + render(0.0000001)))
    ensures SetTimescale(render, DefaultTscale) == Ok(Write(":TIMebase:SCALe %s"))
  {
    assert DefaultVscale / 1000.0 == 0.05;
    assert DefaultTscale * 0.000000001 == 0.0000001;
  }

  /** Default arguments of `get_period`. */
  const DefaultChannel := "CHANnel1"
  const DefaultDirection := "RISing"

  /**
   * `get_period(instr, channel, direction)`: queries the period measurement of
   * `channel` on `direction` edges, the two joined by ", ".
   */
  function GetPeriod(channel: string, direction: string): (r: Result<Command>)
    ensures r == Ok(Query(":MEASure:PERiod " + channel + ", " + direction))
  {
    var template := ":MEASure:PERiod {}, {}";
    assert template == ":MEASure:PERiod " + "{}" + ", {}";
    assert ", {}" == ", " + "{}" + "";
    StrFormat.FormatOneField(", ", "", direction);
    assert ", " + direction + "" == ", " + direction;
    StrFormat.FormatField(":MEASure:PERiod ", ", {}", channel, [direction]);
    assert [channel] + [direction] == [channel, direction];
    assert (":MEASure:PERiod " + channel) + (", " + direction) == ":MEASure:PERiod " + channel + ", " + direction;
    match StrFormat.Format(template, [channel, direction])
    case Ok(text) => Ok(Query(text))
    case Err(e) => Err(e)
  }

  /** With its defaults, `get_period` measures rising edges on channel 1. */
  lemma GetPeriodDefaults()
    ensures GetPeriod(DefaultChannel, DefaultDirection) == Ok(Query(":MEASure:PERiod CHANnel1, RISing"))
  {
    assert ":MEASure:PERiod " + DefaultChannel + ", " + DefaultDirection == ":MEASure:PERiod CHANnel1, RISing";
  }

  /**
   * The transport ends every message with `'\n'`, the write terminator set in
   * `__init__`, so a command reaches the instrument as one message only when
   * its text holds no newline. Every command here also starts with a `:` header.
   */
  predicate OneMessage(c: Command)
  {
    |c.text| > 0 && c.text[0] == ':' && '\n' !in c.text
  }

  /**
   * Every command the session builds is a single message, provided the
   * caller's channel and direction and the rendered numbers hold no newline.
   */
  lemma CommandsAreOneMessage(render: real -> string, vscale: real, tscale: real, channel: string, direction: string)
    requires '\n' !in render(vscale / 1000.0) && '\n' !in render(tscale * 0.000000001)
    requires '\n' !in channel && '\n' !in direction
    ensures OneMessage(DefaultSetup())
    ensures OneMessage(SetVerticalscale(render, vscale).value)
    ensures OneMessage(SetTimescale(render, tscale).value)
    ensures OneMessage(SetTimescaleIntended(render, tscale).value)
    ensures OneMessage(GetPeriod(channel, direction).value)
  {
  }
}
