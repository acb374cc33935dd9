/** The konashi5 analog driver: three pins that can each be an ADC input or a
    VDAC/IDAC output, the references those converters use, and the mirrors of
    configuration, output and input that the device's notifications replace.
    The analog driver never consults the GPIO pin table. */
module Analog {
  import opened Wire
  import opened Transport
  import Frames
  import Gpio
  import HardPwm

  const PIN_COUNT := 3
  const CFG_CMD_ANALOG: Byte := 0x04
  const CTL_CMD_ANALOG: Byte := 0x04
  const UUID_CONFIG_GET := "064d0205-8251-49d9-b6f3-f7ba35e5d0a1"
  const UUID_OUTPUT_GET := "064d0306-8251-49d9-b6f3-f7ba35e5d0a1"
  const UUID_INPUT := "064d0307-8251-49d9-b6f3-f7ba35e5d0a1"

  /** ADC references: DISABLE, 1.25 V, 2.5 V and VDD. */
  const ADC_DISABLE := 0
  const ADC_1V25 := 1
  const ADC_2V5 := 2
  const ADC_VDD := 3
  /** VDAC references: DISABLE, 1.25 V and 2.5 V low-noise, 1.25 V, 2.5 V, VDD. */
  const VDAC_DISABLE := 0
  const VDAC_1V25LN := 1
  const VDAC_2V5LN := 2
  const VDAC_1V25 := 3
  const VDAC_2V5 := 4
  const VDAC_VDD := 5
  /** IDAC ranges: DISABLE, then RANGE0 to RANGE3. */
  const IDAC_DISABLE := 0
  const IDAC_RANGE_COUNT := 4

  /** The sub-commands of the analog configuration command: the high nibble
      of the byte after the selector. */
  const SUB_ADC_PERIOD: Nibble := 0xF
  const SUB_ADC_REF: Nibble := 0xE
  const SUB_VDAC_REF: Nibble := 0xD
  const SUB_IDAC_RANGE: Nibble := 0xC

  /** One pin's configuration byte: direction in bit 0 (1 is output),
      send-on-change in bit 1 and enabled in bit 3. */
  datatype PinConfig = PinConfig(direction: Bit, sendOnChange: Bit, enabled: Bit)

  /** The SDK's constructor. A one-bit ctypes field keeps the low bit of what
      it is given. */
  function NewPinConfig(enabled: bool, direction: int, sendOnChange: bool): (c: PinConfig)
    ensures c.enabled == 1 <==> enabled
    ensures c.sendOnChange == 1 <==> sendOnChange
    ensures direction in {0, 1} ==> c.direction == direction
  {
    PinConfig(direction % 2, BitOf(sendOnChange), BitOf(enabled))
  }

  function EncodePinConfig(c: PinConfig): (b: Byte)
    ensures b < 0x10
  {
    c.direction + 2 * c.sendOnChange + 8 * c.enabled
  }

  /** Reads a configuration byte, ignoring the padding bits. */
  function DecodePinConfig(b: Byte): PinConfig {
    PinConfig(b % 2, (b / 2) % 2, (b / 8) % 2)
  }

  lemma PinConfigRoundTrip(c: PinConfig)
    ensures DecodePinConfig(EncodePinConfig(c)) == c
  {
    var b := EncodePinConfig(c);
    assert b / 2 == c.sendOnChange + 4 * c.enabled;
    assert b / 8 == c.enabled;
  }

  /** The converter settings: ADC update period, then the ADC reference, the
      VDAC reference and the IDAC range, each in the low nibble of a byte. */
  datatype AnalogConfig = AnalogConfig(adcPeriod: Byte, adcRef: Nibble, vdacRef: Nibble, idacRange: Nibble)

  /** The configuration mirror: three pin bytes, then the converter settings. */
  datatype Config = Config(pins: seq<PinConfig>, analog: AnalogConfig)

  const CONFIG_SIZE := 7

  function DecodeConfig(s: seq<Byte>): (c: Config)
    requires |s| >= CONFIG_SIZE
    ensures |c.pins| == PIN_COUNT
  {
    Config(seq(PIN_COUNT, i requires 0 <= i < PIN_COUNT => DecodePinConfig(s[i])),
           AnalogConfig(s[3], s[4] % 0x10, s[5] % 0x10, s[6] % 0x10))
  }

  /** A pin's output as the device reports it: a valid byte, then the
      control (the hardware PWM driver's six-byte control record). */
  datatype PinOut = PinOut(valid: Byte, control: HardPwm.PinControl)

  /** The output mirror: the IDAC range and VDAC reference in one byte, then
      three seven-byte pin records. */
  datatype Outputs = Outputs(idacRange: Nibble, vdacRef: Nibble, pins: seq<PinOut>)

  const OUTPUTS_SIZE := 22

  function DecodeOutputs(s: seq<Byte>): (o: Outputs)
    requires |s| >= OUTPUTS_SIZE
    ensures |o.pins| == PIN_COUNT
  {
    Outputs(s[0] % 0x10, s[0] / 0x10,
            seq(PIN_COUNT, i requires 0 <= i < PIN_COUNT => PinOut(s[1 + 7 * i], HardPwm.DecodeControl(s, 2 + 7 * i))))
  }

  /** A pin's input: a valid byte, then the ADC value. */
  datatype PinIn = PinIn(valid: Byte, value: U16)

  /** The input mirror: the ADC reference, then three three-byte pin records. */
  datatype Inputs = Inputs(adcRef: Nibble, pins: seq<PinIn>)

  const INPUTS_SIZE := 10

  function DecodeInputs(s: seq<Byte>): (n: Inputs)
    requires |s| >= INPUTS_SIZE
    ensures |n.pins| == PIN_COUNT
    ensures forall i :: 0 <= i < PIN_COUNT ==> n.pins[i].valid == s[1 + 3 * i] && n.pins[i].value == ReadLE16(s, 2 + 3 * i)
  {
    Inputs(s[0] % 0x10, seq(PIN_COUNT, i requires 0 <= i < PIN_COUNT => PinIn(s[1 + 3 * i], ReadLE16(s, 2 + 3 * i))))
  }

  /** The pins whose input changed: for each pin below n in ascending order
      whose new record is valid and whose value differs from the mirrored
      one, the pin and its new value. */
  function Changes(prev: seq<PinIn>, next: seq<PinIn>, n: nat): seq<(nat, U16)>
    requires n <= |prev| && n <= |next|
  {
    if n == 0 then []
    else
      Changes(prev, next, n - 1)
      + if next[n - 1].valid != 0 && next[n - 1].value != prev[n - 1].value then [(n - 1, next[n - 1].value)] else []
  }

  /** A pin fires exactly when its new record is valid and its value differs
      from the mirrored one, it fires with the new value, and the pins fire in
      ascending order. */
  lemma {:induction false} ChangesExact(prev: seq<PinIn>, next: seq<PinIn>, n: nat)
    requires n <= |prev| && n <= |next|
    ensures forall i: nat, v :: (i, v) in Changes(prev, next, n) <==>
              i < n && next[i].valid != 0 && next[i].value != prev[i].value && v == next[i].value
    ensures forall k, m :: 0 <= k < m < |Changes(prev, next, n)| ==> Changes(prev, next, n)[k].0 < Changes(prev, next, n)[m].0
  {
    if n > 0 {
      ChangesExact(prev, next, n - 1);
    }
  }

  /** Once the mirror holds a frame, the same frame again fires nothing. */
  lemma {:induction false} RepeatedInputQuiet(pins: seq<PinIn>, n: nat)
    requires n <= |pins|
    ensures Changes(pins, pins, n) == []
  {
    if n > 0 {
      RepeatedInputQuiet(pins, n - 1);
    }
  }

  /** The full scale of the ADC for a reference, if the reference is known and
      not DISABLE. */
  function AdcScale(adcRef: Nibble): (v: Option<real>)
    ensures v.Some? <==> adcRef in {ADC_1V25, ADC_2V5, ADC_VDD}
    ensures v.Some? ==> v.value in {1.25, 2.5, 3.3}
  {
    if adcRef == ADC_1V25 then Some(1.25)
    else if adcRef == ADC_2V5 then Some(2.5)
    else if adcRef == ADC_VDD then Some(3.3)
    else None
  }

  /** `_calc_voltage_for_value`: an ADC value in volts, or nothing when the
      reference is DISABLE or unknown. */
  function VoltageForValue(adcRef: Nibble, value: int): (v: Option<real>)
    ensures v.Some? <==> AdcScale(adcRef).Some?
    ensures v.Some? ==> v.value * 65535.0 == value as real * AdcScale(adcRef).value
  {
    match AdcScale(adcRef)
    case None => None
    case Some(scale) => Some(value as real * scale / 65535.0)
  }

  /** An ADC value maps into [0, full scale], the largest value to the full
      scale itself, and a larger value never reads lower. */
  lemma VoltageRange(adcRef: Nibble, value: U16, other: U16)
    requires AdcScale(adcRef).Some? && value <= other
    ensures var scale := AdcScale(adcRef).value;
            0.0 <= VoltageForValue(adcRef, value).value <= scale
            && VoltageForValue(adcRef, value).value <= VoltageForValue(adcRef, other).value
            && VoltageForValue(adcRef, 0xFFFF).value == scale
  {
    var scale := AdcScale(adcRef).value;
    assert value as real * scale <= other as real * scale;
    assert value as real * scale <= 65535.0 * scale;
  }

  /** The full scale of the VDAC for a reference: Disabled for DISABLE,
      Invalid for a code the SDK does not name. */
  function VdacScale(vdacRef: Nibble): (r: Result<real>)
    ensures r == Err(Disabled) <==> vdacRef == VDAC_DISABLE
    ensures r == Err(Invalid) <==> vdacRef > VDAC_VDD
    ensures r.Ok? ==> r.value in {1.25, 2.5, 3.3}
  {
    if vdacRef == VDAC_DISABLE then Err(Disabled)
    else if vdacRef == VDAC_1V25LN || vdacRef == VDAC_1V25 then Ok(1.25)
    else if vdacRef == VDAC_2V5LN || vdacRef == VDAC_2V5 then Ok(2.5)
    else if vdacRef == VDAC_VDD then Ok(3.3)
    else Err(Invalid)
  }

  /** `calc_control_value_for_voltage` as written: only voltages above the
      full scale are refused. */
  function ControlValueForVoltage(vdacRef: Nibble, voltage: real): (r: Result<int>)
    ensures VdacScale(vdacRef).Err? ==> r == Err(VdacScale(vdacRef).error)
    ensures VdacScale(vdacRef).Ok? ==> (r == Err(ValueError) <==> voltage > VdacScale(vdacRef).value)
    ensures r.Ok? ==> r.value <= 4095
    ensures r.Ok? ==> VdacScale(vdacRef).Ok?
                      && -0.5 <= r.value as real - voltage * 4095.0 / VdacScale(vdacRef).value <= 0.5
  {
    match VdacScale(vdacRef)
    case Err(e) => Err(e)
    case Ok(scale) =>
      if voltage > scale then Err(ValueError)
      else
        var x := voltage * 4095.0 / scale;
        assert x <= 4095.0 by {
          assert voltage * 4095.0 <= scale * 4095.0;
        }
        RoundBetween(x, x.Floor, 4095);
        Ok(Round(x))
  }

  /** The ends of the scale: 0 V gives 0 and the full scale gives 4095. */
  lemma VoltageEnds(vdacRef: Nibble)
    requires VdacScale(vdacRef).Ok?
    ensures ControlValueForVoltage(vdacRef, 0.0) == Ok(0)
    ensures ControlValueForVoltage(vdacRef, VdacScale(vdacRef).value) == Ok(4095)
  {
    var scale := VdacScale(vdacRef).value;
    assert scale * 4095.0 / scale == 4095.0;
    RoundInt(0);
    RoundInt(4095);
  }

  /** A negative voltage passes the range check and yields a negative control
      value, although the error message states the range as [0, full scale]. */
  lemma NegativeVoltageAccepted()
    ensures ControlValueForVoltage(VDAC_1V25, -1.25) == Ok(-4095)
  {
    RoundInt(-4095);
  }

  /** `calc_control_value_for_voltage` with the range the error message
      states: voltages below 0 are refused too. */
  function ControlValueForVoltageChecked(vdacRef: Nibble, voltage: real): (r: Result<int>)
    ensures VdacScale(vdacRef).Err? ==> r == Err(VdacScale(vdacRef).error)
    ensures VdacScale(vdacRef).Ok? ==> (r == Err(ValueError) <==> !(0.0 <= voltage <= VdacScale(vdacRef).value))
    ensures r.Ok? ==> 0 <= r.value <= 4095
    ensures r.Ok? ==> r == ControlValueForVoltage(vdacRef, voltage)
  {
    if VdacScale(vdacRef).Ok? && voltage < 0.0 then Err(ValueError)
    else
      var r := ControlValueForVoltage(vdacRef, voltage);
      if r.Ok? then
        var scale := VdacScale(vdacRef).value;
        assert 0.0 <= voltage * 4095.0 / scale;
        RoundBetween(voltage * 4095.0 / scale, 0, 4095);
        r
      else r
  }

  /** The end points of each IDAC range in µA: Disabled for DISABLE, Invalid
      past RANGE3. */
  function IdacSpan(idacRange: Nibble): (r: Result<(real, real)>)
    ensures r == Err(Disabled) <==> idacRange == IDAC_DISABLE
    ensures r == Err(Invalid) <==> idacRange > IDAC_RANGE_COUNT
    ensures r.Ok? ==> 0.0 < r.value.0 < r.value.1
  {
    if idacRange == IDAC_DISABLE then Err(Disabled)
    else if idacRange == 1 then Ok((0.05, 1.6))
    else if idacRange == 2 then Ok((1.6, 4.7))
    else if idacRange == 3 then Ok((0.5, 16.0))
    else if idacRange == 4 then Ok((2.0, 64.0))
    else Err(Invalid)
  }

  /** `calc_control_value_for_current`: the step within the range, 0 to 31. */
  function ControlValueForCurrent(idacRange: Nibble, current: real): (r: Result<int>)
    ensures IdacSpan(idacRange).Err? ==> r == Err(IdacSpan(idacRange).error)
    ensures IdacSpan(idacRange).Ok? ==>
              (r == Err(ValueError) <==> !(IdacSpan(idacRange).value.0 <= current <= IdacSpan(idacRange).value.1))
    ensures r.Ok? ==> 0 <= r.value <= 31
    ensures r.Ok? ==> IdacSpan(idacRange).Ok?
                      && var (first, last) := IdacSpan(idacRange).value;
                         -0.5 <= r.value as real - (current - first) * 31.0 / (last - first) <= 0.5
  {
    match IdacSpan(idacRange)
    case Err(e) => Err(e)
    case Ok((first, last)) =>
      if !(first <= current <= last) then Err(ValueError)
      else
        var x := (current - first) * 31.0 / (last - first);
        assert 0.0 <= x <= 31.0 by {
          assert (current - first) * 31.0 <= (last - first) * 31.0;
        }
        RoundBetween(x, 0, 31);
        Ok(Round(x))
  }

  /** The ends of a range map to the ends of the scale. */
  lemma CurrentEnds(idacRange: Nibble)
    requires IdacSpan(idacRange).Ok?
    ensures ControlValueForCurrent(idacRange, IdacSpan(idacRange).value.0) == Ok(0)
    ensures ControlValueForCurrent(idacRange, IdacSpan(idacRange).value.1) == Ok(31)
  {
    RoundInt(0);
    RoundInt(31);
  }

  /** `config_adc_period`: the period in seconds must lie in [0.1, 25.6]; the
      device takes it in tenths of a second, less one. */
  function AdcPeriodFrame(period: real): (r: Result<seq<Byte>>)
    ensures r.Ok? <==> 0.1 <= period <= 25.6
    ensures r.Err? ==> r.error == ValueError
    ensures r.Ok? ==> |r.value| == 3 && r.value[0] == CFG_CMD_ANALOG && r.value[1] == HighLow(SUB_ADC_PERIOD, 0)
    ensures r.Ok? ==> r.value[2] == Round(period * 10.0) - 1
                      && period - 0.05 <= (r.value[2] as int + 1) as real / 10.0 <= period + 0.05
  {
    if period < 0.1 || period > 25.6 then Err(ValueError)
    else
      RoundBetween(period * 10.0, 1, 256);
      var v := Round(period * 10.0) - 1;
      Ok([CFG_CMD_ANALOG, HighLow(SUB_ADC_PERIOD, 0), v % 0x100])
  }

  /** `config_adc_ref`, `config_vdac_ref` and `config_idac_range`: the
      sub-command above the low nibble of the setting. */
  function SettingFrame(sub: Nibble, setting: int): (frame: seq<Byte>)
    ensures |frame| == 2 && frame[0] == CFG_CMD_ANALOG
    ensures frame[1] / 0x10 == sub
    ensures 0 <= setting < 0x10 ==> frame[1] % 0x10 == setting
  {
    [CFG_CMD_ANALOG, HighLow(sub, setting % 0x10)]
  }

  /** The analog driver takes any pin the mask selects. */
  function NoCheck<C>(): (nat, C) -> Option<Error> {
    (i: nat, c: C) => None
  }

  /** A configured pin's byte: the index above the configuration byte's low
      nibble. */
  function ConfigEmit(): (nat, PinConfig) -> seq<Byte> {
    (i: nat, c: PinConfig) => [HighLow(i % 0x10, EncodePinConfig(c) % 0x10)]
  }

  function ConfigFrame(configs: seq<(int, PinConfig)>): Result<seq<Byte>> {
    Frames.Assemble(CFG_CMD_ANALOG, configs, PIN_COUNT, NoCheck(), ConfigEmit())
  }

  function ControlFrame(controls: seq<(int, HardPwm.PinControl)>): Result<seq<Byte>> {
    Frames.Assemble(CTL_CMD_ANALOG, controls, PIN_COUNT, NoCheck(), HardPwm.ControlEmit())
  }

  /** The configuration frame always builds: one byte per selected pin, the
      pin index in the high nibble and a low nibble that reads back as the
      configuration given. */
  lemma ConfigFrameLayout(configs: seq<(int, PinConfig)>, k: nat)
    requires k < |Frames.Selection(configs, PIN_COUNT)|
    ensures ConfigFrame(configs).Ok?
    ensures |ConfigFrame(configs).value| == 1 + |Frames.Selection(configs, PIN_COUNT)|
    ensures ConfigFrame(configs).value[0] == CFG_CMD_ANALOG
    ensures ConfigFrame(configs).value[1 + k] / 0x10 == Frames.Selection(configs, PIN_COUNT)[k].0
    ensures DecodePinConfig(ConfigFrame(configs).value[1 + k] % 0x10) == Frames.Selection(configs, PIN_COUNT)[k].1
  {
    Frames.AssembleOk(CFG_CMD_ANALOG, configs, PIN_COUNT, NoCheck(), ConfigEmit());
    var frame := ConfigFrame(configs).value;
    var (i, c) := Frames.Selection(configs, PIN_COUNT)[k];
    Frames.FrameLength(CFG_CMD_ANALOG, configs, PIN_COUNT, NoCheck(), ConfigEmit(), 1);
    Frames.FrameChunk(CFG_CMD_ANALOG, configs, PIN_COUNT, NoCheck(), ConfigEmit(), 1, k);
    assert 1 * k == k;
    ConfigChunk(frame, 1 + k, i, c);
  }

  lemma ConfigChunk(frame: seq<Byte>, at: nat, i: nat, c: PinConfig)
    requires i < PIN_COUNT && at + 1 <= |frame| && frame[at..at + 1] == ConfigEmit()(i, c)
    ensures frame[at] / 0x10 == i && DecodePinConfig(frame[at] % 0x10) == c
  {
    assert frame[at] == frame[at..at + 1][0] == HighLow(i % 0x10, EncodePinConfig(c) % 0x10);
    NibbleBytes(frame[at], i, EncodePinConfig(c));
    PinConfigRoundTrip(c);
  }

  lemma NibbleBytes(b: Byte, hi: nat, lo: Byte)
    requires hi < 0x10 && lo < 0x10 && b == HighLow(hi % 0x10, lo % 0x10)
    ensures b / 0x10 == hi && b % 0x10 == lo
  {
  }

  /** The control frame always builds: seven bytes per selected pin, its
      index and then its control, which reads back as given. */
  lemma ControlFrameLayout(controls: seq<(int, HardPwm.PinControl)>, k: nat)
    requires k < |Frames.Selection(controls, PIN_COUNT)|
    ensures ControlFrame(controls).Ok?
    ensures |ControlFrame(controls).value| == 1 + 7 * |Frames.Selection(controls, PIN_COUNT)|
    ensures ControlFrame(controls).value[0] == CTL_CMD_ANALOG
    ensures ControlFrame(controls).value[1 + 7 * k] == Frames.Selection(controls, PIN_COUNT)[k].0
    ensures HardPwm.DecodeControl(ControlFrame(controls).value, 2 + 7 * k) == Frames.Selection(controls, PIN_COUNT)[k].1
  {
    Frames.AssembleOk(CTL_CMD_ANALOG, controls, PIN_COUNT, NoCheck(), HardPwm.ControlEmit());
    var frame := ControlFrame(controls).value;
    var (i, c) := Frames.Selection(controls, PIN_COUNT)[k];
    Frames.FrameLength(CTL_CMD_ANALOG, controls, PIN_COUNT, NoCheck(), HardPwm.ControlEmit(), 7);
    Frames.FrameChunk(CTL_CMD_ANALOG, controls, PIN_COUNT, NoCheck(), HardPwm.ControlEmit(), 7, k);
    HardPwm.ControlChunk(frame, 1 + 7 * k, i, c);
  }

  /** What `get_pins_control` reports for a pin: its control when valid. */
  function ControlOf(p: PinOut): (c: Option<HardPwm.PinControl>)
    ensures c.None? <==> p.valid == 0
  {
    if p.valid == 0 then None else Some(p.control)
  }

  /** What `read_pins` reports for a pin: its voltage when the record is valid
      and the reference known. */
  function Reading(adcRef: Nibble): PinIn -> Option<real> {
    (p: PinIn) => if p.valid == 0 then None else VoltageForValue(adcRef, p.value)
  }

  class Driver {
    var config: Config
    var output: Outputs
    var input: Inputs
    var inputCallback: bool

    predicate Valid()
      reads this
    {
      |config.pins| == PIN_COUNT && |output.pins| == PIN_COUNT && |input.pins| == PIN_COUNT
    }

    /** The mirrors start zeroed. */
    constructor()
      ensures Valid() && !inputCallback
      ensures config.analog == AnalogConfig(0, ADC_DISABLE, VDAC_DISABLE, IDAC_DISABLE)
      ensures forall i :: 0 <= i < PIN_COUNT ==> config.pins[i].enabled == 0 && output.pins[i].valid == 0 && input.pins[i].valid == 0
    {
      config := Config(seq(PIN_COUNT, _ => PinConfig(0, 0, 0)), AnalogConfig(0, 0, 0, 0));
      output := Outputs(0, 0, seq(PIN_COUNT, _ => PinOut(0, HardPwm.PinControl(0, 0))));
      input := Inputs(0, seq(PIN_COUNT, _ => PinIn(0, 0)));
      inputCallback := false;
    }

    method SetInputCallback(present: bool)
      modifies this
      ensures inputCallback == present
      ensures config == old(config) && output == old(output) && input == old(input)
    {
      inputCallback := present;
    }

    /** The configuration notification replaces the mirror; a short frame is
        refused and changes nothing. */
    method OnConfig(data: seq<Byte>) returns (r: Option<Error>)
      requires Valid()
      modifies this
      ensures Valid()
      ensures |data| >= CONFIG_SIZE ==> r == None && config == DecodeConfig(data)
      ensures |data| < CONFIG_SIZE ==> r == Some(ValueError) && config == old(config)
      ensures output == old(output) && input == old(input) && inputCallback == old(inputCallback)
    {
      if |data| < CONFIG_SIZE {
        return Some(ValueError);
      }
      config := DecodeConfig(data);
      return None;
    }

    /** The output notification replaces the output mirror. */
    method OnOutput(data: seq<Byte>) returns (r: Option<Error>)
      requires Valid()
      modifies this
      ensures Valid()
      ensures |data| >= OUTPUTS_SIZE ==> r == None && output == DecodeOutputs(data)
      ensures |data| < OUTPUTS_SIZE ==> r == Some(ValueError) && output == old(output)
      ensures config == old(config) && input == old(input) && inputCallback == old(inputCallback)
    {
      if |data| < OUTPUTS_SIZE {
        return Some(ValueError);
      }
      output := DecodeOutputs(data);
      return None;
    }

    /** The input notification: decode the frame, fire the callback for every
        pin whose value changed, then replace the mirror. A short frame fails
        in the decoding, before any callback. */
    method OnInput(data: seq<Byte>) returns (events: seq<(nat, U16)>, r: Option<Error>)
      requires Valid()
      modifies this
      ensures Valid()
      ensures |data| < INPUTS_SIZE ==> r == Some(ValueError) && events == [] && input == old(input)
      ensures |data| >= INPUTS_SIZE ==>
                r == None && input == DecodeInputs(data)
                && events == if inputCallback then Changes(old(input).pins, input.pins, PIN_COUNT) else []
      ensures config == old(config) && output == old(output) && inputCallback == old(inputCallback)
    {
      if |data| < INPUTS_SIZE {
        return [], Some(ValueError);
      }
      var next := DecodeInputs(data);
      var prev := input.pins;
      events := [];
      var i := 0;
      while i < PIN_COUNT
        invariant 0 <= i <= PIN_COUNT
        invariant events == if inputCallback then Changes(prev, next.pins, i) else []
      {
        if next.pins[i].valid != 0 && next.pins[i].value != prev[i].value && inputCallback {
          events := events + [(i, next.pins[i].value)];
        }
        i := i + 1;
      }
      input := next;
      r := None;
    }

    /** `config_adc_period`: a period out of range writes nothing. */
    method ConfigAdcPeriod(period: real, link: Channel) returns (r: Result<()>, sent: seq<Op>)
      ensures var frame := AdcPeriodFrame(period);
              if frame.Err? then r == Err(ValueError) && sent == []
              else r == Outcome(Write(Gpio.UUID_CONFIG_CMD, frame.value), link) && sent == Calls(Write(Gpio.UUID_CONFIG_CMD, frame.value), link)
    {
      var frame := AdcPeriodFrame(period);
      if frame.Err? {
        return Err(ValueError), [];
      }
      r, sent := Perform(Write(Gpio.UUID_CONFIG_CMD, frame.value), link);
    }

    /** `config_adc_ref`, `config_vdac_ref`, `config_idac_range`: one write
        each, whatever the setting. */
    method ConfigSetting(sub: Nibble, setting: int, link: Channel) returns (r: Result<()>, sent: seq<Op>)
      requires sub in {SUB_ADC_REF, SUB_VDAC_REF, SUB_IDAC_RANGE}
      ensures r == Outcome(Write(Gpio.UUID_CONFIG_CMD, SettingFrame(sub, setting)), link)
      ensures sent == Calls(Write(Gpio.UUID_CONFIG_CMD, SettingFrame(sub, setting)), link)
    {
      r, sent := Perform(Write(Gpio.UUID_CONFIG_CMD, SettingFrame(sub, setting)), link);
    }

    /** `get_analog_config`: read, then report the converter settings. */
    method GetAnalogConfig(link: Channel) returns (r: Result<AnalogConfig>, sent: seq<Op>)
      ensures sent == Calls(Read(UUID_CONFIG_GET), link)
      ensures Outcome(Read(UUID_CONFIG_GET), link).Err? ==> r == Err(Outcome(Read(UUID_CONFIG_GET), link).error)
      ensures Outcome(Read(UUID_CONFIG_GET), link).Ok? ==> r == Ok(config.analog)
    {
      var done;
      done, sent := Perform(Read(UUID_CONFIG_GET), link);
      if done.Err? {
        return Err(done.error), sent;
      }
      return Ok(config.analog), sent;
    }

    /** `config_pins`: no pin check; one byte per selected pin. */
    method ConfigPins(configs: seq<(int, PinConfig)>, link: Channel) returns (r: Result<()>, sent: seq<Op>)
      ensures ConfigFrame(configs).Ok?
      ensures r == Outcome(Write(Gpio.UUID_CONFIG_CMD, ConfigFrame(configs).value), link)
      ensures sent == Calls(Write(Gpio.UUID_CONFIG_CMD, ConfigFrame(configs).value), link)
    {
      Frames.AssembleOk(CFG_CMD_ANALOG, configs, PIN_COUNT, NoCheck(), ConfigEmit());
      var frame := Frames.Build(CFG_CMD_ANALOG, configs, PIN_COUNT, NoCheck(), ConfigEmit());
      r, sent := Perform(Write(Gpio.UUID_CONFIG_CMD, frame.value), link);
    }

    /** `control_pins`: no pin check; seven bytes per selected pin. */
    method ControlPins(controls: seq<(int, HardPwm.PinControl)>, link: Channel) returns (r: Result<()>, sent: seq<Op>)
      ensures ControlFrame(controls).Ok?
      ensures r == Outcome(Write(Gpio.UUID_CONTROL_CMD, ControlFrame(controls).value), link)
      ensures sent == Calls(Write(Gpio.UUID_CONTROL_CMD, ControlFrame(controls).value), link)
    {
      Frames.AssembleOk(CTL_CMD_ANALOG, controls, PIN_COUNT, NoCheck(), HardPwm.ControlEmit());
      var frame := Frames.Build(CTL_CMD_ANALOG, controls, PIN_COUNT, NoCheck(), HardPwm.ControlEmit());
      r, sent := Perform(Write(Gpio.UUID_CONTROL_CMD, frame.value), link);
    }

    /** `get_pins_config`: the mirrored configuration of every selected pin. */
    method GetPinsConfig(mask: int, link: Channel) returns (r: Result<seq<PinConfig>>, sent: seq<Op>)
      requires Valid()
      ensures sent == Calls(Read(UUID_CONFIG_GET), link)
      ensures Outcome(Read(UUID_CONFIG_GET), link).Err? ==> r == Err(Outcome(Read(UUID_CONFIG_GET), link).error)
      ensures Outcome(Read(UUID_CONFIG_GET), link).Ok? ==> r == Ok(Frames.Picked(config.pins, mask, PIN_COUNT, (c: PinConfig) => c))
    {
      var done;
      done, sent := Perform(Read(UUID_CONFIG_GET), link);
      if done.Err? {
        return Err(done.error), sent;
      }
      var l := Frames.Pick(config.pins, mask, PIN_COUNT, (c: PinConfig) => c);
      return Ok(l), sent;
    }

    /** `get_pins_control`: the control of every selected pin, or nothing for
        a pin whose output record is not valid. */
    method GetPinsControl(mask: int, link: Channel) returns (r: Result<seq<Option<HardPwm.PinControl>>>, sent: seq<Op>)
      requires Valid()
      ensures sent == Calls(Read(UUID_OUTPUT_GET), link)
      ensures Outcome(Read(UUID_OUTPUT_GET), link).Err? ==> r == Err(Outcome(Read(UUID_OUTPUT_GET), link).error)
      ensures Outcome(Read(UUID_OUTPUT_GET), link).Ok? ==> r == Ok(Frames.Picked(output.pins, mask, PIN_COUNT, ControlOf))
    {
      var done;
      done, sent := Perform(Read(UUID_OUTPUT_GET), link);
      if done.Err? {
        return Err(done.error), sent;
      }
      var l := Frames.Pick(output.pins, mask, PIN_COUNT, ControlOf);
      return Ok(l), sent;
    }

    /** `read_pins`: the voltage of every selected pin, or nothing for a pin
        whose input record is not valid or when the ADC reference is
        DISABLE or unknown. */
    method ReadPins(mask: int, link: Channel) returns (r: Result<seq<Option<real>>>, sent: seq<Op>)
      requires Valid()
      ensures sent == Calls(Read(UUID_INPUT), link)
      ensures Outcome(Read(UUID_INPUT), link).Err? ==> r == Err(Outcome(Read(UUID_INPUT), link).error)
      ensures Outcome(Read(UUID_INPUT), link).Ok? ==> r == Ok(Frames.Picked(input.pins, mask, PIN_COUNT, Reading(config.analog.adcRef)))
    {
      var done;
      done, sent := Perform(Read(UUID_INPUT), link);
      if done.Err? {
        return Err(done.error), sent;
      }
      var l := Frames.Pick(input.pins, mask, PIN_COUNT, Reading(config.analog.adcRef));
      return Ok(l), sent;
    }
  }
}
