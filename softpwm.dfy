/** The konashi5 software PWM driver: four channels on GPIO pins 4 to 7. A
    channel is configured for duty or period control with the other quantity
    fixed, and controlled with a value and a transition duration; the device
    reports when a transition has finished. */
module SoftPwm {
  import opened Wire
  import opened Transport
  import Frames
  import Gpio
  import opened Transitions

  const PIN_COUNT := 4
  const CFG_CMD_SOFTPWM: Byte := 0x02
  const CTL_CMD_SOFTPWM: Byte := 0x02
  const UUID_CONFIG_GET := "064d0203-8251-49d9-b6f3-f7ba35e5d0a1"
  const UUID_OUTPUT_GET := "064d0304-8251-49d9-b6f3-f7ba35e5d0a1"

  /** The GPIO pin behind each channel. */
  function GpioPin(i: nat): nat {
    4 + i
  }

  /** Control types. */
  const TYPE_DISABLED: Nibble := 0
  const DUTY: Nibble := 1
  const PERIOD: Nibble := 2

  /** A channel's configuration: the control type and the fixed value (the
      period in ms under duty control, the duty in 0.1% under period control). */
  datatype PinConfig = PinConfig(controlType: Nibble, fixedValue: U16)

  /** The SDK's constructor: the fixed value is range-checked for duty and
      period control only. The type is compared as given, then both fields
      keep only the bits they have: four for the type, sixteen for the value. */
  function NewConfig(controlType: int, fixedValue: int): (r: Result<PinConfig>)
    ensures r.Ok? <==> (controlType == DUTY ==> 0 <= fixedValue <= 0xFFFF)
                       && (controlType == PERIOD ==> 0 <= fixedValue <= 1000)
    ensures r.Err? ==> r.error == ValueError
    ensures r.Ok? ==> r.value.controlType == controlType % 0x10 && r.value.fixedValue % 0x1_0000 == fixedValue % 0x1_0000
    ensures r.Ok? && 0 <= controlType < 0x10 ==> r.value.controlType == controlType
    ensures r.Ok? && 0 <= fixedValue <= 0xFFFF ==> r.value.fixedValue == fixedValue
  {
    if controlType == DUTY && !(0 <= fixedValue <= 0xFFFF) then Err(ValueError)
    else if controlType == PERIOD && !(0 <= fixedValue <= 1000) then Err(ValueError)
    else Ok(PinConfig(controlType % 0x10, fixedValue % 0x1_0000))
  }

  /** Three bytes: the control type in the low nibble, then the fixed value. */
  function EncodeConfig(c: PinConfig): (s: seq<Byte>)
    ensures |s| == 3
  {
    [c.controlType] + LE16(c.fixedValue)
  }

  function DecodeConfig(s: seq<Byte>, at: nat): PinConfig
    requires at + 3 <= |s|
  {
    PinConfig(s[at] % 0x10, ReadLE16(s, at + 1))
  }

  lemma ConfigRoundTrip(s: seq<Byte>, at: nat, c: PinConfig)
    requires at + 3 <= |s| && s[at..at + 3] == EncodeConfig(c)
    ensures DecodeConfig(s, at) == c
  {
    assert s[at] == EncodeConfig(c)[0];
    assert s[at + 1..at + 3] == LE16(c.fixedValue);
    LE16RoundTrip(s, at + 1, c.fixedValue);
  }

  function DecodeConfigs(s: seq<Byte>): (cs: seq<PinConfig>)
    requires |s| >= 3 * PIN_COUNT
    ensures |cs| == PIN_COUNT
  {
    seq(PIN_COUNT, i requires 0 <= i < PIN_COUNT => DecodeConfig(s, 3 * i))
  }

  /** A channel's control: the type (always 0 when built by the SDK), the
      target value and the transition duration in ms. */
  datatype PinControl = PinControl(controlType: Nibble, value: U16, duration: U32)

  /** The SDK's constructor: both numbers are range-checked. */
  function NewControl(value: int, duration: int): (r: Result<PinControl>)
    ensures r.Ok? <==> 0 <= value <= 0xFFFF && 0 <= duration <= 0xFFFF_FFFF
    ensures r.Err? ==> r.error == ValueError
    ensures r.Ok? ==> r.value.value == value && r.value.duration == duration && r.value.controlType == 0
  {
    if !(0 <= value <= 0xFFFF) then Err(ValueError)
    else if !(0 <= duration <= 0xFFFF_FFFF) then Err(ValueError)
    else Ok(PinControl(0, value, duration))
  }

  /** Seven bytes: the type, the value, the duration. */
  function EncodeControl(c: PinControl): (s: seq<Byte>)
    ensures |s| == 7
  {
    [c.controlType] + LE16(c.value) + LE32(c.duration)
  }

  function DecodeControl(s: seq<Byte>, at: nat): PinControl
    requires at + 7 <= |s|
  {
    PinControl(s[at] % 0x10, ReadLE16(s, at + 1), ReadLE32(s, at + 3))
  }

  lemma ControlRoundTrip(s: seq<Byte>, at: nat, c: PinControl)
    requires at + 7 <= |s| && s[at..at + 7] == EncodeControl(c)
    ensures DecodeControl(s, at) == c
  {
    var e := EncodeControl(c);
    assert s[at] == e[0];
    Within(s, at, e, 1, 3);
    Within(s, at, e, 3, 7);
    assert e[1..3] == LE16(c.value) && e[3..7] == LE32(c.duration);
    LE16RoundTrip(s, at + 1, c.value);
    LE32RoundTrip(s, at + 3, c.duration);
  }

  function DecodeControls(s: seq<Byte>): (cs: seq<PinControl>)
    requires |s| >= 7 * PIN_COUNT
    ensures |cs| == PIN_COUNT
  {
    seq(PIN_COUNT, i requires 0 <= i < PIN_COUNT => DecodeControl(s, 7 * i))
  }

  /** `config_pins` takes a channel only when its GPIO pin is free or PWM. */
  function ConfigCheck(fns: seq<Nibble>): (nat, PinConfig) -> Option<Error> {
    (i: nat, c: PinConfig) =>
      if GpioPin(i) >= |fns| then None else Gpio.Claim(GpioPin(i), fns[GpioPin(i)], Gpio.PWM)
  }

  function ConfigEmit(): (nat, PinConfig) -> seq<Byte> {
    (i: nat, c: PinConfig) => [HighLow(i % 0x10, c.controlType)] + LE16(c.fixedValue)
  }

  /** `control_pins` demands that the GPIO pin be PWM and that the channel be
      configured for duty control (value at most 1000) or period control. */
  function ControlCheck(fns: seq<Nibble>, types: seq<Nibble>): (nat, PinControl) -> Option<Error> {
    (i: nat, c: PinControl) =>
      if GpioPin(i) >= |fns| || i >= |types| then None
      else if fns[GpioPin(i)] != Gpio.PWM then
        Some(if fns[GpioPin(i)] >= Gpio.FUNCTION_NAMES then IndexError else PinUnavailable(GpioPin(i), fns[GpioPin(i)]))
      else if types[i] == DUTY then (if c.value > 1000 then Some(ValueError) else None)
      else if types[i] == PERIOD then None
      else Some(ChannelNotEnabled(i))
  }

  /** The channel index, then the control without its type byte. */
  function ControlEmit(): (nat, PinControl) -> seq<Byte> {
    (i: nat, c: PinControl) => [i % 0x100] + LE16(c.value) + LE32(c.duration)
  }

  function ConfigFrame(fns: seq<Nibble>, configs: seq<(int, PinConfig)>): Result<seq<Byte>> {
    Frames.Assemble(CFG_CMD_SOFTPWM, configs, PIN_COUNT, ConfigCheck(fns), ConfigEmit())
  }

  function ControlFrame(fns: seq<Nibble>, types: seq<Nibble>, controls: seq<(int, PinControl)>): Result<seq<Byte>> {
    Frames.Assemble(CTL_CMD_SOFTPWM, controls, PIN_COUNT, ControlCheck(fns, types), ControlEmit())
  }

  /** `config_pins` builds a frame exactly when the GPIO pin of every selected
      channel is DISABLED or PWM. */
  lemma ConfigFrameAccepts(fns: seq<Nibble>, configs: seq<(int, PinConfig)>)
    requires |fns| == Gpio.PIN_COUNT
    ensures ConfigFrame(fns, configs).Ok? <==>
            forall j, i :: 0 <= j < |configs| && 0 <= i < PIN_COUNT && Selected(configs[j].0, i) ==> fns[GpioPin(i)] in {Gpio.DISABLED, Gpio.PWM}
  {
    Frames.AssembleOk(CFG_CMD_SOFTPWM, configs, PIN_COUNT, ConfigCheck(fns), ConfigEmit());
  }

  /** `control_pins` builds a frame exactly when every selected channel is on
      a PWM pin, configured for duty or period control, and within 1000 under
      duty control. */
  lemma ControlFrameAccepts(fns: seq<Nibble>, types: seq<Nibble>, controls: seq<(int, PinControl)>)
    requires |fns| == Gpio.PIN_COUNT && |types| == PIN_COUNT
    ensures ControlFrame(fns, types, controls).Ok? <==>
            forall j, i :: 0 <= j < |controls| && 0 <= i < PIN_COUNT && Selected(controls[j].0, i) ==>
              fns[GpioPin(i)] == Gpio.PWM && types[i] in {DUTY, PERIOD} && (types[i] == DUTY ==> controls[j].1.value <= 1000)
  {
    Frames.AssembleOk(CTL_CMD_SOFTPWM, controls, PIN_COUNT, ControlCheck(fns, types), ControlEmit());
  }

  /** The k-th selected channel owns three bytes of the configuration frame:
      its index above the control type, then the fixed value. */
  lemma ConfigFrameLayout(fns: seq<Nibble>, configs: seq<(int, PinConfig)>, k: nat)
    requires ConfigFrame(fns, configs).Ok?
    requires k < |Frames.Selection(configs, PIN_COUNT)|
    ensures |ConfigFrame(fns, configs).value| == 1 + 3 * |Frames.Selection(configs, PIN_COUNT)|
    ensures ConfigFrame(fns, configs).value[1 + 3 * k] / 0x10 == Frames.Selection(configs, PIN_COUNT)[k].0
    ensures DecodeConfig(ConfigFrame(fns, configs).value, 1 + 3 * k) == Frames.Selection(configs, PIN_COUNT)[k].1
  {
    var frame := ConfigFrame(fns, configs).value;
    var (i, c) := Frames.Selection(configs, PIN_COUNT)[k];
    Frames.FrameLength(CFG_CMD_SOFTPWM, configs, PIN_COUNT, ConfigCheck(fns), ConfigEmit(), 3);
    Frames.FrameChunk(CFG_CMD_SOFTPWM, configs, PIN_COUNT, ConfigCheck(fns), ConfigEmit(), 3, k);
    ConfigChunk(frame, 1 + 3 * k, i, c);
  }

  lemma ConfigChunk(frame: seq<Byte>, at: nat, i: nat, c: PinConfig)
    requires i < PIN_COUNT && at + 3 <= |frame| && frame[at..at + 3] == ConfigEmit()(i, c)
    ensures frame[at] / 0x10 == i && DecodeConfig(frame, at) == c
  {
    assert frame[at] == HighLow(i, c.controlType);
    assert frame[at + 1..at + 3] == LE16(c.fixedValue);
    LE16RoundTrip(frame, at + 1, c.fixedValue);
  }

  /** The k-th selected channel owns seven bytes of the control frame: its
      index, then value and duration, which read back as given. */
  lemma ControlFrameLayout(fns: seq<Nibble>, types: seq<Nibble>, controls: seq<(int, PinControl)>, k: nat)
    requires ControlFrame(fns, types, controls).Ok?
    requires k < |Frames.Selection(controls, PIN_COUNT)|
    ensures |ControlFrame(fns, types, controls).value| == 1 + 7 * |Frames.Selection(controls, PIN_COUNT)|
    ensures ControlFrame(fns, types, controls).value[1 + 7 * k] == Frames.Selection(controls, PIN_COUNT)[k].0
    ensures ReadLE16(ControlFrame(fns, types, controls).value, 2 + 7 * k) == Frames.Selection(controls, PIN_COUNT)[k].1.value
    ensures ReadLE32(ControlFrame(fns, types, controls).value, 4 + 7 * k) == Frames.Selection(controls, PIN_COUNT)[k].1.duration
  {
    var frame := ControlFrame(fns, types, controls).value;
    var (i, c) := Frames.Selection(controls, PIN_COUNT)[k];
    Frames.FrameLength(CTL_CMD_SOFTPWM, controls, PIN_COUNT, ControlCheck(fns, types), ControlEmit(), 7);
    Frames.FrameChunk(CTL_CMD_SOFTPWM, controls, PIN_COUNT, ControlCheck(fns, types), ControlEmit(), 7, k);
    ControlChunk(frame, 1 + 7 * k, i, c);
  }

  lemma ControlChunk(frame: seq<Byte>, at: nat, i: nat, c: PinControl)
    requires i < PIN_COUNT && at + 7 <= |frame| && frame[at..at + 7] == ControlEmit()(i, c)
    ensures frame[at] == i && ReadLE16(frame, at + 1) == c.value && ReadLE32(frame, at + 3) == c.duration
  {
    var e := ControlEmit()(i, c);
    assert frame[at] == e[0];
    Within(frame, at, e, 1, 3);
    Within(frame, at, e, 3, 7);
    assert e[1..3] == LE16(c.value) && e[3..7] == LE32(c.duration);
    LE16RoundTrip(frame, at + 1, c.value);
    LE32RoundTrip(frame, at + 3, c.duration);
  }

  /** The channels a control call selects, in the order it controls them. */
  function Controlled(controls: seq<(int, PinControl)>): (pins: seq<nat>)
    ensures forall k :: 0 <= k < |pins| ==> pins[k] < PIN_COUNT
  {
    var sel := Frames.Selection(controls, PIN_COUNT);
    seq(|sel|, k requires 0 <= k < |sel| => sel[k].0)
  }

  /** Which channels report a finished transition. */
  function Finished(output: seq<PinControl>): (zero: seq<bool>)
    ensures |zero| == |output|
    ensures forall k :: 0 <= k < |output| ==> (zero[k] <==> output[k].duration == 0)
  {
    if output == [] then []
    else Finished(output[..|output| - 1]) + [output[|output| - 1].duration == 0]
  }

  /** What the transition-end callback receives. */
  datatype Ending = Ending(pin: nat, controlType: Nibble, value: U16)

  function Endings(output: seq<PinControl>, pins: seq<nat>): seq<Ending>
    requires forall k :: 0 <= k < |pins| ==> pins[k] < |output|
  {
    if pins == [] then []
    else
      var p := pins[|pins| - 1];
      Endings(output, pins[..|pins| - 1]) + [Ending(p, output[p].controlType, output[p].value)]
  }

  /** What the output handler leaves: the ongoing list and the callback's
      events. Listed channels at duration 0 end in ascending order. */
  function AfterOutput(output: seq<PinControl>, before: seq<nat>, callback: bool): (seq<nat>, seq<Ending>)
    requires |output| == PIN_COUNT
  {
    var ended := Ended(before, Finished(output), PIN_COUNT);
    (RemoveAll(before, ended), if callback then Endings(output, ended) else [])
  }

  /** The handler's loop after looking at the channels below i. */
  function Progress(output: seq<PinControl>, before: seq<nat>, callback: bool, i: nat): (seq<nat>, seq<Ending>)
    requires |output| == PIN_COUNT && i <= PIN_COUNT
  {
    var ended := Ended(before, Finished(output), i);
    (RemoveAll(before, ended), if callback then Endings(output, ended) else [])
  }

  /** A pass of the loop that leaves channel i alone keeps the invariant. */
  lemma KeepStep(output: seq<PinControl>, before: seq<nat>, ongoing: seq<nat>, events: seq<Ending>, callback: bool, i: nat)
    requires NoDup(before) && i < |output| == PIN_COUNT
    requires (ongoing, events) == Progress(output, before, callback, i)
    requires !(i in ongoing && output[i].duration == 0)
    ensures (ongoing, events) == Progress(output, before, callback, i + 1)
  {
    var done := Ended(before, Finished(output), i);
    EndStep(before, Finished(output), i);
    assert Ended(before, Finished(output), i + 1) == done + [] == done;
  }

  /** A pass of the loop that ends channel i removes it and, when a callback
      is set, fires it with the channel's type and value. */
  lemma EndsStep(output: seq<PinControl>, before: seq<nat>, ongoing: seq<nat>, events: seq<Ending>, callback: bool, i: nat)
    requires NoDup(before) && i < |output| == PIN_COUNT
    requires (ongoing, events) == Progress(output, before, callback, i)
    requires i in ongoing && output[i].duration == 0
    ensures (Remove(ongoing, i), if callback then events + [Ending(i, output[i].controlType, output[i].value)] else events)
            == Progress(output, before, callback, i + 1)
  {
    var done := Ended(before, Finished(output), i);
    EndStep(before, Finished(output), i);
    assert (done + [i])[..|done|] == done;
  }

  /** The loop of the output notification: in ascending order, every
      ongoing channel whose duration is now 0 leaves the list and, when a
      callback is set, fires it. */
  method EndTransitions(output: seq<PinControl>, before: seq<nat>, callback: bool) returns (ongoing: seq<nat>, events: seq<Ending>)
    requires |output| == PIN_COUNT && NoDup(before)
    ensures (ongoing, events) == AfterOutput(output, before, callback)
  {
    ongoing := before;
    events := [];
    assert Ended(before, Finished(output), 0) == [] && Endings(output, []) == [];
    var i := 0;
    while i < PIN_COUNT
      invariant 0 <= i <= PIN_COUNT
      invariant (ongoing, events) == Progress(output, before, callback, i)
    {
      if i in ongoing && output[i].duration == 0 {
        EndsStep(output, before, ongoing, events, callback, i);
        ongoing := Remove(ongoing, i);
        if callback {
          events := events + [Ending(i, output[i].controlType, output[i].value)];
        }
      } else {
        KeepStep(output, before, ongoing, events, callback, i);
      }
      i := i + 1;
    }
  }

  class Driver {
    const gpio: Gpio.Driver
    var config: seq<PinConfig>
    var output: seq<PinControl>
    var ongoing: seq<nat>
    var endCallback: bool

    predicate Valid()
      reads this, gpio
    {
      gpio.Valid() && |config| == PIN_COUNT && |output| == PIN_COUNT
      && NoDup(ongoing) && forall p :: p in ongoing ==> p < PIN_COUNT
    }

    function ConfigTypes(): (types: seq<Nibble>)
      reads this
      requires |config| == PIN_COUNT
      ensures |types| == PIN_COUNT && forall i :: 0 <= i < PIN_COUNT ==> types[i] == config[i].controlType
    {
      var c := config;
      seq(PIN_COUNT, i requires 0 <= i < PIN_COUNT => c[i].controlType)
    }

    constructor(gpio: Gpio.Driver)
      requires gpio.Valid()
      ensures Valid() && this.gpio == gpio && ongoing == [] && !endCallback
      ensures forall i :: 0 <= i < PIN_COUNT ==> config[i].controlType == TYPE_DISABLED
    {
      this.gpio := gpio;
      config := seq(PIN_COUNT, _ => PinConfig(0, 0));
      output := seq(PIN_COUNT, _ => PinControl(0, 0, 0));
      ongoing := [];
      endCallback := false;
    }

    method SetTransitionEndCallback(present: bool)
      modifies this
      ensures endCallback == present
      ensures config == old(config) && output == old(output) && ongoing == old(ongoing)
    {
      endCallback := present;
    }

    /** The configuration notification replaces the mirror. */
    method OnConfig(data: seq<Byte>) returns (r: Option<Error>)
      requires Valid()
      modifies this
      ensures Valid()
      ensures |data| >= 3 * PIN_COUNT ==> r == None && config == DecodeConfigs(data)
      ensures |data| < 3 * PIN_COUNT ==> r == Some(ValueError) && config == old(config)
      ensures output == old(output) && ongoing == old(ongoing) && endCallback == old(endCallback)
    {
      if |data| < 3 * PIN_COUNT {
        return Some(ValueError);
      }
      config := DecodeConfigs(data);
      return None;
    }

    /** The output notification: replace the mirror, then end the finished
        transitions. */
    method OnOutput(data: seq<Byte>) returns (events: seq<Ending>, r: Option<Error>)
      requires Valid()
      modifies this
      ensures Valid()
      ensures |data| < 7 * PIN_COUNT ==> r == Some(ValueError) && events == [] && output == old(output) && ongoing == old(ongoing)
      ensures |data| >= 7 * PIN_COUNT ==>
                r == None && output == DecodeControls(data)
                && (ongoing, events) == AfterOutput(output, old(ongoing), endCallback)
      ensures config == old(config) && endCallback == old(endCallback)
    {
      if |data| < 7 * PIN_COUNT {
        return [], Some(ValueError);
      }
      output := DecodeControls(data);
      var rest;
      rest, events := EndTransitions(output, ongoing, endCallback);
      SettledOnce(ongoing, Finished(output), PIN_COUNT);
      ongoing := rest;
      r := None;
    }

    /** `config_pins`: every selected channel's GPIO pin must be free or PWM. */
    method ConfigPins(configs: seq<(int, PinConfig)>, link: Channel) returns (r: Result<()>, sent: seq<Op>)
      requires Valid()
      ensures var frame := ConfigFrame(gpio.Functions(), configs);
              if frame.Err? then r == Err(frame.error) && sent == []
              else r == Outcome(Write(Gpio.UUID_CONFIG_CMD, frame.value), link) && sent == Calls(Write(Gpio.UUID_CONFIG_CMD, frame.value), link)
    {
      var frame := Frames.Build(CFG_CMD_SOFTPWM, configs, PIN_COUNT, ConfigCheck(gpio.Functions()), ConfigEmit());
      if frame.Err? {
        return Err(frame.error), [];
      }
      r, sent := Perform(Write(Gpio.UUID_CONFIG_CMD, frame.value), link);
    }

    /** `control_pins`: check and write; after a successful write every
        controlled channel is ongoing. A call that fails leaves the list
        unchanged. */
    method ControlPins(controls: seq<(int, PinControl)>, link: Channel) returns (r: Result<()>, sent: seq<Op>)
      requires Valid()
      modifies this
      ensures Valid()
      ensures var frame := ControlFrame(gpio.Functions(), ConfigTypes(), controls);
              if frame.Err? then r == Err(frame.error) && sent == []
              else r == Outcome(Write(Gpio.UUID_CONTROL_CMD, frame.value), link) && sent == Calls(Write(Gpio.UUID_CONTROL_CMD, frame.value), link)
      ensures ongoing == if r.Ok? then Merged(old(ongoing), Controlled(controls)) else old(ongoing)
      ensures config == old(config) && output == old(output) && endCallback == old(endCallback)
    {
      var frame := Frames.Build(CTL_CMD_SOFTPWM, controls, PIN_COUNT, ControlCheck(gpio.Functions(), ConfigTypes()), ControlEmit());
      if frame.Err? {
        return Err(frame.error), [];
      }
      r, sent := Perform(Write(Gpio.UUID_CONTROL_CMD, frame.value), link);
      if r.Ok? {
        MergedProps(ongoing, Controlled(controls));
        ongoing := Merge(ongoing, Controlled(controls));
      }
    }

    method GetPinsConfig(mask: int, link: Channel) returns (r: Result<seq<PinConfig>>, sent: seq<Op>)
      requires Valid()
      ensures sent == Calls(Read(UUID_CONFIG_GET), link)
      ensures Outcome(Read(UUID_CONFIG_GET), link).Err? ==> r == Err(Outcome(Read(UUID_CONFIG_GET), link).error)
      ensures Outcome(Read(UUID_CONFIG_GET), link).Ok? ==> r == Ok(Frames.Picked(config, mask, PIN_COUNT, (c: PinConfig) => c))
    {
      var done;
      done, sent := Perform(Read(UUID_CONFIG_GET), link);
      if done.Err? {
        return Err(done.error), sent;
      }
      var l := Frames.Pick(config, mask, PIN_COUNT, (c: PinConfig) => c);
      return Ok(l), sent;
    }

    method GetPinsControl(mask: int, link: Channel) returns (r: Result<seq<PinControl>>, sent: seq<Op>)
      requires Valid()
      ensures sent == Calls(Read(UUID_OUTPUT_GET), link)
      ensures Outcome(Read(UUID_OUTPUT_GET), link).Err? ==> r == Err(Outcome(Read(UUID_OUTPUT_GET), link).error)
      ensures Outcome(Read(UUID_OUTPUT_GET), link).Ok? ==> r == Ok(Frames.Picked(output, mask, PIN_COUNT, (c: PinControl) => c))
    {
      var done;
      done, sent := Perform(Read(UUID_OUTPUT_GET), link);
      if done.Err? {
        return Err(done.error), sent;
      }
      var l := Frames.Pick(output, mask, PIN_COUNT, (c: PinControl) => c);
      return Ok(l), sent;
    }
  }
}
