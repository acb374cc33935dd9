/** The konashi5 hardware PWM driver: four pins, GPIO 0 to 3, share one timer
    whose clock, prescaler and TOP register set the period; each pin is then
    controlled with a compare value and a transition duration. */
module HardPwm {
  import opened Wire
  import opened Transport
  import Frames
  import Gpio
  import opened Transitions

  const PIN_COUNT := 4
  const CFG_CMD_HARDPWM: Byte := 0x03
  const CTL_CMD_HARDPWM: Byte := 0x03
  const UUID_CONFIG_GET := "064d0204-8251-49d9-b6f3-f7ba35e5d0a1"
  const UUID_OUTPUT_GET := "064d0305-8251-49d9-b6f3-f7ba35e5d0a1"

  /** The two timer clocks and their frequencies in Hz. */
  const HFCLK: Nibble := 0
  const CASCADE: Nibble := 1
  const HFCLK_FREQ := 38400000
  const CASCADE_FREQ := 20000

  /** Prescalers DIV1 to DIV1024: codes 0 to 10, dividing by 2 to the code. */
  const PRESCALE_COUNT := 11

  /** The timer configuration: three bytes, prescaler in the low nibble and
      clock in the high nibble of the first, then TOP. */
  datatype PwmConfig = PwmConfig(prescale: Nibble, clock: Nibble, top: U16)

  /** The SDK's constructor: TOP is range-checked, while the clock and the
      prescaler are stored first in their 4-bit fields, which keep only their
      low four bits. */
  function NewPwmConfig(clock: int, prescale: int, top: int): (r: Result<PwmConfig>)
    ensures r.Ok? <==> 0 <= top <= 0xFFFF
    ensures r.Err? ==> r.error == ValueError
    ensures r.Ok? ==> r.value.clock == clock % 0x10 && r.value.prescale == prescale % 0x10 && r.value.top == top
    ensures r.Ok? && 0 <= clock < 0x10 && 0 <= prescale < 0x10 ==> r.value.clock == clock && r.value.prescale == prescale
  {
    if top < 0 || top > 0xFFFF then Err(ValueError) else Ok(PwmConfig(prescale % 0x10, clock % 0x10, top))
  }

  function EncodePwm(c: PwmConfig): (s: seq<Byte>)
    ensures |s| == 3
  {
    [HighLow(c.clock, c.prescale)] + LE16(c.top)
  }

  function DecodePwm(s: seq<Byte>, at: nat): PwmConfig
    requires at + 3 <= |s|
  {
    PwmConfig(s[at] % 0x10, s[at] / 0x10, ReadLE16(s, at + 1))
  }

  lemma PwmRoundTrip(s: seq<Byte>, at: nat, c: PwmConfig)
    requires at + 3 <= |s| && s[at..at + 3] == EncodePwm(c)
    ensures DecodePwm(s, at) == c
  {
    var e := EncodePwm(c);
    assert s[at] == e[0];
    Within(s, at, e, 1, 3);
    assert e[1..3] == LE16(c.top);
    LE16RoundTrip(s, at + 1, c.top);
  }

  /** The configuration mirror: four enable bits, one per pin byte, then the
      timer configuration. */
  datatype Config = Config(enabled: seq<Bit>, pwm: PwmConfig)

  function DecodeConfig(s: seq<Byte>): (c: Config)
    requires |s| >= PIN_COUNT + 3
    ensures |c.enabled| == PIN_COUNT
  {
    Config(seq(PIN_COUNT, i requires 0 <= i < PIN_COUNT => s[i] % 2), DecodePwm(s, PIN_COUNT))
  }

  /** A pin's control: the compare value and the transition duration in ms. */
  datatype PinControl = PinControl(value: U16, duration: U32)

  function NewControl(value: int, duration: int): (r: Result<PinControl>)
    ensures r.Ok? <==> 0 <= value <= 0xFFFF && 0 <= duration <= 0xFFFF_FFFF
    ensures r.Err? ==> r.error == ValueError
    ensures r.Ok? ==> r.value.value == value && r.value.duration == duration
  {
    if !(0 <= value <= 0xFFFF) then Err(ValueError)
    else if !(0 <= duration <= 0xFFFF_FFFF) then Err(ValueError)
    else Ok(PinControl(value, duration))
  }

  function EncodeControl(c: PinControl): (s: seq<Byte>)
    ensures |s| == 6
  {
    LE16(c.value) + LE32(c.duration)
  }

  function DecodeControl(s: seq<Byte>, at: nat): PinControl
    requires at + 6 <= |s|
  {
    PinControl(ReadLE16(s, at), ReadLE32(s, at + 2))
  }

  lemma ControlRoundTrip(s: seq<Byte>, at: nat, c: PinControl)
    requires at + 6 <= |s| && s[at..at + 6] == EncodeControl(c)
    ensures DecodeControl(s, at) == c
  {
    var e := EncodeControl(c);
    Within(s, at, e, 0, 2);
    Within(s, at, e, 2, 6);
    assert e[0..2] == LE16(c.value) && e[2..6] == LE32(c.duration);
    LE16RoundTrip(s, at, c.value);
    LE32RoundTrip(s, at + 2, c.duration);
  }

  function DecodeControls(s: seq<Byte>): (cs: seq<PinControl>)
    requires |s| >= 6 * PIN_COUNT
    ensures |cs| == PIN_COUNT
  {
    seq(PIN_COUNT, i requires 0 <= i < PIN_COUNT => DecodeControl(s, 6 * i))
  }

  /** `KONASHI_HARDPWM_CLOCK_FREQ[HFCLK] / (1 << d)` for each prescaler d:
      the HF clock divides exactly by every prescaler. */
  const HF_RATES: seq<int> := [38400000, 19200000, 9600000, 4800000, 2400000, 1200000, 600000, 300000, 150000, 75000, 37500]

  lemma HfRates()
    ensures |HF_RATES| == PRESCALE_COUNT
    ensures forall d :: 0 <= d < PRESCALE_COUNT ==> HF_RATES[d] == HFCLK_FREQ / Pow2(d)
  {
    assert Pow2(0) == 1 && Pow2(1) == 2 && Pow2(2) == 4 && Pow2(3) == 8 && Pow2(4) == 16 && Pow2(5) == 32;
    assert Pow2(6) == 64 && Pow2(7) == 128 && Pow2(8) == 256 && Pow2(9) == 512 && Pow2(10) == 1024;
  }

  /** The slowest HF rate, at DIV1024, still beats the cascade clock. */
  lemma SlowestRate(d: nat)
    requires d < PRESCALE_COUNT
    ensures HF_RATES[d] >= 37500
  {
  }

  /** The tick rate in Hz of a configuration the SDK builds: the clock's
      frequency divided by the prescaler (the cascade clock is never
      divided). */
  function TickRate(c: PwmConfig): int
    requires c.prescale < PRESCALE_COUNT
  {
    if c.clock == HFCLK then HF_RATES[c.prescale] else CASCADE_FREQ
  }

  /** TOP for a period in seconds on the HF clock with prescaler d: the
      period in ticks, rounded. */
  function HfTop(period: real, d: nat): (top: int)
    requires d < PRESCALE_COUNT
    ensures period * HF_RATES[d] as real - 0.5 <= top as real <= period * HF_RATES[d] as real + 0.5
  {
    Round(period * HF_RATES[d] as real)
  }

  function CascadeTop(period: real): (top: int)
    ensures period * CASCADE_FREQ as real - 0.5 <= top as real <= period * CASCADE_FREQ as real + 0.5
  {
    Round(period * CASCADE_FREQ as real)
  }

  /** The first prescaler from d on whose TOP fits sixteen bits. */
  function FirstFit(period: real, d: nat): (r: Option<nat>)
    decreases PRESCALE_COUNT - d
    ensures r.Some? ==> d <= r.value < PRESCALE_COUNT && HfTop(period, r.value) <= 0xFFFF
    ensures r.Some? ==> forall e :: d <= e < r.value ==> HfTop(period, e) > 0xFFFF
    ensures r.None? ==> forall e :: d <= e < PRESCALE_COUNT ==> HfTop(period, e) > 0xFFFF
  {
    if d >= PRESCALE_COUNT then None
    else if HfTop(period, d) <= 0xFFFF then Some(d)
    else FirstFit(period, d + 1)
  }

  /** The timer configuration `config_pwm` chooses for a period: the least
      prescaler of the HF clock whose TOP fits, else the cascade clock
      undivided, else none. */
  function PwmForPeriod(period: real): Result<PwmConfig> {
    match FirstFit(period, 0)
    case Some(d) => NewPwmConfig(HFCLK, d, HfTop(period, d))
    case None =>
      if CascadeTop(period) <= 0xFFFF then NewPwmConfig(CASCADE, 0, CascadeTop(period))
      else Err(ValueError)
  }

  /** `_calc_pwm_config_for_period`: try the prescalers in order. */
  method CalcPwmConfigForPeriod(period: real) returns (r: Result<PwmConfig>)
    ensures r == PwmForPeriod(period)
  {
    var div := 0;
    while div < PRESCALE_COUNT
      invariant 0 <= div <= PRESCALE_COUNT
      invariant FirstFit(period, 0) == FirstFit(period, div)
    {
      var top := Round(period * HF_RATES[div] as real);
      if top <= 0xFFFF {
        return NewPwmConfig(HFCLK, div, top);
      }
      div := div + 1;
    }
    var top := Round(period * CASCADE_FREQ as real);
    if top <= 0xFFFF {
      return NewPwmConfig(CASCADE, 0, top);
    }
    return Err(ValueError);
  }

  /** A period in seconds measured in ticks of a configuration's clock. */
  function Ticks(period: real, c: PwmConfig): real
    requires c.prescale < PRESCALE_COUNT
  {
    period * TickRate(c) as real
  }

  /** The chosen configuration realises the period to within half a tick of
      its own clock. */
  lemma PeriodNear(period: real)
    requires PwmForPeriod(period).Ok?
    ensures PwmForPeriod(period).value.prescale < PRESCALE_COUNT
    ensures var c := PwmForPeriod(period).value;
            Ticks(period, c) - 0.5 <= c.top as real <= Ticks(period, c) + 0.5
  {
    var c := PwmForPeriod(period).value;
    if FirstFit(period, 0).None? {
      assert c == PwmConfig(0, CASCADE, CascadeTop(period));
      CascadeTicks(period);
    } else {
      var d := FirstFit(period, 0).value;
      assert c == PwmConfig(d, HFCLK, HfTop(period, d));
      HfTicks(period, d);
    }
  }

  lemma HfTicks(period: real, d: nat)
    requires d < PRESCALE_COUNT && 0 <= HfTop(period, d) <= 0xFFFF
    ensures var c := PwmConfig(d, HFCLK, HfTop(period, d));
            Ticks(period, c) - 0.5 <= c.top as real <= Ticks(period, c) + 0.5
  {
  }

  lemma CascadeTicks(period: real)
    requires 0 <= CascadeTop(period) <= 0xFFFF
    ensures var c := PwmConfig(0, CASCADE, CascadeTop(period));
            Ticks(period, c) - 0.5 <= c.top as real <= Ticks(period, c) + 0.5
  {
  }

  /** On the HF clock no smaller prescaler would have fitted, so the
      resolution is the finest available; the cascade clock is used only
      when no HF prescaler fits, and undivided. */
  lemma PeriodLeast(period: real)
    requires PwmForPeriod(period).Ok?
    ensures var c := PwmForPeriod(period).value;
            (c.clock == HFCLK ==> forall d :: 0 <= d < c.prescale ==> HfTop(period, d) > 0xFFFF)
            && (c.clock == CASCADE ==> c.prescale == 0 && forall d :: 0 <= d < PRESCALE_COUNT ==> HfTop(period, d) > 0xFFFF)
            && (c.clock == HFCLK || c.clock == CASCADE)
  {
  }

  /** Every period from 0 up to the cascade clock's range gets a
      configuration. */
  lemma PeriodFits(period: real)
    requires 0.0 <= period && period * CASCADE_FREQ as real <= 65535.0
    ensures PwmForPeriod(period).Ok?
  {
    match FirstFit(period, 0)
    case Some(d) => HfTopNonneg(period, d);
    case None =>
  }

  lemma HfTopNonneg(period: real, d: nat)
    requires 0.0 <= period && d < PRESCALE_COUNT
    ensures HfTop(period, d) >= 0
  {
    MulNonneg(period, HF_RATES[d] as real);
  }

  /** A period beyond the cascade clock's range is refused. */
  lemma PeriodTooLong(period: real)
    requires period * CASCADE_FREQ as real > 65535.5
    ensures PwmForPeriod(period) == Err(ValueError)
  {
    forall d | 0 <= d < PRESCALE_COUNT
      ensures HfTop(period, d) > 0xFFFF
    {
      HfOverflow(period, d);
    }
    assert FirstFit(period, 0).None?;
  }

  lemma HfOverflow(period: real, d: nat)
    requires period * CASCADE_FREQ as real > 65535.5 && d < PRESCALE_COUNT
    ensures HfTop(period, d) > 0xFFFF
  {
    SlowestRate(d);
    MulLe(period, CASCADE_FREQ as real, HF_RATES[d] as real);
  }

  /** A negative period is accepted only when it rounds to TOP 0 at DIV1. */
  lemma NegativePeriod(period: real)
    requires period < 0.0 && PwmForPeriod(period).Ok?
    ensures PwmForPeriod(period).value == PwmConfig(0, HFCLK, 0)
  {
    NegativeFits(period);
    assert PwmForPeriod(period) == NewPwmConfig(HFCLK, 0, HfTop(period, 0));
  }

  /** A negative period has a TOP of at most 0 on DIV1, which fits. */
  lemma NegativeFits(period: real)
    requires period < 0.0
    ensures HfTop(period, 0) <= 0 && FirstFit(period, 0) == Some(0)
  {
    var x := period * HF_RATES[0] as real;
    assert HF_RATES[0] == 38400000;
    assert x < 0.0;
    BelowHalf(HfTop(period, 0), x);
  }

  /** An integer within half of a negative real is at most 0. */
  lemma BelowHalf(n: int, x: real)
    requires n as real <= x + 0.5 && x < 0.0
    ensures n <= 0
  {
  }

  lemma MulNonneg(a: real, b: real)
    requires 0.0 <= a && 0.0 <= b
    ensures 0.0 <= a * b
  {
  }

  lemma MulLe(a: real, b: real, c: real)
    requires 0.0 <= a && b <= c
    ensures a * b <= a * c
  {
  }

  /** `_calc_duty_for_control_value`: the duty in percent; a TOP of 0 is a
      division by zero. */
  function DutyOf(value: int, top: U16): (r: Result<real>)
    ensures r.Err? <==> top == 0
    ensures r.Err? ==> r.error == ZeroDivisionError
    ensures r.Ok? && 0 <= value <= top ==> 0.0 <= r.value <= 100.0
  {
    if top == 0 then Err(ZeroDivisionError)
    else
      DutyBounds(value, top);
      Ok(value as real * 100.0 / top as real)
  }

  lemma DutyBounds(value: int, top: U16)
    requires top > 0
    ensures 0 <= value <= top ==> 0.0 <= value as real * 100.0 / top as real <= 100.0
  {
    var q := value as real / top as real;
    assert value as real * 100.0 / top as real == q * 100.0;
    if 0 <= value <= top {
      assert q * top as real == value as real;
      assert 0.0 <= q <= 1.0;
    }
  }

  /** `calc_control_value_for_duty`: the compare value for a duty, rounded. */
  function ControlValueForDuty(duty: real, top: U16): (v: int)
    ensures 0.0 <= duty <= 100.0 ==> 0 <= v <= top
  {
    ScaledBounds(duty, top);
    Round(duty * top as real / 100.0)
  }

  lemma ScaledBounds(duty: real, top: U16)
    ensures 0.0 <= duty <= 100.0 ==> 0 <= Round(duty * top as real / 100.0) <= top
  {
    if 0.0 <= duty <= 100.0 {
      var x := duty * top as real / 100.0;
      var d, t := duty / 100.0, top as real;
      assert x == d * t == t * d;
      MulNonneg(d, t);
      MulLe(t, d, 1.0);
      assert t * 1.0 == t;
      RoundBetween(x, 0, top);
    }
  }

  /** The duty reported for a compare value converts back to that value. */
  lemma DutyRoundTrip(value: U16, top: U16)
    requires top > 0
    ensures ControlValueForDuty(DutyOf(value, top).value, top) == value
  {
    var duty := DutyOf(value, top).value;
    var q := value as real / top as real;
    assert duty == q * 100.0;
    assert q * top as real == value as real;
    assert duty * top as real / 100.0 == value as real;
    RoundInt(value);
  }

  /** `config_pins` takes a pin only when it is free or PWM. */
  function ConfigCheck(fns: seq<Nibble>): (nat, bool) -> Option<Error> {
    (i: nat, enable: bool) => if i >= |fns| then None else Gpio.Claim(i, fns[i], Gpio.PWM)
  }

  /** One byte per pin: the index above the enable bit. */
  function ConfigEmit(): (nat, bool) -> seq<Byte> {
    (i: nat, enable: bool) => [HighLow(i % 0x10, BitOf(enable))]
  }

  /** `control_pins` demands that the pin be PWM; the error message names its
      function, which fails for a code the SDK has no name for. */
  function ControlCheck(fns: seq<Nibble>): (nat, PinControl) -> Option<Error> {
    (i: nat, c: PinControl) =>
      if i >= |fns| || fns[i] == Gpio.PWM then None
      else Some(if fns[i] >= Gpio.FUNCTION_NAMES then IndexError else PinUnavailable(i, fns[i]))
  }

  function ControlEmit(): (nat, PinControl) -> seq<Byte> {
    (i: nat, c: PinControl) => [i % 0x100] + LE16(c.value) + LE32(c.duration)
  }

  function ConfigFrame(fns: seq<Nibble>, configs: seq<(int, bool)>): Result<seq<Byte>> {
    Frames.Assemble(CFG_CMD_HARDPWM, configs, PIN_COUNT, ConfigCheck(fns), ConfigEmit())
  }

  function ControlFrame(fns: seq<Nibble>, controls: seq<(int, PinControl)>): Result<seq<Byte>> {
    Frames.Assemble(CTL_CMD_HARDPWM, controls, PIN_COUNT, ControlCheck(fns), ControlEmit())
  }

  /** The `config_pwm` frame: the selector, 0xFF, then the timer
      configuration. */
  function PwmFrame(c: PwmConfig): (frame: seq<Byte>)
    ensures |frame| == 5 && frame[0] == CFG_CMD_HARDPWM && frame[1] == 0xFF
  {
    [CFG_CMD_HARDPWM, 0xFF] + EncodePwm(c)
  }

  lemma PwmFrameRoundTrip(c: PwmConfig)
    ensures DecodePwm(PwmFrame(c), 2) == c
  {
    PwmRoundTrip(PwmFrame(c), 2, c);
  }

  lemma ConfigFrameAccepts(fns: seq<Nibble>, configs: seq<(int, bool)>)
    requires |fns| == Gpio.PIN_COUNT
    ensures ConfigFrame(fns, configs).Ok? <==>
            forall j, i :: 0 <= j < |configs| && 0 <= i < PIN_COUNT && Selected(configs[j].0, i) ==> fns[i] in {Gpio.DISABLED, Gpio.PWM}
  {
    Frames.AssembleOk(CFG_CMD_HARDPWM, configs, PIN_COUNT, ConfigCheck(fns), ConfigEmit());
  }

  lemma ControlFrameAccepts(fns: seq<Nibble>, controls: seq<(int, PinControl)>)
    requires |fns| == Gpio.PIN_COUNT
    ensures ControlFrame(fns, controls).Ok? <==>
            forall j, i :: 0 <= j < |controls| && 0 <= i < PIN_COUNT && Selected(controls[j].0, i) ==> fns[i] == Gpio.PWM
  {
    Frames.AssembleOk(CTL_CMD_HARDPWM, controls, PIN_COUNT, ControlCheck(fns), ControlEmit());
  }

  /** The k-th selected pin owns byte 1+k of the configuration frame: its
      index above its enable bit. */
  lemma ConfigFrameLayout(fns: seq<Nibble>, configs: seq<(int, bool)>, k: nat)
    requires ConfigFrame(fns, configs).Ok?
    requires k < |Frames.Selection(configs, PIN_COUNT)|
    ensures |ConfigFrame(fns, configs).value| == 1 + |Frames.Selection(configs, PIN_COUNT)|
    ensures ConfigFrame(fns, configs).value[1 + k] / 0x10 == Frames.Selection(configs, PIN_COUNT)[k].0
    ensures ConfigFrame(fns, configs).value[1 + k] % 0x10 == BitOf(Frames.Selection(configs, PIN_COUNT)[k].1)
  {
    var frame := ConfigFrame(fns, configs).value;
    var (i, enable) := Frames.Selection(configs, PIN_COUNT)[k];
    Frames.FrameLength(CFG_CMD_HARDPWM, configs, PIN_COUNT, ConfigCheck(fns), ConfigEmit(), 1);
    Frames.FrameChunk(CFG_CMD_HARDPWM, configs, PIN_COUNT, ConfigCheck(fns), ConfigEmit(), 1, k);
    assert 1 * k == k;
    ConfigChunk(frame, 1 + k, i, enable);
  }

  lemma ConfigChunk(frame: seq<Byte>, at: nat, i: nat, enable: bool)
    requires i < PIN_COUNT && at + 1 <= |frame| && frame[at..at + 1] == ConfigEmit()(i, enable)
    ensures frame[at] / 0x10 == i && frame[at] % 0x10 == BitOf(enable)
  {
    assert frame[at] == frame[at..at + 1][0] == HighLow(i, BitOf(enable));
  }

  /** The k-th selected pin owns seven bytes of the control frame: its index,
      then its control, which reads back as given. */
  lemma ControlFrameLayout(fns: seq<Nibble>, controls: seq<(int, PinControl)>, k: nat)
    requires ControlFrame(fns, controls).Ok?
    requires k < |Frames.Selection(controls, PIN_COUNT)|
    ensures |ControlFrame(fns, controls).value| == 1 + 7 * |Frames.Selection(controls, PIN_COUNT)|
    ensures ControlFrame(fns, controls).value[1 + 7 * k] == Frames.Selection(controls, PIN_COUNT)[k].0
    ensures DecodeControl(ControlFrame(fns, controls).value, 2 + 7 * k) == Frames.Selection(controls, PIN_COUNT)[k].1
  {
    var frame := ControlFrame(fns, controls).value;
    var (i, c) := Frames.Selection(controls, PIN_COUNT)[k];
    Frames.FrameLength(CTL_CMD_HARDPWM, controls, PIN_COUNT, ControlCheck(fns), ControlEmit(), 7);
    Frames.FrameChunk(CTL_CMD_HARDPWM, controls, PIN_COUNT, ControlCheck(fns), ControlEmit(), 7, k);
    ControlChunk(frame, 1 + 7 * k, i, c);
  }

  lemma ControlChunk(frame: seq<Byte>, at: nat, i: nat, c: PinControl)
    requires i < PIN_COUNT && at + 7 <= |frame| && frame[at..at + 7] == ControlEmit()(i, c)
    ensures frame[at] == i && DecodeControl(frame, at + 1) == c
  {
    var e := ControlEmit()(i, c);
    assert frame[at] == e[0];
    Within(frame, at, e, 1, 7);
    assert e[1..7] == EncodeControl(c);
    ControlRoundTrip(frame, at + 1, c);
  }

  /** The pins a control call selects, in the order it controls them. */
  function Controlled(controls: seq<(int, PinControl)>): (pins: seq<nat>)
    ensures forall k :: 0 <= k < |pins| ==> pins[k] < PIN_COUNT
  {
    var sel := Frames.Selection(controls, PIN_COUNT);
    seq(|sel|, k requires 0 <= k < |sel| => sel[k].0)
  }

  function Finished(output: seq<PinControl>): (zero: seq<bool>)
    ensures |zero| == |output|
    ensures forall k :: 0 <= k < |output| ==> (zero[k] <==> output[k].duration == 0)
  {
    if output == [] then []
    else Finished(output[..|output| - 1]) + [output[|output| - 1].duration == 0]
  }

  /** What the transition-end callback receives: the pin and its duty. */
  function Endings(output: seq<PinControl>, pins: seq<nat>, top: U16): seq<(nat, real)>
    requires forall k :: 0 <= k < |pins| ==> pins[k] < |output|
    requires pins != [] ==> top > 0
  {
    if pins == [] then []
    else
      var p := pins[|pins| - 1];
      Endings(output, pins[..|pins| - 1], top) + [(p, DutyOf(output[p].value, top).value)]
  }

  /** What the output handler leaves: the ongoing list, the callback's
      events and the error. Listed pins at duration 0 end in ascending order;
      with TOP 0 and a callback set, the first one ends and then
      ZeroDivisionError stops the loop. */
  function AfterOutput(output: seq<PinControl>, before: seq<nat>, callback: bool, top: U16): (seq<nat>, seq<(nat, real)>, Option<Error>)
    requires |output| == PIN_COUNT
  {
    var ended := Ended(before, Finished(output), PIN_COUNT);
    var aborts := callback && top == 0 && ended != [];
    (RemoveAll(before, if aborts then ended[..1] else ended),
     if callback && !aborts then Endings(output, ended, top) else [],
     if aborts then Some(ZeroDivisionError) else None)
  }

  /** The handler's loop after looking at the pins below i: the list, the
      events, and whether it has raised by then. */
  function Progress(output: seq<PinControl>, before: seq<nat>, callback: bool, top: U16, i: nat)
    : (seq<nat>, seq<(nat, real)>, bool)
    requires |output| == PIN_COUNT && i <= PIN_COUNT
  {
    var ended := Ended(before, Finished(output), i);
    (RemoveAll(before, ended),
     if callback && top > 0 then Endings(output, ended, top) else [],
     callback && top == 0 && ended != [])
  }

  /** When pin i is the first pin to end and the loop raises there, the
      handler leaves the list with pin i removed. */
  lemma AbortEnds(output: seq<PinControl>, before: seq<nat>, ongoing: seq<nat>, events: seq<(nat, real)>,
                  callback: bool, top: U16, i: nat)
    requires NoDup(before) && i < |output| == PIN_COUNT
    requires (ongoing, events, false) == Progress(output, before, callback, top, i)
    requires callback && top == 0 && i in ongoing && output[i].duration == 0
    ensures AfterOutput(output, before, callback, top) == (Remove(ongoing, i), [], Some(ZeroDivisionError))
  {
    FirstEnd(before, Finished(output), i, PIN_COUNT);
  }

  /** A pass of the loop that leaves pin i alone keeps the invariant. */
  lemma KeepStep(output: seq<PinControl>, before: seq<nat>, ongoing: seq<nat>, events: seq<(nat, real)>,
                 callback: bool, top: U16, i: nat)
    requires NoDup(before) && i < |output| == PIN_COUNT
    requires (ongoing, events, false) == Progress(output, before, callback, top, i)
    requires !(i in ongoing && output[i].duration == 0)
    ensures (ongoing, events, false) == Progress(output, before, callback, top, i + 1)
  {
    var done := Ended(before, Finished(output), i);
    EndStep(before, Finished(output), i);
    assert Ended(before, Finished(output), i + 1) == done + [] == done;
  }

  /** A pass of the loop that ends pin i with no callback set keeps the
      invariant. */
  lemma QuietStep(output: seq<PinControl>, before: seq<nat>, ongoing: seq<nat>, events: seq<(nat, real)>,
                  top: U16, i: nat)
    requires NoDup(before) && i < |output| == PIN_COUNT
    requires (ongoing, events, false) == Progress(output, before, false, top, i)
    requires i in ongoing && output[i].duration == 0
    ensures (Remove(ongoing, i), events, false) == Progress(output, before, false, top, i + 1)
  {
    EndStep(before, Finished(output), i);
  }

  /** A pass of the loop that ends pin i and fires the callback with its
      duty keeps the invariant. */
  lemma FireStep(output: seq<PinControl>, before: seq<nat>, ongoing: seq<nat>, events: seq<(nat, real)>,
                 top: U16, i: nat)
    requires NoDup(before) && i < |output| == PIN_COUNT && top > 0
    requires (ongoing, events, false) == Progress(output, before, true, top, i)
    requires i in ongoing && output[i].duration == 0
    ensures (Remove(ongoing, i), events + [(i, DutyOf(output[i].value, top).value)], false) == Progress(output, before, true, top, i + 1)
  {
    var done := Ended(before, Finished(output), i);
    EndStep(before, Finished(output), i);
    assert (done + [i])[..|done|] == done;
  }

  /** The loop that ran over every pin without raising has produced what the
      handler leaves. */
  lemma LoopDone(output: seq<PinControl>, before: seq<nat>, ongoing: seq<nat>, events: seq<(nat, real)>,
                 callback: bool, top: U16)
    requires |output| == PIN_COUNT
    requires (ongoing, events, false) == Progress(output, before, callback, top, PIN_COUNT)
    ensures AfterOutput(output, before, callback, top) == (ongoing, events, None)
  {
    if callback && top == 0 {
      assert Endings(output, [], top) == [];
    }
  }

  /** The loop of the output notification, one pin at a time in ascending
      order; the duty of an ended pin is computed only when a callback is
      set. */
  method EndTransitions(output: seq<PinControl>, before: seq<nat>, callback: bool, top: U16)
    returns (ongoing: seq<nat>, events: seq<(nat, real)>, r: Option<Error>)
    requires |output| == PIN_COUNT && NoDup(before)
    ensures (ongoing, events, r) == AfterOutput(output, before, callback, top)
  {
    ongoing := before;
    events := [];
    assert Ended(before, Finished(output), 0) == [] && Endings(output, [], top) == [];
    var i := 0;
    while i < PIN_COUNT
      invariant 0 <= i <= PIN_COUNT
      invariant (ongoing, events, false) == Progress(output, before, callback, top, i)
    {
      if i in ongoing && output[i].duration == 0 {
        if !callback {
          QuietStep(output, before, ongoing, events, top, i);
          ongoing := Remove(ongoing, i);
        } else {
          var duty := DutyOf(output[i].value, top);
          if duty.Err? {
            AbortEnds(output, before, ongoing, events, callback, top, i);
            return Remove(ongoing, i), [], Some(duty.error);
          }
          FireStep(output, before, ongoing, events, top, i);
          ongoing := Remove(ongoing, i);
          events := events + [(i, duty.value)];
        }
      } else {
        KeepStep(output, before, ongoing, events, callback, top, i);
      }
      i := i + 1;
    }
    LoopDone(output, before, ongoing, events, callback, top);
    r := None;
  }

  class Driver {
    const gpio: Gpio.Driver
    var config: Config
    var output: seq<PinControl>
    var ongoing: seq<nat>
    var endCallback: bool

    predicate Valid()
      reads this, gpio
    {
      gpio.Valid() && |config.enabled| == PIN_COUNT && |output| == PIN_COUNT
      && NoDup(ongoing) && forall p :: p in ongoing ==> p < PIN_COUNT
    }

    constructor(gpio: Gpio.Driver)
      requires gpio.Valid()
      ensures Valid() && this.gpio == gpio && ongoing == [] && !endCallback
      ensures config.pwm.top == 0 && forall i :: 0 <= i < PIN_COUNT ==> config.enabled[i] == 0
    {
      this.gpio := gpio;
      config := Config(seq(PIN_COUNT, _ => 0), PwmConfig(0, 0, 0));
      output := seq(PIN_COUNT, _ => PinControl(0, 0));
      ongoing := [];
      endCallback := false;
    }

    method SetTransitionEndCallback(present: bool)
      modifies this
      ensures endCallback == present
      ensures config == old(config) && output == old(output) && ongoing == old(ongoing)
    {
      endCallback := present;
    }

    method OnConfig(data: seq<Byte>) returns (r: Option<Error>)
      requires Valid()
      modifies this
      ensures Valid()
      ensures |data| >= PIN_COUNT + 3 ==> r == None && config == DecodeConfig(data)
      ensures |data| < PIN_COUNT + 3 ==> r == Some(ValueError) && config == old(config)
      ensures output == old(output) && ongoing == old(ongoing) && endCallback == old(endCallback)
    {
      if |data| < PIN_COUNT + 3 {
        return Some(ValueError);
      }
      config := DecodeConfig(data);
      return None;
    }

    /** The output notification: replace the mirror, then end the finished
        transitions. */
    method OnOutput(data: seq<Byte>) returns (events: seq<(nat, real)>, r: Option<Error>)
      requires Valid()
      modifies this
      ensures Valid()
      ensures |data| < 6 * PIN_COUNT ==> r == Some(ValueError) && events == [] && output == old(output) && ongoing == old(ongoing)
      ensures |data| >= 6 * PIN_COUNT ==>
                output == DecodeControls(data)
                && (ongoing, events, r) == AfterOutput(output, old(ongoing), endCallback, config.pwm.top)
      ensures config == old(config) && endCallback == old(endCallback)
    {
      if |data| < 6 * PIN_COUNT {
        return [], Some(ValueError);
      }
      output := DecodeControls(data);
      var rest;
      rest, events, r := EndTransitions(output, ongoing, endCallback, config.pwm.top);
      ghost var ended := Ended(ongoing, Finished(output), PIN_COUNT);
      RemoveAllMembers(ongoing, if r.Some? then ended[..1] else ended);
      assert rest == RemoveAll(ongoing, if r.Some? then ended[..1] else ended);
      ongoing := rest;
    }

    /** `config_pwm`: choose the timer configuration for the period, then
        write it. */
    method ConfigPwm(period: real, link: Channel) returns (r: Result<()>, sent: seq<Op>)
      ensures var c := PwmForPeriod(period);
              if c.Err? then r == Err(c.error) && sent == []
              else r == Outcome(Write(Gpio.UUID_CONFIG_CMD, PwmFrame(c.value)), link) && sent == Calls(Write(Gpio.UUID_CONFIG_CMD, PwmFrame(c.value)), link)
    {
      var c := CalcPwmConfigForPeriod(period);
      if c.Err? {
        return Err(c.error), [];
      }
      r, sent := Perform(Write(Gpio.UUID_CONFIG_CMD, [CFG_CMD_HARDPWM, 0xFF] + EncodePwm(c.value)), link);
    }

    method GetPwmConfig(link: Channel) returns (r: Result<PwmConfig>, sent: seq<Op>)
      ensures sent == Calls(Read(UUID_CONFIG_GET), link)
      ensures Outcome(Read(UUID_CONFIG_GET), link).Err? ==> r == Err(Outcome(Read(UUID_CONFIG_GET), link).error)
      ensures Outcome(Read(UUID_CONFIG_GET), link).Ok? ==> r == Ok(config.pwm)
    {
      var done;
      done, sent := Perform(Read(UUID_CONFIG_GET), link);
      if done.Err? {
        return Err(done.error), sent;
      }
      return Ok(config.pwm), sent;
    }

    method ConfigPins(configs: seq<(int, bool)>, link: Channel) returns (r: Result<()>, sent: seq<Op>)
      requires Valid()
      ensures var frame := ConfigFrame(gpio.Functions(), configs);
              if frame.Err? then r == Err(frame.error) && sent == []
              else r == Outcome(Write(Gpio.UUID_CONFIG_CMD, frame.value), link) && sent == Calls(Write(Gpio.UUID_CONFIG_CMD, frame.value), link)
    {
      var frame := Frames.Build(CFG_CMD_HARDPWM, configs, PIN_COUNT, ConfigCheck(gpio.Functions()), ConfigEmit());
      if frame.Err? {
        return Err(frame.error), [];
      }
      r, sent := Perform(Write(Gpio.UUID_CONFIG_CMD, frame.value), link);
    }

    method ControlPins(controls: seq<(int, PinControl)>, link: Channel) returns (r: Result<()>, sent: seq<Op>)
      requires Valid()
      modifies this
      ensures Valid()
      ensures var frame := ControlFrame(gpio.Functions(), controls);
              if frame.Err? then r == Err(frame.error) && sent == []
              else r == Outcome(Write(Gpio.UUID_CONTROL_CMD, frame.value), link) && sent == Calls(Write(Gpio.UUID_CONTROL_CMD, frame.value), link)
      ensures ongoing == if r.Ok? then Merged(old(ongoing), Controlled(controls)) else old(ongoing)
      ensures config == old(config) && output == old(output) && endCallback == old(endCallback)
    {
      var frame := Frames.Build(CTL_CMD_HARDPWM, controls, PIN_COUNT, ControlCheck(gpio.Functions()), ControlEmit());
      if frame.Err? {
        return Err(frame.error), [];
      }
      r, sent := Perform(Write(Gpio.UUID_CONTROL_CMD, frame.value), link);
      if r.Ok? {
        MergedProps(ongoing, Controlled(controls));
        ongoing := Merge(ongoing, Controlled(controls));
      }
    }

    method GetPinsConfig(mask: int, link: Channel) returns (r: Result<seq<Bit>>, sent: seq<Op>)
      requires Valid()
      ensures sent == Calls(Read(UUID_CONFIG_GET), link)
      ensures Outcome(Read(UUID_CONFIG_GET), link).Err? ==> r == Err(Outcome(Read(UUID_CONFIG_GET), link).error)
      ensures Outcome(Read(UUID_CONFIG_GET), link).Ok? ==> r == Ok(Frames.Picked(config.enabled, mask, PIN_COUNT, (b: Bit) => b))
    {
      var done;
      done, sent := Perform(Read(UUID_CONFIG_GET), link);
      if done.Err? {
        return Err(done.error), sent;
      }
      var l := Frames.Pick(config.enabled, mask, PIN_COUNT, (b: Bit) => b);
      return Ok(l), sent;
    }

    method GetPinsControl(mask: int, link: Channel) returns (r: Result<seq<PinControl>>, sent: seq<Op>)
      requires Valid()
      ensures sent == Calls(Read(UUID_OUTPUT_GET), link)
      ensures Outcome(Read(UUID_OUTPUT_GET), link).Err? ==> r == Err(Outcome(Read(UUID_OUTPUT_GET), link).error)
      ensures Outcome(Read(UUID_OUTPUT_GET), link).Ok? ==> r == Ok(Frames.Picked(output, mask, PIN_COUNT, (c: PinControl) => c))
    {
      var done;
      done, sent := Perform(Read(UUID_OUTPUT_GET), link);
      if done.Err? {
        return Err(done.error), sent;
      }
      var l := Frames.Pick(output, mask, PIN_COUNT, (c: PinControl) => c);
      return Ok(l), sent;
    }
  }
}
