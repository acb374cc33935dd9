/** The konashi5 GPIO driver: eight pins whose configuration, output and input
    the device reports in notifications that the driver mirrors. The function
    nibble of the configuration mirror is also the pin table every other
    peripheral driver consults before it takes a pin. */
module Gpio {
  import opened Wire
  import opened Transport
  import Frames

  const PIN_COUNT := 8
  const CFG_CMD_GPIO: Byte := 0x01
  const CTL_CMD_GPIO: Byte := 0x01
  const UUID_CONFIG_CMD := "064d0201-8251-49d9-b6f3-f7ba35e5d0a1"
  const UUID_CONFIG_GET := "064d0202-8251-49d9-b6f3-f7ba35e5d0a1"
  const UUID_CONTROL_CMD := "064d0301-8251-49d9-b6f3-f7ba35e5d0a1"
  const UUID_OUTPUT_GET := "064d0302-8251-49d9-b6f3-f7ba35e5d0a1"
  const UUID_INPUT := "064d0303-8251-49d9-b6f3-f7ba35e5d0a1"

  /** Pin function codes; the SDK names exactly the first five. */
  const DISABLED: Nibble := 0
  const GPIO: Nibble := 1
  const PWM: Nibble := 2
  const I2C: Nibble := 3
  const SPI: Nibble := 4
  const FUNCTION_NAMES := 5

  /** The check a peripheral driver makes before it takes a pin for function
      `want`: the pin must be free or already have that function. The error
      message names the pin's current function, so a code the SDK has no name
      for makes the lookup of that name fail. */
  function Claim(pin: nat, current: Nibble, want: Nibble): (e: Option<Error>)
    ensures e.None? <==> current == DISABLED || current == want
    ensures e.Some? && current < FUNCTION_NAMES ==> e.value == PinUnavailable(pin, current)
    ensures e.Some? && current >= FUNCTION_NAMES ==> e.value == IndexError
  {
    if current == DISABLED || current == want then None
    else if current >= FUNCTION_NAMES then Some(IndexError)
    else Some(PinUnavailable(pin, current))
  }

  /** The checks a peripheral makes, in order, on the fixed pins it needs
      before it is enabled: the first pin that is taken raises. */
  function ClaimAll(fns: seq<Nibble>, pins: seq<nat>, want: Nibble): (e: Option<Error>)
    requires forall k :: 0 <= k < |pins| ==> pins[k] < |fns|
    ensures e.None? <==> forall k :: 0 <= k < |pins| ==> Claim(pins[k], fns[pins[k]], want).None?
    ensures e.Some? ==> exists k :: 0 <= k < |pins| && e == Claim(pins[k], fns[pins[k]], want)
                                     && forall j :: 0 <= j < k ==> Claim(pins[j], fns[pins[j]], want).None?
  {
    if pins == [] then None
    else if Claim(pins[0], fns[pins[0]], want).Some? then Claim(pins[0], fns[pins[0]], want)
    else
      var e := ClaimAll(fns, pins[1..], want);
      assert e.Some? ==> exists k :: 1 <= k < |pins| && e == Claim(pins[k], fns[pins[k]], want)
                                     && forall j :: 0 <= j < k ==> Claim(pins[j], fns[pins[j]], want).None? by {
        if e.Some? {
          var k :| 0 <= k < |pins| - 1 && e == Claim(pins[1..][k], fns[pins[1..][k]], want)
                   && forall j :: 0 <= j < k ==> Claim(pins[1..][j], fns[pins[1..][j]], want).None?;
          assert forall j :: 1 <= j < k + 1 ==> pins[j] == pins[1..][j - 1];
        }
      }
      e
  }

  /** The error raised names the first pin in check order that is taken. */
  lemma ClaimAllFirst(fns: seq<Nibble>, pins: seq<nat>, want: Nibble, k: nat)
    requires forall m :: 0 <= m < |pins| ==> pins[m] < |fns|
    requires k < |pins| && Claim(pins[k], fns[pins[k]], want).Some?
    requires forall j :: 0 <= j < k ==> Claim(pins[j], fns[pins[j]], want).None?
    ensures ClaimAll(fns, pins, want) == Claim(pins[k], fns[pins[k]], want)
  {
    var e := ClaimAll(fns, pins, want);
    var m :| 0 <= m < |pins| && e == Claim(pins[m], fns[pins[m]], want)
             && forall j :: 0 <= j < m ==> Claim(pins[j], fns[pins[j]], want).None?;
    assert m == k;
  }

  /** Pin directions, pulls and control levels as the SDK numbers them. */
  const DIR_INPUT := 1
  const DIR_OUTPUT := 2
  const DIR_OPEN_DRAIN := 3
  const DIR_OPEN_SOURCE := 4
  const PULL_UP := 1
  const PULL_DOWN := 2

  /** One pin's configuration: two bytes, the function in the low nibble of
      the first, then pull-down, pull-up, wired function (two bits), direction
      and send-on-change from bit 0 of the second. */
  datatype PinConfig = PinConfig(role: Nibble, pullDown: Bit, pullUp: Bit, wired: Crumb, direction: Bit, sendOnChange: Bit)

  /** The configuration the SDK's constructor builds. */
  function NewConfig(direction: int, pull: int, sendOnChange: bool): (c: PinConfig)
    ensures c.role == GPIO <==> direction in {DIR_INPUT, DIR_OUTPUT, DIR_OPEN_DRAIN, DIR_OPEN_SOURCE}
    ensures c.role == DISABLED <==> c.role != GPIO
    ensures c.direction == 1 <==> direction == DIR_OUTPUT
    ensures c.wired == (if direction == DIR_OPEN_DRAIN then 1 else if direction == DIR_OPEN_SOURCE then 2 else 0)
    ensures c.pullUp == 1 <==> pull == PULL_UP
    ensures c.pullDown == 1 <==> pull == PULL_DOWN
    ensures c.pullUp + c.pullDown <= 1
    ensures c.sendOnChange == 1 <==> sendOnChange
  {
    var (role, dir, wired) :=
      if direction == DIR_INPUT then (GPIO, 0, 0)
      else if direction == DIR_OUTPUT then (GPIO, 1, 0)
      else if direction == DIR_OPEN_DRAIN then (GPIO, 0, 1)
      else if direction == DIR_OPEN_SOURCE then (GPIO, 0, 2)
      else (DISABLED, 0, 0);
    var (down, up) := if pull == PULL_UP then (0, 1) else if pull == PULL_DOWN then (1, 0) else (0, 0);
    PinConfig(role, down, up, wired, dir, BitOf(sendOnChange))
  }

  function EncodeConfig(c: PinConfig): (s: seq<Byte>)
    ensures |s| == 2 && s[0] < 0x10 && s[1] < 0x40
  {
    [c.role, c.pullDown + 2 * c.pullUp + 4 * c.wired + 0x10 * c.direction + 0x20 * c.sendOnChange]
  }

  /** Reads a configuration from two bytes, ignoring the padding bits. */
  function DecodeConfig(s: seq<Byte>, at: nat): PinConfig
    requires at + 2 <= |s|
  {
    var b := s[at + 1] as int;
    PinConfig(s[at] % 0x10, b % 2, (b / 2) % 2, (b / 4) % 4, (b / 0x10) % 2, (b / 0x20) % 2)
  }

  lemma ConfigRoundTrip(c: PinConfig, pre: seq<Byte>, post: seq<Byte>)
    ensures DecodeConfig(pre + EncodeConfig(c) + post, |pre|) == c
  {
    var s := pre + EncodeConfig(c) + post;
    assert s[|pre|] == EncodeConfig(c)[0] && s[|pre| + 1] == EncodeConfig(c)[1];
    ConfigFromBytes(s, |pre|, c);
  }

  /** The first byte's high nibble does not matter to the decoding. */
  lemma ConfigFromBytes(s: seq<Byte>, at: nat, c: PinConfig)
    requires at + 2 <= |s| && s[at] % 0x10 == c.role && s[at + 1] == EncodeConfig(c)[1]
    ensures DecodeConfig(s, at) == c
  {
    FlagFields(c);
  }

  /** Each flag of the second configuration byte reads back from its bits. */
  lemma FlagFields(c: PinConfig)
    ensures var b := EncodeConfig(c)[1] as int;
            b % 2 == c.pullDown && (b / 2) % 2 == c.pullUp && (b / 4) % 4 == c.wired
            && (b / 0x10) % 2 == c.direction && (b / 0x20) % 2 == c.sendOnChange
  {
    var b := EncodeConfig(c)[1] as int;
    assert b / 2 == c.pullUp + 2 * c.wired + 8 * c.direction + 0x10 * c.sendOnChange;
    assert b / 4 == c.wired + 4 * c.direction + 8 * c.sendOnChange;
    assert b / 0x10 == c.direction + 2 * c.sendOnChange;
    assert b / 0x20 == c.sendOnChange;
  }

  /** Two bytes whose padding bits are clear are exactly the encoding of the
      configuration read from them. */
  lemma ConfigExact(s: seq<Byte>, at: nat)
    requires at + 2 <= |s| && s[at] < 0x10 && s[at + 1] < 0x40
    ensures EncodeConfig(DecodeConfig(s, at)) == s[at..at + 2]
  {
    FlagBits(s[at + 1]);
  }

  /** A byte below 0x40 is the sum of its five fields. */
  lemma FlagBits(b: int)
    requires 0 <= b < 0x40
    ensures b == b % 2 + 2 * ((b / 2) % 2) + 4 * ((b / 4) % 4) + 0x10 * ((b / 0x10) % 2) + 0x20 * ((b / 0x20) % 2)
  {
    var b1, b2, b4, b5 := b / 2, b / 4, b / 0x10, b / 0x20;
    assert b == b % 2 + 2 * b1;
    assert b1 / 2 == b2;
    assert b1 == b1 % 2 + 2 * b2;
    assert b2 / 4 == b4;
    assert b2 == b2 % 4 + 4 * b4;
    assert b4 / 2 == b5;
    assert b4 == b4 % 2 + 2 * b5;
    assert b5 < 2;
  }

  /** The configuration mirror: eight two-byte records. */
  function DecodeConfigs(s: seq<Byte>): (cs: seq<PinConfig>)
    requires |s| >= 2 * PIN_COUNT
    ensures |cs| == PIN_COUNT
  {
    seq(PIN_COUNT, i requires 0 <= i < PIN_COUNT => DecodeConfig(s, 2 * i))
  }

  /** A pin's output or input state: the level in bit 0, whether it is valid in bit 4. */
  datatype PinIO = PinIO(level: Bit, valid: Bit)

  function DecodeIO(b: Byte): PinIO {
    PinIO(b % 2, (b / 0x10) % 2)
  }

  function EncodeIO(p: PinIO): (b: Byte)
    ensures b % 2 == p.level && (b / 0x10) % 2 == p.valid
  {
    p.level + 0x10 * p.valid
  }

  lemma IORoundTrip(p: PinIO)
    ensures DecodeIO(EncodeIO(p)) == p
  {
  }

  function DecodeIOs(s: seq<Byte>): (ps: seq<PinIO>)
    requires |s| >= PIN_COUNT
    ensures |ps| == PIN_COUNT
  {
    seq(PIN_COUNT, i requires 0 <= i < PIN_COUNT => DecodeIO(s[i]))
  }

  /** The levels `read_pins` and `get_pins_control` report. */
  datatype Level = Low | High | InvalidLevel

  function LevelOf(p: PinIO): (l: Level)
    ensures l == InvalidLevel <==> p.valid == 0
    ensures l == High <==> p.valid == 1 && p.level == 1
  {
    if p.valid == 0 then InvalidLevel else if p.level == 1 then High else Low
  }

  /** What `control_pins` asks of a pin. */
  datatype Control = Drive(low: bool) | Toggle

  function ControlCode(c: Control): (n: Nibble)
    ensures n < 3
    ensures c.Toggle? <==> n == 2
  {
    match c
    case Drive(low) => if low then 0 else 1
    case Toggle => 2
  }

  /** The check `config_pins` makes on a pin: the function code must name a
      known function, and that function must be DISABLED or GPIO. */
  function ConfigCheck(fns: seq<Nibble>): (check: (nat, PinConfig) -> Option<Error>)
  {
    (i: nat, c: PinConfig) =>
      if i >= |fns| then None
      else if fns[i] >= FUNCTION_NAMES then Some(ValueError)
      else Claim(i, fns[i], GPIO)
  }

  /** A configured pin's two bytes: the pin index in the high nibble of the
      first, beside the function. Pin indices stay below 8, so the index
      always fits its nibble. */
  function ConfigEmit(): (nat, PinConfig) -> seq<Byte> {
    (i: nat, c: PinConfig) => [HighLow(i % 0x10, c.role), EncodeConfig(c)[1]]
  }

  /** The check `control_pins` makes on a pin: its function must be GPIO.
      The control itself is any integer, and `bytearray` then refuses the
      byte `(i << 4) | code` when it is not a byte: with the index below 8,
      exactly when the code is negative (the or is then negative) or above
      0xFF (the or is at least the code). */
  function ControlCheck(fns: seq<Nibble>): (check: (nat, int) -> Option<Error>)
  {
    (i: nat, code: int) =>
      if i >= |fns| then None
      else if fns[i] >= FUNCTION_NAMES then Some(ValueError)
      else if fns[i] != GPIO then Some(PinUnavailable(i, fns[i]))
      else if !(0 <= code < 0x100) then Some(ValueError)
      else None
  }

  /** A controlled pin's byte, `(i << 4) | code`. The check has refused every
      code that is not a byte before this is built. */
  function ControlEmit(): (nat, int) -> seq<Byte> {
    (i: nat, code: int) => [OrByte(i % 0x10, if 0 <= code < 0x100 then code else 0)]
  }

  function ConfigFrame(fns: seq<Nibble>, configs: seq<(int, PinConfig)>): Result<seq<Byte>> {
    Frames.Assemble(CFG_CMD_GPIO, configs, PIN_COUNT, ConfigCheck(fns), ConfigEmit())
  }

  function ControlFrame(fns: seq<Nibble>, controls: seq<(int, int)>): Result<seq<Byte>> {
    Frames.Assemble(CTL_CMD_GPIO, controls, PIN_COUNT, ControlCheck(fns), ControlEmit())
  }

  /** `config_pins` builds a frame exactly when every selected pin is
      DISABLED or GPIO. */
  lemma ConfigFrameAccepts(fns: seq<Nibble>, configs: seq<(int, PinConfig)>)
    requires |fns| == PIN_COUNT
    ensures ConfigFrame(fns, configs).Ok? <==>
            forall j, i :: 0 <= j < |configs| && 0 <= i < PIN_COUNT && Selected(configs[j].0, i) ==> fns[i] in {DISABLED, GPIO}
  {
    Frames.AssembleOk(CFG_CMD_GPIO, configs, PIN_COUNT, ConfigCheck(fns), ConfigEmit());
  }

  /** `control_pins` builds a frame exactly when every selected pin is GPIO
      and every control that selects a pin is a byte. */
  lemma ControlFrameAccepts(fns: seq<Nibble>, controls: seq<(int, int)>)
    requires |fns| == PIN_COUNT
    ensures ControlFrame(fns, controls).Ok? <==>
            forall j, i :: 0 <= j < |controls| && 0 <= i < PIN_COUNT && Selected(controls[j].0, i) ==>
              fns[i] == GPIO && 0 <= controls[j].1 < 0x100
  {
    Frames.AssembleOk(CTL_CMD_GPIO, controls, PIN_COUNT, ControlCheck(fns), ControlEmit());
  }

  /** The configuration frame is the selector and two bytes per selected pin. */
  lemma ConfigFrameLength(fns: seq<Nibble>, configs: seq<(int, PinConfig)>)
    requires ConfigFrame(fns, configs).Ok?
    ensures |ConfigFrame(fns, configs).value| == 1 + 2 * |Frames.Selection(configs, PIN_COUNT)|
    ensures ConfigFrame(fns, configs).value[0] == CFG_CMD_GPIO
  {
    Frames.BodyLength(Frames.Selection(configs, PIN_COUNT), ConfigEmit(), 2);
  }

  /** The k-th selected pin owns bytes 1+2k and 2+2k of the configuration
      frame: the first carries the pin index above the function, and the two
      decode back to the configuration given for that pin. */
  lemma ConfigFrameLayout(fns: seq<Nibble>, configs: seq<(int, PinConfig)>, k: nat)
    requires ConfigFrame(fns, configs).Ok?
    requires k < |Frames.Selection(configs, PIN_COUNT)|
    ensures 3 + 2 * k <= |ConfigFrame(fns, configs).value|
    ensures ConfigFrame(fns, configs).value[1 + 2 * k] / 0x10 == Frames.Selection(configs, PIN_COUNT)[k].0
    ensures DecodeConfig(ConfigFrame(fns, configs).value, 1 + 2 * k) == Frames.Selection(configs, PIN_COUNT)[k].1
  {
    var sel := Frames.Selection(configs, PIN_COUNT);
    var frame := [CFG_CMD_GPIO] + Frames.Body(sel, ConfigEmit());
    ConfigFrameBytes(sel, k);
    ConfigFromBytes(frame, 1 + 2 * k, sel[k].1);
  }

  lemma ConfigFrameBytes(sel: seq<(nat, PinConfig)>, k: nat)
    requires k < |sel| && sel[k].0 < PIN_COUNT
    ensures var frame := [CFG_CMD_GPIO] + Frames.Body(sel, ConfigEmit());
            |frame| == 1 + 2 * |sel| && 3 + 2 * k <= |frame|
            && frame[1 + 2 * k] / 0x10 == sel[k].0 && frame[1 + 2 * k] % 0x10 == sel[k].1.role
            && frame[2 + 2 * k] == EncodeConfig(sel[k].1)[1]
  {
    var body := Frames.Body(sel, ConfigEmit());
    var (i, c) := sel[k];
    ConfigChunk(sel, k);
    assert body[2 * k .. 2 * k + 2] == ConfigEmit()(i, c);
    assert body[2 * k] == HighLow(i % 0x10, c.role);
  }

  lemma ConfigChunk(sel: seq<(nat, PinConfig)>, k: nat)
    requires k < |sel|
    ensures |Frames.Body(sel, ConfigEmit())| == 2 * |sel| && 2 * k + 2 <= |Frames.Body(sel, ConfigEmit())|
    ensures Frames.Body(sel, ConfigEmit())[2 * k .. 2 * k + 2] == ConfigEmit()(sel[k].0, sel[k].1)
  {
    Frames.BodyLength(sel, ConfigEmit(), 2);
    Frames.BodyChunk(sel, ConfigEmit(), 2, k);
  }

  /** The control frame is one byte per selected pin after the selector,
      `(i << 4) | code`: the pin index in the high nibble and the code in the
      low one when the code is a nibble, such as a PinControl code. */
  lemma ControlFrameLayout(fns: seq<Nibble>, controls: seq<(int, int)>, k: nat)
    requires |fns| == PIN_COUNT && ControlFrame(fns, controls).Ok?
    requires k < |Frames.Selection(controls, PIN_COUNT)|
    ensures |ControlFrame(fns, controls).value| == 1 + |Frames.Selection(controls, PIN_COUNT)|
    ensures ControlFrame(fns, controls).value[0] == CTL_CMD_GPIO
    ensures var (i, code) := Frames.Selection(controls, PIN_COUNT)[k];
            0 <= code < 0x100 && ControlFrame(fns, controls).value[1 + k] == Or(0x10 * i, code)
    ensures var (i, code) := Frames.Selection(controls, PIN_COUNT)[k];
            0 <= code < 0x10 ==> ControlFrame(fns, controls).value[1 + k] == HighLow(i, code)
  {
    var sel := Frames.Selection(controls, PIN_COUNT);
    Frames.FirstErrorNone(sel, ControlCheck(fns));
    assert ControlCheck(fns)(sel[k].0, sel[k].1).None?;
    ControlFrameBytes(sel, k);
  }

  lemma ControlFrameBytes(sel: seq<(nat, int)>, k: nat)
    requires k < |sel| && sel[k].0 < PIN_COUNT && 0 <= sel[k].1 < 0x100
    ensures var frame := [CTL_CMD_GPIO] + Frames.Body(sel, ControlEmit());
            |frame| == 1 + |sel| && frame[1 + k] == Or(0x10 * sel[k].0, sel[k].1)
            && (sel[k].1 < 0x10 ==> frame[1 + k] == HighLow(sel[k].0, sel[k].1))
  {
    var body := Frames.Body(sel, ControlEmit());
    var (i, code) := sel[k];
    Frames.BodyLength(sel, ControlEmit(), 1);
    Frames.BodyChunk(sel, ControlEmit(), 1, k);
    assert body[k .. k + 1] == ControlEmit()(i, code);
    assert body[k] == OrByte(i, code);
    if code < 0x10 {
      OrNibbles(i, code);
    }
  }

  /** The pins whose input changed: for each pin below n in ascending order
      whose frame byte is valid and whose level differs from the mirror's,
      the pin and its new level. */
  function Edges(prev: seq<PinIO>, data: seq<Byte>, n: nat): seq<(nat, Bit)>
    requires n <= |prev| && n <= |data|
  {
    if n == 0 then []
    else
      var b := data[n - 1];
      Edges(prev, data, n - 1) + if (b / 0x10) % 2 == 1 && b % 2 != prev[n - 1].level then [(n - 1, b % 2)] else []
  }

  /** A pin fires exactly when its new byte is valid and its level differs
      from the mirrored one, and it fires with the new level. */
  lemma {:induction false} EdgesExact(prev: seq<PinIO>, data: seq<Byte>, n: nat)
    requires n <= |prev| && n <= |data|
    ensures forall i: nat, v :: (i, v) in Edges(prev, data, n) <==>
              i < n && (data[i] / 0x10) % 2 == 1 && data[i] % 2 != prev[i].level && v == data[i] % 2
    ensures forall k, m :: 0 <= k < m < |Edges(prev, data, n)| ==> Edges(prev, data, n)[k].0 < Edges(prev, data, n)[m].0
  {
    if n > 0 {
      EdgesExact(prev, data, n - 1);
    }
  }

  /** Once the mirror holds a frame, the same frame again fires nothing. */
  lemma {:induction false} RepeatedFrameQuiet(data: seq<Byte>, n: nat)
    requires |data| >= PIN_COUNT && n <= PIN_COUNT
    ensures Edges(DecodeIOs(data), data, n) == []
  {
    if n > 0 {
      RepeatedFrameQuiet(data, n - 1);
    }
  }

  /** A driver's mirrors of the device state and the input callback. */
  class Driver {
    var config: seq<PinConfig>
    var output: seq<PinIO>
    var input: seq<PinIO>
    var inputCallback: bool

    predicate Valid()
      reads this
    {
      |config| == PIN_COUNT && |output| == PIN_COUNT && |input| == PIN_COUNT
    }

    /** The pin table: every pin's current function. */
    function Functions(): (fns: seq<Nibble>)
      reads this
      requires Valid()
      ensures |fns| == PIN_COUNT
      ensures forall i :: 0 <= i < PIN_COUNT ==> fns[i] == config[i].role
    {
      var c := config;
      seq(PIN_COUNT, i requires 0 <= i < PIN_COUNT => c[i].role)
    }

    /** The mirrors start zeroed: every pin DISABLED, nothing valid. */
    constructor()
      ensures Valid() && !inputCallback
      ensures forall i :: 0 <= i < PIN_COUNT ==> config[i].role == DISABLED && output[i].valid == 0 && input[i].valid == 0
    {
      config := seq(PIN_COUNT, _ => PinConfig(0, 0, 0, 0, 0, 0));
      output := seq(PIN_COUNT, _ => PinIO(0, 0));
      input := seq(PIN_COUNT, _ => PinIO(0, 0));
      inputCallback := false;
    }

    method SetInputCallback(present: bool)
      modifies this
      ensures inputCallback == present
      ensures config == old(config) && output == old(output) && input == old(input)
    {
      inputCallback := present;
    }

    /** The configuration notification replaces the mirror; a frame shorter
        than the eight records is refused and changes nothing. */
    method OnConfig(data: seq<Byte>) returns (r: Option<Error>)
      requires Valid()
      modifies this
      ensures Valid()
      ensures |data| >= 2 * PIN_COUNT ==> r == None && config == DecodeConfigs(data)
      ensures |data| < 2 * PIN_COUNT ==> r == Some(ValueError) && config == old(config)
      ensures output == old(output) && input == old(input) && inputCallback == old(inputCallback)
    {
      if |data| < 2 * PIN_COUNT {
        return Some(ValueError);
      }
      config := DecodeConfigs(data);
      return None;
    }

    /** The output notification replaces the output mirror. */
    method OnOutput(data: seq<Byte>) returns (r: Option<Error>)
      requires Valid()
      modifies this
      ensures Valid()
      ensures |data| >= PIN_COUNT ==> r == None && output == DecodeIOs(data)
      ensures |data| < PIN_COUNT ==> r == Some(ValueError) && output == old(output)
      ensures config == old(config) && input == old(input) && inputCallback == old(inputCallback)
    {
      if |data| < PIN_COUNT {
        return Some(ValueError);
      }
      output := DecodeIOs(data);
      return None;
    }

    /** The input notification: fire the callback for every pin whose level
        changed, then replace the mirror. The loop indexes the frame before
        the mirror is decoded, so a short frame fires the pins it has and then
        fails, leaving the mirror as it was. */
    method OnInput(data: seq<Byte>) returns (events: seq<(nat, Bit)>, r: Option<Error>)
      requires Valid()
      modifies this
      ensures Valid()
      ensures var n := if |data| < PIN_COUNT then |data| else PIN_COUNT;
              events == if old(inputCallback) then Edges(old(input), data, n) else []
      ensures |data| >= PIN_COUNT ==> r == None && input == DecodeIOs(data)
      ensures |data| < PIN_COUNT ==> r == Some(IndexError) && input == old(input)
      ensures config == old(config) && output == old(output) && inputCallback == old(inputCallback)
    {
      events := [];
      var i := 0;
      while i < PIN_COUNT
        invariant 0 <= i <= PIN_COUNT && i <= |data|
        invariant events == if inputCallback then Edges(input, data, i) else []
      {
        if i == |data| {
          return events, Some(IndexError);
        }
        if (data[i] / 0x10) % 2 == 1 {
          var level := data[i] % 2;
          if input[i].level != level {
            if inputCallback {
              events := events + [(i, level)];
            }
          }
        }
        i := i + 1;
      }
      input := DecodeIOs(data);
      return events, None;
    }

    /** `config_pins`: check every selected pin against the pin table, then
        write the frame; a failed check writes nothing. */
    method ConfigPins(configs: seq<(int, PinConfig)>, link: Channel) returns (r: Result<()>, sent: seq<Op>)
      requires Valid()
      ensures var frame := ConfigFrame(Functions(), configs);
              if frame.Err? then r == Err(frame.error) && sent == []
              else r == Outcome(Write(UUID_CONFIG_CMD, frame.value), link) && sent == Calls(Write(UUID_CONFIG_CMD, frame.value), link)
    {
      var frame := Frames.Build(CFG_CMD_GPIO, configs, PIN_COUNT, ConfigCheck(Functions()), ConfigEmit());
      if frame.Err? {
        return Err(frame.error), [];
      }
      r, sent := Perform(Write(UUID_CONFIG_CMD, frame.value), link);
    }

    /** `control_pins`: every selected pin must be GPIO. */
    method ControlPins(controls: seq<(int, int)>, link: Channel) returns (r: Result<()>, sent: seq<Op>)
      requires Valid()
      ensures var frame := ControlFrame(Functions(), controls);
              if frame.Err? then r == Err(frame.error) && sent == []
              else r == Outcome(Write(UUID_CONTROL_CMD, frame.value), link) && sent == Calls(Write(UUID_CONTROL_CMD, frame.value), link)
    {
      var frame := Frames.Build(CTL_CMD_GPIO, controls, PIN_COUNT, ControlCheck(Functions()), ControlEmit());
      if frame.Err? {
        return Err(frame.error), [];
      }
      r, sent := Perform(Write(UUID_CONTROL_CMD, frame.value), link);
    }

    /** `get_pins_config`: read, then report the mirrored configuration of
        every selected pin. */
    method GetPinsConfig(mask: int, link: Channel) returns (r: Result<seq<PinConfig>>, sent: seq<Op>)
      requires Valid()
      ensures sent == Calls(Read(UUID_CONFIG_GET), link)
      ensures Outcome(Read(UUID_CONFIG_GET), link).Err? ==> r == Err(Outcome(Read(UUID_CONFIG_GET), link).error)
      ensures Outcome(Read(UUID_CONFIG_GET), link).Ok? ==> r == Ok(Frames.Picked(config, mask, PIN_COUNT, (c: PinConfig) => c))
    {
      var done;
      done, sent := Perform(Read(UUID_CONFIG_GET), link);
      if done.Err? {
        return Err(done.error), sent;
      }
      var l := Frames.Pick(config, mask, PIN_COUNT, (c: PinConfig) => c);
      return Ok(l), sent;
    }

    /** `get_pins_control`: the output level of every selected pin. */
    method GetPinsControl(mask: int, link: Channel) returns (r: Result<seq<Level>>, sent: seq<Op>)
      requires Valid()
      ensures sent == Calls(Read(UUID_OUTPUT_GET), link)
      ensures Outcome(Read(UUID_OUTPUT_GET), link).Err? ==> r == Err(Outcome(Read(UUID_OUTPUT_GET), link).error)
      ensures Outcome(Read(UUID_OUTPUT_GET), link).Ok? ==> r == Ok(Frames.Picked(output, mask, PIN_COUNT, LevelOf))
    {
      var done;
      done, sent := Perform(Read(UUID_OUTPUT_GET), link);
      if done.Err? {
        return Err(done.error), sent;
      }
      var l := Frames.Pick(output, mask, PIN_COUNT, LevelOf);
      return Ok(l), sent;
    }

    /** `read_pins`: the input level of every selected pin. */
    method ReadPins(mask: int, link: Channel) returns (r: Result<seq<Level>>, sent: seq<Op>)
      requires Valid()
      ensures sent == Calls(Read(UUID_INPUT), link)
      ensures Outcome(Read(UUID_INPUT), link).Err? ==> r == Err(Outcome(Read(UUID_INPUT), link).error)
      ensures Outcome(Read(UUID_INPUT), link).Ok? ==> r == Ok(Frames.Picked(input, mask, PIN_COUNT, LevelOf))
    {
      var done;
      done, sent := Perform(Read(UUID_INPUT), link);
      if done.Err? {
        return Err(done.error), sent;
      }
      var l := Frames.Pick(input, mask, PIN_COUNT, LevelOf);
      return Ok(l), sent;
    }
  }
}
