/** The konashi5 SPI driver: a five-byte configuration that takes GPIO 2 (CS),
    5 (CLK), 3 (MISO) and 4 (MOSI) when it enables the bus, and transactions
    whose reply arrives in a data-in notification. */
module SPI {
  import opened Wire
  import opened Transport
  import Gpio
  import opened Pending

  const CFG_CMD_SPI: Byte := 0x07
  const CTL_CMD_SPI_DATA: Byte := 0x07
  const UUID_CONFIG_GET := "064d0208-8251-49d9-b6f3-f7ba35e5d0a1"
  const CS_PIN := 2
  const CLK_PIN := 5
  const MISO_PIN := 3
  const MOSI_PIN := 4

  /** SPI modes 0 to 3 and the two bit orders, LSB_FIRST and MSB_FIRST. */
  const MODE_COUNT := 4
  const LSB_FIRST := 0
  const MSB_FIRST := 1

  /** The configuration: mode in bits 0-1, endianness in bit 3 and enabled in
      bit 7 of the first byte, then the bit rate as a c_uint32. */
  datatype Config = Config(mode: Crumb, endian: Bit, enabled: Bit, bitrate: U32)

  /** The SDK's constructor: each bit-field keeps its low bits, and the bit
      rate wraps to 32 bits. */
  function NewConfig(enable: bool, mode: int, endian: int, bitrate: int): (c: Config)
    ensures c.enabled == 1 <==> enable
    ensures 0 <= mode < MODE_COUNT ==> c.mode == mode
    ensures endian in {LSB_FIRST, MSB_FIRST} ==> c.endian == endian
    ensures 0 <= bitrate < 0x1_0000_0000 ==> c.bitrate == bitrate
  {
    Config(mode % 4, endian % 2, BitOf(enable), bitrate % 0x1_0000_0000)
  }

  function EncodeConfig(c: Config): (s: seq<Byte>)
    ensures |s| == 5
  {
    [c.mode + 8 * c.endian + 0x80 * c.enabled] + LE32(c.bitrate)
  }

  /** Reads a configuration, ignoring the padding bits. */
  function DecodeConfig(s: seq<Byte>, at: nat): Config
    requires at + 5 <= |s|
  {
    var b := s[at] as int;
    Config(b % 4, (b / 8) % 2, b / 0x80, ReadLE32(s, at + 1))
  }

  lemma ConfigRoundTrip(s: seq<Byte>, at: nat, c: Config)
    requires at + 5 <= |s| && s[at..at + 5] == EncodeConfig(c)
    ensures DecodeConfig(s, at) == c
  {
    var e := EncodeConfig(c);
    assert s[at] == e[0];
    Within(s, at, e, 1, 5);
    assert e[1..5] == LE32(c.bitrate);
    LE32RoundTrip(s, at + 1, c.bitrate);
  }

  /** The pins an enabled bus needs, in the order they are checked. */
  const BUS_PINS: seq<nat> := [CS_PIN, CLK_PIN, MISO_PIN, MOSI_PIN]

  /** `config`: an enabled configuration needs CS, CLK, MISO and MOSI free or
      SPI, checked in that order; a disabled one is not checked. The frame is
      the selector and the five configuration bytes. */
  function ConfigFrame(fns: seq<Nibble>, c: Config): (r: Result<seq<Byte>>)
    requires |fns| == Gpio.PIN_COUNT
    ensures r.Ok? <==> c.enabled == 0 || forall p :: p in BUS_PINS ==> fns[p] in {Gpio.DISABLED, Gpio.SPI}
    ensures r.Err? ==> r.error == Gpio.ClaimAll(fns, BUS_PINS, Gpio.SPI).value
    ensures r.Ok? ==> r.value == [CFG_CMD_SPI] + EncodeConfig(c)
  {
    if c.enabled == 1 && Gpio.ClaimAll(fns, BUS_PINS, Gpio.SPI).Some? then
      Err(Gpio.ClaimAll(fns, BUS_PINS, Gpio.SPI).value)
    else
      assert c.enabled == 1 ==> forall k :: 0 <= k < |BUS_PINS| ==> Gpio.Claim(BUS_PINS[k], fns[BUS_PINS[k]], Gpio.SPI).None?;
      Ok([CFG_CMD_SPI] + EncodeConfig(c))
  }

  /** The configuration read back from the frame is the one given. */
  lemma ConfigFrameRoundTrip(fns: seq<Nibble>, c: Config)
    requires |fns| == Gpio.PIN_COUNT && ConfigFrame(fns, c).Ok?
    ensures DecodeConfig(ConfigFrame(fns, c).value, 1) == c
  {
    ConfigRoundTrip(ConfigFrame(fns, c).value, 1, c);
  }

  /** CLK is checked right after CS: with CS free and CLK taken, the error
      names CLK whatever MISO and MOSI hold. */
  lemma ClkSecond(fns: seq<Nibble>, c: Config)
    requires |fns| == Gpio.PIN_COUNT && c.enabled == 1
    requires fns[CS_PIN] in {Gpio.DISABLED, Gpio.SPI}
    requires fns[CLK_PIN] !in {Gpio.DISABLED, Gpio.SPI} && fns[CLK_PIN] < Gpio.FUNCTION_NAMES
    ensures ConfigFrame(fns, c) == Err(PinUnavailable(CLK_PIN, fns[CLK_PIN]))
  {
    Gpio.ClaimAllFirst(fns, BUS_PINS, Gpio.SPI, 1);
  }

  /** The transaction frame: the selector, then the data as given. The
      emptiness and length checks in the source build their errors without
      raising them. */
  function TransactionFrame(writeData: seq<Byte>): (frame: seq<Byte>)
    ensures |frame| == 1 + |writeData| && frame[0] == CTL_CMD_SPI_DATA && frame[1..] == writeData
  {
    [CTL_CMD_SPI_DATA] + writeData
  }

  /** An empty transaction is sent as the bare selector, although the
      documentation gives the data length as 1 to 127. */
  lemma EmptyTransactionSent()
    ensures TransactionFrame([]) == [CTL_CMD_SPI_DATA]
  {
  }

  /** `transaction` with the length checks raised, as its documentation
      promises: the data must hold 1 to 127 bytes. */
  function TransactionFrameChecked(writeData: seq<Byte>): (r: Result<seq<Byte>>)
    ensures r.Ok? <==> 1 <= |writeData| <= 127
    ensures r.Err? ==> r.error == ValueError
    ensures r.Ok? ==> r.value == TransactionFrame(writeData) && 2 <= |r.value| <= 128
  {
    if |writeData| == 0 || |writeData| > 127 then Err(ValueError)
    else Ok(TransactionFrame(writeData))
  }

  class Driver {
    const gpio: Gpio.Driver
    var config: Config
    var slot: Slot

    predicate Valid()
      reads this, gpio
    {
      gpio.Valid()
    }

    /** A disabled mode-0, LSB-first configuration at bit rate 0, and no
        request under way. */
    constructor(gpio: Gpio.Driver)
      requires gpio.Valid()
      ensures Valid() && this.gpio == gpio
      ensures config == Config(0, LSB_FIRST, 0, 0) && slot == Idle
    {
      this.gpio := gpio;
      config := Config(0, LSB_FIRST, 0, 0);
      slot := Idle;
    }

    /** The configuration notification; a frame shorter than five bytes is
        refused. */
    method OnConfig(data: seq<Byte>) returns (r: Option<Error>)
      modifies this
      ensures |data| >= 5 ==> r == None && config == DecodeConfig(data, 0)
      ensures |data| < 5 ==> r == Some(ValueError) && config == old(config)
      ensures slot == old(slot)
    {
      if |data| < 5 {
        return Some(ValueError);
      }
      config := DecodeConfig(data, 0);
      return None;
    }

    /** The data-in notification resolves a waiting request; otherwise it
        changes nothing. */
    method OnDataIn(data: seq<Byte>)
      modifies this
      ensures slot == Deliver(old(slot), data)
      ensures config == old(config)
    {
      slot := Deliver(slot, data);
    }

    /** `config`: a pin conflict raises before anything is written. */
    method Configure(c: Config, link: Channel) returns (r: Result<()>, sent: seq<Op>)
      requires Valid()
      ensures var frame := ConfigFrame(gpio.Functions(), c);
              if frame.Err? then r == Err(frame.error) && sent == []
              else r == Outcome(Write(Gpio.UUID_CONFIG_CMD, frame.value), link) && sent == Calls(Write(Gpio.UUID_CONFIG_CMD, frame.value), link)
    {
      var frame := ConfigFrame(gpio.Functions(), c);
      if frame.Err? {
        return Err(frame.error), [];
      }
      r, sent := Perform(Write(Gpio.UUID_CONFIG_CMD, frame.value), link);
    }

    /** `get_config`: read, then report the mirrored configuration. */
    method GetConfig(link: Channel) returns (r: Result<Config>, sent: seq<Op>)
      ensures sent == Calls(Read(UUID_CONFIG_GET), link)
      ensures Outcome(Read(UUID_CONFIG_GET), link).Err? ==> r == Err(Outcome(Read(UUID_CONFIG_GET), link).error)
      ensures Outcome(Read(UUID_CONFIG_GET), link).Ok? ==> r == Ok(config)
    {
      var done;
      done, sent := Perform(Read(UUID_CONFIG_GET), link);
      if done.Err? {
        return Err(done.error), sent;
      }
      return Ok(config), sent;
    }

    /** The first half of `transaction`: arm the slot, then write. The slot
        stays armed when the write fails. */
    method Transaction(writeData: seq<Byte>, link: Channel) returns (r: Result<()>, sent: seq<Op>)
      modifies this
      ensures slot == Waiting
      ensures r == Outcome(Write(Gpio.UUID_CONTROL_CMD, TransactionFrame(writeData)), link)
      ensures sent == Calls(Write(Gpio.UUID_CONTROL_CMD, TransactionFrame(writeData)), link)
      ensures config == old(config)
    {
      slot := Waiting;
      r, sent := Perform(Write(Gpio.UUID_CONTROL_CMD, TransactionFrame(writeData)), link);
    }

    /** The second half of `transaction`: once the reply is in, clear the slot
        and return the bytes read. Until then nothing changes. */
    method Finish() returns (r: Option<seq<Byte>>)
      modifies this
      ensures old(slot).Done? ==> slot == Idle && r == Some(old(slot).reply)
      ensures !old(slot).Done? ==> slot == old(slot) && r == None
      ensures config == old(config)
    {
      if !slot.Done? {
        return None;
      }
      r := Some(slot.reply);
      slot := Idle;
    }
  }
}
