/** The konashi5 I2C driver: a one-byte configuration that takes GPIO 6 (SDA)
    and GPIO 7 (SCL) when it enables the bus, and transactions whose reply
    arrives in a data-in notification. */
module I2C {
  import opened Wire
  import opened Transport
  import Gpio
  import opened Pending

  const CFG_CMD_I2C: Byte := 0x05
  const CTL_CMD_I2C_DATA: Byte := 0x05
  const UUID_CONFIG_GET := "064d0206-8251-49d9-b6f3-f7ba35e5d0a1"
  const SDA_PIN := 6
  const SCL_PIN := 7

  /** Bus modes: STANDARD and FAST. */
  const STANDARD := 0
  const FAST := 1
  /** Transaction operations: WRITE, READ and WRITE_READ. */
  const WRITE := 0
  const READ := 1
  const WRITE_READ := 2
  /** Transaction results run from DONE (0) to SW_FAULT (5). */
  const RESULT_COUNT := 6

  /** The configuration byte: mode in bit 0, enabled in bit 1. */
  datatype Config = Config(mode: Bit, enabled: Bit)

  /** The SDK's constructor; each one-bit field keeps the low bit. */
  function NewConfig(enable: bool, mode: int): (c: Config)
    ensures c.enabled == 1 <==> enable
    ensures mode in {STANDARD, FAST} ==> c.mode == mode
  {
    Config(mode % 2, BitOf(enable))
  }

  function EncodeConfig(c: Config): (b: Byte)
    ensures b < 4
  {
    c.mode + 2 * c.enabled
  }

  /** Reads the configuration byte, ignoring the padding bits. */
  function DecodeConfig(b: Byte): Config {
    Config(b % 2, (b / 2) % 2)
  }

  lemma ConfigRoundTrip(c: Config)
    ensures DecodeConfig(EncodeConfig(c)) == c
  {
  }

  /** The pins an enabled bus needs, in the order they are checked. */
  const BUS_PINS: seq<nat> := [SDA_PIN, SCL_PIN]

  /** `config`: an enabled configuration needs SDA, then SCL, free or I2C; a
      disabled one is not checked. The frame is the selector and the byte. */
  function ConfigFrame(fns: seq<Nibble>, c: Config): (r: Result<seq<Byte>>)
    requires |fns| == Gpio.PIN_COUNT
    ensures r.Ok? <==> c.enabled == 0 || forall p :: p in BUS_PINS ==> fns[p] in {Gpio.DISABLED, Gpio.I2C}
    ensures r.Err? ==> r.error == Gpio.ClaimAll(fns, BUS_PINS, Gpio.I2C).value
    ensures r.Ok? ==> r.value == [CFG_CMD_I2C, EncodeConfig(c)]
  {
    if c.enabled == 1 && Gpio.ClaimAll(fns, BUS_PINS, Gpio.I2C).Some? then
      Err(Gpio.ClaimAll(fns, BUS_PINS, Gpio.I2C).value)
    else
      assert c.enabled == 1 ==> forall k :: 0 <= k < |BUS_PINS| ==> Gpio.Claim(BUS_PINS[k], fns[BUS_PINS[k]], Gpio.I2C).None?;
      Ok([CFG_CMD_I2C, EncodeConfig(c)])
  }

  /** SDA is checked before SCL: when both are taken, the error names SDA. */
  lemma SdaFirst(fns: seq<Nibble>, c: Config)
    requires |fns| == Gpio.PIN_COUNT && c.enabled == 1
    requires fns[SDA_PIN] !in {Gpio.DISABLED, Gpio.I2C} && fns[SDA_PIN] < Gpio.FUNCTION_NAMES
    ensures ConfigFrame(fns, c) == Err(PinUnavailable(SDA_PIN, fns[SDA_PIN]))
  {
    Gpio.ClaimAllFirst(fns, BUS_PINS, Gpio.I2C, 0);
  }

  /** The transaction frame: selector, operation, read length, address, then
      the data to write. The range checks in the source build their errors
      without raising them; only a header value that is not a byte fails, when
      it is put into the frame. */
  function TransactionFrame(operation: int, address: int, readLen: int, writeData: seq<Byte>): (r: Result<seq<Byte>>)
    ensures r.Ok? <==> 0 <= operation < 0x100 && 0 <= address < 0x100 && 0 <= readLen < 0x100
    ensures r.Err? ==> r.error == ValueError
    ensures r.Ok? ==> |r.value| == 4 + |writeData| && r.value[..4] == [CTL_CMD_I2C_DATA, operation, readLen, address]
                      && r.value[4..] == writeData
  {
    if 0 <= operation < 0x100 && 0 <= address < 0x100 && 0 <= readLen < 0x100 then
      Ok([CTL_CMD_I2C_DATA, operation, readLen, address] + writeData)
    else Err(ValueError)
  }

  /** An address over 0x7F, a read length over 126 or more than 124 bytes to
      write are all sent as they are. */
  lemma LimitsNotEnforced(writeData: seq<Byte>)
    ensures TransactionFrame(WRITE_READ, 0xFF, 0xFF, writeData).Ok?
  {
  }

  /** `transaction` with the limit checks raised, as its documentation
      promises: a read length over 126, an address over 0x7F or more than 124
      bytes to write are refused before anything is sent. */
  function TransactionFrameChecked(operation: int, address: int, readLen: int, writeData: seq<Byte>): (r: Result<seq<Byte>>)
    ensures r.Ok? <==> 0 <= operation < 0x100 && 0 <= address <= 0x7F && 0 <= readLen <= 126 && |writeData| <= 124
    ensures r.Err? ==> r.error == ValueError
    ensures r.Ok? ==> r == TransactionFrame(operation, address, readLen, writeData)
                      && |r.value| <= 4 + 124 && r.value[3] <= 0x7F && r.value[2] <= 126
  {
    if readLen > 126 || address > 0x7F || |writeData| > 124 then Err(ValueError)
    else TransactionFrame(operation, address, readLen, writeData)
  }

  /** A transaction's reply: the result code, the address and the data read. */
  datatype Reply = Reply(result: int, address: Byte, data: seq<Byte>)

  /** Reads a reply: the result code must name a result, and the address byte
      must be present. */
  function DecodeReply(res: seq<Byte>): (r: Result<Reply>)
    ensures r.Ok? <==> |res| >= 2 && res[0] < RESULT_COUNT
    ensures r.Err? ==> r.error == if |res| == 0 || res[0] < RESULT_COUNT then IndexError else ValueError
  {
    if |res| == 0 then Err(IndexError)
    else if res[0] >= RESULT_COUNT then Err(ValueError)
    else if |res| < 2 then Err(IndexError)
    else Ok(Reply(res[0], res[1], res[2..]))
  }

  function EncodeReply(r: Reply): seq<Byte>
    requires 0 <= r.result < RESULT_COUNT
  {
    [r.result, r.address] + r.data
  }

  lemma ReplyRoundTrip(r: Reply)
    requires 0 <= r.result < RESULT_COUNT
    ensures DecodeReply(EncodeReply(r)) == Ok(r)
  {
    assert EncodeReply(r)[2..] == r.data;
  }

  class Driver {
    const gpio: Gpio.Driver
    var config: Config
    var slot: Slot

    predicate Valid()
      reads this, gpio
    {
      gpio.Valid()
    }

    /** A disabled standard-mode configuration and no request under way. */
    constructor(gpio: Gpio.Driver)
      requires gpio.Valid()
      ensures Valid() && this.gpio == gpio
      ensures config == Config(STANDARD, 0) && slot == Idle
    {
      this.gpio := gpio;
      config := Config(STANDARD, 0);
      slot := Idle;
    }

    /** The configuration notification; an empty frame is refused. */
    method OnConfig(data: seq<Byte>) returns (r: Option<Error>)
      modifies this
      ensures |data| >= 1 ==> r == None && config == DecodeConfig(data[0])
      ensures |data| < 1 ==> r == Some(ValueError) && config == old(config)
      ensures slot == old(slot)
    {
      if |data| < 1 {
        return Some(ValueError);
      }
      config := DecodeConfig(data[0]);
      return None;
    }

    /** The data-in notification resolves a waiting request; otherwise it
        changes nothing. */
    method OnDataIn(data: seq<Byte>)
      modifies this
      ensures slot == Deliver(old(slot), data)
      ensures config == old(config)
    {
      slot := Deliver(slot, data);
    }

    /** `config`: a pin conflict raises before anything is written. */
    method Configure(c: Config, link: Channel) returns (r: Result<()>, sent: seq<Op>)
      requires Valid()
      ensures var frame := ConfigFrame(gpio.Functions(), c);
              if frame.Err? then r == Err(frame.error) && sent == []
              else r == Outcome(Write(Gpio.UUID_CONFIG_CMD, frame.value), link) && sent == Calls(Write(Gpio.UUID_CONFIG_CMD, frame.value), link)
    {
      var frame := ConfigFrame(gpio.Functions(), c);
      if frame.Err? {
        return Err(frame.error), [];
      }
      r, sent := Perform(Write(Gpio.UUID_CONFIG_CMD, frame.value), link);
    }

    /** `get_config`: read, then report the mirrored configuration. */
    method GetConfig(link: Channel) returns (r: Result<Config>, sent: seq<Op>)
      ensures sent == Calls(Read(UUID_CONFIG_GET), link)
      ensures Outcome(Read(UUID_CONFIG_GET), link).Err? ==> r == Err(Outcome(Read(UUID_CONFIG_GET), link).error)
      ensures Outcome(Read(UUID_CONFIG_GET), link).Ok? ==> r == Ok(config)
    {
      var done;
      done, sent := Perform(Read(UUID_CONFIG_GET), link);
      if done.Err? {
        return Err(done.error), sent;
      }
      return Ok(config), sent;
    }

    /** The first half of `transaction`: build the frame, arm the slot, write.
        The slot stays armed when the write fails, as nothing disarms it. */
    method Transaction(operation: int, address: int, readLen: int, writeData: seq<Byte>, link: Channel)
      returns (r: Result<()>, sent: seq<Op>)
      modifies this
      ensures var frame := TransactionFrame(operation, address, readLen, writeData);
              if frame.Err? then r == Err(ValueError) && sent == [] && slot == old(slot)
              else slot == Waiting
                   && r == Outcome(Write(Gpio.UUID_CONTROL_CMD, frame.value), link)
                   && sent == Calls(Write(Gpio.UUID_CONTROL_CMD, frame.value), link)
      ensures config == old(config)
    {
      var frame := TransactionFrame(operation, address, readLen, writeData);
      if frame.Err? {
        return Err(ValueError), [];
      }
      slot := Waiting;
      r, sent := Perform(Write(Gpio.UUID_CONTROL_CMD, frame.value), link);
    }

    /** The second half of `transaction`: once the reply is in, clear the slot
        and decode the reply. Until then the request keeps waiting and nothing
        changes. */
    method Finish() returns (r: Option<Result<Reply>>)
      modifies this
      ensures old(slot).Done? ==> slot == Idle && r == Some(DecodeReply(old(slot).reply))
      ensures !old(slot).Done? ==> slot == old(slot) && r == None
      ensures config == old(config)
    {
      if !slot.Done? {
        return None;
      }
      var res := slot.reply;
      slot := Idle;
      return Some(DecodeReply(res));
    }
  }
}
