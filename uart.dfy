/** The konashi5 UART driver: a five-byte configuration, sends whose
    completion arrives in a send-done notification, and received data that
    every data-in notification hands to the callback. The UART takes no pin
    from the GPIO pin table. */
module UART {
  import opened Wire
  import opened Transport
  import Gpio
  import opened Pending

  const CFG_CMD_UART: Byte := 0x06
  const CTL_CMD_UART_DATA: Byte := 0x06
  const UUID_CONFIG_GET := "064d0207-8251-49d9-b6f3-f7ba35e5d0a1"

  /** Parity NONE, ODD, EVEN; stop bits HALF, ONE, ONEANDAHALF, TWO. */
  const PARITY_NONE := 0
  const PARITY_COUNT := 3
  const STOP_ONE := 1
  const STOP_COUNT := 4

  /** The configuration: stop bits in bits 0-1, parity in bits 2-3 and
      enabled in bit 7 of the first byte, then the baud rate as a c_uint32. */
  datatype Config = Config(stopBits: Crumb, parity: Crumb, enabled: Bit, baudrate: U32)

  /** The SDK's constructor: each bit-field keeps its low bits, and the baud
      rate wraps to 32 bits. */
  function NewConfig(enable: bool, baudrate: int, parity: int, stopBits: int): (c: Config)
    ensures c.enabled == 1 <==> enable
    ensures 0 <= baudrate < 0x1_0000_0000 ==> c.baudrate == baudrate
    ensures 0 <= parity < PARITY_COUNT ==> c.parity == parity
    ensures 0 <= stopBits < STOP_COUNT ==> c.stopBits == stopBits
  {
    Config(stopBits % 4, parity % 4, BitOf(enable), baudrate % 0x1_0000_0000)
  }

  function EncodeConfig(c: Config): (s: seq<Byte>)
    ensures |s| == 5
  {
    [c.stopBits + 4 * c.parity + 0x80 * c.enabled] + LE32(c.baudrate)
  }

  /** Reads a configuration, ignoring the padding bits. */
  function DecodeConfig(s: seq<Byte>, at: nat): Config
    requires at + 5 <= |s|
  {
    var b := s[at] as int;
    Config(b % 4, (b / 4) % 4, b / 0x80, ReadLE32(s, at + 1))
  }

  lemma ConfigRoundTrip(s: seq<Byte>, at: nat, c: Config)
    requires at + 5 <= |s| && s[at..at + 5] == EncodeConfig(c)
    ensures DecodeConfig(s, at) == c
  {
    var e := EncodeConfig(c);
    assert s[at] == e[0];
    Within(s, at, e, 1, 5);
    assert e[1..5] == LE32(c.baudrate);
    LE32RoundTrip(s, at + 1, c.baudrate);
  }

  /** `config`: the selector and the five configuration bytes, with no pin
      check. */
  function ConfigFrame(c: Config): (frame: seq<Byte>)
    ensures |frame| == 6 && frame[0] == CFG_CMD_UART
  {
    [CFG_CMD_UART] + EncodeConfig(c)
  }

  lemma ConfigFrameRoundTrip(c: Config)
    ensures DecodeConfig(ConfigFrame(c), 1) == c
  {
    ConfigRoundTrip(ConfigFrame(c), 1, c);
  }

  /** The send frame: the selector, then the data as given. The emptiness and
      length checks in the source build their errors without raising them. */
  function SendFrame(writeData: seq<Byte>): (frame: seq<Byte>)
    ensures |frame| == 1 + |writeData| && frame[0] == CTL_CMD_UART_DATA && frame[1..] == writeData
  {
    [CTL_CMD_UART_DATA] + writeData
  }

  /** An empty send is written as the bare selector, although the
      documentation gives the data length as 1 to 127. */
  lemma EmptySendSent()
    ensures SendFrame([]) == [CTL_CMD_UART_DATA]
  {
  }

  /** `send` with the length checks raised, as its documentation promises:
      the data must hold 1 to 127 bytes. */
  function SendFrameChecked(writeData: seq<Byte>): (r: Result<seq<Byte>>)
    ensures r.Ok? <==> 1 <= |writeData| <= 127
    ensures r.Err? ==> r.error == ValueError
    ensures r.Ok? ==> r.value == SendFrame(writeData) && 2 <= |r.value| <= 128
  {
    if |writeData| == 0 || |writeData| > 127 then Err(ValueError)
    else Ok(SendFrame(writeData))
  }

  /** A send succeeded exactly when the send-done reply is the single byte
      0x01. */
  predicate SendSucceeded(reply: seq<Byte>) {
    reply == [0x01]
  }

  class Driver {
    var config: Config
    var slot: Slot
    var dataInCallback: bool

    /** A disabled configuration at baud rate 0, no parity and one stop bit,
        no send under way and no callback. */
    constructor()
      ensures config == Config(STOP_ONE, PARITY_NONE, 0, 0) && slot == Idle && !dataInCallback
    {
      config := Config(STOP_ONE, PARITY_NONE, 0, 0);
      slot := Idle;
      dataInCallback := false;
    }

    method SetDataInCallback(present: bool)
      modifies this
      ensures dataInCallback == present
      ensures config == old(config) && slot == old(slot)
    {
      dataInCallback := present;
    }

    /** The configuration notification; a frame shorter than five bytes is
        refused. */
    method OnConfig(data: seq<Byte>) returns (r: Option<Error>)
      modifies this
      ensures |data| >= 5 ==> r == None && config == DecodeConfig(data, 0)
      ensures |data| < 5 ==> r == Some(ValueError) && config == old(config)
      ensures slot == old(slot) && dataInCallback == old(dataInCallback)
    {
      if |data| < 5 {
        return Some(ValueError);
      }
      config := DecodeConfig(data, 0);
      return None;
    }

    /** The data-in notification hands every frame to the callback when one is
        set, whether or not a send is under way, and changes nothing. */
    method OnDataIn(data: seq<Byte>) returns (events: seq<seq<Byte>>)
      ensures events == if dataInCallback then [data] else []
    {
      events := if dataInCallback then [data] else [];
    }

    /** The send-done notification resolves a waiting send; otherwise it
        changes nothing. */
    method OnSendDone(data: seq<Byte>)
      modifies this
      ensures slot == Deliver(old(slot), data)
      ensures config == old(config) && dataInCallback == old(dataInCallback)
    {
      slot := Deliver(slot, data);
    }

    /** `config`: one write, whatever the configuration. */
    method Configure(c: Config, link: Channel) returns (r: Result<()>, sent: seq<Op>)
      ensures r == Outcome(Write(Gpio.UUID_CONFIG_CMD, ConfigFrame(c)), link)
      ensures sent == Calls(Write(Gpio.UUID_CONFIG_CMD, ConfigFrame(c)), link)
    {
      r, sent := Perform(Write(Gpio.UUID_CONFIG_CMD, ConfigFrame(c)), link);
    }

    /** `get_config`: read, then report the mirrored configuration. */
    method GetConfig(link: Channel) returns (r: Result<Config>, sent: seq<Op>)
      ensures sent == Calls(Read(UUID_CONFIG_GET), link)
      ensures Outcome(Read(UUID_CONFIG_GET), link).Err? ==> r == Err(Outcome(Read(UUID_CONFIG_GET), link).error)
      ensures Outcome(Read(UUID_CONFIG_GET), link).Ok? ==> r == Ok(config)
    {
      var done;
      done, sent := Perform(Read(UUID_CONFIG_GET), link);
      if done.Err? {
        return Err(done.error), sent;
      }
      return Ok(config), sent;
    }

    /** The first half of `send`: arm the slot, then write. The slot stays
        armed when the write fails. */
    method Send(writeData: seq<Byte>, link: Channel) returns (r: Result<()>, sent: seq<Op>)
      modifies this
      ensures slot == Waiting
      ensures r == Outcome(Write(Gpio.UUID_CONTROL_CMD, SendFrame(writeData)), link)
      ensures sent == Calls(Write(Gpio.UUID_CONTROL_CMD, SendFrame(writeData)), link)
      ensures config == old(config) && dataInCallback == old(dataInCallback)
    {
      slot := Waiting;
      r, sent := Perform(Write(Gpio.UUID_CONTROL_CMD, SendFrame(writeData)), link);
    }

    /** The second half of `send`: once the send-done reply is in, clear the
        slot and report whether the device accepted the data. */
    method FinishSend() returns (r: Option<bool>)
      modifies this
      ensures old(slot).Done? ==> slot == Idle && r == Some(|old(slot).reply| == 1 && old(slot).reply[0] == 0x01)
      ensures !old(slot).Done? ==> slot == old(slot) && r == None
      ensures config == old(config) && dataInCallback == old(dataInCallback)
    {
      if !slot.Done? {
        return None;
      }
      var res := slot.reply;
      slot := Idle;
      return Some(SendSucceeded(res));
    }
  }
}
