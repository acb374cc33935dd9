/** The konashi5 system settings: a two-byte structure (non-volatile memory
    use and save trigger) and seven commands under the system selector of the
    settings command characteristic. */
module System {
  import opened Wire
  import opened Transport

  const UUID_SETTINGS_CMD := "064d0101-8251-49d9-b6f3-f7ba35e5d0a1"
  const SET_CMD_SYSTEM: Byte := 0x01
  const UUID_SYSTEM_SETTINGS_GET := "064d0102-8251-49d9-b6f3-f7ba35e5d0a1"

  /** NvmSaveTrigger: AUTO and MANUAL. */
  const AUTO := 0
  const MANUAL := 1

  /** The packed Settings structure: two unsigned bytes. */
  datatype Settings = Settings(nvmUse: Byte, nvmSaveTrigger: Byte)

  const SETTINGS_SIZE := 2

  /** The seven system commands. */
  datatype Command =
    | NvmUseSet(enable: bool)
    | NvmSaveTriggerSet(trigger: int)
    | NvmSaveNow
    | NvmEraseNow
    | EmulatePress
    | EmulateLongPress
    | EmulateVeryLongPress

  /** The `_Command` code of each command. */
  function Code(c: Command): (code: Byte)
    ensures 1 <= code <= 7
  {
    match c
    case NvmUseSet(_) => 1
    case NvmSaveTriggerSet(_) => 2
    case NvmSaveNow => 3
    case NvmEraseNow => 4
    case EmulatePress => 5
    case EmulateLongPress => 6
    case EmulateVeryLongPress => 7
  }

  /** The argument bytes a command carries after its code. */
  function Arguments(c: Command): seq<int> {
    match c
    case NvmUseSet(enable) => [BitOf(enable)]
    case NvmSaveTriggerSet(trigger) => [trigger]
    case _ => []
  }

  /** The frame a command writes: the system selector, the code, then the
      argument; a trigger that is not a byte is a ValueError from `bytearray`. */
  function CommandFrame(c: Command): (r: Result<seq<Byte>>)
    ensures r.Ok? <==> !c.NvmSaveTriggerSet? || 0 <= c.trigger < 0x100
    ensures r.Err? ==> r.error == ValueError
    ensures r.Ok? ==> |r.value| >= 2 && r.value[..2] == [SET_CMD_SYSTEM, Code(c)]
  {
    var frame := ByteArray([SET_CMD_SYSTEM as int, Code(c) as int] + Arguments(c));
    assert frame.Ok? ==> frame.value[0] == SET_CMD_SYSTEM && frame.value[1] == Code(c);
    if c.NvmSaveTriggerSet? && !(0 <= c.trigger < 0x100) then
      assert !(0 <= ([SET_CMD_SYSTEM as int, Code(c) as int] + Arguments(c))[2] < 0x100);
      frame
    else frame
  }

  /** A reading of a system frame by its code: the inverse of CommandFrame. */
  function Interpret(frame: seq<Byte>): Option<Command> {
    if |frame| < 2 || frame[0] != SET_CMD_SYSTEM then None
    else if frame[1] == 1 && |frame| == 3 && frame[2] < 2 then Some(NvmUseSet(frame[2] == 1))
    else if frame[1] == 2 && |frame| == 3 then Some(NvmSaveTriggerSet(frame[2]))
    else if |frame| != 2 then None
    else if frame[1] == 3 then Some(NvmSaveNow)
    else if frame[1] == 4 then Some(NvmEraseNow)
    else if frame[1] == 5 then Some(EmulatePress)
    else if frame[1] == 6 then Some(EmulateLongPress)
    else if frame[1] == 7 then Some(EmulateVeryLongPress)
    else None
  }

  /** Every frame that builds reads back as its command: no two commands share
      a frame. */
  lemma CommandRoundTrip(c: Command)
    requires CommandFrame(c).Ok?
    ensures Interpret(CommandFrame(c).value) == Some(c)
  {
    var f := CommandFrame(c).value;
    assert |f| == 2 + |Arguments(c)|;
  }

  class Driver {
    var settings: Settings

    /** A zeroed structure until the first notification. */
    constructor()
      ensures settings == Settings(0, 0)
    {
      settings := Settings(0, 0);
    }

    /** The settings notification: `from_buffer_copy` needs two bytes and
        ignores any more. */
    method OnSettings(data: seq<Byte>) returns (r: Option<Error>)
      modifies this
      ensures |data| >= SETTINGS_SIZE ==> r == None && settings == Settings(data[0], data[1])
      ensures |data| < SETTINGS_SIZE ==> r == Some(ValueError) && settings == old(settings)
    {
      if |data| < SETTINGS_SIZE {
        return Some(ValueError);
      }
      settings := Settings(data[0], data[1]);
      return None;
    }

    /** `get_settings`: read, then report the mirrored settings. */
    method GetSettings(link: Channel) returns (r: Result<Settings>, sent: seq<Op>)
      ensures sent == Calls(Read(UUID_SYSTEM_SETTINGS_GET), link)
      ensures Outcome(Read(UUID_SYSTEM_SETTINGS_GET), link).Err? ==> r == Err(Outcome(Read(UUID_SYSTEM_SETTINGS_GET), link).error)
      ensures Outcome(Read(UUID_SYSTEM_SETTINGS_GET), link).Ok? ==> r == Ok(settings)
    {
      var done;
      done, sent := Perform(Read(UUID_SYSTEM_SETTINGS_GET), link);
      if done.Err? {
        return Err(done.error), sent;
      }
      return Ok(settings), sent;
    }

    /** The seven command operations: build the frame, then write it. */
    method Send(c: Command, link: Channel) returns (r: Result<()>, sent: seq<Op>)
      ensures var frame := CommandFrame(c);
              if frame.Err? then r == Err(ValueError) && sent == []
              else r == Outcome(Write(UUID_SETTINGS_CMD, frame.value), link)
                   && sent == Calls(Write(UUID_SETTINGS_CMD, frame.value), link)
    {
      var frame := CommandFrame(c);
      if frame.Err? {
        return Err(ValueError), [];
      }
      r, sent := Perform(Write(UUID_SETTINGS_CMD, frame.value), link);
    }
  }
}
