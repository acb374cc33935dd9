/** The konashi5 Bluetooth settings: a seven-byte settings structure whose last
    four bytes the device sends most significant first, and the set commands,
    each a short frame under the Bluetooth selector of the settings command
    characteristic. */
module Bluetooth {
  import opened Wire
  import opened Transport

  const UUID_SETTINGS_CMD := "064d0101-8251-49d9-b6f3-f7ba35e5d0a1"
  const SET_CMD_BLUETOOTH: Byte := 0x02
  const UUID_SETTINGS_GET := "064d0103-8251-49d9-b6f3-f7ba35e5d0a1"

  /** Function: MESH and EX_ADVERTISER. */
  const MESH := 0
  const EX_ADVERTISER := 1
  /** PrimaryPhy: ONE_M_PHY and CODED_PHY. */
  const PRIMARY_PHYS: set<int> := {0x01, 0x04}
  /** SecondaryPhy: ONE_M_PHY, TWO_M_PHY and CODED_PHY. */
  const SECONDARY_PHYS: set<int> := {0x01, 0x02, 0x04}

  /** A 28-bit field of the packed structure. */
  type U28 = x: int | 0 <= x < 0x1000_0000

  /** The packed Settings structure: one byte of enabled functions, two bytes
      of nibble pairs (low nibble first), then one 32-bit unit holding 28 bits
      of extra advertiser contents below 4 bits of status. */
  datatype Settings = Settings(
    enabledFunctions: Byte,
    connPhy: Nibble,
    advSecPhy: Nibble,
    exSecPhy: Nibble,
    exPrimPhy: Nibble,
    contents: U28,
    status: Nibble)

  const SETTINGS_SIZE := 7

  /** `Settings.from_buffer_copy`: the first seven bytes, little-endian. */
  function DecodeSettings(s: seq<Byte>): (st: Settings)
    requires |s| >= SETTINGS_SIZE
    ensures st.status * 0x1000_0000 + st.contents == ReadLE32(s, 3)
    ensures HighLow(st.advSecPhy, st.connPhy) == s[1] && HighLow(st.exPrimPhy, st.exSecPhy) == s[2]
  {
    var unit := ReadLE32(s, 3);
    Settings(s[0], s[1] % 0x10, s[1] / 0x10, s[2] % 0x10, s[2] / 0x10, unit % 0x1000_0000, unit / 0x1000_0000)
  }

  /** Python's reading of a slice bound against a sequence of length n. */
  function Bound(i: int, n: nat): (k: nat)
    ensures k <= n
    ensures 0 <= i <= n ==> k == i
    ensures -(n as int) <= i < 0 ==> k as int == n as int + i
  {
    if i < 0 then (if n + i < 0 then 0 else n + i)
    else if i > n then n
    else i
  }

  /** Python's `s[i:j]`. */
  function Slice<T>(s: seq<T>, i: int, j: int): (t: seq<T>)
    ensures |t| <= |s|
  {
    var lo, hi := Bound(i, |s|), Bound(j, |s|);
    if lo < hi then s[lo..hi] else []
  }

  /** Python's `s[i:j] = r` on a bytearray. */
  function Splice<T>(s: seq<T>, i: int, j: int, r: seq<T>): seq<T> {
    var lo, hi := Bound(i, |s|), Bound(j, |s|);
    s[..lo] + r + s[if hi < lo then lo else hi..]
  }

  /** The settings notification handler's first step: bytes 3 to 6 are
      replaced by the last four bytes of the frame, last first. */
  function Reordered(data: seq<Byte>): seq<Byte> {
    Splice(data, 3, 7, Slice(data, -1, |data|) + Slice(data, -2, -1) + Slice(data, -3, -2) + Slice(data, -4, -3))
  }

  /** What the reordering does: a frame of at least four bytes keeps its first
      three bytes and any bytes past the seventh, and gets its last four bytes,
      reversed, in places 3 to 6; a shorter frame grows to twice its length,
      which is always too short to decode. */
  lemma ReorderedShape(data: seq<Byte>)
    ensures var t, n := Reordered(data), |data|;
            if n >= 4 then
              |t| == (if n < SETTINGS_SIZE then SETTINGS_SIZE else n)
              && t[..3] == data[..3] && t[3..7] == [data[n - 1], data[n - 2], data[n - 3], data[n - 4]]
              && t[7..] == data[if n < SETTINGS_SIZE then n else SETTINGS_SIZE..]
            else |t| == 2 * n && |t| < SETTINGS_SIZE
  {
    var n := |data|;
    if n >= 4 {
      assert Slice(data, -1, n) == [data[n - 1]];
      assert Slice(data, -2, -1) == [data[n - 2]];
      assert Slice(data, -3, -2) == [data[n - 3]];
      assert Slice(data, -4, -3) == [data[n - 4]];
    } else if n == 3 {
      assert Slice(data, -1, n) == [data[2]];
      assert Slice(data, -4, -3) == [];
    } else if n == 2 {
      assert Slice(data, -1, n) == [data[1]];
      assert Slice(data, -3, -2) == [];
    } else if n == 1 {
      assert Slice(data, -1, n) == [data[0]];
      assert Slice(data, -2, -1) == [];
    }
  }

  /** The settings frame as the device lays it out: the 32-bit unit is sent
      most significant byte first. */
  function DeviceFrame(st: Settings): (s: seq<Byte>)
    ensures |s| == SETTINGS_SIZE
  {
    var unit := st.status * 0x1000_0000 + st.contents;
    [st.enabledFunctions, HighLow(st.advSecPhy, st.connPhy), HighLow(st.exPrimPhy, st.exSecPhy)]
      + [unit / 0x100_0000, (unit / 0x1_0000) % 0x100, (unit / 0x100) % 0x100, unit % 0x100]
  }

  /** Reordering, then decoding, recovers every field the device sent. */
  lemma SettingsRoundTrip(st: Settings)
    ensures DecodeSettings(Reordered(DeviceFrame(st))) == st
  {
    var s := DeviceFrame(st);
    ReorderedShape(s);
    var t := Reordered(s);
    var unit: U32 := st.status * 0x1000_0000 + st.contents;
    assert t[3..7] == LE32(unit);
    LE32RoundTrip(t, 3, unit);
    HighLowParts(st.advSecPhy, st.connPhy);
    HighLowParts(st.exPrimPhy, st.exSecPhy);
  }

  lemma HighLowParts(hi: Nibble, lo: Nibble)
    ensures HighLow(hi, lo) % 0x10 == lo && HighLow(hi, lo) / 0x10 == hi
  {
  }

  /** For a seven-byte frame, the contents are the low 28 bits of bytes 3 to 6
      read most significant first, and the status is the high nibble of byte 3. */
  lemma BigEndianUnit(s: seq<Byte>)
    requires |s| == SETTINGS_SIZE
    ensures var st := DecodeSettings(Reordered(s));
            st.contents == (s[3] as int * 0x100_0000 + s[4] as int * 0x1_0000 + s[5] as int * 0x100 + s[6] as int) % 0x1000_0000
            && st.status == s[3] / 0x10
  {
    ReorderedShape(s);
    var t := Reordered(s);
    assert t[3..7] == [s[6], s[5], s[4], s[3]];
    assert t[3] == s[6] && t[4] == s[5] && t[5] == s[4] && t[6] == s[3];
    var rest := s[4] as int * 0x1_0000 + s[5] as int * 0x100 + s[6] as int;
    assert ReadLE32(t, 3) == s[3] as int * 0x100_0000 + rest;
    HighNibble(s[3], rest);
  }

  lemma HighNibble(b: Byte, rest: int)
    requires 0 <= rest < 0x100_0000
    ensures (b * 0x100_0000 + rest) / 0x1000_0000 == b / 0x10
  {
    var v := b * 0x100_0000 + rest;
    assert v == (b / 0x10) * 0x1000_0000 + ((b % 0x10) * 0x100_0000 + rest);
  }

  /** The five set operations. */
  datatype Command =
    | EnableFunction(fn: int, enable: bool)
    | SetMainAdvSecPhy(phy: int)
    | SetMainPreferredConnPhy(phy: int)
    | SetExAdvPhy(primPhy: int, secPhy: int)
    | SetExAdvContents(contents: int)

  /** The arguments for which every byte of the command's frame lies in
      0..255: the sub-command nibble plus the argument must stay a byte. */
  predicate Fits(c: Command) {
    match c
    case EnableFunction(f, _) => 0 <= f < 0x10
    case SetMainAdvSecPhy(p) => -0xF0 <= p < 0x10
    case SetMainPreferredConnPhy(p) => -0xE0 <= p < 0x20
    case SetExAdvPhy(prim, sec) => -0xD0 <= prim < 0x30 && -0xC0 <= sec < 0x40
    case SetExAdvContents(_) => true
  }

  /** The frame each command writes; a value that does not fit a byte is a
      ValueError from `bytearray`. The contents are cut to 28 bits and sent
      most significant first, under the 0xB sub-command nibble. */
  function CommandFrame(c: Command): (r: Result<seq<Byte>>)
    ensures r.Ok? <==> Fits(c)
    ensures r.Err? ==> r.error == ValueError
    ensures r.Ok? ==> |r.value| >= 2 && r.value[0] == SET_CMD_BLUETOOTH
  {
    match c
    case EnableFunction(f, e) =>
      var xs := [SET_CMD_BLUETOOTH as int, f * 0x10 + BitOf(e)];
      assert xs[1] == f * 0x10 + BitOf(e) && 0 <= BitOf(e) <= 1;
      assert 0 <= xs[1] < 0x100 <==> 0 <= f < 0x10 by {
        if f < 0 { assert f * 0x10 <= -0x10; }
        if f >= 0x10 { assert f * 0x10 >= 0x100; }
        if 0 <= f < 0x10 { assert f * 0x10 <= 0xF0; }
      }
      ByteArray(xs)
    case SetMainAdvSecPhy(p) =>
      var xs := [SET_CMD_BLUETOOTH as int, 0xF0 + p];
      assert xs[1] == 0xF0 + p;
      ByteArray(xs)
    case SetMainPreferredConnPhy(p) =>
      var xs := [SET_CMD_BLUETOOTH as int, 0xE0 + p];
      assert xs[1] == 0xE0 + p;
      ByteArray(xs)
    case SetExAdvPhy(prim, sec) =>
      var xs := [SET_CMD_BLUETOOTH as int, 0xD0 + prim, 0xC0 + sec];
      assert xs[1] == 0xD0 + prim && xs[2] == 0xC0 + sec;
      ByteArray(xs)
    case SetExAdvContents(v) =>
      ByteArray([SET_CMD_BLUETOOTH, 0xB0 + (v / 0x100_0000) % 0x10, (v / 0x1_0000) % 0x100, (v / 0x100) % 0x100, v % 0x100])
  }

  /** The arguments each command's enumeration allows. */
  predicate Known(c: Command) {
    match c
    case EnableFunction(f, _) => f in {MESH, EX_ADVERTISER}
    case SetMainAdvSecPhy(p) => p in SECONDARY_PHYS
    case SetMainPreferredConnPhy(p) => 0 <= p < 0x10
    case SetExAdvPhy(prim, sec) => prim in PRIMARY_PHYS && sec in SECONDARY_PHYS
    case SetExAdvContents(_) => true
  }

  /** What a command means once it is written: the contents keep 28 bits. */
  function Effect(c: Command): Command {
    if c.SetExAdvContents? then SetExAdvContents(c.contents % 0x1000_0000) else c
  }

  /** A reading of a set frame by its sub-command nibble: the inverse of
      CommandFrame, which shows that no two commands share a frame. */
  function Interpret(frame: seq<Byte>): Option<Command> {
    if |frame| < 2 || frame[0] != SET_CMD_BLUETOOTH then None
    else
      var sub, arg := frame[1] / 0x10, frame[1] % 0x10;
      if sub in {MESH, EX_ADVERTISER} && |frame| == 2 && arg < 2 then Some(EnableFunction(sub, arg == 1))
      else if sub == 0xF && |frame| == 2 then Some(SetMainAdvSecPhy(arg))
      else if sub == 0xE && |frame| == 2 then Some(SetMainPreferredConnPhy(arg))
      else if sub == 0xD && |frame| == 3 && frame[2] / 0x10 == 0xC then Some(SetExAdvPhy(arg, frame[2] % 0x10))
      else if sub == 0xB && |frame| == 5 then
        Some(SetExAdvContents(arg * 0x100_0000 + frame[2] as int * 0x1_0000 + frame[3] as int * 0x100 + frame[4] as int))
      else None
  }

  /** Every command with arguments from its enumeration builds a frame, and
      the frame reads back as the command's effect. */
  lemma CommandRoundTrip(c: Command)
    requires Known(c)
    ensures CommandFrame(c).Ok? && Interpret(CommandFrame(c).value) == Some(Effect(c))
  {
    if c.SetExAdvContents? {
      ContentsBytes(c.contents);
    }
  }

  /** The four bytes of the contents frame hold the contents' low 28 bits. */
  lemma ContentsBytes(v: int)
    ensures ((v / 0x100_0000) % 0x10) * 0x100_0000 + ((v / 0x1_0000) % 0x100) * 0x1_0000
            + ((v / 0x100) % 0x100) * 0x100 + v % 0x100 == v % 0x1000_0000
  {
    var q1, q2, q3 := v / 0x100, v / 0x1_0000, v / 0x100_0000;
    NestedDiv(v, 0x100, 0x100);
    NestedDiv(v, 0x1_0000, 0x100);
    NestedDiv(v, 0x100_0000, 0x10);
    assert v == 0x100 * q1 + v % 0x100;
    assert q1 == 0x100 * q2 + q1 % 0x100;
    assert q2 == 0x100 * q3 + q2 % 0x100;
    assert q3 == 0x10 * (v / 0x1000_0000) + q3 % 0x10;
  }

  /** Dividing by d, then by e, is dividing by d * e. */
  lemma NestedDiv(v: int, d: int, e: int)
    requires (d, e) in {(0x100, 0x100), (0x1_0000, 0x100), (0x100_0000, 0x10)}
    ensures v / d / e == v / (d * e)
  {
    if d == 0x100 {
      assert v / 0x100 / 0x100 == v / 0x1_0000;
    } else if d == 0x1_0000 {
      assert v / 0x1_0000 / 0x100 == v / 0x100_0000;
    } else {
      assert v / 0x100_0000 / 0x10 == v / 0x1000_0000;
    }
  }

  class Driver {
    var settings: Settings

    /** A zeroed structure until the first notification. */
    constructor()
      ensures settings == Settings(0, 0, 0, 0, 0, 0, 0)
    {
      settings := Settings(0, 0, 0, 0, 0, 0, 0);
    }

    /** The settings notification: reorder, then decode. A frame of fewer than
        four bytes reorders to fewer than seven and is refused. */
    method OnSettings(data: seq<Byte>) returns (r: Option<Error>)
      modifies this
      ensures r == None <==> |data| >= 4
      ensures r != None ==> r == Some(ValueError) && settings == old(settings)
      ensures r == None ==> settings == DecodeSettings(Reordered(data))
    {
      ReorderedShape(data);
      var t := Reordered(data);
      if |t| < SETTINGS_SIZE {
        return Some(ValueError);
      }
      settings := DecodeSettings(t);
      return None;
    }

    /** `get_settings`: read, then report the mirrored settings. */
    method GetSettings(link: Channel) returns (r: Result<Settings>, sent: seq<Op>)
      ensures sent == Calls(Read(UUID_SETTINGS_GET), link)
      ensures Outcome(Read(UUID_SETTINGS_GET), link).Err? ==> r == Err(Outcome(Read(UUID_SETTINGS_GET), link).error)
      ensures Outcome(Read(UUID_SETTINGS_GET), link).Ok? ==> r == Ok(settings)
    {
      var done;
      done, sent := Perform(Read(UUID_SETTINGS_GET), link);
      if done.Err? {
        return Err(done.error), sent;
      }
      return Ok(settings), sent;
    }

    /** The five set operations: build the frame, then write it. */
    method Send(c: Command, link: Channel) returns (r: Result<()>, sent: seq<Op>)
      ensures var frame := CommandFrame(c);
              if frame.Err? then r == Err(ValueError) && sent == []
              else r == Outcome(Write(UUID_SETTINGS_CMD, frame.value), link)
                   && sent == Calls(Write(UUID_SETTINGS_CMD, frame.value), link)
    {
      var frame := CommandFrame(c);
      if frame.Err? {
        return Err(ValueError), [];
      }
      r, sent := Perform(Write(UUID_SETTINGS_CMD, frame.value), link);
    }
  }
}
