/** The konashi5 built-in RGB LED: a six-byte set frame (four colour bytes
    and a 16-bit little-endian transition duration) and a one-shot callback
    fired by the next colour notification. */
module RGBLed {
  import opened Wire
  import opened Transport

  const UUID_RGB_SET := "064d0402-8251-49d9-b6f3-f7ba35e5d0a1"
  const UUID_RGB_GET := "064d0403-8251-49d9-b6f3-f7ba35e5d0a1"

  /** A colour as the notification reports it. */
  datatype Color = Color(r: Byte, g: Byte, b: Byte, a: Byte)

  const FRAME_SIZE := 6

  /** The set frame: every value is masked to its low byte, the duration to
      its low 16 bits, least significant byte first. */
  function SetFrame(r: int, g: int, b: int, a: int, duration: int): (f: seq<Byte>)
    ensures |f| == FRAME_SIZE
  {
    [r % 0x100, g % 0x100, b % 0x100, a % 0x100, duration % 0x100, (duration / 0x100) % 0x100]
  }

  /** `struct.unpack("<ccccH", ...)`: exactly six bytes, or struct.error. The
      duration is read and dropped. */
  function DecodeNotify(data: seq<Byte>): (r: Result<Color>)
    ensures r.Ok? <==> |data| == FRAME_SIZE
    ensures r.Err? ==> r.error == StructError
  {
    if |data| != FRAME_SIZE then Err(StructError)
    else Ok(Color(data[0], data[1], data[2], data[3]))
  }

  /** A set frame carries each colour's low byte and the duration's low 16
      bits, so a colour from 0 to 255 and a duration from 0 to 65535 pass
      unchanged; a device echoing the frame reports the masked colour. */
  lemma SetFrameRoundTrip(r: int, g: int, b: int, a: int, duration: int)
    ensures var f := SetFrame(r, g, b, a, duration);
            ReadLE16(f, 4) == duration % 0x1_0000
            && DecodeNotify(f) == Ok(Color(r % 0x100, g % 0x100, b % 0x100, a % 0x100))
  {
    var q := duration / 0x100;
    assert duration / 0x1_0000 == q / 0x100;
    assert duration == 0x1_0000 * (q / 0x100) + 0x100 * (q % 0x100) + duration % 0x100;
  }

  class Driver {
    /** Whether a callback is waiting for the next notification. */
    var waiting: bool

    constructor()
      ensures !waiting
    {
      waiting := false;
    }

    /** `set`: write the frame; a callback is stored only once the write has
        succeeded, and leaving it out keeps any callback already waiting. */
    method Set(r: int, g: int, b: int, a: int, duration: int, callback: bool, link: Channel)
      returns (res: Result<()>, sent: seq<Op>)
      modifies this
      ensures res == Outcome(Write(UUID_RGB_SET, SetFrame(r, g, b, a, duration)), link)
      ensures sent == Calls(Write(UUID_RGB_SET, SetFrame(r, g, b, a, duration)), link)
      ensures waiting == (old(waiting) || (callback && res.Ok?))
    {
      res, sent := Perform(Write(UUID_RGB_SET, SetFrame(r, g, b, a, duration)), link);
      if res.Ok? && callback {
        waiting := true;
      }
    }

    /** The colour notification: a frame of the wrong size fails before the
        callback is looked at; otherwise a waiting callback fires once with
        the colour and is cleared. */
    method OnNotify(data: seq<Byte>) returns (fired: seq<Color>, r: Option<Error>)
      modifies this
      ensures |data| != FRAME_SIZE ==> r == Some(StructError) && fired == [] && waiting == old(waiting)
      ensures |data| == FRAME_SIZE ==> r == None && !waiting
      ensures |data| == FRAME_SIZE ==> fired == if old(waiting) then [DecodeNotify(data).value] else []
    {
      var color := DecodeNotify(data);
      if color.Err? {
        return [], Some(StructError);
      }
      fired := if waiting then [color.value] else [];
      waiting := false;
      r := None;
    }
  }
}
