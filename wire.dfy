/** Byte-level building blocks shared by every konashi5 codec: bounded integer
    types for ctypes bit-fields, little-endian integers, Python's bit tests and
    Python's round(), and the SDK's exceptions as values. */
module Wire {

  type Byte = x: int | 0 <= x < 0x100
  type Bit = x: int | 0 <= x < 2
  /** A two-bit field. */
  type Crumb = x: int | 0 <= x < 4
  type Nibble = x: int | 0 <= x < 0x10
  type U16 = x: int | 0 <= x < 0x1_0000
  type U32 = x: int | 0 <= x < 0x1_0000_0000

  datatype Option<+T> = None | Some(value: T)

  /** The exceptions the SDK raises (Errors.py plus the Python built-ins that
      its code paths can raise), as values. */
  datatype Error =
    | PinUnavailable(pin: nat, owner: nat)  // PinUnavailableError "Pin p is already configured as ..."
    | ChannelNotEnabled(channel: nat)          // PinUnavailableError "SoftPWMi is not enabled"
    | ValueError
    | IndexError
    | ZeroDivisionError
    | StructError                              // struct.unpack on a frame of the wrong size
    | Disabled                                 // KonashiDisabledError
    | Invalid                                  // KonashiInvalidError
    | ConnectionError                          // KonashiConnectionError
    | KonashiError(during: string, detail: string)

  datatype Result<+T> = Ok(value: T) | Err(error: Error)

  /** ctypes stores a Python bool in a one-bit field as 0 or 1. */
  function BitOf(b: bool): (r: Bit)
    ensures (r == 1) == b
  {
    if b then 1 else 0
  }

  function Pow2(n: nat): (r: nat)
    ensures r >= 1
  {
    if n == 0 then 1 else 2 * Pow2(n - 1)
  }

  /** Python's `(mask & (1 << i)) > 0`: bit i of the two's-complement mask,
      valid for negative masks too, since Dafny's `/` by 2 rounds down like
      Python's `>> 1`. */
  predicate Selected(mask: int, i: nat)
    decreases i
  {
    if i == 0 then mask % 2 == 1 else Selected(mask / 2, i - 1)
  }

  /** A byte made of two nibbles, as `(hi << 4) | lo` builds it. */
  function HighLow(hi: Nibble, lo: Nibble): (b: Byte)
    ensures b / 0x10 == hi && b % 0x10 == lo
  {
    0x10 * hi + lo
  }

  /** Python's `a | b` on non-negative integers, lowest bit first. */
  function Or(a: nat, b: nat): nat
    decreases a + b
  {
    if a == 0 then b
    else if b == 0 then a
    else 2 * Or(a / 2, b / 2) + (if a % 2 == 1 || b % 2 == 1 then 1 else 0)
  }

  /** Or keeps every bit of either operand, so it is at least each of them. */
  lemma {:induction false} OrAtLeast(a: nat, b: nat)
    ensures Or(a, b) >= a && Or(a, b) >= b
    decreases a + b
  {
    if a != 0 && b != 0 {
      OrAtLeast(a / 2, b / 2);
    }
  }

  /** Or of two k-bit values is a k-bit value. */
  lemma {:induction false} OrBelow(a: nat, b: nat, k: nat)
    requires a < Pow2(k) && b < Pow2(k)
    ensures Or(a, b) < Pow2(k)
  {
    if a != 0 && b != 0 {
      OrBelow(a / 2, b / 2, k - 1);
    }
  }

  /** A value shifted left by k, or-ed with a k-bit value, is their sum: the
      two share no bit. */
  lemma {:induction false} OrShift(h: nat, l: nat, k: nat)
    requires l < Pow2(k)
    ensures Or(h * Pow2(k), l) == h * Pow2(k) + l
  {
    if k > 0 && h != 0 && l != 0 {
      var hk := h * Pow2(k - 1);
      assert h * Pow2(k) == 2 * hk;
      OrShift(h, l / 2, k - 1);
      assert Or(2 * hk, l) == 2 * Or(hk, l / 2) + l % 2;
    }
  }

  /** `(hi << 4) | lo` for two nibbles is the byte HighLow makes. */
  lemma OrNibbles(hi: Nibble, lo: Nibble)
    ensures Or(0x10 * hi, lo) == HighLow(hi, lo)
  {
    assert Pow2(4) == 0x10;
    OrShift(hi, lo, 4);
  }

  /** `(hi << 4) | lo` with lo any byte: a byte again, when hi is below 0x10. */
  function OrByte(hi: Nibble, lo: Byte): (b: Byte)
    ensures b >= lo && b >= 0x10 * hi
  {
    assert Pow2(8) == 0x100;
    OrBelow(0x10 * hi, lo, 8);
    OrAtLeast(0x10 * hi, lo);
    Or(0x10 * hi, lo)
  }

  /** A c_uint16 field as it appears in a little-endian packed structure. */
  function LE16(v: U16): (s: seq<Byte>)
    ensures |s| == 2
  {
    [v % 0x100, v / 0x100]
  }

  function ReadLE16(s: seq<Byte>, at: nat): U16
    requires at + 2 <= |s|
  {
    s[at] as int + 0x100 * (s[at + 1] as int)
  }

  /** A c_uint32 field as it appears in a little-endian packed structure. */
  function LE32(v: U32): (s: seq<Byte>)
    ensures |s| == 4
  {
    [v % 0x100, (v / 0x100) % 0x100, (v / 0x1_0000) % 0x100, v / 0x100_0000]
  }

  function ReadLE32(s: seq<Byte>, at: nat): U32
    requires at + 4 <= |s|
  {
    s[at] as int + 0x100 * (s[at + 1] as int) + 0x1_0000 * (s[at + 2] as int) + 0x100_0000 * (s[at + 3] as int)
  }

  /** Python's `bytearray([...])`: every value must be a byte. */
  function ByteArray(xs: seq<int>): (r: Result<seq<Byte>>)
    ensures r.Ok? <==> forall k :: 0 <= k < |xs| ==> 0 <= xs[k] < 0x100
    ensures r.Err? ==> r.error == ValueError
    ensures r.Ok? ==> |r.value| == |xs| && forall k :: 0 <= k < |xs| ==> r.value[k] == xs[k]
  {
    if forall k :: 0 <= k < |xs| ==> 0 <= xs[k] < 0x100 then Ok(seq(|xs|, k requires 0 <= k < |xs| => xs[k]))
    else Err(ValueError)
  }

  /** A slice of a field laid down at `at` is the same slice of the field. */
  lemma Within<T>(s: seq<T>, at: nat, e: seq<T>, lo: nat, hi: nat)
    requires at + |e| <= |s| && s[at..at + |e|] == e && lo <= hi <= |e|
    ensures s[at + lo..at + hi] == e[lo..hi]
  {
    forall k | 0 <= k < hi - lo
      ensures s[at + lo..at + hi][k] == e[lo..hi][k]
    {
      assert s[at + lo + k] == s[at..at + |e|][lo + k];
    }
  }

  /** Reading back a written c_uint16 gives the value written. */
  lemma LE16RoundTrip(s: seq<Byte>, at: nat, v: U16)
    requires at + 2 <= |s| && s[at..at + 2] == LE16(v)
    ensures ReadLE16(s, at) == v
  {
    assert s[at] == LE16(v)[0] && s[at + 1] == LE16(v)[1];
  }

  lemma LE16Exact(s: seq<Byte>, at: nat)
    requires at + 2 <= |s|
    ensures LE16(ReadLE16(s, at)) == s[at..at + 2]
  {
  }

  /** Reading back a written c_uint32 gives the value written. */
  lemma LE32RoundTrip(s: seq<Byte>, at: nat, v: U32)
    requires at + 4 <= |s| && s[at..at + 4] == LE32(v)
    ensures ReadLE32(s, at) == v
  {
    var a, b, c, d := v % 0x100, (v / 0x100) % 0x100, (v / 0x1_0000) % 0x100, v / 0x100_0000;
    assert s[at] == a && s[at + 1] == b && s[at + 2] == c && s[at + 3] == d by {
      assert s[at..at + 4][0] == a && s[at..at + 4][1] == b && s[at..at + 4][2] == c && s[at..at + 4][3] == d;
    }
    assert v / 0x100 == b + 0x100 * (v / 0x1_0000);
    assert v / 0x1_0000 == c + 0x100 * d;
  }

  lemma LE32Exact(s: seq<Byte>, at: nat)
    requires at + 4 <= |s|
    ensures LE32(ReadLE32(s, at)) == s[at..at + 4]
  {
    var v := ReadLE32(s, at);
    assert v / 0x100 == s[at + 1] as int + 0x100 * (s[at + 2] as int) + 0x1_0000 * (s[at + 3] as int);
    assert v / 0x1_0000 == s[at + 2] as int + 0x100 * (s[at + 3] as int);
  }

  /** Python 3's round() on an exact rational: to the nearest integer, ties to
      the even one. */
  function Round(x: real): (r: int)
    ensures x - 0.5 <= r as real <= x + 0.5
  {
    var f := x.Floor;
    var frac := x - f as real;
    if frac < 0.5 then f
    else if frac > 0.5 then f + 1
    else if f % 2 == 0 then f else f + 1
  }

  lemma RoundInt(n: int)
    ensures Round(n as real) == n
  {
  }

  /** Rounding never leaves an integer interval that holds its argument. */
  lemma RoundBetween(x: real, lo: int, hi: int)
    requires lo as real <= x <= hi as real
    ensures lo <= Round(x) <= hi
  {
    var f := x.Floor;
    assert lo <= f <= hi;
    if f == hi {
      assert x == hi as real;
    }
  }
}
