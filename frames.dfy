/** The loop every `config_pins`/`control_pins` of the SDK runs: for each
    (bitmask, value) entry in order, for each pin index in ascending order whose
    mask bit is set, check the pin (raising before anything is written) and
    append that pin's bytes to a frame that starts with a selector byte. It is
    written once here; each driver supplies its own check and per-pin bytes. */
module Frames {
  import opened Wire

  /** The (pin, value) pairs that one entry selects among pins below n, ascending. */
  function PinsBelow<C>(mask: int, c: C, n: nat): (s: seq<(nat, C)>)
    ensures |s| <= n
    ensures forall k :: 0 <= k < |s| ==> s[k].0 < n
  {
    if n == 0 then []
    else PinsBelow(mask, c, n - 1) + (if Selected(mask, n - 1) then [(n - 1, c)] else [])
  }

  /** The (pin, value) pairs a list of entries selects: entry order first,
      then ascending pin index. */
  function Selection<C>(entries: seq<(int, C)>, count: nat): (s: seq<(nat, C)>)
    ensures forall k :: 0 <= k < |s| ==> s[k].0 < count
  {
    if entries == [] then []
    else
      var last := entries[|entries| - 1];
      Selection(entries[..|entries| - 1], count) + PinsBelow(last.0, last.1, count)
  }

  /** The first check that fails, in selection order. */
  function FirstError<C>(sel: seq<(nat, C)>, check: (nat, C) -> Option<Error>): Option<Error> {
    if sel == [] then None
    else
      var e := FirstError(sel[..|sel| - 1], check);
      if e.Some? then e else check(sel[|sel| - 1].0, sel[|sel| - 1].1)
  }

  /** The per-pin bytes of a selection, concatenated. */
  function Body<C>(sel: seq<(nat, C)>, emit: (nat, C) -> seq<Byte>): seq<Byte> {
    if sel == [] then []
    else Body(sel[..|sel| - 1], emit) + emit(sel[|sel| - 1].0, sel[|sel| - 1].1)
  }

  /** The frame a `config_pins`/`control_pins` call writes, or the exception
      it raises before writing. */
  function Assemble<C>(selector: Byte, entries: seq<(int, C)>, count: nat,
                       check: (nat, C) -> Option<Error>, emit: (nat, C) -> seq<Byte>): Result<seq<Byte>>
  {
    var sel := Selection(entries, count);
    match FirstError(sel, check)
    case Some(e) => Err(e)
    case None => Ok([selector] + Body(sel, emit))
  }

  /** The nested loop, building the frame the way the source does. */
  method Build<C>(selector: Byte, entries: seq<(int, C)>, count: nat,
                  check: (nat, C) -> Option<Error>, emit: (nat, C) -> seq<Byte>)
    returns (r: Result<seq<Byte>>)
    ensures r == Assemble(selector, entries, count, check, emit)
  {
    var b := [selector];
    var j := 0;
    while j < |entries|
      invariant 0 <= j <= |entries|
      invariant FirstError(Selection(entries[..j], count), check) == None
      invariant b == [selector] + Body(Selection(entries[..j], count), emit)
    {
      var e, at, part := BuildEntry(entries[j].0, entries[j].1, count, check, emit);
      if e.Some? {
        FailureStops(entries, j, at, count, check);
        return Err(e.value);
      }
      EntryPasses(entries, j, count, check);
      EntryBytes(selector, entries, j, count, emit, b);
      b := b + part;
      j := j + 1;
    }
    assert entries[..j] == entries;
    return Ok(b);
  }

  /** The inner loop: the pins one (mask, value) entry selects, ascending,
      and their bytes. On failure, `at` is the pin whose check failed. */
  method BuildEntry<C>(mask: int, c: C, count: nat, check: (nat, C) -> Option<Error>, emit: (nat, C) -> seq<Byte>)
    returns (e: Option<Error>, at: nat, part: seq<Byte>)
    ensures e.None? ==> FirstError(PinsBelow(mask, c, count), check) == None
                        && part == Body(PinsBelow(mask, c, count), emit)
    ensures e.Some? ==> at < count && Selected(mask, at) && e == check(at, c)
                        && FirstError(PinsBelow(mask, c, at), check) == None
  {
    part := [];
    var i: nat := 0;
    while i < count
      invariant 0 <= i <= count
      invariant FirstError(PinsBelow(mask, c, i), check) == None
      invariant part == Body(PinsBelow(mask, c, i), emit)
    {
      if Selected(mask, i) {
        e := check(i, c);
        if e.Some? {
          return e, i, part;
        }
        ErrorAppended(PinsBelow(mask, c, i), (i, c), check);
        BodyAppended(PinsBelow(mask, c, i), (i, c), emit);
        part := part + emit(i, c);
        assert PinsBelow(mask, c, i + 1) == PinsBelow(mask, c, i) + [(i, c)];
      } else {
        assert PinsBelow(mask, c, i + 1) == PinsBelow(mask, c, i) + [];
        assert PinsBelow(mask, c, i) + [] == PinsBelow(mask, c, i);
      }
      i := i + 1;
    }
    return None, 0, part;
  }

  /** An entry whose pins all pass keeps the selection so far passing ... */
  lemma EntryPasses<C>(entries: seq<(int, C)>, j: nat, count: nat, check: (nat, C) -> Option<Error>)
    requires j < |entries|
    requires FirstError(Selection(entries[..j], count), check) == None
    requires FirstError(PinsBelow(entries[j].0, entries[j].1, count), check) == None
    ensures FirstError(Selection(entries[..j + 1], count), check) == None
  {
    SelectionStep(entries, j, count);
    ErrorConcat(Selection(entries[..j], count), PinsBelow(entries[j].0, entries[j].1, count), check);
  }

  /** ... and extends the frame by its pins' bytes. */
  lemma EntryBytes<C>(selector: Byte, entries: seq<(int, C)>, j: nat, count: nat, emit: (nat, C) -> seq<Byte>, b: seq<Byte>)
    requires j < |entries| && b == [selector] + Body(Selection(entries[..j], count), emit)
    ensures b + Body(PinsBelow(entries[j].0, entries[j].1, count), emit)
            == [selector] + Body(Selection(entries[..j + 1], count), emit)
  {
    var done, more := Selection(entries[..j], count), PinsBelow(entries[j].0, entries[j].1, count);
    SelectionStep(entries, j, count);
    BodyConcat(done, more, emit);
    AppendAssoc([selector], Body(done, emit), Body(more, emit));
  }

  lemma AppendAssoc<T>(x: seq<T>, y: seq<T>, z: seq<T>)
    ensures (x + y) + z == x + (y + z)
  {
  }

  lemma ErrorAppended<C>(p: seq<(nat, C)>, x: (nat, C), check: (nat, C) -> Option<Error>)
    ensures FirstError(p + [x], check) == if FirstError(p, check).Some? then FirstError(p, check) else check(x.0, x.1)
  {
    assert (p + [x])[..|p|] == p;
  }

  lemma BodyAppended<C>(p: seq<(nat, C)>, x: (nat, C), emit: (nat, C) -> seq<Byte>)
    ensures Body(p + [x], emit) == Body(p, emit) + emit(x.0, x.1)
  {
    assert (p + [x])[..|p|] == p;
  }

  lemma SelectionStep<C>(entries: seq<(int, C)>, j: nat, count: nat)
    requires j < |entries|
    ensures Selection(entries[..j + 1], count) == Selection(entries[..j], count) + PinsBelow(entries[j].0, entries[j].1, count)
  {
    assert entries[..j + 1][..j] == entries[..j];
  }

  lemma {:induction false} ErrorConcat<C>(p: seq<(nat, C)>, q: seq<(nat, C)>, check: (nat, C) -> Option<Error>)
    ensures FirstError(p + q, check) == if FirstError(p, check).Some? then FirstError(p, check) else FirstError(q, check)
    decreases |q|
  {
    if q == [] {
      assert p + q == p;
    } else {
      var init := q[..|q| - 1];
      ErrorConcat(p, init, check);
      assert (p + q)[..|p + q| - 1] == p + init;
    }
  }

  lemma {:induction false} BodyConcat<C>(p: seq<(nat, C)>, q: seq<(nat, C)>, emit: (nat, C) -> seq<Byte>)
    ensures Body(p + q, emit) == Body(p, emit) + Body(q, emit)
    decreases |q|
  {
    if q == [] {
      assert p + q == p;
    } else {
      var init := q[..|q| - 1];
      BodyConcat(p, init, emit);
      assert (p + q)[..|p + q| - 1] == p + init;
    }
  }

  /** A pin that fails its check makes the whole call fail with its error,
      once every pin before it has passed. */
  lemma FailureStops<C>(entries: seq<(int, C)>, j: nat, i: nat, count: nat, check: (nat, C) -> Option<Error>)
    requires j < |entries| && i < count && Selected(entries[j].0, i)
    requires FirstError(Selection(entries[..j], count), check) == None
    requires FirstError(PinsBelow(entries[j].0, entries[j].1, i), check) == None
    requires check(i, entries[j].1).Some?
    ensures FirstError(Selection(entries, count), check) == check(i, entries[j].1)
  {
    var mask, c := entries[j].0, entries[j].1;
    var done := Selection(entries[..j], count);
    var upto := PinsBelow(mask, c, i + 1);
    PinFails(done, mask, c, i, check);
    ErrorUpToPin(entries, j, i + 1, count, check);
  }

  /** An error among the pins selected up to pin i of entry j is the error of
      the whole selection. */
  lemma ErrorUpToPin<C>(entries: seq<(int, C)>, j: nat, i: nat, count: nat, check: (nat, C) -> Option<Error>)
    requires j < |entries| && i <= count
    requires FirstError(Selection(entries[..j], count) + PinsBelow(entries[j].0, entries[j].1, i), check).Some?
    ensures FirstError(Selection(entries, count), check)
            == FirstError(Selection(entries[..j], count) + PinsBelow(entries[j].0, entries[j].1, i), check)
  {
    UpToPinPrefix(entries, j, i, count);
    FirstErrorPrefix(Selection(entries[..j], count) + PinsBelow(entries[j].0, entries[j].1, i), Selection(entries, count), check);
  }

  lemma PinFails<C>(done: seq<(nat, C)>, mask: int, c: C, i: nat, check: (nat, C) -> Option<Error>)
    requires Selected(mask, i) && check(i, c).Some?
    requires FirstError(done, check) == None && FirstError(PinsBelow(mask, c, i), check) == None
    ensures FirstError(done + PinsBelow(mask, c, i + 1), check) == check(i, c)
  {
    assert PinsBelow(mask, c, i + 1) == PinsBelow(mask, c, i) + [(i, c)];
    ErrorAppended(PinsBelow(mask, c, i), (i, c), check);
    ErrorConcat(done, PinsBelow(mask, c, i + 1), check);
  }

  /** The pins selected up to pin i of entry j come first in the selection. */
  lemma UpToPinPrefix<C>(entries: seq<(int, C)>, j: nat, i: nat, count: nat)
    requires j < |entries| && i <= count
    ensures Selection(entries[..j], count) + PinsBelow(entries[j].0, entries[j].1, i) <= Selection(entries, count)
  {
    var mask, c := entries[j].0, entries[j].1;
    var done := Selection(entries[..j], count);
    PinsPrefix(mask, c, i, count);
    SelectionStep(entries, j, count);
    SelectionPrefix(entries, j + 1, count);
    PrefixExtend(done, PinsBelow(mask, c, i), PinsBelow(mask, c, count));
    PrefixTrans(done + PinsBelow(mask, c, i), Selection(entries[..j + 1], count), Selection(entries, count));
  }

  lemma PrefixExtend<T>(x: seq<T>, p: seq<T>, q: seq<T>)
    requires p <= q
    ensures x + p <= x + q
  {
    assert (x + q)[..|x + p|] == x + p;
  }

  lemma PrefixTrans<T>(a: seq<T>, b: seq<T>, c: seq<T>)
    requires a <= b && b <= c
    ensures a <= c
  {
  }

  lemma {:induction false} PinsPrefix<C>(mask: int, c: C, m: nat, n: nat)
    requires m <= n
    ensures PinsBelow(mask, c, m) <= PinsBelow(mask, c, n)
    decreases n
  {
    if m < n {
      PinsPrefix(mask, c, m, n - 1);
    }
  }

  lemma {:induction false} SelectionPrefix<C>(entries: seq<(int, C)>, j: nat, count: nat)
    requires j <= |entries|
    ensures Selection(entries[..j], count) <= Selection(entries, count)
    decreases |entries|
  {
    if j < |entries| {
      var init := entries[..|entries| - 1];
      SelectionPrefix(init, j, count);
      assert init[..j] == entries[..j];
    } else {
      assert entries[..j] == entries;
    }
  }

  lemma {:induction false} FirstErrorPrefix<C>(p: seq<(nat, C)>, q: seq<(nat, C)>, check: (nat, C) -> Option<Error>)
    requires p <= q && FirstError(p, check).Some?
    ensures FirstError(q, check) == FirstError(p, check)
    decreases |q|
  {
    if |p| < |q| {
      var init := q[..|q| - 1];
      assert p <= init;
      FirstErrorPrefix(p, init, check);
    } else {
      assert p == q;
    }
  }

  /** No check fails exactly when every selected pin passes its check. */
  lemma {:induction false} FirstErrorNone<C>(sel: seq<(nat, C)>, check: (nat, C) -> Option<Error>)
    ensures FirstError(sel, check).None? <==> forall k :: 0 <= k < |sel| ==> check(sel[k].0, sel[k].1).None?
  {
    if sel != [] {
      var init := sel[..|sel| - 1];
      FirstErrorNone(init, check);
      assert forall k :: 0 <= k < |init| ==> init[k] == sel[k];
    }
  }

  /** The exception raised is the one of the earliest pin that fails. */
  lemma {:induction false} FirstErrorIsEarliest<C>(sel: seq<(nat, C)>, check: (nat, C) -> Option<Error>)
    requires FirstError(sel, check).Some?
    ensures exists k :: 0 <= k < |sel| && check(sel[k].0, sel[k].1) == FirstError(sel, check)
                        && forall m :: 0 <= m < k ==> check(sel[m].0, sel[m].1).None?
  {
    var init := sel[..|sel| - 1];
    assert forall k :: 0 <= k < |init| ==> init[k] == sel[k];
    if FirstError(init, check).Some? {
      FirstErrorIsEarliest(init, check);
    } else {
      FirstErrorNone(init, check);
      var k := |sel| - 1;
      assert check(sel[k].0, sel[k].1) == FirstError(sel, check);
    }
  }

  /** When every pin contributes w bytes, the body is w bytes per selected pin. */
  lemma {:induction false} BodyLength<C>(sel: seq<(nat, C)>, emit: (nat, C) -> seq<Byte>, w: nat)
    requires forall k :: 0 <= k < |sel| ==> |emit(sel[k].0, sel[k].1)| == w
    ensures |Body(sel, emit)| == w * |sel|
  {
    if sel != [] {
      var init := sel[..|sel| - 1];
      assert forall k :: 0 <= k < |init| ==> init[k] == sel[k];
      BodyLength(init, emit, w);
      MulStep(w, |init|);
    }
  }

  /** ... and the k-th chunk of w bytes is the k-th selected pin's bytes. */
  lemma BodyChunk<C>(sel: seq<(nat, C)>, emit: (nat, C) -> seq<Byte>, w: nat, k: nat)
    requires forall k :: 0 <= k < |sel| ==> |emit(sel[k].0, sel[k].1)| == w
    requires k < |sel|
    ensures w * k + w <= |Body(sel, emit)|
    ensures Body(sel, emit)[w * k .. w * k + w] == emit(sel[k].0, sel[k].1)
  {
    var front, rest := sel[..k], sel[k + 1..];
    assert sel == front + [sel[k]] + rest;
    BodyConcat(front + [sel[k]], rest, emit);
    BodyAppended(front, sel[k], emit);
    assert forall m :: 0 <= m < |front| ==> front[m] == sel[m];
    BodyLength(front, emit, w);
    BodyLength(sel, emit, w);
    MulStep(w, k);
    MulMono(w, k + 1, |sel|);
  }

  lemma MulStep(w: nat, k: nat)
    ensures w * (k + 1) == w * k + w
  {
  }

  lemma MulMono(w: nat, a: nat, b: nat)
    requires a <= b
    ensures w * a <= w * b
  {
  }

  /** Which pins a single entry selects: exactly those below n whose mask bit
      is set, in strictly ascending order. */
  lemma {:induction false} PinsBelowExact<C>(mask: int, c: C, n: nat)
    ensures forall i :: 0 <= i < n && Selected(mask, i) ==> (i, c) in PinsBelow(mask, c, n)
    ensures forall k, m :: 0 <= k < m < |PinsBelow(mask, c, n)| ==> PinsBelow(mask, c, n)[k].0 < PinsBelow(mask, c, n)[m].0
    ensures forall k :: 0 <= k < |PinsBelow(mask, c, n)| ==> PinsBelow(mask, c, n)[k].1 == c && Selected(mask, PinsBelow(mask, c, n)[k].0)
  {
    if n > 0 {
      PinsBelowExact(mask, c, n - 1);
    }
  }

  /** A pin appears in the selection only if some entry's mask selects it,
      and every pin an entry selects appears, paired with that entry's value. */
  lemma {:induction false} SelectionMembers<C>(entries: seq<(int, C)>, count: nat)
    ensures forall p :: p in Selection(entries, count) ==>
              p.0 < count && exists j :: 0 <= j < |entries| && entries[j].1 == p.1 && Selected(entries[j].0, p.0)
    ensures forall j, i :: 0 <= j < |entries| && 0 <= i < count && Selected(entries[j].0, i) ==>
              (i, entries[j].1) in Selection(entries, count)
  {
    if entries != [] {
      var init := entries[..|entries| - 1];
      var last := entries[|entries| - 1];
      SelectionMembers(init, count);
      PinsBelowExact(last.0, last.1, count);
      assert forall j :: 0 <= j < |init| ==> init[j] == entries[j];
    }
  }

  /** A call builds its frame exactly when every pin that some entry selects
      passes its check; otherwise it raises the first failing pin's error. */
  lemma AssembleOk<C>(selector: Byte, entries: seq<(int, C)>, count: nat,
                      check: (nat, C) -> Option<Error>, emit: (nat, C) -> seq<Byte>)
    ensures Assemble(selector, entries, count, check, emit).Ok? <==>
            forall j, i :: 0 <= j < |entries| && 0 <= i < count && Selected(entries[j].0, i) ==> check(i, entries[j].1).None?
  {
    var sel := Selection(entries, count);
    FirstErrorNone(sel, check);
    SelectionMembers(entries, count);
    if forall j, i :: 0 <= j < |entries| && 0 <= i < count && Selected(entries[j].0, i) ==> check(i, entries[j].1).None? {
      forall k | 0 <= k < |sel|
        ensures check(sel[k].0, sel[k].1).None?
      {
        assert sel[k] in sel;
      }
    }
    if FirstError(sel, check).None? {
      forall j, i | 0 <= j < |entries| && 0 <= i < count && Selected(entries[j].0, i)
        ensures check(i, entries[j].1).None?
      {
        var k :| 0 <= k < |sel| && sel[k] == (i, entries[j].1);
      }
    }
  }

  /** The pins a mask selects, ascending, each mapped through f. */
  function Picked<T, U>(s: seq<T>, mask: int, count: nat, f: T -> U): (r: seq<U>)
    requires |s| >= count
  {
    var pins := PinsBelow(mask, (), count);
    seq(|pins|, k requires 0 <= k < |pins| => f(s[pins[k].0]))
  }

  /** The loop every `get_pins_*` and `read_pins` runs: walk the pins in
      ascending order and collect each selected one. */
  method Pick<T, U>(s: seq<T>, mask: int, count: nat, f: T -> U) returns (r: seq<U>)
    requires |s| >= count
    ensures r == Picked(s, mask, count, f)
  {
    r := [];
    var i := 0;
    while i < count
      invariant 0 <= i <= count
      invariant var pins := PinsBelow(mask, (), i);
                r == seq(|pins|, k requires 0 <= k < |pins| => f(s[pins[k].0]))
    {
      ghost var before := PinsBelow(mask, (), i);
      if Selected(mask, i) {
        r := r + [f(s[i])];
        assert PinsBelow(mask, (), i + 1) == before + [(i, ())];
      } else {
        assert PinsBelow(mask, (), i + 1) == before + [];
        assert before + [] == before;
      }
      i := i + 1;
    }
  }

  /** Every pin the mask selects yields exactly one entry, and in ascending
      pin order: entry k belongs to the k-th selected pin. */
  lemma PickedOrder<T, U>(s: seq<T>, mask: int, count: nat, f: T -> U)
    requires |s| >= count
    ensures var pins := PinsBelow(mask, (), count);
            |Picked(s, mask, count, f)| == |pins|
            && (forall i :: 0 <= i < count && Selected(mask, i) <==> (i, ()) in pins)
            && (forall k, m :: 0 <= k < m < |pins| ==> pins[k].0 < pins[m].0)
  {
    PinsBelowExact(mask, (), count);
  }

  /** When every pin's bytes have width w, a built frame is the selector and w
      bytes per selected pin ... */
  lemma FrameLength<C>(selector: Byte, entries: seq<(int, C)>, count: nat,
                       check: (nat, C) -> Option<Error>, emit: (nat, C) -> seq<Byte>, w: nat)
    requires Assemble(selector, entries, count, check, emit).Ok?
    requires forall i, c :: |emit(i, c)| == w
    ensures |Assemble(selector, entries, count, check, emit).value| == 1 + w * |Selection(entries, count)|
    ensures Assemble(selector, entries, count, check, emit).value[0] == selector
  {
    var sel := Selection(entries, count);
    forall k | 0 <= k < |sel|
      ensures |emit(sel[k].0, sel[k].1)| == w
    {
      var (i, c) := sel[k];
      assert |emit(i, c)| == w;
    }
    BodyLength(sel, emit, w);
  }

  /** ... and the k-th chunk of w bytes is the k-th selected pin's bytes. */
  lemma FrameChunk<C>(selector: Byte, entries: seq<(int, C)>, count: nat,
                      check: (nat, C) -> Option<Error>, emit: (nat, C) -> seq<Byte>, w: nat, k: nat)
    requires Assemble(selector, entries, count, check, emit).Ok?
    requires forall i, c :: |emit(i, c)| == w
    requires k < |Selection(entries, count)|
    ensures 1 + w * k + w <= |Assemble(selector, entries, count, check, emit).value|
    ensures Assemble(selector, entries, count, check, emit).value[1 + w * k .. 1 + w * k + w]
            == emit(Selection(entries, count)[k].0, Selection(entries, count)[k].1)
  {
    var sel := Selection(entries, count);
    var body := Body(sel, emit);
    BodyChunk(sel, emit, w, k);
    Shifted(selector, body, w * k, w * k + w);
  }

  lemma Shifted(selector: Byte, body: seq<Byte>, lo: nat, hi: nat)
    requires lo <= hi <= |body|
    ensures ([selector] + body)[1 + lo .. 1 + hi] == body[lo..hi]
  {
  }
}
