/** The ongoing-transition list both PWM drivers keep: `control_pins` appends
    every pin it controlled that is not already listed, and the output
    notification removes, one by one in ascending pin order, every listed pin
    whose transition the device reports as finished (duration 0). */
module Transitions {

  predicate NoDup(s: seq<nat>) {
    forall j, k :: 0 <= j < k < |s| ==> s[j] != s[k]
  }

  /** Python's `list.remove`: drop the first occurrence. */
  function Remove(s: seq<nat>, x: nat): (r: seq<nat>)
    ensures |r| == if x in s then |s| - 1 else |s|
  {
    if s == [] then []
    else if s[0] == x then s[1..]
    else [s[0]] + Remove(s[1..], x)
  }

  /** On a list without duplicates, removing x removes it entirely and keeps
      every other element. */
  lemma {:induction false} RemoveMembers(s: seq<nat>, x: nat)
    requires NoDup(s)
    ensures NoDup(Remove(s, x))
    ensures forall y :: y in Remove(s, x) <==> y in s && y != x
  {
    if s != [] {
      var t := s[1..];
      assert NoDup(t) by {
        forall j, k | 0 <= j < k < |t| ensures t[j] != t[k] {
          assert t[j] == s[j + 1] && t[k] == s[k + 1];
        }
      }
      assert s[0] !in t by {
        forall k | 0 <= k < |t| ensures t[k] != s[0] {
          assert t[k] == s[k + 1];
        }
      }
      if s[0] != x {
        RemoveMembers(t, x);
        var r := Remove(t, x);
        assert s[0] !in r;
        assert forall j, k :: 0 < j < k < |[s[0]] + r| ==> ([s[0]] + r)[j] == r[j - 1] && ([s[0]] + r)[k] == r[k - 1];
      }
    }
  }

  /** The list after `control_pins` has appended the controlled pins. */
  function Merged(ongoing: seq<nat>, pins: seq<nat>): seq<nat> {
    if pins == [] then ongoing
    else
      var r := Merged(ongoing, pins[..|pins| - 1]);
      var x := pins[|pins| - 1];
      if x in r then r else r + [x]
  }

  /** The append loop that follows the write in `control_pins`. */
  method Merge(ongoing: seq<nat>, pins: seq<nat>) returns (r: seq<nat>)
    ensures r == Merged(ongoing, pins)
  {
    r := ongoing;
    var k := 0;
    while k < |pins|
      invariant 0 <= k <= |pins|
      invariant r == Merged(ongoing, pins[..k])
    {
      assert pins[..k + 1][..k] == pins[..k];
      if pins[k] !in r {
        r := r + [pins[k]];
      }
      k := k + 1;
    }
    assert pins[..k] == pins;
  }

  /** After the merge every controlled pin is listed exactly once, nothing that
      was listed is lost, and the old list is kept in front. */
  lemma {:induction false} MergedProps(ongoing: seq<nat>, pins: seq<nat>)
    requires NoDup(ongoing)
    ensures NoDup(Merged(ongoing, pins))
    ensures forall y :: y in Merged(ongoing, pins) <==> y in ongoing || y in pins
    ensures ongoing <= Merged(ongoing, pins)
  {
    if pins != [] {
      var init := pins[..|pins| - 1];
      MergedProps(ongoing, init);
      var r := Merged(ongoing, init);
      var x := pins[|pins| - 1];
      assert pins == init + [x];
      if x !in r {
        assert forall j :: 0 <= j < |r| ==> (r + [x])[j] == r[j];
      }
    }
  }

  /** The pins below n that the output handler ends, ascending: listed ones
      whose reported duration is 0. */
  function Ended(ongoing: seq<nat>, zero: seq<bool>, n: nat): (e: seq<nat>)
    requires n <= |zero|
    ensures forall k :: 0 <= k < |e| ==> e[k] < n
  {
    if n == 0 then []
    else Ended(ongoing, zero, n - 1) + if n - 1 in ongoing && zero[n - 1] then [n - 1] else []
  }

  /** The list after removing the given pins one after the other. */
  function RemoveAll(s: seq<nat>, pins: seq<nat>): seq<nat> {
    if pins == [] then s else Remove(RemoveAll(s, pins[..|pins| - 1]), pins[|pins| - 1])
  }

  /** One step of the handler's loop: pin i is ended exactly when it is still
      listed and reported finished, and ending it removes it from the list. */
  lemma EndStep(before: seq<nat>, zero: seq<bool>, i: nat)
    requires NoDup(before) && i < |zero|
    ensures var ongoing := RemoveAll(before, Ended(before, zero, i));
            var ends := i in ongoing && zero[i];
            Ended(before, zero, i + 1) == Ended(before, zero, i) + (if ends then [i] else [])
            && RemoveAll(before, Ended(before, zero, i + 1)) == if ends then Remove(ongoing, i) else ongoing
  {
    var done := Ended(before, zero, i);
    RemoveAllMembers(before, done);
    if i in before && zero[i] {
      assert (done + [i])[..|done|] == done;
    } else {
      assert done + [] == done;
    }
  }

  /** When nothing below i has ended and pin i ends, pin i is the first pin the
      handler ends. */
  lemma {:induction false} EndedFirst(before: seq<nat>, zero: seq<bool>, i: nat, n: nat)
    requires i < n <= |zero| && Ended(before, zero, i) == [] && i in before && zero[i]
    ensures |Ended(before, zero, n)| > 0 && Ended(before, zero, n)[0] == i
  {
    if n > i + 1 {
      EndedFirst(before, zero, i, n - 1);
    }
  }

  /** When the first pin to end is i, the handler that stops right after
      removing it has removed exactly that pin. */
  lemma FirstEnd(before: seq<nat>, zero: seq<bool>, i: nat, n: nat)
    requires NoDup(before) && i < n <= |zero| && Ended(before, zero, i) == [] && i in before && zero[i]
    ensures Ended(before, zero, n) != [] && Ended(before, zero, n)[..1] == [i]
    ensures RemoveAll(before, Ended(before, zero, n)[..1]) == Remove(before, i)
    ensures NoDup(Remove(before, i)) && forall y :: y in Remove(before, i) <==> y in before && y != i
  {
    EndedFirst(before, zero, i, n);
    RemoveMembers(before, i);
    assert [i][..0] == [];
  }

  /** A pin is ended exactly when it is listed and reported finished, and the
      ended pins come in strictly ascending order, so each fires once. */
  lemma {:induction false} EndedExact(ongoing: seq<nat>, zero: seq<bool>, n: nat)
    requires n <= |zero|
    ensures forall i :: i in Ended(ongoing, zero, n) <==> i < n && i in ongoing && zero[i]
    ensures forall j, k :: 0 <= j < k < |Ended(ongoing, zero, n)| ==> Ended(ongoing, zero, n)[j] < Ended(ongoing, zero, n)[k]
  {
    if n > 0 {
      EndedExact(ongoing, zero, n - 1);
    }
  }

  /** Removing pins from a list without duplicates keeps it without duplicates
      and keeps exactly the pins not removed. */
  lemma {:induction false} RemoveAllMembers(s: seq<nat>, pins: seq<nat>)
    requires NoDup(s)
    ensures NoDup(RemoveAll(s, pins))
    ensures forall y :: y in RemoveAll(s, pins) <==> y in s && y !in pins
  {
    if pins != [] {
      var init := pins[..|pins| - 1];
      RemoveAllMembers(s, init);
      RemoveMembers(RemoveAll(s, init), pins[|pins| - 1]);
      assert pins == init + [pins[|pins| - 1]];
    }
  }

  /** After the handler, the pins it ended are off the list, the others stay,
      and the same report again ends nothing: a finished transition fires its
      callback once. */
  lemma SettledOnce(ongoing: seq<nat>, zero: seq<bool>, n: nat)
    requires NoDup(ongoing) && n <= |zero|
    ensures var rest := RemoveAll(ongoing, Ended(ongoing, zero, n));
            NoDup(rest)
            && (forall y :: y in rest <==> y in ongoing && !(y < n && zero[y]))
            && Ended(rest, zero, n) == []
  {
    var e := Ended(ongoing, zero, n);
    var rest := RemoveAll(ongoing, e);
    EndedExact(ongoing, zero, n);
    RemoveAllMembers(ongoing, e);
    NoneEnded(rest, zero, n);
  }

  lemma {:induction false} NoneEnded(ongoing: seq<nat>, zero: seq<bool>, n: nat)
    requires n <= |zero|
    requires forall i :: 0 <= i < n && zero[i] ==> i !in ongoing
    ensures Ended(ongoing, zero, n) == []
  {
    if n > 0 {
      NoneEnded(ongoing, zero, n - 1);
    }
  }
}
