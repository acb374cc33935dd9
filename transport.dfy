/** The retry discipline of KonashiElementBase: every `_read`, `_write`,
    `_enable_notify` and `_disable_notify` calls the BLE client again while it
    reports the D-Bus error "org.bluez.Error.InProgress", stops after the first
    call that succeeds, and turns any other client failure into KonashiError.
    What the client reports on successive calls is an oracle sequence. */
module Transport {
  import opened Wire

  const IN_PROGRESS: string := "org.bluez.Error.InProgress"

  /** What one call into the BLE client reports. */
  datatype Attempt =
    | Completed
    | DBusError(name: string)    // BleakDBusError, with its dbus_error name
    | BleakError(message: string)  // any other BleakError

  predicate Busy(a: Attempt) {
    a.DBusError? && a.name == IN_PROGRESS
  }

  /** The oracle eventually reports something other than "in progress". */
  predicate Settles(oracle: seq<Attempt>) {
    |oracle| > 0 && (!Busy(oracle[0]) || Settles(oracle[1..]))
  }

  /** The index of the first call that does not report "in progress". */
  function FirstSettled(oracle: seq<Attempt>): (k: nat)
    requires Settles(oracle)
    ensures k < |oracle| && !Busy(oracle[k])
    ensures forall j :: 0 <= j < k ==> Busy(oracle[j])
  {
    if !Busy(oracle[0]) then 0 else 1 + FirstSettled(oracle[1..])
  }

  /** A connection to the device: whether a BLE client exists, and what the
      client reports on successive calls. The source retries forever against
      an oracle that never settles; only settling oracles are modelled. */
  datatype Link = Link(connected: bool, oracle: seq<Attempt>)
  type Channel = l: Link | Settles(l.oracle) witness Link(true, [Completed])

  /** The four client operations, with the characteristic UUID they target. */
  datatype Op =
    | Read(uuid: string)
    | Write(uuid: string, data: seq<Byte>)
    | StartNotify(uuid: string)
    | StopNotify(uuid: string)

  /** The phrase each operation puts in its KonashiError message. */
  function During(op: Op): string {
    match op
    case Read(_) => "read"
    case Write(_, _) => "write"
    case StartNotify(_) => "notify start"
    case StopNotify(_) => "notify stop"
  }

  /** How many client calls one retried operation makes. */
  function Attempts(link: Channel): nat {
    if link.connected then FirstSettled(link.oracle) + 1 else 0
  }

  /** The outcome of one retried operation. */
  function Outcome(op: Op, link: Channel): Result<()> {
    if !link.connected then Err(ConnectionError)
    else match link.oracle[FirstSettled(link.oracle)]
      case Completed => Ok(())
      case DBusError(name) => Err(KonashiError(During(op), name))
      case BleakError(message) => Err(KonashiError(During(op), message))
  }

  /** The client calls one retried operation makes: the same call, repeated. */
  function Calls(op: Op, link: Channel): (calls: seq<Op>)
    ensures |calls| == Attempts(link)
    ensures forall c :: c in calls ==> c == op
  {
    seq(Attempts(link), _ => op)
  }

  function CountCompleted(attempts: seq<Attempt>): nat {
    if attempts == [] then 0
    else CountCompleted(attempts[..|attempts| - 1]) + (if attempts[|attempts| - 1].Completed? then 1 else 0)
  }

  /** Models `_read`, `_write`, `_enable_notify` and `_disable_notify`: one
      loop for all four, since they differ only in the client call they make
      and the phrase in their error message. */
  method Perform(op: Op, link: Channel) returns (r: Result<()>, calls: seq<Op>)
    ensures r == Outcome(op, link) && calls == Calls(op, link)
    ensures !link.connected ==> r == Err(ConnectionError) && calls == []
    ensures r.Ok? <==> link.connected && link.oracle[|calls| - 1].Completed?
    ensures forall j :: 0 <= j < |calls| - 1 ==> Busy(link.oracle[j])
  {
    if !link.connected {
      return Err(ConnectionError), [];
    }
    var oracle := link.oracle;
    var k := 0;
    calls := [op];
    while Busy(oracle[k])
      invariant 0 <= k <= FirstSettled(oracle)
      invariant calls == seq(k + 1, _ => op)
      decreases FirstSettled(oracle) - k
    {
      k := k + 1;
      calls := calls + [op];
    }
    match oracle[k]
    case Completed => r := Ok(());
    case DBusError(name) => r := Err(KonashiError(During(op), name));
    case BleakError(message) => r := Err(KonashiError(During(op), message));
  }

  /** An operation makes exactly one successful client call when it succeeds
      and none when it fails: the loop stops at the first success. */
  lemma {:induction false} OneSuccess(op: Op, link: Channel)
    ensures CountCompleted(link.oracle[..Attempts(link)]) == if Outcome(op, link).Ok? then 1 else 0
  {
    var n := Attempts(link);
    if n > 0 {
      var k := n - 1;
      NoneCompletedWhileBusy(link.oracle, k);
      assert link.oracle[..n][..k] == link.oracle[..k];
    }
  }

  lemma {:induction false} NoneCompletedWhileBusy(oracle: seq<Attempt>, k: nat)
    requires k <= |oracle|
    requires forall j :: 0 <= j < k ==> Busy(oracle[j])
    ensures CountCompleted(oracle[..k]) == 0
  {
    if k > 0 {
      NoneCompletedWhileBusy(oracle, k - 1);
      assert oracle[..k][..k - 1] == oracle[..k - 1];
    }
  }
}
