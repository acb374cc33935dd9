/** The one-slot pending response of the I2C, SPI and UART drivers: an event
    loop and a future stored in two fields. A request arms the slot before its
    write, the reply notification resolves it, and the request clears it once
    it has taken the reply. */
module Pending {
  import opened Wire

  datatype Slot = Idle | Waiting | Done(reply: seq<Byte>)

  /** The reply notification: only a slot that waits takes the reply. With no
      loop or future stored the notification is dropped, and a future that is
      already done keeps its first reply. */
  function Deliver(s: Slot, data: seq<Byte>): (t: Slot)
    ensures s.Waiting? <==> t == Done(data) && s != t
    ensures !s.Waiting? ==> t == s
  {
    if s.Waiting? then Done(data) else s
  }

  /** Of two replies to one request, the first is the one taken. */
  lemma FirstReplyKept(a: seq<Byte>, b: seq<Byte>)
    ensures Deliver(Deliver(Waiting, a), b) == Done(a)
  {
  }
}
