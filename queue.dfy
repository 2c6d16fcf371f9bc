/** The message queue (`sendToQueue`) and the task-id generator (`uuid()`).
    The queue is the append-only record of what was sent; the generator hands
    out ids it has never handed out before. */
module Queues {
  import opened Strings
  import opened Records

  class Queue {
    /** Every message sent, in order. */
    var sent: seq<Envelope>

    constructor()
      ensures sent == []
    {
      sent := [];
    }

    /** `sendToQueue`: the message is appended; nothing sent is ever lost. */
    method Send(e: Envelope)
      modifies this
      ensures sent == old(sent) + [e]
    {
      sent := sent + [e];
    }
  }

  /** The text of the `n`th id handed out. */
  function UuidText(n: nat): string {
    "uuid-" + NatToString(n)
  }

  /** Two ids are equal exactly when they were handed out at the same turn. */
  lemma UuidTextInjective(m: nat, n: nat)
    ensures UuidText(m) == UuidText(n) <==> m == n
  {
    if UuidText(m) == UuidText(n) {
      assert UuidText(m)[5..] == NatToString(m);
      assert UuidText(n)[5..] == NatToString(n);
      NatToStringInjective(m, n);
    }
  }

  class UuidSupplier {
    /** How many ids have been handed out. */
    var issued: nat

    constructor()
      ensures issued == 0
    {
      issued := 0;
    }

    /** `uuid()`: a fresh id, different from every id handed out before. */
    method Fresh() returns (u: string)
      modifies this
      ensures u == UuidText(old(issued))
      ensures issued == old(issued) + 1
    {
      u := UuidText(issued);
      issued := issued + 1;
    }
  }
}
