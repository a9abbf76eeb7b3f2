/** The firmware's traffic towards the MCP2515: its writes dropping or
    raising the chip-select bit (whatever the pin's direction is at the time),
    one-byte exchanges (the byte shifted out and the byte shifted back in the
    same clock burst), and settle delays. A transaction is one
    chip-select bracket around a run of exchanges. */
module Bus {

  import opened Wrappers

  datatype Event =
    | CsLow                          // chip-select bit cleared (slave enabled)
    | CsHigh                         // chip-select bit set (slave disabled)
    | Exchange(out: bv8, inb: bv8)   // one SPI byte exchange
    | Delay(us: nat)                 // busy delay, in microseconds

  /** The exchanges of a run of bytes sent, paired with the bytes received. */
  function Exchanges(out: seq<bv8>, inb: seq<bv8>): (es: seq<Event>)
    requires |out| == |inb|
    ensures |es| == |out|
    ensures forall i :: 0 <= i < |es| ==> es[i] == Exchange(out[i], inb[i])
  {
    seq(|out|, i requires 0 <= i < |out| => Exchange(out[i], inb[i]))
  }

  /** One transaction: select, the exchanges in order, deselect. */
  function Transaction(out: seq<bv8>, inb: seq<bv8>): seq<Event>
    requires |out| == |inb|
  {
    [CsLow] + Exchanges(out, inb) + [CsHigh]
  }

  /** The bytes the firmware shifted out, in order. */
  function Sent(es: seq<Event>): seq<bv8>
  {
    if es == [] then []
    else (if es[0].Exchange? then [es[0].out] else []) + Sent(es[1..])
  }

  /** The bytes the peripheral shifted back, in order. */
  function Received(es: seq<Event>): seq<bv8>
  {
    if es == [] then []
    else (if es[0].Exchange? then [es[0].inb] else []) + Received(es[1..])
  }

  /** The bytes sent over two traces in a row are those of the first, then
      those of the second. */
  lemma {:induction false} SentAppend(a: seq<Event>, b: seq<Event>)
    ensures Sent(a + b) == Sent(a) + Sent(b)
  {
    if a == [] {
      assert a + b == b;
    } else {
      var ab := a + b;
      assert ab[0] == a[0] && ab[1..] == a[1..] + b;
      SentAppend(a[1..], b);
    }
  }

  /** The bytes received over two traces in a row are those of the first,
      then those of the second. */
  lemma {:induction false} ReceivedAppend(a: seq<Event>, b: seq<Event>)
    ensures Received(a + b) == Received(a) + Received(b)
  {
    if a == [] {
      assert a + b == b;
    } else {
      var ab := a + b;
      assert ab[0] == a[0] && ab[1..] == a[1..] + b;
      ReceivedAppend(a[1..], b);
    }
  }

  /** Appending one event adds its byte, if it is an exchange, to each projection. */
  lemma ProjectionsSnoc(a: seq<Event>, e: Event)
    ensures Sent(a + [e]) == Sent(a) + (if e.Exchange? then [e.out] else [])
    ensures Received(a + [e]) == Received(a) + (if e.Exchange? then [e.inb] else [])
  {
    SentAppend(a, [e]);
    ReceivedAppend(a, [e]);
    assert [e][1..] == [];
  }

  /** Both projections distribute over concatenation of traces. */
  lemma ProjectionsAppend(a: seq<Event>, b: seq<Event>)
    ensures Sent(a + b) == Sent(a) + Sent(b)
    ensures Received(a + b) == Received(a) + Received(b)
  {
    SentAppend(a, b);
    ReceivedAppend(a, b);
  }

  /** A run of exchanges carries exactly the bytes it was built from, both ways. */
  lemma {:induction false} ExchangesProject(out: seq<bv8>, inb: seq<bv8>)
    requires |out| == |inb|
    ensures Sent(Exchanges(out, inb)) == out
    ensures Received(Exchanges(out, inb)) == inb
  {
    if out != [] {
      var es := Exchanges(out, inb);
      assert es[1..] == Exchanges(out[1..], inb[1..]);
      ExchangesProject(out[1..], inb[1..]);
    }
  }

  /** A transaction transmits exactly its bytes and hands back exactly its
      responses: nothing is sent or received by the chip-select events. */
  lemma TransactionProjects(out: seq<bv8>, inb: seq<bv8>)
    requires |out| == |inb|
    ensures Sent(Transaction(out, inb)) == out
    ensures Received(Transaction(out, inb)) == inb
  {
    var es := Exchanges(out, inb);
    ExchangesProject(out, inb);
    ProjectionsAppend([CsLow], es);
    ProjectionsAppend([CsLow] + es, [CsHigh]);
  }

  /** Bracketing of a transaction: chip select is
      dropped once, as the first event; raised once, as the last; and every
      exchange lies strictly between the two. */
  lemma TransactionBracketed(out: seq<bv8>, inb: seq<bv8>)
    requires |out| == |inb|
    ensures var t := Transaction(out, inb);
      |t| == |out| + 2 &&
      forall i :: 0 <= i < |t| ==>
        (t[i] == CsLow <==> i == 0) &&
        (t[i] == CsHigh <==> i == |t| - 1) &&
        (t[i].Exchange? <==> 0 < i < |t| - 1)
  {
  }

  /** Whether chip select is currently dropped. */
  datatype Phase = Deselected | Selected

  /** The framing rules for one event: an exchange only while selected, no
      select while already selected (transactions do not nest). Raising chip
      select while deselected and delaying are always allowed. */
  function Step(p: Phase, e: Event): Option<Phase>
  {
    match e
    case CsLow => if p == Selected then None else Some(Selected)
    case CsHigh => Some(Deselected)
    case Exchange(_, _) => if p == Selected then Some(Selected) else None
    case Delay(_) => Some(p)
  }

  /** Runs the framing rules over a trace: the phase it ends in, or None if
      some event broke the rules. */
  function Run(p: Phase, es: seq<Event>): Option<Phase>
    decreases es
  {
    if es == [] then Some(p)
    else match Step(p, es[0])
      case None => None
      case Some(q) => Run(q, es[1..])
  }

  /** Running two traces in a row is running the first, then the second from
      where the first ended. */
  lemma {:induction false} RunAppend(p: Phase, a: seq<Event>, b: seq<Event>)
    ensures Run(p, a + b) == match Run(p, a) case None => None case Some(q) => Run(q, b)
    decreases a
  {
    if a == [] {
      assert a + b == b;
    } else {
      assert (a + b)[1..] == a[1..] + b;
      match Step(p, a[0])
      case None =>
      case Some(q) => RunAppend(q, a[1..], b);
    }
  }

  /** Exchanges are accepted while selected and leave the bus selected. */
  lemma {:induction false} RunExchanges(out: seq<bv8>, inb: seq<bv8>)
    requires |out| == |inb|
    ensures Run(Selected, Exchanges(out, inb)) == Some(Selected)
  {
    if out != [] {
      var es := Exchanges(out, inb);
      assert es[1..] == Exchanges(out[1..], inb[1..]);
      RunExchanges(out[1..], inb[1..]);
    }
  }

  /** A transaction started while deselected is well framed and ends deselected;
      started while selected, it is a nested select and breaks the rules. */
  lemma RunTransaction(p: Phase, out: seq<bv8>, inb: seq<bv8>)
    requires |out| == |inb|
    ensures Run(p, Transaction(out, inb)) == if p == Deselected then Some(Deselected) else None
  {
    var es := Exchanges(out, inb);
    RunExchanges(out, inb);
    RunAppend(p, [CsLow], es);
    RunAppend(p, [CsLow] + es, [CsHigh]);
  }
}
