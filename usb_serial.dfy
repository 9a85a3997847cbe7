/**
 * The serial link to the mount, as the driver sees it.
 *
 * `send` writes a command and returns nothing; `recv` returns every
 * character that has arrived and not yet been read. The device is given as
 * a script: the reply it sends back to each command, in order. A reply that
 * is never read stays waiting and comes out in front of the next `recv`.
 */
module UsbSerial {

  /** The state of the link: commands sent, replies still to come, characters waiting. */
  datatype Line = Line(sent: seq<string>, script: seq<string>, waiting: string)

  /** The line after `send(data)`: the command is logged and the device's next reply arrives. */
  function Transmit(l: Line, data: string): (n: Line)
    ensures n.sent == l.sent + [data]
    ensures l.script != [] ==> n.script == l.script[1..] && n.waiting == l.waiting + l.script[0]
    ensures l.script == [] ==> n.script == [] && n.waiting == l.waiting
  {
    if l.script == [] then l.(sent := l.sent + [data])
    else Line(l.sent + [data], l.script[1..], l.waiting + l.script[0])
  }

  /** The line after `recv()`: nothing is left waiting. */
  function Drain(l: Line): (n: Line)
    ensures n.waiting == "" && n.sent == l.sent && n.script == l.script
  {
    l.(waiting := "")
  }

  /** On a quiet line, the reply read right after a command is the device's reply to it. */
  lemma ExchangeOnQuietLine(l: Line, data: string)
    requires l.waiting == "" && l.script != []
    ensures Transmit(l, data).waiting == l.script[0]
    ensures Drain(Transmit(l, data)) == Line(l.sent + [data], l.script[1..], "")
  {
  }

  /**
   * A reply left unread is read together with the next one: two commands
   * sent on a quiet line with one `recv` after them read both replies, the
   * first one in front.
   */
  lemma UnreadReplyIsPrepended(l: Line, first: string, second: string)
    requires l.waiting == "" && |l.script| >= 2
    ensures Transmit(Transmit(l, first), second).waiting == l.script[0] + l.script[1]
    ensures Transmit(Transmit(l, first), second).sent == l.sent + [first, second]
  {
    var l1 := Transmit(l, first);
    assert l1.script[0] == l.script[1];
  }

  /** Commands sent to the device: a log of writes and a queue of scripted replies. */
  class SerialLink {
    var sent: seq<string>
    var script: seq<string>
    var waiting: string

    function State(): Line
      reads this
    {
      Line(sent, script, waiting)
    }

    /** A freshly opened port, with the replies the device will give. */
    constructor (replies: seq<string>)
      ensures State() == Line([], replies, "")
    {
      sent := [];
      script := replies;
      waiting := "";
    }

    /** `send(data)`: writes the command; it returns nothing. */
    method Send(data: string)
      modifies this
      ensures State() == Transmit(old(State()), data)
    {
      sent := sent + [data];
      if script != [] {
        waiting := waiting + script[0];
        script := script[1..];
      }
    }

    /** `recv()`: reads every character waiting on the port. */
    method Recv() returns (output: string)
      modifies this
      ensures output == old(waiting)
      ensures State() == Drain(old(State()))
    {
      output := waiting;
      waiting := "";
    }
  }
}
