/** The STOMP client the adapter talks through, reduced to what the adapter observes of it:
    the frames sent so far, the replies still to come, and whether a connection is open. */
module Transport {
  import opened Frames

  /** A snapshot of the client. */
  datatype Link = Link(sent: seq<Frame>, inbox: seq<Reply>, open: bool)

  /** One `receive()`: the next scripted reply, or no frame once the script is spent. */
  datatype Pulled = Pulled(reply: Reply, rest: seq<Reply>)

  function Pull(inbox: seq<Reply>): (p: Pulled)
    ensures inbox == [] ==> p == Pulled(NoFrame, [])
    ensures inbox != [] ==> [p.reply] + p.rest == inbox
  {
    if inbox == [] then Pulled(NoFrame, []) else Pulled(inbox[0], inbox[1..])
  }

  class StompClient {
    var sent: seq<Frame>
    var inbox: seq<Reply>
    var open: bool

    constructor (script: seq<Reply>, open: bool)
      ensures sent == [] && inbox == script && this.open == open
    {
      sent := [];
      inbox := script;
      this.open := open;
    }

    function Snapshot(): Link
      reads this
    {
      Link(sent, inbox, open)
    }

    /** `getConnection()`, read as "is a connection open". */
    function GetConnection(): bool
      reads this
    {
      open
    }

    method Send(f: Frame)
      modifies this
      ensures Snapshot() == old(Snapshot()).(sent := old(sent) + [f])
    {
      sent := sent + [f];
    }

    method Receive() returns (r: Reply)
      modifies this
      ensures Pulled(r, inbox) == Pull(old(inbox))
      ensures sent == old(sent) && open == old(open)
    {
      if inbox == [] {
        r := NoFrame;
      } else {
        r := inbox[0];
        inbox := inbox[1..];
      }
    }
  }
}
