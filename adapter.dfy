/** The STOMP adapter itself: a connected flag over an injected STOMP client. Each state-changing method is
    proved to do exactly what the matching function of `Session` says. */
module Adapter {
  import opened PhpValues
  import opened Errors
  import opened Entities
  import opened Frames
  import opened Mapper
  import opened Transport
  import Options
  import Capabilities
  import Session

  class StompAdapter {
    const options: Options.OptionMap
    const md5: Digest
    /** The adapter base class's RECEIVE_TIMEOUT_DEFAULT, in clock ticks. */
    const receiveTimeoutDefault: int
    const client: StompClient
    var connected: bool

    constructor (userOptions: Options.OptionMap, client: StompClient, md5: Digest, receiveTimeoutDefault: int)
      ensures options == Options.Merge(userOptions) && !connected
      ensures this.client == client && this.md5 == md5 && this.receiveTimeoutDefault == receiveTimeoutDefault
    {
      options := Options.Merge(userOptions);
      this.client := client;
      this.md5 := md5;
      this.receiveTimeoutDefault := receiveTimeoutDefault;
      connected := false;
    }

    function Env(): Session.Env {
      Session.Env(options, md5, receiveTimeoutDefault)
    }

    function State(): Session.State
      reads this, client
    {
      Session.State(connected, client.Snapshot())
    }

    /** A plain read of the flag: no I/O. */
    function IsConnected(): (b: bool)
      reads this
      ensures b == connected
    {
      connected
    }

    method Connect(extra: Headers) returns (r: Result<()>)
      modifies this, client
      ensures Session.Step(r, State()) == Session.Connect(options, old(State()), extra)
    {
      if !IsConnected() {
        client.Send(ConnectFrame(options, extra));
        var response := client.Receive();
        if response.Got? && response.frame.command != "CONNECTED" {
          return Failure(Session.AuthError(options));
        }
        connected := true;
      }
      return Success(());
    }

    method Disconnect()
      modifies this, client
      ensures State() == Session.Disconnect(old(State()))
    {
      if IsConnected() {
        if client.GetConnection() {
          client.Send(DisconnectFrame(map[]));
        }
        connected := false;
      }
    }

    method Send(text: Bytes, queue: Queue, extra: Headers) returns (r: Result<Message>)
      modifies this, client
      ensures Session.Step(r, State()) == Session.Send(Env(), old(State()), text, queue, extra)
    {
      var c := Connect(map[]);
      if c.Failure? {
        return Failure(c.error);
      }
      var frame := SendFrame(text, queue, extra);
      client.Send(frame);
      return Success(MessageFromFrame(frame, queue, md5));
    }

    method DeleteMessage(message: Message, extra: Headers) returns (r: Result<bool>)
      modifies this, client
      ensures Session.Step(r, State()) == Session.DeleteMessage(options, old(State()), message, extra)
    {
      var c := Connect(map[]);
      if c.Failure? {
        return Failure(c.error);
      }
      client.Send(DeleteFrame(message, extra));
      return Success(true);
    }

    /** Pull at most `maxMessages` MESSAGE frames within `timeout` ticks of `clock`, whose k-th reading is
        what the k-th look at the time returns. */
    method Receive(maxMessages: int, timeout: int, queue: Queue, extra: Headers, clock: nat -> int)
      returns (r: Result<MessageSet>)
      modifies this, client
      ensures Session.Step(r, State()) == Session.Receive(Env(), old(State()), maxMessages, timeout, queue, extra, clock)
    {
      var c := Connect(map[]);
      if c.Failure? {
        return Failure(c.error);
      }
      client.Send(SubscribeFrame(queue, extra));
      var messages := PollMessages(queue, clock, Session.ResolveTimeout(timeout, receiveTimeoutDefault),
                                   Session.ResolveMax(maxMessages));
      return Success(MessageSet(queue, messages));
    }

    /** The receive loop: the clock is read once at the start and once before each pull. */
    method PollMessages(queue: Queue, clock: nat -> int, timeout: int, max: int) returns (messages: seq<MessageData>)
      modifies client
      ensures client.sent == old(client.sent) && client.open == old(client.open)
      ensures var p := Session.Poll(old(client.inbox), clock, timeout, max, 0);
        messages == DataOf(p.frames, queue, md5) && client.inbox == p.rest
    {
      ghost var polled := Session.Poll(client.inbox, clock, timeout, max, 0);
      var start := clock(0);
      messages := [];
      ghost var taken: seq<Frame> := [];
      var i: nat := 0;
      while i < max
        invariant client.sent == old(client.sent) && client.open == old(client.open)
        invariant |messages| == |taken| == i
        invariant forall k :: 0 <= k < i ==> messages[k] == MessageFromFrame(taken[k], queue, md5).data
        invariant polled.frames == taken + Session.Poll(client.inbox, clock, timeout, max, i).frames
        invariant polled.rest == Session.Poll(client.inbox, clock, timeout, max, i).rest
        decreases max - i
      {
        if clock(i + 1) - start >= timeout {
          break;
        }
        ghost var waiting := client.inbox;
        var reply := client.Receive();
        if !reply.Got? || reply.frame.command != "MESSAGE" {
          assert Session.Poll(waiting, clock, timeout, max, i) == Session.Polled([], client.inbox);
          break;
        }
        ghost var later := Session.Poll(client.inbox, clock, timeout, max, i + 1);
        assert Session.Poll(waiting, clock, timeout, max, i).frames == [reply.frame] + later.frames;
        assert taken + ([reply.frame] + later.frames) == (taken + [reply.frame]) + later.frames;
        messages := messages + [MessageFromFrame(reply.frame, queue, md5).data];
        taken := taken + [reply.frame];
        i := i + 1;
      }
      assert polled.frames == taken;
      assert messages == DataOf(taken, queue, md5);
    }

    // The queue-management operations STOMP cannot perform: each fails at once and changes nothing.

    method IsExists(name: string) returns (r: Result<bool>)
      ensures r == Failure(NotSupported("isExists")) && !Capabilities.GetCapabilities()["isExists"]
    {
      return Failure(NotSupported("isExists"));
    }

    method Create(name: string, timeout: Value) returns (r: Result<bool>)
      ensures r == Failure(NotSupported("create")) && !Capabilities.GetCapabilities()["create"]
    {
      return Failure(NotSupported("create"));
    }

    method Delete(name: string) returns (r: Result<bool>)
      ensures r == Failure(NotSupported("delete")) && !Capabilities.GetCapabilities()["delete"]
    {
      return Failure(NotSupported("delete"));
    }

    method GetQueues() returns (r: Result<seq<string>>)
      ensures r == Failure(NotSupported("getQueues")) && !Capabilities.GetCapabilities()["getQueues"]
    {
      return Failure(NotSupported("getQueues"));
    }

    method Count(queue: Queue) returns (r: Result<int>)
      ensures r == Failure(NotSupported("count")) && !Capabilities.GetCapabilities()["count"]
    {
      return Failure(NotSupported("count"));
    }
  }
}
