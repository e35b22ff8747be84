/** What each state-changing operation of the adapter does, as a function of the adapter's connected flag and
    the client's state: the specification the adapter class is proved against, and the lemmas about it. */
module Session {
  import opened PhpValues
  import opened Errors
  import opened Entities
  import opened Frames
  import opened Mapper
  import opened Transport
  import Options

  /** What an adapter is built with: its merged options, the body checksum, and the default receive timeout
      of the queue library's adapter base class. */
  datatype Env = Env(options: Options.OptionMap, md5: Digest, receiveTimeoutDefault: int)

  /** The adapter's `_connected` flag together with its client. */
  datatype State = State(connected: bool, link: Link)

  /** The outcome of one operation and the state it leaves behind. */
  datatype Step<+T> = Step(result: Result<T>, after: State)

  /** The authentication error names the endpoint the adapter tried. */
  function AuthError(options: Options.OptionMap): QueueError {
    AuthenticationFailed(Options.Scheme(options), Options.Host(options), Options.Port(options))
  }

  /** Only an explicit frame other than CONNECTED is a refusal; no frame at all is accepted. */
  predicate Accepts(reply: Reply) {
    reply.NoFrame? || reply.frame.command == "CONNECTED"
  }

  // ---------------------------------------------------------------- connection state machine

  function Connect(options: Options.OptionMap, s: State, extra: Headers): (o: Step<()>)
    ensures s.connected ==> o == Step(Success(()), s)
    ensures !s.connected ==>
      o.after.link == s.link.(sent := s.link.sent + [ConnectFrame(options, extra)], inbox := Pull(s.link.inbox).rest)
    ensures o.after.connected <==> o.result.Success?
    ensures !s.connected ==> (o.result.Success? <==> Accepts(Pull(s.link.inbox).reply))
    ensures o.result.Failure? ==> o.result.error == AuthError(options)
  {
    if s.connected then Step(Success(()), s)
    else
      var p := Pull(s.link.inbox);
      var link := s.link.(sent := s.link.sent + [ConnectFrame(options, extra)], inbox := p.rest);
      if p.reply.Got? && p.reply.frame.command != "CONNECTED" then Step(Failure(AuthError(options)), State(false, link))
      else Step(Success(()), State(true, link))
  }

  function Disconnect(s: State): (t: State)
    ensures !t.connected
    ensures t.link.inbox == s.link.inbox && t.link.open == s.link.open
    ensures t.link.sent == s.link.sent + if s.connected && s.link.open then [DisconnectFrame(map[])] else []
  {
    if !s.connected then s
    else if s.link.open then State(false, s.link.(sent := s.link.sent + [DisconnectFrame(map[])]))
    else State(false, s.link)
  }

  /** Two connects perform one CONNECT exchange: the second, on a connected adapter, sends and reads nothing. */
  lemma ConnectTwice(options: Options.OptionMap, s: State, first: Headers, second: Headers)
    requires !s.connected && Accepts(Pull(s.link.inbox).reply)
    ensures var o := Connect(options, Connect(options, s, first).after, second);
      && o.result.Success? && o.after.connected
      && o.after.link.sent == s.link.sent + [ConnectFrame(options, first)]
      && o.after.link.inbox == Pull(s.link.inbox).rest
  {
  }

  /** A refused CONNECT leaves the adapter disconnected, so the next connect tries again with a new CONNECT frame. */
  lemma RefusedConnectIsRetried(options: Options.OptionMap, s: State, extra: Headers)
    requires !s.connected && !Accepts(Pull(s.link.inbox).reply)
    ensures var o := Connect(options, s, extra);
      && o.result == Failure(AuthError(options)) && !o.after.connected
      && Connect(options, o.after, extra).after.link.sent == s.link.sent + [ConnectFrame(options, extra), ConnectFrame(options, extra)]
  {
  }

  /** A connect followed by a disconnect over an open connection sends exactly CONNECT then DISCONNECT. */
  lemma ConnectThenDisconnect(options: Options.OptionMap, s: State, extra: Headers)
    requires !s.connected && s.link.open && Accepts(Pull(s.link.inbox).reply)
    ensures var t := Disconnect(Connect(options, s, extra).after);
      && !t.connected
      && t.link.sent == s.link.sent + [ConnectFrame(options, extra), DisconnectFrame(map[])]
  {
  }

  /** Disconnecting twice sends no more than disconnecting once. */
  lemma DisconnectIdempotent(s: State)
    ensures Disconnect(Disconnect(s)) == Disconnect(s)
  {
  }

  // ---------------------------------------------------------------- send and delete

  function Send(env: Env, s: State, text: Bytes, queue: Queue, extra: Headers): (o: Step<Message>)
    ensures var c := Connect(env.options, s, map[]);
      && (c.result.Failure? ==> o == Step(Failure(c.result.error), c.after))
      && (c.result.Success? ==>
           && o.result.Success? && o.after.connected
           && o.after.link == c.after.link.(sent := c.after.link.sent + [SendFrame(text, queue, extra)]))
    ensures o.result.Success? ==>
      o.result.value == MessageFromFrame(SendFrame(text, queue, extra), queue, env.md5)
  {
    var c := Connect(env.options, s, map[]);
    if c.result.Failure? then Step(Failure(c.result.error), c.after)
    else
      var f := SendFrame(text, queue, extra);
      Step(Success(MessageFromFrame(f, queue, env.md5)), State(true, c.after.link.(sent := c.after.link.sent + [f])))
  }

  /** The message `send` hands back carries the text it sent; it has an id only when the caller put one in the frame. */
  lemma SentMessageEchoesText(env: Env, s: State, text: Bytes, queue: Queue, extra: Headers)
    requires Send(env, s, text, queue, extra).result.Success?
    ensures var m := Send(env, s, text, queue, extra).result.value;
      && m.queue == queue && m.data.body == text && m.data.md5 == env.md5(text)
      && ("message-id" !in extra ==> m.data.messageId == Null && m.data.handle == Null)
  {
  }

  function DeleteMessage(options: Options.OptionMap, s: State, message: Message, extra: Headers): (o: Step<bool>)
    ensures var c := Connect(options, s, map[]);
      && (c.result.Failure? ==> o == Step(Failure(c.result.error), c.after))
      && (c.result.Success? ==>
           && o.result == Success(true) && o.after.connected
           && o.after.link == c.after.link.(sent := c.after.link.sent + [DeleteFrame(message, extra)]))
  {
    var c := Connect(options, s, map[]);
    if c.result.Failure? then Step(Failure(c.result.error), c.after)
    else Step(Success(true), State(true, c.after.link.(sent := c.after.link.sent + [DeleteFrame(message, extra)])))
  }

  // ---------------------------------------------------------------- the receive loop

  predicate IsMessage(r: Reply) {
    r.Got? && r.frame.command == "MESSAGE"
  }

  /** The time that has passed when the loop checks before pull `i`: the clock is read once when the loop
      starts (reading 0) and once before each pull (reading `i + 1`). */
  function Elapsed(clock: nat -> int, i: nat): int {
    clock(i + 1) - clock(0)
  }

  /** Pull `i` happens when neither the count nor the time budget is spent. */
  predicate Attempts(clock: nat -> int, timeout: int, max: int, i: nat) {
    i < max && Elapsed(clock, i) < timeout
  }

  /** The frames the loop keeps, and the client's replies left after it. */
  datatype Polled = Polled(frames: seq<Frame>, rest: seq<Reply>)

  /** The receive loop from pull `i` on: it keeps leading MESSAGE frames, and stops when the count or time budget
      is spent (nothing is pulled) or when a pull yields no frame or another command (that reply is consumed). */
  function Poll(inbox: seq<Reply>, clock: nat -> int, timeout: int, max: int, i: nat): (p: Polled)
    decreases if i < max then max - i else 0
    ensures |p.frames| <= |inbox|
    ensures p.frames == [] || i + |p.frames| <= max
  {
    if !Attempts(clock, timeout, max, i) then Polled([], inbox)
    else
      var pulled := Pull(inbox);
      if !IsMessage(pulled.reply) then Polled([], pulled.rest)
      else
        var p := Poll(pulled.rest, clock, timeout, max, i + 1);
        Polled([pulled.reply.frame] + p.frames, p.rest)
  }

  /** The loop keeps the leading replies of the inbox, in arrival order; each is a MESSAGE frame, and each was
      pulled within both budgets. */
  lemma {:induction false} PollKeepsLeadingMessages(inbox: seq<Reply>, clock: nat -> int, timeout: int, max: int, i: nat)
    ensures var p := Poll(inbox, clock, timeout, max, i);
      && (forall k :: 0 <= k < |p.frames| ==> inbox[k] == Got(p.frames[k]) && p.frames[k].command == "MESSAGE")
      && (forall j :: i <= j < i + |p.frames| ==> Attempts(clock, timeout, max, j))
    decreases if i < max then max - i else 0
  {
    if Attempts(clock, timeout, max, i) {
      var pulled := Pull(inbox);
      if IsMessage(pulled.reply) {
        PollKeepsLeadingMessages(pulled.rest, clock, timeout, max, i + 1);
        var q := Poll(pulled.rest, clock, timeout, max, i + 1);
        var p := Poll(inbox, clock, timeout, max, i);
        assert p.frames == [pulled.reply.frame] + q.frames;
        forall k | 0 <= k < |p.frames|
          ensures inbox[k] == Got(p.frames[k])
        {
          if k > 0 { assert inbox[k] == pulled.rest[k - 1]; }
        }
      }
    }
  }

  /** The loop stops only for a cause: a spent budget, or a pull that yields no frame or a frame other than MESSAGE. */
  lemma {:induction false} PollStopsForCause(inbox: seq<Reply>, clock: nat -> int, timeout: int, max: int, i: nat)
    ensures var n := |Poll(inbox, clock, timeout, max, i).frames|;
      Attempts(clock, timeout, max, i + n) ==> n == |inbox| || !IsMessage(inbox[n])
    decreases if i < max then max - i else 0
  {
    if Attempts(clock, timeout, max, i) {
      var pulled := Pull(inbox);
      if IsMessage(pulled.reply) {
        PollStopsForCause(pulled.rest, clock, timeout, max, i + 1);
        var m := |Poll(pulled.rest, clock, timeout, max, i + 1).frames|;
        assert m < |pulled.rest| ==> inbox[m + 1] == pulled.rest[m];
      }
    }
  }

  /** A reply that stops the loop is consumed; a spent budget pulls nothing more. */
  lemma {:induction false} PollLeavesRest(inbox: seq<Reply>, clock: nat -> int, timeout: int, max: int, i: nat)
    ensures var p := Poll(inbox, clock, timeout, max, i);
      var n := |p.frames|;
      && (Attempts(clock, timeout, max, i + n) && n < |inbox| ==> p.rest == inbox[n + 1..])
      && (!Attempts(clock, timeout, max, i + n) || n == |inbox| ==> p.rest == inbox[n..])
    decreases if i < max then max - i else 0
  {
    if Attempts(clock, timeout, max, i) {
      var pulled := Pull(inbox);
      if IsMessage(pulled.reply) {
        PollLeavesRest(pulled.rest, clock, timeout, max, i + 1);
        var m := |Poll(pulled.rest, clock, timeout, max, i + 1).frames|;
        assert pulled.rest[m..] == inbox[m + 1..];
        assert m < |pulled.rest| ==> pulled.rest[m + 1..] == inbox[m + 2..];
      }
    }
  }

  /** `(int) $maxMessages ?: 1`: a null or zero count means one message. */
  function ResolveMax(maxMessages: int): (max: int)
    ensures maxMessages == 0 ==> max == 1
    ensures maxMessages != 0 ==> max == maxMessages
  {
    if maxMessages == 0 then 1 else maxMessages
  }

  /** `(float) $timeout ?: RECEIVE_TIMEOUT_DEFAULT`. */
  function ResolveTimeout(timeout: int, default: int): (t: int)
    ensures timeout == 0 ==> t == default
    ensures timeout != 0 ==> t == timeout
  {
    if timeout == 0 then default else timeout
  }

  function Receive(env: Env, s: State, maxMessages: int, timeout: int, queue: Queue, extra: Headers, clock: nat -> int)
    : (o: Step<MessageSet>)
    ensures var c := Connect(env.options, s, map[]);
      && (c.result.Failure? ==> o == Step(Failure(c.result.error), c.after))
      && (c.result.Success? ==>
           && o.result.Success? && o.after.connected
           && o.after.link.sent == c.after.link.sent + [SubscribeFrame(queue, extra)]
           && o.after.link.open == s.link.open
           && o.after.link.inbox == Poll(c.after.link.inbox, clock, ResolveTimeout(timeout, env.receiveTimeoutDefault),
                                         ResolveMax(maxMessages), 0).rest
           && o.result.value.queue == queue
           && |o.result.value.data| <= |c.after.link.inbox|
           && |o.result.value.data| <= (if maxMessages == 0 then 1 else if maxMessages < 0 then 0 else maxMessages))
  {
    var c := Connect(env.options, s, map[]);
    if c.result.Failure? then Step(Failure(c.result.error), c.after)
    else
      var link := c.after.link.(sent := c.after.link.sent + [SubscribeFrame(queue, extra)]);
      var p := Poll(link.inbox, clock, ResolveTimeout(timeout, env.receiveTimeoutDefault), ResolveMax(maxMessages), 0);
      Step(Success(MessageSet(queue, DataOf(p.frames, queue, env.md5))), State(true, link.(inbox := p.rest)))
  }

  /** The messages `receive` returns are the data of the leading MESSAGE frames waiting after the connect
      exchange, in arrival order. */
  lemma ReceiveReturnsLeadingMessages(env: Env, s: State, maxMessages: int, timeout: int, queue: Queue, extra: Headers,
                                      clock: nat -> int)
    requires Receive(env, s, maxMessages, timeout, queue, extra, clock).result.Success?
    ensures var inbox := Connect(env.options, s, map[]).after.link.inbox;
      var data := Receive(env, s, maxMessages, timeout, queue, extra, clock).result.value.data;
      forall k :: 0 <= k < |data| ==>
        IsMessage(inbox[k]) && data[k] == MessageFromFrame(inbox[k].frame, queue, env.md5).data
  {
    var inbox := Connect(env.options, s, map[]).after.link.inbox;
    PollKeepsLeadingMessages(inbox, clock, ResolveTimeout(timeout, env.receiveTimeoutDefault), ResolveMax(maxMessages), 0);
  }

  /** `receive` returns fewer messages than its budgets allow only because the next reply after them is no frame
      or not a MESSAGE. */
  lemma ReceiveStopsForCause(env: Env, s: State, maxMessages: int, timeout: int, queue: Queue, extra: Headers,
                             clock: nat -> int)
    requires Receive(env, s, maxMessages, timeout, queue, extra, clock).result.Success?
    ensures var inbox := Connect(env.options, s, map[]).after.link.inbox;
      var n := |Receive(env, s, maxMessages, timeout, queue, extra, clock).result.value.data|;
      Attempts(clock, ResolveTimeout(timeout, env.receiveTimeoutDefault), ResolveMax(maxMessages), n) ==>
        n == |inbox| || !IsMessage(inbox[n])
  {
    var inbox := Connect(env.options, s, map[]).after.link.inbox;
    PollStopsForCause(inbox, clock, ResolveTimeout(timeout, env.receiveTimeoutDefault), ResolveMax(maxMessages), 0);
  }

  /** A loop whose time budget is spent before pull `j` returns at most `j` messages, whatever is waiting. */
  lemma ReceiveHonoursTimeout(env: Env, s: State, maxMessages: int, timeout: int, queue: Queue, extra: Headers,
                              clock: nat -> int, j: nat)
    requires ResolveTimeout(timeout, env.receiveTimeoutDefault) <= Elapsed(clock, j)
    requires Receive(env, s, maxMessages, timeout, queue, extra, clock).result.Success?
    ensures |Receive(env, s, maxMessages, timeout, queue, extra, clock).result.value.data| <= j
  {
    var inbox := Connect(env.options, s, map[]).after.link.inbox;
    var t, m := ResolveTimeout(timeout, env.receiveTimeoutDefault), ResolveMax(maxMessages);
    PollKeepsLeadingMessages(inbox, clock, t, m, 0);
    assert !Attempts(clock, t, m, j);
  }

  /** Two MESSAGE frames waiting behind an accepted CONNECT, a count of two and time to spare: both messages come
      back, ids and bodies in arrival order, after exactly one CONNECT and one SUBSCRIBE. */
  lemma ReceiveTwoWaitingMessages(env: Env, queue: Queue, first: Frame, second: Frame, open: bool)
    requires env.receiveTimeoutDefault > 0
    requires first == Frame("MESSAGE", map["message-id" := Str("message-1")], "some message body")
    requires second == Frame("MESSAGE", map["message-id" := Str("message-2")], "another message body")
    ensures var o := Receive(env, State(false, Link([], [Got(Frame("CONNECTED", map[], "")), Got(first), Got(second)], open)),
                             2, 0, queue, map[], _ => 0);
      && o.result.Success? && o.after.connected
      && o.after.link.sent == [ConnectFrame(env.options, map[]), SubscribeFrame(queue, map[])]
      && |o.result.value.data| == 2
      && o.result.value.data[0].messageId == Str("message-1") && o.result.value.data[0].body == "some message body"
      && o.result.value.data[1].messageId == Str("message-2") && o.result.value.data[1].body == "another message body"
  {
    var clock: nat -> int := _ => 0;
    var inbox := [Got(first), Got(second)];
    assert Pull(inbox).rest == [Got(second)];
    assert Pull([Got(second)]).rest == [];
    var p := Poll(inbox, clock, env.receiveTimeoutDefault, 2, 0);
    assert p.frames == [first, second];
  }

  // ---------------------------------------------------------------- sequences of calls

  /** A call a caller makes on the adapter. */
  datatype Call =
    | ConnectCall(extra: Headers)
    | DisconnectCall
    | SendCall(text: Bytes, queue: Queue, extra: Headers)
    | ReceiveCall(maxMessages: int, timeout: int, queue: Queue, extra: Headers, clock: nat -> int)
    | DeleteCall(message: Message, extra: Headers)

  /** The adapter is connected only once a CONNECT frame has gone out. */
  ghost predicate Handshaken(s: State) {
    s.connected ==> exists k :: 0 <= k < |s.link.sent| && s.link.sent[k].command == "CONNECT"
  }

  /** What one call leaves behind, whether it succeeds or fails. */
  function Apply(env: Env, s: State, call: Call): (t: State)
    ensures s.link.sent <= t.link.sent && t.link.open == s.link.open
    ensures t.connected && !s.connected ==>
      |s.link.sent| < |t.link.sent| && t.link.sent[|s.link.sent|].command == "CONNECT"
    ensures s.connected && !call.DisconnectCall? ==>
      t.connected && forall k :: |s.link.sent| <= k < |t.link.sent| ==> t.link.sent[k].command != "CONNECT"
  {
    match call
    case ConnectCall(extra) => Connect(env.options, s, extra).after
    case DisconnectCall => Disconnect(s)
    case SendCall(text, queue, extra) => Send(env, s, text, queue, extra).after
    case ReceiveCall(m, t, queue, extra, clock) => Receive(env, s, m, t, queue, extra, clock).after
    case DeleteCall(message, extra) => DeleteMessage(env.options, s, message, extra).after
  }

  function Run(env: Env, s: State, calls: seq<Call>): State
    decreases |calls|
  {
    if calls == [] then s else Run(env, Apply(env, s, calls[0]), calls[1..])
  }

  /** The client's sent frames only ever grow: no call takes back a frame. */
  lemma {:induction false} RunOnlyAppends(env: Env, s: State, calls: seq<Call>)
    ensures s.link.sent <= Run(env, s, calls).link.sent
    decreases |calls|
  {
    if calls != [] {
      RunOnlyAppends(env, Apply(env, s, calls[0]), calls[1..]);
    }
  }

  /** Whatever the calls, an adapter is never connected without a CONNECT frame having been sent. */
  lemma {:induction false} RunKeepsHandshake(env: Env, s: State, calls: seq<Call>)
    requires Handshaken(s)
    ensures Handshaken(Run(env, s, calls))
    decreases |calls|
  {
    if calls != [] {
      var s' := Apply(env, s, calls[0]);
      if s'.connected && !s.connected {
        assert s'.link.sent[|s.link.sent|].command == "CONNECT";
      } else if s'.connected {
        var k :| 0 <= k < |s.link.sent| && s.link.sent[k].command == "CONNECT";
        assert s'.link.sent[k] == s.link.sent[k];
      }
      RunKeepsHandshake(env, s', calls[1..]);
    }
  }

  /** A connected adapter that is not disconnected never sends another CONNECT frame, however many sends,
      receives, deletes and connects it serves. */
  lemma {:induction false} NoReconnectWhileConnected(env: Env, s: State, calls: seq<Call>)
    requires s.connected
    requires forall k :: 0 <= k < |calls| ==> !calls[k].DisconnectCall?
    ensures var t := Run(env, s, calls);
      && t.connected && s.link.sent <= t.link.sent
      && forall k :: |s.link.sent| <= k < |t.link.sent| ==> t.link.sent[k].command != "CONNECT"
    decreases |calls|
  {
    if calls != [] {
      var s' := Apply(env, s, calls[0]);
      NoReconnectWhileConnected(env, s', calls[1..]);
      var t := Run(env, s', calls[1..]);
      forall k | |s.link.sent| <= k < |t.link.sent|
        ensures t.link.sent[k].command != "CONNECT"
      {
        if k < |s'.link.sent| {
          assert t.link.sent[k] == s'.link.sent[k];
        }
      }
    }
  }
}
