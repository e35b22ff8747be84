/** STOMP frames and the adapter's five frame builders. */
module Frames {
  import opened PhpValues
  import opened Entities
  import Options

  type Headers = map<string, Value>

  /** A frame: command, headers (one value per name) and body. A frame whose body was never set has the empty body. */
  datatype Frame = Frame(command: string, headers: Headers, body: Bytes)

  /** What the transport's `receive()` yields: a frame, or `false` when no frame came. */
  datatype Reply = NoFrame | Got(frame: Frame)

  /** `getHeader`: the header's value, `false` for a header the frame does not hold. */
  function Header(f: Frame, name: string): Value {
    if name in f.headers then f.headers[name] else Bool(false)
  }

  /** A fresh frame whose builder set `fixed` and then ran `setHeader` over the caller's `extra`:
      a later `setHeader` of the same name replaces the earlier value. */
  function Build(command: string, fixed: Headers, body: Bytes, extra: Headers): (f: Frame)
    ensures f.command == command && f.body == body
    ensures f.headers.Keys == fixed.Keys + extra.Keys
    ensures forall name :: name in extra ==> f.headers[name] == extra[name]
    ensures forall name :: name in fixed && name !in extra ==> f.headers[name] == fixed[name]
  {
    Frame(command, fixed + extra, body)
  }

  /** The credential headers: both set, from the options, exactly when a username is configured. */
  function Credentials(options: Options.OptionMap): Headers {
    if Options.Username(options) != Null then
      map["login" := Options.Username(options), "passcode" := Options.Password(options)]
    else map[]
  }

  function ConnectFrame(options: Options.OptionMap, extra: Headers): (f: Frame)
    ensures f.command == "CONNECT" && f.body == ""
    ensures f.headers.Keys == extra.Keys + (if Options.Username(options) != Null then {"login", "passcode"} else {})
    ensures "login" !in extra && Options.Username(options) != Null ==>
      f.headers["login"] == Options.Username(options)
    ensures "passcode" !in extra && Options.Username(options) != Null ==>
      f.headers["passcode"] == Options.Password(options)
    ensures forall name :: name in extra ==> f.headers[name] == extra[name]
  {
    Build("CONNECT", Credentials(options), "", extra)
  }

  function DisconnectFrame(extra: Headers): (f: Frame)
    ensures f.command == "DISCONNECT" && f.headers == extra && f.body == ""
  {
    Build("DISCONNECT", map[], "", extra)
  }

  function SubscribeFrame(queue: Queue, extra: Headers): (f: Frame)
    ensures f.command == "SUBSCRIBE" && f.body == ""
    ensures f.headers.Keys == extra.Keys + {"destination", "ack", "no-local"}
    ensures "destination" !in extra ==> f.headers["destination"] == Str(queue.name)
    ensures "ack" !in extra ==> f.headers["ack"] == Str("client")
    ensures "no-local" !in extra ==> f.headers["no-local"] == Str("true")
    ensures forall name :: name in extra ==> f.headers[name] == extra[name]
  {
    Build("SUBSCRIBE",
      map["destination" := Str(queue.name), "ack" := Str("client"), "no-local" := Str("true")],
      "", extra)
  }

  /** The ACK frame that acknowledges (deletes) a message, by its handle. */
  function DeleteFrame(message: Message, extra: Headers): (f: Frame)
    ensures f.command == "ACK" && f.body == ""
    ensures f.headers.Keys == extra.Keys + {"message-id"}
    ensures "message-id" !in extra ==> f.headers["message-id"] == message.data.handle
    ensures forall name :: name in extra ==> f.headers[name] == extra[name]
  {
    Build("ACK", map["message-id" := message.data.handle], "", extra)
  }

  /** The SEND frame; `content-length` is `strlen` of the text, its length in bytes. */
  function SendFrame(text: Bytes, queue: Queue, extra: Headers): (f: Frame)
    ensures f.command == "SEND" && f.body == text
    ensures f.headers.Keys == extra.Keys + {"destination", "content-length"}
    ensures "destination" !in extra ==> f.headers["destination"] == Str(queue.name)
    ensures "content-length" !in extra ==> f.headers["content-length"] == Int(|text|)
    ensures forall name :: name in extra ==> f.headers[name] == extra[name]
  {
    Build("SEND",
      map["destination" := Str(queue.name), "content-length" := Int(|text|)],
      text, extra)
  }

  /** Without a username, the CONNECT frame carries no credentials unless the caller adds them. */
  lemma AnonymousConnect(options: Options.OptionMap, extra: Headers)
    requires Options.Username(options) == Null
    requires "login" !in extra && "passcode" !in extra
    ensures "login" !in ConnectFrame(options, extra).headers
    ensures "passcode" !in ConnectFrame(options, extra).headers
  {
  }
}
