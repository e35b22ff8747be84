/** `getMessageFromFrame`: a frame becomes the data of a generic message. */
module Mapper {
  import opened PhpValues
  import opened Entities
  import opened Frames

  /** The `message-id` header, with every falsy value (an absent header included) read as null. */
  function MessageId(f: Frame): Value {
    var id := Header(f, "message-id");
    if Falsy(id) then Null else id
  }

  function MessageFromFrame(f: Frame, queue: Queue, md5: Digest): (m: Message)
    ensures m.queue == queue
    ensures m.data.messageId == m.data.handle
    ensures m.data.body == f.body && m.data.md5 == md5(f.body)
    ensures m.data.messageId == Null <==> "message-id" !in f.headers || Falsy(f.headers["message-id"])
    ensures m.data.messageId != Null ==> m.data.messageId == f.headers["message-id"]
  {
    var id := MessageId(f);
    Message(queue, MessageData(id, f.body, md5(f.body), id))
  }

  /** The data arrays of the messages mapped from `frames`, in the same order. */
  function DataOf(frames: seq<Frame>, queue: Queue, md5: Digest): seq<MessageData>
  {
    seq(|frames|, k requires 0 <= k < |frames| => MessageFromFrame(frames[k], queue, md5).data)
  }

  /** Acknowledging a message mapped from a frame sends that frame's own `message-id` back. */
  lemma AckReferencesReceivedFrame(f: Frame, queue: Queue, md5: Digest, extra: Headers)
    requires "message-id" in f.headers && !Falsy(f.headers["message-id"])
    requires "message-id" !in extra
    ensures DeleteFrame(MessageFromFrame(f, queue, md5), extra).headers["message-id"] == f.headers["message-id"]
  {
  }
}
