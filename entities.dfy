/** The generic queue entities the adapter hands back; their classes belong to the queue library, not to the adapter. */
module Entities {
  import opened PhpValues

  /** A checksum function over message bodies (md5 in the adapter). */
  type Digest = Bytes -> string

  datatype Queue = Queue(name: string)

  /** The data array of a message: what `toArray()` returns. */
  datatype MessageData = MessageData(messageId: Value, body: Bytes, md5: string, handle: Value)

  datatype Message = Message(queue: Queue, data: MessageData)

  /** A message set: the queue and the data arrays of its messages, in order. */
  datatype MessageSet = MessageSet(queue: Queue, data: seq<MessageData>)
}
