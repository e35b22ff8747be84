/** The adapter's capability table. */
module Capabilities {

  /** The operations the adapter implements over STOMP. */
  const SUPPORTED: set<string> := {"send", "receive", "deleteMessage"}

  /** The queue-management operations STOMP offers no way to perform. */
  const UNSUPPORTED: set<string> := {"create", "delete", "getQueues", "count", "isExists"}

  function GetCapabilities(): (caps: map<string, bool>)
    ensures caps.Keys == SUPPORTED + UNSUPPORTED && |caps| == 8
    ensures forall op :: op in caps ==> (caps[op] <==> op in SUPPORTED)
  {
    map[
      "create" := false,
      "delete" := false,
      "send" := true,
      "receive" := true,
      "deleteMessage" := true,
      "getQueues" := false,
      "count" := false,
      "isExists" := false
    ]
  }
}
