/** The values the gateway stores and routes to. */
module Entities {
  import opened Wrappers

  /** A function within its space (`libkv/function.go`). */
  datatype FunctionKey = FunctionKey(space: string, id: string)

  datatype Function = Function(space: string, id: string, provider: string, metadata: map<string, string>)

  datatype EventType = EventType(space: string, name: string, authorizerID: Option<string>, metadata: map<string, string>)

  const TYPE_SYNC := "sync"
  const TYPE_ASYNC := "async"

  datatype Subscription = Subscription(
    space: string, id: string, kind: string, eventType: string, functionID: string,
    path: string, httpMethod: string, metadata: map<string, string>)
  {
    /** The function the subscription calls. */
    function Callee(): FunctionKey {
      FunctionKey(space, functionID)
    }
  }

  /** What a stored byte string decodes to; `Malformed` is one that does not decode. */
  datatype Value =
    | FunctionValue(fn: Function)
    | EventTypeValue(et: EventType)
    | SubscriptionValue(sub: Subscription)
    | Malformed
}
