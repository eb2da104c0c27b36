/** The RPC envelope and what a server answers to a request. */
module Rpc {
  import opened Framing

  datatype ErrorCode = OK | MethodNotFound | ParseError | InternalError

  datatype Request = Request(id: string, service: string, operation: string, payload: seq<byte>)

  datatype Response = Response(id: string, code: ErrorCode, message: string, payload: seq<byte>)

  /** How a user's handler ends: normally, by an RpcError, by another exception, or by something unknown. */
  datatype HandlerResult =
    | Reply(payload: seq<byte>)
    | RpcFailure(code: ErrorCode, what: string)
    | StdException(what: string)
    | UnknownException

  type Registry = map<string, seq<byte> -> HandlerResult>

  const HEARTBEAT_SERVICE: string := "__Heartbeat__"
  const HEARTBEAT_PREFIX: string := "hb_"

  /** `ServiceRegistry::BuildKey`. */
  function MethodKey(service: string, operation: string): string { service + "." + operation }

  /** The answer of the handler found under the request's key; inline in `HandleOneRequest`, in a pool thread in
      `DispatchRequestToThreadPool`. */
  function Serve(registry: Registry, q: Request): (r: Response)
    ensures r.id == q.id
  {
    var key := MethodKey(q.service, q.operation);
    if key !in registry then Response(q.id, MethodNotFound, "method not found: " + key, [])
    else
      match registry[key](q.payload)
      case Reply(payload) => Response(q.id, OK, "", payload)
      case RpcFailure(code, what) => Response(q.id, code, what, [])
      case StdException(what) => Response(q.id, InternalError, "handler exception: " + what, [])
      case UnknownException => Response(q.id, InternalError, "handler threw unknown exception", [])
  }

  function HeartbeatReply(q: Request): Response { Response(q.id, OK, "", []) }

  const ParseErrorReply: Response := Response("", ParseError, "failed to parse RpcRequest", [])
}
