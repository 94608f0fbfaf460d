/**
 JSON-RPC 2.0 values as the gateway sees them once `jsonrpc-lite` has parsed an
 inbound text frame: classified units in, response objects out. Parsing and
 serialization themselves belong to the library and are not modelled.
 */
module JsonRpc {

  datatype Option<+T> = None | Some(value: T)

  /** A connected WebSocket client. The gateway compares clients by identity only. */
  datatype Client = Client(conn: nat)

  /** A JSON-RPC id: a string, a number, or null when it is absent or untrusted. */
  datatype Id = StrId(s: string) | NumId(n: int) | NullId

  /** Error codes of section 5.1 of the JSON-RPC 2.0 specification. */
  const ParseErrorCode: int := -32700
  const InvalidRequestCode: int := -32600
  const MethodNotFoundCode: int := -32601
  const InvalidParamsCode: int := -32602

  /** An error object: its code and its optional `data` member. */
  datatype RpcError = RpcError(code: int, data: Option<string>)

  function ParseError(data: string): RpcError { RpcError(ParseErrorCode, Some(data)) }
  function InvalidRequest(data: string): RpcError { RpcError(InvalidRequestCode, Some(data)) }
  function MethodNotFound(): RpcError { RpcError(MethodNotFoundCode, None) }
  function InvalidParams(data: string): RpcError { RpcError(InvalidParamsCode, Some(data)) }

  /**
   The `params` object of a subscription request, reduced to the members the
   router reads. `event` is None when the member is absent; the string-valued
   members `tx_id` and `address` are taken as given.
   */
  datatype Params = Params(event: Option<string>, txId: string, address: string)

  /** One parsed unit, classified by the library. */
  datatype Unit =
    | Request(id: Id, methodName: string, params: Option<Params>)
    | Notification(methodName: string)
    | SuccessUnit(id: Id)
    | ErrorUnit(id: Id)
    | Invalid(error: RpcError)

  /** What the library returns for a text frame: one unit, or a batch of them. */
  datatype Parsed = Single(unit: Unit) | Batch(units: seq<Unit>)

  /** An inbound WebSocket frame: text, or binary data of some other kind. */
  datatype Message = Text(parsed: Parsed) | NonText(typeName: string)

  /** A response object: success with its result, or an error. */
  datatype Response = Success(id: Id, result: bool) | Failure(id: Id, error: RpcError)

  /** What the gateway sends back for one inbound frame. */
  datatype Outbound = NothingSent | SendOne(response: Response) | SendBatch(responses: seq<Response>)

  /** The params of the server's `tx_update` notification. */
  datatype TxUpdateNotification = TxUpdateNotification(txId: string, txStatus: string)
}
