/** The JSON-RPC 2.0 records of the observer, and when it accepts them. */
module JsonRpc {
  import opened Wire

  const VERSION := "2.0"

  // Raw JSON is kept as bytes; an absent member has no raw bytes
  datatype Request = Request(jsonrpc: string, methodName: string, params: seq<byte>, id: Option<seq<byte>>)
  {
    predicate Valid() {
      jsonrpc == VERSION && methodName != ""
    }
  }

  datatype RpcError = RpcError(code: int, message: string, data: seq<byte>)

  datatype Response = Response(jsonrpc: string, result: seq<byte>, error: Option<RpcError>, id: Option<seq<byte>>)
  {
    predicate Valid() {
      jsonrpc == VERSION && (result != []) != error.Some?
    }
  }

  // The JSON decoder of a body is a parameter: a partial function from a line to a record
  type RequestParser = seq<byte> -> Option<Request>
  type ResponseParser = seq<byte> -> Option<Response>

  /** What one accumulation call reports to its worker. */
  datatype Observation<+T> = Incomplete | Record(value: T) | Failed

  function ObserveRequest(line: Option<seq<byte>>, parse: RequestParser): Observation<Request> {
    if line.None? then Incomplete
    else
      var r := parse(line.value);
      if r.Some? && r.value.Valid() then Record(r.value) else Failed
  }

  function ObserveResponse(line: Option<seq<byte>>, parse: ResponseParser): Observation<Response> {
    if line.None? then Incomplete
    else
      var r := parse(line.value);
      if r.Some? && r.value.Valid() then Record(r.value) else Failed
  }

  /** A JSON-RPC message with neither result nor error, such as any notification, is never a valid response. */
  lemma NotificationIsNoResponse(line: seq<byte>, parse: ResponseParser)
    requires parse(line).Some? ==> parse(line).value.result == [] && parse(line).value.error.None?
    ensures ObserveResponse(Some(line), parse) == Failed
  {
  }
}
