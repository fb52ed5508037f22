/**
  The JSON-RPC messages exchanged with the dbt compiler service: the two request
  envelopes the rewriter sends and the reply fields it reads. All other reply
  fields are ignored, so they are not modelled.
 */
module Rpc {
  import opened Wrappers
  import opened Bytes
  import Base64

  const JsonRpcVersion: string := "2.0"
  const CompileSqlMethod: string := "compile_sql"
  const PollMethod: string := "poll"
  /** Server-side timeout hint, in seconds, sent with every submission. */
  const CompileTimeout: int := 60
  const QueryName: string := "dbt_pg_proxy_query"
  const PollLogsStart: int := 1

  const StatusRunning: string := "running"
  const StatusSuccess: string := "success"

  /** `CompileQueryArgs`: the parameters of a `compile_sql` call. */
  datatype CompileQueryArgs = CompileQueryArgs(timeout: int, sql: string, name: string)

  /** `CompileQueryRPC`: the submit envelope. */
  datatype CompileQueryRpc = CompileQueryRpc(jsonrpc: string, rpcMethod: string, id: string, params: CompileQueryArgs)

  /** `PollQueryArgs`: the parameters of a `poll` call. */
  datatype PollQueryArgs = PollQueryArgs(requestToken: string, logs: bool, logsStart: int)

  /** `PollQuery`: the poll envelope. */
  datatype PollQuery = PollQuery(jsonrpc: string, rpcMethod: string, id: string, params: PollQueryArgs)

  /** `PendingRPC`, reduced to `result.request_token`. */
  datatype PendingRpc = PendingRpc(requestToken: string)

  /** One entry of `result.results`, reduced to `compiled_sql`. */
  datatype CompiledResult = CompiledResult(compiledSql: ByteString)

  /** `CompileQueryResults`, reduced to `result.state` and `result.results`. */
  datatype CompileQueryResults = CompileQueryResults(status: string, results: seq<CompiledResult>)

  /**
    What one HTTP POST to the service yields: a body that decodes, a body that does not
    decode, or a transport error from `http.Post`.
   */
  datatype Response<T> = Decoded(value: T) | Undecodable | TransportError

  /**
    The reply as the rewriter sees it. Decode errors are ignored, so an undecodable body
    leaves the Go zero value: an empty token.
   */
  function ReadPending(r: Response<PendingRpc>): (p: PendingRpc)
    ensures r.Decoded? ==> p == r.value
    ensures !r.Decoded? ==> p.requestToken == ""
  {
    if r.Decoded? then r.value else PendingRpc("")
  }

  /** As `ReadPending`: an undecodable poll reply has an empty status and no results. */
  function ReadResults(r: Response<CompileQueryResults>): (c: CompileQueryResults)
    ensures r.Decoded? ==> c == r.value
    ensures !r.Decoded? ==> c.status == "" && c.results == []
  {
    if r.Decoded? then r.value else CompileQueryResults("", [])
  }

  /**
    The `compile_sql` envelope for a query. Its `sql` field is the padded standard base64
    encoding of the query bytes, so decoding it gives back the query.
   */
  function SubmitEnvelope(taskId: string, query: ByteString): (e: CompileQueryRpc)
    ensures e.jsonrpc == "2.0" && e.rpcMethod == "compile_sql" && e.id == taskId
    ensures e.params.timeout == 60 && e.params.name == "dbt_pg_proxy_query"
    ensures Base64.Decode(e.params.sql) == Some(query)
    ensures |e.params.sql| == (|query| + 2) / 3 * 4
  {
    Base64.DecodeEncode(query);
    CompileQueryRpc(JsonRpcVersion, CompileSqlMethod, taskId,
      CompileQueryArgs(CompileTimeout, Base64.Encode(query), QueryName))
  }

  /** The `poll` envelope: same task id as the submission, the token from its reply. */
  function PollEnvelope(taskId: string, reply: PendingRpc): (e: PollQuery)
    ensures e.jsonrpc == "2.0" && e.rpcMethod == "poll" && e.id == taskId
    ensures e.params.requestToken == reply.requestToken
    ensures e.params.logs && e.params.logsStart == 1
  {
    PollQuery(JsonRpcVersion, PollMethod, taskId, PollQueryArgs(reply.requestToken, true, PollLogsStart))
  }
}
