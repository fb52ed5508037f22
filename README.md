# dbt query rewriter of dbt-postgres-proxy, modelled in Dafny

dbt-postgres-proxy sits between a PostgreSQL client and server. Each session gets a
`DbtRewriter` from a `DbtRewriterFactory`. Its `RewriteQuery`/`RewriteParse` both call
`rewriteInternal`. `rewriteInternal` forwards a query unchanged unless the query holds a
Jinja marker (`{{` or `{%`). A query with a marker goes to the dbt RPC server. The rewriter
makes a `compile_sql` call carrying the base64-encoded query, then sends the same `poll`
call until the reply's state is not `"running"`. A `"success"` reply yields the first
result's `compiled_sql`. Any other state yields the original query together with an error.

This project models that decision procedure and proves its properties.

- `wrappers.dfy`: `Option` and `Result`.
- `bytes.dfy`: the `byte` type. Query text is a byte string, since a Go string is bytes.
- `strings.dfy`: `Contains` (Go's `strings.Contains`) with its meaning proved. `LastIndexOf` is
  used to parse the service URL back.
- `decimal.dfy`: `FromInt`, the decimal form `fmt.Sprint` gives an `int`, and a reader that
  inverts it.
- `base64.dfy`: the padded standard encoding of section 4 of RFC 4648 (`base64.StdEncoding`),
  and a decoder proved to invert it.
- `rpc.dfy`: the submit and poll envelopes, and the reply fields the rewriter reads
  (`result.request_token`, `result.state`, `result.results[].compiled_sql`).
- `rewriter.dfy`: the factory, the marker test, the service URL, the specification
  function `Rewrite`, the imperative `PollUntilTerminal` and `RewriteInternal`, the two entry
  points, and the lemmas.

Each call to the compiler service is input to the model. `Service` is a finite script: the
reply to the submit, then one reply per poll. A reply is `Decoded(value)`, `Undecodable` or
`TransportError`. The source ignores decode errors, so an undecodable body reads as the Go
zero value: an empty token, or an empty state with no results. The task id (a fresh UUID in
the source) is a parameter. Every operation returns the calls it made, in order, with the
envelope each call sends. That is how "no remote call" and "every poll sends the same
envelope" are stated.

Outcomes (`Rewriter.Outcome`):
- `Returned(text, err)`: the `(string, error)` pair that Go returns.
- `Aborted(SubmitTransportFailed | PollTransportFailed)`: the source calls `log.Fatal` when
  `http.Post` fails, which ends the process.
- `Aborted(EmptyResults)`: a `"success"` reply with an empty `results` list. The source
  indexes `Results[0]` without a guard, which panics. The model chooses an explicit failure
  outcome here. It does not add a precondition.
- `NoTerminalReply`: the script ran out while every reply was `"running"`. The source loop has
  no bound.

The model follows the code at three points where a reader might expect otherwise:
- `http.Post` failing calls `log.Fatal` (rewriter.go:201, 224), so the model aborts rather
  than returning a compile error for that one query.
- `Results[0]` is indexed without a guard (rewriter.go:235), so an empty `results` in a
  `"success"` reply aborts with `EmptyResults`.
- The poll loop has no bound (rewriter.go:221), so the finite script ends in
  `NoTerminalReply` when every reply is `"running"`.

## Model

| member | source | states |
|---|---|---|
| Rewriter.NewDbtRewriterFactory | rewriter.go:162-167 | the factory holds exactly the given host and port |
| Rewriter.Create | rewriter.go:169-171 | `Create` never fails; the rewriter's host and port equal the factory's |
| Rewriter.RewriteQuery | rewriter.go:173-175 | outcome and call trace are those of `Rewrite`. `RewriteParse` promises the same, so the two entry points agree on every query and every service |
| Rewriter.RewriteParse | rewriter.go:177-179 | outcome and call trace are those of `Rewrite`, the same as `RewriteQuery` |
| Strings.ContainsIff | rewriter.go:183 | `Contains(s, pat)` holds exactly when `pat` occurs at some index of `s` |
| Rewriter.HasMarker | rewriter.go:183 | the marker test holds exactly when some `{` in the query is followed by `{` or `%` |
| Rewriter.MarkerTestIff | rewriter.go:183 | the two `strings.Contains` tests, or-ed, hold exactly when some `{` is followed by `{` or `%` |
| Decimal.FromInt | rewriter.go:185 | the decimal form of the port is non-empty and has only digits, except a leading minus sign, which is there exactly when the port is negative |
| Decimal.ToIntFromInt | rewriter.go:185 | reading the printed port back gives the port |
| Rewriter.ServiceUrl | rewriter.go:185 | the URL `http://host:port/jsonrpc` parses back to exactly the rewriter's host and port, whatever characters the host contains |
| Rewriter.UrlRoundTrip | rewriter.go:185 | for any host and port, the port follows the last `:` of the authority, so host and port are recovered from the URL |
| Base64.Encode | rewriter.go:193 | the encoding is 4 characters for every started group of 3 bytes (padded) |
| Base64.DecodeEncode | rewriter.go:193 | decoding the base64 encoding of any byte string gives it back |
| Base64.RfcVectors | rewriter.go:193 | the encoder gives the outputs of the test vectors of section 10 of RFC 4648 ("" to "Zm9vYmFy"), and `//4=` for the bytes FF FE |
| Rpc.SubmitEnvelope | rewriter.go:187-196 | jsonrpc "2.0", method "compile_sql", id = task id, timeout 60, name "dbt_pg_proxy_query"; the `sql` field decodes back to the query |
| Rpc.ReadPending | rewriter.go:203-204 | a decoded submit reply is read as sent; an undecodable one has an empty request token |
| Rpc.PollEnvelope | rewriter.go:206-215 | jsonrpc "2.0", method "poll", the submit's task id, the submit reply's request token, logs true, logs_start 1 |
| Rpc.ReadResults | rewriter.go:222-225 | a decoded poll reply is read as sent; an undecodable one has an empty status and no results |
| Rewriter.IsRunning | rewriter.go:226 | the loop continues exactly when the reply arrived and its state, as read, is "running"; an undecodable reply has an empty state and ends the loop |
| Rewriter.PollFrom | rewriter.go:221-232 | from reply `i` on, the loop stops at the first transport error or at the first reply that is not "running", and reads that reply; where no reply ends it, every reply was "running" |
| Rewriter.PollUntilTerminal | rewriter.go:217-232 | the while loop returns the stop `PollFrom` specifies, after exactly one call per reply read, all sending the same poll envelope |
| Rewriter.Settle | rewriter.go:234-242 | with no error, just when the status is "success" and there are results, the first result's compiled SQL. Any other status gives the original query and the compile error. "success" with no results aborts |
| Rewriter.RewriteInternal | rewriter.go:181-248 | outcome and call trace equal `Rewrite`; with no marker, the query is returned unchanged with no error and no call |
| Rewriter.PollStopsAtFirstTerminal | rewriter.go:221-232 | when all replies before `k` are "running" and reply `k` is neither "running" nor a transport error, the loop stops at `k` with reply `k` |
| Rewriter.SuccessBranch | rewriter.go:221-247 | a first terminal "success" reply with results yields `results[0].compiled_sql` and no error, after 1 submit and k+1 polls |
| Rewriter.FailureBranch | rewriter.go:225-242 | a first terminal reply with any other status yields the original query and the compile error. This includes an undecodable reply, whose status is empty |
| Rewriter.EmptySuccessAborts | rewriter.go:234-235 | a first terminal "success" reply with empty results reaches the unguarded `Results[0]` and aborts |
| Rewriter.TerminalReplyDecides | rewriter.go:221-232 | two scripts whose first terminal replies are equal yield the same outcome, however many "running" replies come first and whatever follows |
| Rewriter.AllRunningUndecided | rewriter.go:221-229 | when every scripted poll reply is "running", nothing is decided, after one poll call per reply |
| Rewriter.Rewrite | rewriter.go:181-248 | no call exactly when there is no marker, and then the query is returned unchanged with no error; otherwise the first call is the submit envelope to the service URL, and every later call is the same poll envelope with the submit reply's token; an error is only returned with the original query and the compile error message |
| Rewriter.RunningThenSuccess | rewriter.go:221-247 | one "running" reply, then "success" with compiled SQL: that SQL is returned with no error, after one submit and exactly two poll calls |
| Rewriter.ImmediateError | rewriter.go:221-242 | a first poll reply with status "error" yields the original query and the compile error |

## Left out

- HTTP transport (`http.Post`) and JSON encoding and decoding: replaced by the reply script and the `Response` datatype. A decode that fails part-way, leaving some fields filled, is not modelled. An undecodable body reads as the zero value.
- The roughly 80 response fields the rewriter never reads (`rewriter.go:51-138`).
- UUID generation: the task id is a parameter.
- `time.Sleep` between polls and the console output of the compiled query: timing and I/O with no effect on the result.
- `log.Fatal` and the index panic: both are modelled only as an `Aborted` outcome. Process termination itself is not modelled.
- The unbounded poll loop: only a finite script of replies is modelled. A script that runs out while every reply is "running" ends in `NoTerminalReply`.
- Base64.Decode: only its round trip with `Encode` is proved. It is not claimed to match Go's decoder on other input.
- `cmd/main.go` (flag parsing, listen socket, bootstrap): process setup, not rewrite logic.
- `RunProxy`, the wire-protocol framer and the session relay are not part of this model.
