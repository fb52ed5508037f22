/**
  The dbt query rewriter: a factory that hands out one rewriter per session, and the
  rewrite decision itself. A query without a template marker passes through untouched;
  any other query is submitted to the dbt compiler service and polled until a reply
  that is not "running" decides the outcome.

  The compiler service is an input: a script of its replies to the submit call and to
  each successive poll call. The task id, a fresh UUID in the running system, is a
  parameter too.
 */
module Rewriter {
  import opened Wrappers
  import opened Bytes
  import Strings
  import Decimal
  import opened Rpc

  /** `DbtRewriterFactory`: the compiler service's host and port. */
  datatype DbtRewriterFactory = DbtRewriterFactory(host: string, port: int)

  /** `DbtRewriter`: a rewriter targeting the compiler service at host and port. */
  datatype DbtRewriter = DbtRewriter(host: string, port: int)

  function NewDbtRewriterFactory(host: string, port: int): (f: DbtRewriterFactory)
    ensures f.host == host && f.port == port
  {
    DbtRewriterFactory(host, port)
  }

  /** `Create` never fails and copies the factory's configuration into the rewriter. */
  function Create(f: DbtRewriterFactory): (r: Result<DbtRewriter, string>)
    ensures r.Success?
    ensures r.value.host == f.host && r.value.port == f.port
  {
    Success(DbtRewriter(f.host, f.port))
  }

  // ---------------------------------------------------------------- marker test

  const OpenExpression: ByteString := [OpenBrace, OpenBrace]   // "{{"
  const OpenStatement: ByteString := [OpenBrace, Percent]      // "{%"

  /** A marker starts at index `i`: a '{' followed by '{' or '%'. */
  ghost predicate MarkerStartsAt(query: ByteString, i: int)
  {
    0 <= i < |query| - 1 && query[i] == OpenBrace && (query[i + 1] == OpenBrace || query[i + 1] == Percent)
  }

  /** The query holds a Jinja marker: `{{` or `{%` somewhere in it. */
  function HasMarker(query: ByteString): (b: bool)
    ensures b <==> exists i :: MarkerStartsAt(query, i)
  {
    MarkerTestIff(query);
    Strings.Contains(query, OpenExpression) || Strings.Contains(query, OpenStatement)
  }

  /** The two substring tests together hold exactly when some '{' is followed by '{' or '%'. */
  lemma MarkerTestIff(query: ByteString)
    ensures Strings.Contains(query, OpenExpression) || Strings.Contains(query, OpenStatement)
        <==> exists i :: MarkerStartsAt(query, i)
  {
    Strings.ContainsIff(query, OpenExpression);
    Strings.ContainsIff(query, OpenStatement);
    MarkerAt(query);
    if Strings.Contains(query, OpenExpression) || Strings.Contains(query, OpenStatement) {
      var i :| Strings.OccursAt(query, OpenExpression, i) || Strings.OccursAt(query, OpenStatement, i);
      assert MarkerStartsAt(query, i);
    }
    if i :| MarkerStartsAt(query, i) {
      assert Strings.OccursAt(query, OpenExpression, i) || Strings.OccursAt(query, OpenStatement, i);
    }
  }

  lemma MarkerAt(query: ByteString)
    ensures forall i :: Strings.OccursAt(query, OpenExpression, i) <==> 0 <= i < |query| - 1 && query[i] == OpenBrace && query[i + 1] == OpenBrace
    ensures forall i :: Strings.OccursAt(query, OpenStatement, i) <==> 0 <= i < |query| - 1 && query[i] == OpenBrace && query[i + 1] == Percent
  {
    forall i
      ensures Strings.OccursAt(query, OpenExpression, i) <==> 0 <= i < |query| - 1 && query[i] == OpenBrace && query[i + 1] == OpenBrace
      ensures Strings.OccursAt(query, OpenStatement, i) <==> 0 <= i < |query| - 1 && query[i] == OpenBrace && query[i + 1] == Percent
    {
      if 0 <= i < |query| - 1 {
        assert query[i..i + 2] == [query[i], query[i + 1]];
      }
    }
  }

  // ---------------------------------------------------------------- service URL

  const Scheme: string := "http://"
  const Endpoint: string := "/jsonrpc"

  /**
    `"http://" + host + ":" + fmt.Sprint(port) + "/jsonrpc"`: it names exactly the
    rewriter's host and port, whatever characters the host holds.
   */
  function ServiceUrl(r: DbtRewriter): (url: string)
    ensures ParseServiceUrl(url) == Some((r.host, r.port))
  {
    UrlRoundTrip(r.host, r.port);
    Scheme + r.host + ":" + Decimal.FromInt(r.port) + Endpoint
  }

  /** Recovers host and port from a service URL: the port follows the last ':'. */
  function ParseServiceUrl(url: string): Option<(string, int)>
  {
    if |url| < |Scheme| + |Endpoint| || url[..|Scheme|] != Scheme || url[|url| - |Endpoint|..] != Endpoint then None
    else
      var authority := url[|Scheme|..|url| - |Endpoint|];
      match Strings.LastIndexOf(authority, ':')
      case None => None
      case Some(k) =>
        match Decimal.ToInt(authority[k + 1..])
        case None => None
        case Some(port) => Some((authority[..k], port))
  }

  /** The last ':' of `host:digits` is the separator when the digits hold no ':'. */
  lemma LastColonSeparates(host: string, digits: string)
    requires ':' !in digits
    ensures Strings.LastIndexOf(host + ":" + digits, ':') == Some(|host|)
  {
    var authority := host + ":" + digits;
    assert authority[|host|] == ':';
    assert authority[|host| + 1..] == digits;
  }

  /** Parsing a URL built from a host and a port gives back that host and port. */
  lemma UrlRoundTrip(host: string, port: int)
    ensures ParseServiceUrl(Scheme + host + ":" + Decimal.FromInt(port) + Endpoint) == Some((host, port))
  {
    var digits := Decimal.FromInt(port);
    var authority := host + ":" + digits;
    var url := Scheme + host + ":" + digits + Endpoint;
    assert url == Scheme + authority + Endpoint;
    assert url[..|Scheme|] == Scheme;
    assert url[|url| - |Endpoint|..] == Endpoint;
    assert url[|Scheme|..|url| - |Endpoint|] == authority;
    assert ':' !in digits;
    LastColonSeparates(host, digits);
    assert authority[..|host|] == host;
    assert authority[|host| + 1..] == digits;
    Decimal.ToIntFromInt(port);
  }

  // ---------------------------------------------------------------- the remote side

  /** The script of the compiler service's replies: one to the submit, then one per poll. */
  datatype Service = Service(submitReply: Response<PendingRpc>, pollReplies: seq<Response<CompileQueryResults>>)

  /** One HTTP POST the rewriter makes, with the envelope it sends. */
  datatype Call = Submit(url: string, submit: CompileQueryRpc) | Poll(url: string, poll: PollQuery)

  /** Why the process stops: `log.Fatal` on a transport error, or the index panic on `Results[0]`. */
  datatype AbortCause = SubmitTransportFailed | PollTransportFailed | EmptyResults

  /**
    What a rewrite yields: the text and error Go returns, a process abort, or, when the
    finite script runs out while every reply was "running", no terminal reply yet.
   */
  datatype Outcome =
    | Returned(text: ByteString, err: Option<string>)
    | Aborted(cause: AbortCause)
    | NoTerminalReply

  const CompileError: string := "failed to compile query with dbt, check for syntax errors"

  /**
    The loop's `Status == "running"` test on the reply as read. A transport error never
    reaches it, and an undecodable reply reads as an empty status, which is not "running".
   */
  function IsRunning(r: Response<CompileQueryResults>): (b: bool)
    ensures b <==> !r.TransportError? && ReadResults(r).status == StatusRunning
  {
    r.Decoded? && r.value.status == StatusRunning
  }

  /** Where the poll loop stops in a script. */
  datatype PollStop =
    | Terminal(index: nat, reply: CompileQueryResults)
    | TransportFailed(index: nat)
    | Exhausted

  /**
    The poll loop from the `i`-th reply on, as a specification: it skips "running"
    replies and stops at the first transport error or the first other reply.
   */
  function PollFrom(replies: seq<Response<CompileQueryResults>>, i: nat): (stop: PollStop)
    requires i <= |replies|
    ensures match stop
      case Terminal(k, reply) =>
        && i <= k < |replies|
        && (forall j :: i <= j < k ==> IsRunning(replies[j]))
        && !replies[k].TransportError? && !IsRunning(replies[k])
        && reply == ReadResults(replies[k])
      case TransportFailed(k) =>
        && i <= k < |replies|
        && (forall j :: i <= j < k ==> IsRunning(replies[j]))
        && replies[k].TransportError?
      case Exhausted =>
        forall j :: i <= j < |replies| ==> IsRunning(replies[j])
    decreases |replies| - i
  {
    if i == |replies| then Exhausted
    else if replies[i].TransportError? then TransportFailed(i)
    else if IsRunning(replies[i]) then PollFrom(replies, i + 1)
    else Terminal(i, ReadResults(replies[i]))
  }

  /** The outcome mapping once a terminal reply has arrived. */
  function Settle(query: ByteString, reply: CompileQueryResults): (out: Outcome)
    ensures out.Returned? && out.err.None? <==> reply.status == StatusSuccess && |reply.results| > 0
    ensures out.Returned? && out.err.None? ==> out.text == reply.results[0].compiledSql
    ensures reply.status != StatusSuccess <==> out == Returned(query, Some(CompileError))
    ensures out.Aborted? <==> reply.status == StatusSuccess && |reply.results| == 0
  {
    if reply.status == StatusSuccess then
      if |reply.results| == 0 then Aborted(EmptyResults)
      else Returned(reply.results[0].compiledSql, None)
    else Returned(query, Some(CompileError))
  }

  /** `n` copies of `c`. */
  function Repeat(c: Call, n: nat): (calls: seq<Call>)
    ensures |calls| == n && forall j :: 0 <= j < n ==> calls[j] == c
  {
    if n == 0 then [] else Repeat(c, n - 1) + [c]
  }

  /**
    The rewrite as a specification: its outcome and the calls it makes, in order. With no
    marker nothing is called and the query is returned as it is. Otherwise the first call
    submits the query to the service URL and every later call sends the same poll
    envelope, carrying the task id and the token from the submit reply. An error is only
    ever returned with the original query.
   */
  function Rewrite(r: DbtRewriter, query: ByteString, taskId: string, service: Service): (res: (Outcome, seq<Call>))
    ensures !HasMarker(query) <==> res.1 == []
    ensures !HasMarker(query) ==> res.0 == Returned(query, None)
    ensures HasMarker(query) ==> res.1[0] == Submit(ServiceUrl(r), SubmitEnvelope(taskId, query))
    ensures forall j :: 1 <= j < |res.1| ==>
              res.1[j] == Poll(ServiceUrl(r), PollEnvelope(taskId, ReadPending(service.submitReply)))
    ensures res.0.Returned? && res.0.err.Some? ==> res.0 == Returned(query, Some(CompileError))
  {
    if !HasMarker(query) then (Returned(query, None), [])
    else
      var url := ServiceUrl(r);
      var submit := Submit(url, SubmitEnvelope(taskId, query));
      if service.submitReply.TransportError? then (Aborted(SubmitTransportFailed), [submit])
      else
        var poll := Poll(url, PollEnvelope(taskId, ReadPending(service.submitReply)));
        match PollFrom(service.pollReplies, 0)
        case Exhausted => (NoTerminalReply, [submit] + Repeat(poll, |service.pollReplies|))
        case TransportFailed(k) => (Aborted(PollTransportFailed), [submit] + Repeat(poll, k + 1))
        case Terminal(k, reply) => (Settle(query, reply), [submit] + Repeat(poll, k + 1))
  }

  // ---------------------------------------------------------------- the operations

  /** How many poll calls the loop makes before it stops. */
  function PollCount(stop: PollStop, scriptLength: nat): nat
  {
    match stop
    case Terminal(k, _) => k + 1
    case TransportFailed(k) => k + 1
    case Exhausted => scriptLength
  }

  /**
    The poll phase of `rewriteInternal`: send the same poll envelope until a reply is not
    "running". A transport error ends the loop (the source calls `log.Fatal` there).
   */
  method PollUntilTerminal(url: string, pollingArgs: PollQuery, replies: seq<Response<CompileQueryResults>>)
    returns (stop: PollStop, polls: seq<Call>)
    ensures stop == PollFrom(replies, 0)
    ensures polls == Repeat(Poll(url, pollingArgs), PollCount(stop, |replies|))
  {
    polls := [];
    var i := 0;
    while i < |replies|
      invariant 0 <= i <= |replies|
      invariant forall j :: 0 <= j < i ==> IsRunning(replies[j])
      invariant PollFrom(replies, i) == PollFrom(replies, 0)
      invariant polls == Repeat(Poll(url, pollingArgs), i)
    {
      polls := polls + [Poll(url, pollingArgs)];
      var response := replies[i];
      if response.TransportError? {
        return TransportFailed(i), polls;
      }
      var result := ReadResults(response);
      if result.status == StatusRunning {
        i := i + 1;
        continue;
      }
      return Terminal(i, result), polls;
    }
    return Exhausted, polls;
  }

  /** `rewriteInternal`: the marker test, one submission, then polling until a terminal reply. */
  method RewriteInternal(r: DbtRewriter, query: ByteString, taskId: string, service: Service)
    returns (out: Outcome, calls: seq<Call>)
    ensures (out, calls) == Rewrite(r, query, taskId, service)
    ensures !HasMarker(query) ==> out == Returned(query, None) && calls == []
  {
    if !HasMarker(query) {
      return Returned(query, None), [];
    }
    var url := ServiceUrl(r);
    var args := SubmitEnvelope(taskId, query);
    calls := [Submit(url, args)];
    if service.submitReply.TransportError? {
      return Aborted(SubmitTransportFailed), calls;
    }
    var reply := ReadPending(service.submitReply);
    var pollingArgs := PollEnvelope(taskId, reply);
    var stop, polls := PollUntilTerminal(url, pollingArgs, service.pollReplies);
    calls := calls + polls;
    match stop
    case Exhausted =>
      out := NoTerminalReply;
    case TransportFailed(_) =>
      out := Aborted(PollTransportFailed);
    case Terminal(_, queryResult) =>
      var text := query;
      if queryResult.status == StatusSuccess {
        if |queryResult.results| == 0 {
          return Aborted(EmptyResults), calls;
        }
        text := queryResult.results[0].compiledSql;
      } else {
        return Returned(text, Some(CompileError)), calls;
      }
      out := Returned(text, None);
  }

  /** `RewriteQuery`, for simple-protocol query text. */
  method RewriteQuery(r: DbtRewriter, query: ByteString, taskId: string, service: Service)
    returns (out: Outcome, calls: seq<Call>)
    ensures (out, calls) == Rewrite(r, query, taskId, service)
  {
    out, calls := RewriteInternal(r, query, taskId, service);
  }

  /** `RewriteParse`, for extended-protocol query text: the same policy. */
  method RewriteParse(r: DbtRewriter, query: ByteString, taskId: string, service: Service)
    returns (out: Outcome, calls: seq<Call>)
    ensures (out, calls) == Rewrite(r, query, taskId, service)
  {
    out, calls := RewriteInternal(r, query, taskId, service);
  }

  // ---------------------------------------------------------------- properties

  /** The replies before index `k` were all "running", and the one at `k` is a terminal reply. */
  ghost predicate FirstTerminalAt(replies: seq<Response<CompileQueryResults>>, k: int)
  {
    && 0 <= k < |replies|
    && (forall j :: 0 <= j < k ==> IsRunning(replies[j]))
    && !replies[k].TransportError? && !IsRunning(replies[k])
  }

  /** The poll loop stops at the first reply that is not "running" and reads that reply. */
  lemma PollStopsAtFirstTerminal(replies: seq<Response<CompileQueryResults>>, k: int)
    requires FirstTerminalAt(replies, k)
    ensures PollFrom(replies, 0) == Terminal(k, ReadResults(replies[k]))
  {
  }

  /**
    A terminal "success" reply with results yields its first compiled SQL and no error,
    after one submit call and `k + 1` poll calls.
   */
  lemma SuccessBranch(r: DbtRewriter, query: ByteString, taskId: string, service: Service, k: int)
    requires HasMarker(query) && !service.submitReply.TransportError?
    requires FirstTerminalAt(service.pollReplies, k)
    requires ReadResults(service.pollReplies[k]).status == StatusSuccess
    requires |ReadResults(service.pollReplies[k]).results| > 0
    ensures Rewrite(r, query, taskId, service).0 == Returned(ReadResults(service.pollReplies[k]).results[0].compiledSql, None)
    ensures |Rewrite(r, query, taskId, service).1| == k + 2
  {
    PollStopsAtFirstTerminal(service.pollReplies, k);
  }

  /**
    Any other terminal status, the empty status of an undecodable reply included, yields
    the original query and the compile error.
   */
  lemma FailureBranch(r: DbtRewriter, query: ByteString, taskId: string, service: Service, k: int)
    requires HasMarker(query) && !service.submitReply.TransportError?
    requires FirstTerminalAt(service.pollReplies, k)
    requires ReadResults(service.pollReplies[k]).status != StatusSuccess
    ensures Rewrite(r, query, taskId, service).0 == Returned(query, Some(CompileError))
    ensures |Rewrite(r, query, taskId, service).1| == k + 2
  {
    PollStopsAtFirstTerminal(service.pollReplies, k);
  }

  /** A terminal "success" reply without results reaches the unguarded `Results[0]`. */
  lemma EmptySuccessAborts(r: DbtRewriter, query: ByteString, taskId: string, service: Service, k: int)
    requires HasMarker(query) && !service.submitReply.TransportError?
    requires FirstTerminalAt(service.pollReplies, k)
    requires ReadResults(service.pollReplies[k]).status == StatusSuccess
    requires ReadResults(service.pollReplies[k]).results == []
    ensures Rewrite(r, query, taskId, service).0 == Aborted(EmptyResults)
  {
    PollStopsAtFirstTerminal(service.pollReplies, k);
  }

  /**
    The outcome depends on the first terminal reply alone: neither the number of
    "running" replies before it nor anything after it changes the outcome.
   */
  lemma TerminalReplyDecides(r: DbtRewriter, query: ByteString, taskId: string, submitReply: Response<PendingRpc>,
                             replies1: seq<Response<CompileQueryResults>>, k1: int,
                             replies2: seq<Response<CompileQueryResults>>, k2: int)
    requires FirstTerminalAt(replies1, k1) && FirstTerminalAt(replies2, k2)
    requires replies1[k1] == replies2[k2]
    ensures Rewrite(r, query, taskId, Service(submitReply, replies1)).0 == Rewrite(r, query, taskId, Service(submitReply, replies2)).0
  {
    PollStopsAtFirstTerminal(replies1, k1);
    PollStopsAtFirstTerminal(replies2, k2);
  }

  /** While every reply is "running" the loop has not decided; it has polled once per reply. */
  lemma AllRunningUndecided(r: DbtRewriter, query: ByteString, taskId: string, service: Service)
    requires HasMarker(query) && !service.submitReply.TransportError?
    requires forall j :: 0 <= j < |service.pollReplies| ==> IsRunning(service.pollReplies[j])
    ensures Rewrite(r, query, taskId, service).0 == NoTerminalReply
    ensures |Rewrite(r, query, taskId, service).1| == |service.pollReplies| + 1
  {
  }

  /** A compile that answers "running" once and then "success": the compiled SQL, after two polls. */
  lemma RunningThenSuccess(r: DbtRewriter, query: ByteString, taskId: string, token: string, compiled: ByteString)
    requires HasMarker(query)
    ensures var service := Service(Decoded(PendingRpc(token)),
                                   [Decoded(CompileQueryResults(StatusRunning, [])),
                                    Decoded(CompileQueryResults(StatusSuccess, [CompiledResult(compiled)]))]);
      var (out, calls) := Rewrite(r, query, taskId, service);
      && out == Returned(compiled, None)
      && |calls| == 3 && calls[0].Submit? && calls[1].Poll? && calls[2].Poll?
  {
    var replies := [Decoded(CompileQueryResults(StatusRunning, [])),
                    Decoded(CompileQueryResults(StatusSuccess, [CompiledResult(compiled)]))];
    assert FirstTerminalAt(replies, 1);
    PollStopsAtFirstTerminal(replies, 1);
  }

  /** A compile whose first poll answers "error": the original query and the compile error. */
  lemma ImmediateError(r: DbtRewriter, query: ByteString, taskId: string, token: string)
    requires HasMarker(query)
    ensures var service := Service(Decoded(PendingRpc(token)), [Decoded(CompileQueryResults("error", []))]);
      Rewrite(r, query, taskId, service).0 == Returned(query, Some(CompileError))
  {
  }
}
