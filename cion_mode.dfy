/** The join-mode HTTP handler `POST /api/v1/cion`: busy while an attempt is in
    flight, otherwise a list of zero or one join-token bundle. */
module CionMode {
  import opened Common
  import opened JoinBrowser
  import opened PtcJoinBroker

  const ServiceUnavailable: int := 503
  const InternalServerError: int := 500

  datatype CionRequest = CionRequest(proxy: Option<string>)

  /** What awaiting `ptc_join.get_join_tokens(...)` gives the handler. */
  datatype Call<T> = Returned(value: T) | Raised

  /** The handler's answer: the JSON list, or an `HTTPException` with its status. */
  datatype CionReply = Bundles(body: seq<CionResponse>) | HttpError(statusCode: int)

  /** The handler's decision, given the flag it reads and what the attempt
      would give it. */
  function CionReplyFor(busy: bool, call: Call<Option<CionResponse>>): (r: CionReply)
    ensures busy <==> r == HttpError(ServiceUnavailable)
    ensures !busy && call.Raised? ==> r == HttpError(InternalServerError)
    ensures !busy && call.Returned? ==> r.Bundles? && |r.body| <= 1
    ensures !busy && call.Returned? && call.value.Some? ==> r == Bundles([call.value.value])
    ensures !busy && call.Returned? && call.value.None? ==> r == Bundles([])
  {
    if busy then HttpError(ServiceUnavailable)
    else match call
      case Raised => HttpError(InternalServerError)
      case Returned(tokens) => if tokens.Some? then Bundles([tokens.value]) else Bundles([])
  }

  /** A busy handler ignores whatever the attempt would have given. */
  lemma BusyIgnoresAttempt(c1: Call<Option<CionResponse>>, c2: Call<Option<CionResponse>>)
    ensures CionReplyFor(true, c1) == CionReplyFor(true, c2)
  {
  }

  /** A successful reply is a list of zero or one bundle, and it is empty
      exactly when the attempt returned nothing. */
  lemma ReplyListsAtMostOne(busy: bool, call: Call<Option<CionResponse>>)
    ensures CionReplyFor(busy, call).Bundles? ==>
              call.Returned? && |CionReplyFor(busy, call).body| <= 1
              && (CionReplyFor(busy, call).body == [] <==> call.value.None?)
  {
  }

  /** The handler against a live broker. `PtcJoin.get_join_tokens` never
      raises, so the reply is a 503 or a list, never a 500. */
  method CionEndpoint(ptcJoin: PtcJoin, data: CionRequest, parse: ProxyParser, env: JoinEnv)
    returns (reply: CionReply)
    modifies ptcJoin`isRunning, ptcJoin`flagAtAttempt, ptcJoin.browser
    ensures ptcJoin.responses == old(ptcJoin.responses) && ptcJoin.lastCionCall == old(ptcJoin.lastCionCall)
    ensures old(ptcJoin.isRunning) ==>
              reply == HttpError(ServiceUnavailable) && unchanged(ptcJoin, ptcJoin.browser)
    ensures !old(ptcJoin.isRunning) ==>
              && !ptcJoin.isRunning
              && reply.Bundles? && |reply.body| <= 1
              && (parse(data.proxy).None? ==> reply == Bundles([]) && unchanged(ptcJoin.browser))
              && (parse(data.proxy).Some? ==>
                    var s := JoinState(old(ptcJoin.browser.firstRun), old(ptcJoin.browser.consecutiveFailures),
                                        old(ptcJoin.browser.running), false, 0);
                    var step := JoinAttempt(s, parse(data.proxy).value, env);
                    && reply == CionReplyFor(false, Returned(step.response))
                    && ptcJoin.browser.firstRun == step.after.firstRun
                    && ptcJoin.browser.consecutiveFailures == step.after.failures
                    && ptcJoin.browser.running == step.after.running)
  {
    if ptcJoin.isRunning {
      return HttpError(ServiceUnavailable);
    }
    var tokens := ptcJoin.GetJoinTokens(data.proxy, parse, env);
    reply := CionReplyFor(false, Returned(tokens));
  }
}
