/**
 * Fetching search results (lib/firecrawl.ts): one search request per source
 * with its status policy, the per-source wrapper that normalises what came
 * back, and the fold of the settled per-source outcomes into the lists and
 * flags the search route reads.
 *
 * The HTTP exchange is an input: each fetch is answered by an HttpReply
 * (a network failure, or a status with its body), so the request policy is
 * a deterministic function of the replies.
 */
module Firecrawl {
  import opened Basics
  import opened Host
  import opened Jobs
  import opened Logger

  /** extractResults: `data.web` when it is a non-empty array, else `results`
      when that is a non-empty array, else nothing. */
  function ExtractResults(data: FirecrawlResponse): (r: seq<FirecrawlResult>)
    ensures data.data.Some? && data.data.value.web.Some? && data.data.value.web.value != [] ==>
              r == data.data.value.web.value
    ensures !(data.data.Some? && data.data.value.web.Some? && data.data.value.web.value != []) ==>
              r == (if data.results.Some? then data.results.value else [])
  {
    if data.data.Some? && data.data.value.web.Some? && |data.data.value.web.value| > 0 then data.data.value.web.value
    else if data.results.Some? && |data.results.value| > 0 then data.results.value
    else []
  }

  /** The two envelopes are read alike: whichever of them holds results is
      returned, and an empty or missing `data.web` never hides `results`. */
  lemma EnvelopeShapes(web: seq<FirecrawlResult>, results: seq<FirecrawlResult>)
    ensures ExtractResults(FirecrawlResponse(Some(WebData(Some(web))), None)) == web
    ensures ExtractResults(FirecrawlResponse(None, Some(results))) == results
    ensures ExtractResults(FirecrawlResponse(Some(WebData(Some([]))), Some(results))) == results
    ensures ExtractResults(FirecrawlResponse(Some(WebData(None)), Some(results))) == results
    ensures ExtractResults(FirecrawlResponse(None, None)) == []
  {
  }

  // ---------------------------------------------------------------------------
  // firecrawlSearch

  /** What one fetch produced: the request failed, or a response with its
      status, its body as text ("" when that cannot be read) and its body
      decoded as JSON (an error message when it is not JSON). */
  datatype HttpReply =
    | NetworkError(message: string)
    | Response(status: int, text: string, json: Result<FirecrawlResponse>)

  /** `response.ok`: a status in the 200 range. */
  predicate IsOk(status: int) {
    200 <= status <= 299
  }

  predicate IsRateLimited(reply: HttpReply) {
    reply.Response? && reply.status == 429
  }

  /** What a search request ends in: the results, or the message of the
      error it throws. */
  datatype SearchOutcome = Found(results: seq<FirecrawlResult>) | Thrown(message: string)

  const MISSING_KEY: string := "FIRECRAWL_API_KEY not configured"
  const CREDITS_EXHAUSTED: string := "CREDITS_EXHAUSTED"

  /** The reply the status policy looks at: the retry's when the first one
      was a 429, the first one's otherwise. */
  function FinalReply(first: HttpReply, retry: HttpReply): HttpReply {
    if IsRateLimited(first) then retry else first
  }

  /** The number of fetches made: none without a key, two after a 429, one
      otherwise. */
  function RequestsMade(apiKey: string, first: HttpReply): nat {
    if apiKey == "" then 0 else if IsRateLimited(first) then 2 else 1
  }

  /** The outcome of firecrawlSearch: no key throws; otherwise the final
      reply decides: a network failure throws its message, 402 throws
      CREDITS_EXHAUSTED, any other status outside the 200 range throws
      "Firecrawl <status>", and a 200-range body that is not JSON throws its
      parse error. */
  function SearchResult(apiKey: string, first: HttpReply, retry: HttpReply): SearchOutcome {
    if apiKey == "" then Thrown(MISSING_KEY)
    else
      match FinalReply(first, retry)
      case NetworkError(m) => Thrown(m)
      case Response(status, _, json) =>
        if status == 402 then Thrown(CREDITS_EXHAUSTED)
        else if !IsOk(status) then Thrown("Firecrawl " + DecimalString(status))
        else if json.Err? then Thrown(json.message)
        else Found(ExtractResults(json.value))
  }

  function RequestLog(name: string, query: string): PipelineLog {
    PipelineLog("firecrawl_request", name, query, None, None, None, None, "", None)
  }

  function RetryLog(name: string): PipelineLog {
    PipelineLog("firecrawl_retry", name, "", None, None, None, None, "", None)
  }

  /** The error record of a failed status: "HTTP <status>: " and the first
      200 characters of the body. */
  function ErrorLog(name: string, status: int, text: string): PipelineLog {
    PipelineLog("firecrawl_error", name, "", None, None, None, None,
                "HTTP " + DecimalString(status) + ": " + Take(text, 200), None)
  }

  function ResponseLog(name: string, count: int, durationMs: int): PipelineLog {
    PipelineLog("firecrawl_response", name, "", Some(count), None, None, None, "", Some(durationMs))
  }

  /** The records firecrawlSearch adds to the log, in order. */
  function SearchLogs(apiKey: string, query: string, name: string, first: HttpReply, retry: HttpReply,
                      durationMs: int): seq<PipelineLog>
  {
    if apiKey == "" then []
    else
      [RequestLog(name, query)] +
      (if IsRateLimited(first) then [RetryLog(name)] else []) +
      match FinalReply(first, retry)
      case NetworkError(_) => []
      case Response(status, text, json) =>
        if status == 402 then []
        else if !IsOk(status) then [ErrorLog(name, status, text)]
        else if json.Err? then []
        else [ResponseLog(name, |ExtractResults(json.value)|, durationMs)]
  }

  /** firecrawlSearch: `first` answers the first fetch and `retry` the second
      one, made only after a 429; durationMs is the time the request took. */
  method FirecrawlSearch(apiKey: string, query: string, name: string, logger: PipelineLogger,
                         first: HttpReply, retry: HttpReply, durationMs: int)
    returns (outcome: SearchOutcome, requests: nat)
    modifies logger
    ensures outcome == SearchResult(apiKey, first, retry)
    ensures requests == RequestsMade(apiKey, first)
    ensures logger.logs == old(logger.logs) + SearchLogs(apiKey, query, name, first, retry, durationMs)
  {
    if apiKey == "" {
      return Thrown(MISSING_KEY), 0;
    }
    ghost var logs := SearchLogs(apiKey, query, name, first, retry, durationMs);
    ghost var start := old(logger.logs) + [RequestLog(name, query)];
    logger.Log(RequestLog(name, query));
    var response := first;
    requests := 1;
    if response.NetworkError? {
      assert old(logger.logs) + logs == start;
      return Thrown(response.message), requests;
    }
    if response.status == 429 {
      start := start + [RetryLog(name)];
      logger.Log(RetryLog(name));
      response := retry;
      requests := 2;
      if response.NetworkError? {
        assert old(logger.logs) + logs == start;
        return Thrown(response.message), requests;
      }
    }
    assert response == FinalReply(first, retry);
    if response.status == 402 {
      assert old(logger.logs) + logs == start;
      return Thrown(CREDITS_EXHAUSTED), requests;
    }
    if !IsOk(response.status) {
      assert old(logger.logs) + logs == start + [ErrorLog(name, response.status, response.text)];
      logger.Log(ErrorLog(name, response.status, response.text));
      return Thrown("Firecrawl " + DecimalString(response.status)), requests;
    }
    if response.json.Err? {
      assert old(logger.logs) + logs == start;
      return Thrown(response.json.message), requests;
    }
    var webResults := ExtractResults(response.json.value);
    assert old(logger.logs) + logs == start + [ResponseLog(name, |webResults|, durationMs)];
    logger.Log(ResponseLog(name, |webResults|, durationMs));
    return Found(webResults), requests;
  }

  /** Without a key nothing is fetched and nothing is logged. */
  lemma MissingKeyFetchesNothing(query: string, name: string, first: HttpReply, retry: HttpReply, durationMs: int)
    ensures SearchResult("", first, retry) == Thrown(MISSING_KEY)
    ensures RequestsMade("", first) == 0
    ensures SearchLogs("", query, name, first, retry, durationMs) == []
  {
  }

  /** A 429 is retried once and only once: at most two fetches are made, two
      exactly when the first reply is a 429, and a second 429 is an error. */
  lemma OneRetryAtMost(apiKey: string, first: HttpReply, retry: HttpReply)
    requires apiKey != ""
    ensures RequestsMade(apiKey, first) <= 2
    ensures RequestsMade(apiKey, first) == 2 <==> IsRateLimited(first)
    ensures IsRateLimited(first) && IsRateLimited(retry) ==>
              SearchResult(apiKey, first, retry) == Thrown("Firecrawl 429")
  {
    assert DecimalString(429) == "429" by {
      assert Digits(4, 10) == "4";
      assert Digits(42, 10) == "42";
    }
  }

  /** The status policy after the optional retry: 402 means the credits are
      exhausted, any other status outside the 200 range is a plain error, and
      the two are never confused. */
  lemma StatusPolicy(apiKey: string, first: HttpReply, retry: HttpReply)
    requires apiKey != "" && FinalReply(first, retry).Response?
    ensures FinalReply(first, retry).status == 402 ==> SearchResult(apiKey, first, retry) == Thrown(CREDITS_EXHAUSTED)
    ensures var s := FinalReply(first, retry).status;
            s != 402 && !IsOk(s) ==>
              SearchResult(apiKey, first, retry) == Thrown("Firecrawl " + DecimalString(s)) &&
              SearchResult(apiKey, first, retry) != Thrown(CREDITS_EXHAUSTED)
    ensures IsOk(FinalReply(first, retry).status) && FinalReply(first, retry).json.Ok? ==>
              SearchResult(apiKey, first, retry) == Found(ExtractResults(FinalReply(first, retry).json.value))
  {
    var s := FinalReply(first, retry).status;
    if s != 402 && !IsOk(s) {
      assert ("Firecrawl " + DecimalString(s))[0] == 'F';
    }
  }

  // ---------------------------------------------------------------------------
  // searchAllBoards: folding the settled outcomes

  /** The label of the discovery search among the settled outcomes. */
  const DISCOVERY_LABEL: string := "Discovery"

  /** The settled outcome of one source (a board, or the discovery search,
      settled last): its label, the listings it produced, and the message of
      the error it failed with (None for null; a failed source has no
      listings). */
  datatype Settled = Settled(board: string, results: seq<JobListing>, error: Option<string>)

  /** The lists and flags searchAllBoards returns. */
  datatype Aggregate = Aggregate(
    results: seq<JobListing>,
    boardsSucceeded: seq<string>,
    boardsFailed: seq<string>,
    discoveryIncluded: bool,
    creditsExhausted: bool)

  /** `if (result.error)`: an error message is only seen when it is not empty. */
  predicate HasError(s: Settled) {
    s.error.Some? && s.error.value != ""
  }

  /** One step of the loop over the settled outcomes. */
  function Step(a: Aggregate, s: Settled): Aggregate {
    if s.error == Some(CREDITS_EXHAUSTED) then
      a.(creditsExhausted := true, boardsFailed := a.boardsFailed + [s.board])
    else if HasError(s) then
      a.(boardsFailed := a.boardsFailed + [s.board])
    else if s.board == DISCOVERY_LABEL then
      a.(discoveryIncluded := true, results := a.results + s.results)
    else
      a.(boardsSucceeded := a.boardsSucceeded + [s.board], results := a.results + s.results)
  }

  /** The aggregate of the settled outcomes, folded in settled order. */
  function Fold(settled: seq<Settled>): Aggregate {
    if settled == [] then Aggregate([], [], [], false, false)
    else Step(Fold(settled[..|settled| - 1]), settled[|settled| - 1])
  }

  function AggregateLog(count: int): PipelineLog {
    PipelineLog("aggregate", "", "", Some(count), None, None, None, "", None)
  }

  /** The loop of searchAllBoards over the settled outcomes, then the
      aggregate record. */
  method SearchAllBoards(settled: seq<Settled>, logger: PipelineLogger) returns (r: Aggregate)
    modifies logger
    ensures r == Fold(settled)
    ensures logger.logs == old(logger.logs) + [AggregateLog(|r.results|)]
  {
    var boardsSucceeded: seq<string> := [];
    var boardsFailed: seq<string> := [];
    var discoveryIncluded := false;
    var creditsExhausted := false;
    var allResults: seq<JobListing> := [];
    for i := 0 to |settled|
      invariant Fold(settled[..i]) ==
                Aggregate(allResults, boardsSucceeded, boardsFailed, discoveryIncluded, creditsExhausted)
    {
      var result := settled[i];
      assert settled[..i + 1][..i] == settled[..i];
      if result.error == Some(CREDITS_EXHAUSTED) {
        creditsExhausted := true;
        boardsFailed := boardsFailed + [result.board];
        continue;
      }
      if result.error.Some? && result.error.value != "" {
        boardsFailed := boardsFailed + [result.board];
        continue;
      }
      if result.board == DISCOVERY_LABEL {
        discoveryIncluded := true;
      } else {
        boardsSucceeded := boardsSucceeded + [result.board];
      }
      allResults := allResults + result.results;
    }
    assert settled[..|settled|] == settled;
    logger.Log(AggregateLog(|allResults|));
    r := Aggregate(allResults, boardsSucceeded, boardsFailed, discoveryIncluded, creditsExhausted);
  }

  // ---------------------------------------------------------------------------
  // Properties of the fold

  /** The sources whose outcome is a success. */
  function Successes(settled: seq<Settled>): nat {
    if settled == [] then 0
    else Successes(settled[..|settled| - 1]) + (if HasError(settled[|settled| - 1]) then 0 else 1)
  }

  /** How many successful sources are labelled Discovery. */
  function DiscoverySuccesses(settled: seq<Settled>): nat {
    if settled == [] then 0
    else
      var s := settled[|settled| - 1];
      DiscoverySuccesses(settled[..|settled| - 1]) + (if !HasError(s) && s.board == DISCOVERY_LABEL then 1 else 0)
  }

  /** Every source lands in exactly one place: the failed list gets one entry
      per failure, the succeeded list one per other success, and the
      successes labelled Discovery only set the flag. */
  lemma {:induction false} EachSourceOnce(settled: seq<Settled>)
    ensures |Fold(settled).boardsFailed| == |settled| - Successes(settled)
    ensures |Fold(settled).boardsSucceeded| == Successes(settled) - DiscoverySuccesses(settled)
    ensures Fold(settled).discoveryIncluded <==> DiscoverySuccesses(settled) > 0
  {
    if settled != [] {
      EachSourceOnce(settled[..|settled| - 1]);
    }
  }

  /** A source goes to the failed list exactly when it reports an error, and
      otherwise to the succeeded list unless it is the discovery search. */
  lemma {:induction false} PlaceOfSource(settled: seq<Settled>, i: nat)
    requires i < |settled|
    ensures HasError(settled[i]) ==> settled[i].board in Fold(settled).boardsFailed
    ensures !HasError(settled[i]) && settled[i].board != DISCOVERY_LABEL ==>
              settled[i].board in Fold(settled).boardsSucceeded
    ensures !HasError(settled[i]) && settled[i].board == DISCOVERY_LABEL ==> Fold(settled).discoveryIncluded
  {
    var n := |settled| - 1;
    if i < n {
      assert settled[..n][i] == settled[i];
      PlaceOfSource(settled[..n], i);
    }
  }

  /** The credits flag is set exactly when some source failed with
      CREDITS_EXHAUSTED, and that source is then counted as failed. */
  lemma {:induction false} CreditsFlag(settled: seq<Settled>)
    ensures Fold(settled).creditsExhausted <==> exists i :: 0 <= i < |settled| && settled[i].error == Some(CREDITS_EXHAUSTED)
  {
    if settled != [] {
      var n := |settled| - 1;
      CreditsFlag(settled[..n]);
      if Fold(settled[..n]).creditsExhausted {
        var i :| 0 <= i < n && settled[..n][i].error == Some(CREDITS_EXHAUSTED);
        assert settled[i] == settled[..n][i];
      }
      if exists i :: 0 <= i < |settled| && settled[i].error == Some(CREDITS_EXHAUSTED) {
        var i :| 0 <= i < |settled| && settled[i].error == Some(CREDITS_EXHAUSTED);
        if i < n {
          assert settled[..n][i] == settled[i];
        }
      }
    }
  }

  /** "Discovery" never appears among the succeeded boards. */
  lemma {:induction false} DiscoveryNeverListed(settled: seq<Settled>)
    ensures DISCOVERY_LABEL !in Fold(settled).boardsSucceeded
  {
    if settled != [] {
      DiscoveryNeverListed(settled[..|settled| - 1]);
    }
  }

  /** The listings of the successful sources, concatenated in settled order. */
  function SuccessfulResults(settled: seq<Settled>): seq<JobListing> {
    if settled == [] then []
    else if HasError(settled[0]) then SuccessfulResults(settled[1..])
    else settled[0].results + SuccessfulResults(settled[1..])
  }

  /** The collected listings are those of the successful sources, in settled
      order; failed sources contribute nothing. */
  lemma {:induction false} ResultsOfSuccesses(settled: seq<Settled>)
    ensures Fold(settled).results == SuccessfulResults(settled)
  {
    if settled != [] {
      var n := |settled| - 1;
      ResultsOfSuccesses(settled[..n]);
      SuccessfulResultsSnoc(settled[..n], settled[n]);
      assert settled[..n] + [settled[n]] == settled;
    }
  }

  lemma {:induction false} SuccessfulResultsSnoc(settled: seq<Settled>, s: Settled)
    ensures SuccessfulResults(settled + [s]) == SuccessfulResults(settled) + (if HasError(s) then [] else s.results)
  {
    if settled != [] {
      assert (settled + [s])[1..] == settled[1..] + [s];
      SuccessfulResultsSnoc(settled[1..], s);
    } else {
      assert [s][1..] == [];
    }
  }

  /** Nothing succeeded, for the route's total-failure check, exactly when
      every source reported an error. */
  lemma AllFailedMeansEveryError(settled: seq<Settled>)
    ensures Fold(settled).boardsSucceeded == [] && !Fold(settled).discoveryIncluded <==>
            forall i :: 0 <= i < |settled| ==> HasError(settled[i])
  {
    forall i | 0 <= i < |settled|
      ensures !HasError(settled[i]) ==> Fold(settled).boardsSucceeded != [] || Fold(settled).discoveryIncluded
    {
      PlaceOfSource(settled, i);
    }
    if forall i :: 0 <= i < |settled| ==> HasError(settled[i]) {
      AllErrorsNoSuccess(settled);
      EachSourceOnce(settled);
    }
  }

  lemma {:induction false} AllErrorsNoSuccess(settled: seq<Settled>)
    requires forall i :: 0 <= i < |settled| ==> HasError(settled[i])
    ensures Successes(settled) == 0 && DiscoverySuccesses(settled) == 0
  {
    if settled != [] {
      var n := |settled| - 1;
      assert forall i :: 0 <= i < n ==> settled[..n][i] == settled[i];
      AllErrorsNoSuccess(settled[..n]);
    }
  }
}
