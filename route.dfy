/**
 * The search endpoint (app/api/search/route.ts): gather the settled
 * per-source outcomes, answer with an error when credits ran out with
 * nothing found or when every source failed, and otherwise deduplicate,
 * classify and sort the listings newest first.
 *
 * The two model replies (for deduplication and for classification) and the
 * elapsed time are inputs; the request makes no other choice.
 */
module SearchRoute {
  import opened Basics
  import opened Host
  import opened Jobs
  import opened Logger
  import opened Sorting
  import Boards
  import Firecrawl
  import Dedup
  import Scope = RemoteScope
  import Filters

  /** An HTTP reply: its status and JSON body. */
  datatype Reply = Reply(status: int, body: SearchResponse)

  /** BOARDS.length + 1: the curated boards and the discovery search. */
  const SOURCES_SEARCHED: int := |Boards.BOARDS| + 1

  const CREDITS_MESSAGE: string := "Search limit reached for this month."
  const ALL_FAILED_MESSAGE: string := "Couldn't reach any job boards right now."
  const INTERNAL_MESSAGE: string := "An unexpected error occurred."

  /** The 402 reply when credits ran out and no listing was found. */
  function CreditsReply(a: Firecrawl.Aggregate): Reply {
    Reply(402, SearchResponse(false, [],
      Meta(0, SOURCES_SEARCHED, a.boardsSucceeded, a.boardsFailed, false, 0, UrlOnly),
      Some(ApiError("CREDITS_EXHAUSTED", CREDITS_MESSAGE))))
  }

  /** The 502 reply when no source succeeded. */
  function AllFailedReply(a: Firecrawl.Aggregate): Reply {
    Reply(502, SearchResponse(false, [],
      Meta(0, SOURCES_SEARCHED, [], a.boardsFailed, false, 0, UrlOnly),
      Some(ApiError("ALL_BOARDS_FAILED", ALL_FAILED_MESSAGE))))
  }

  /** The 500 reply of the catch clause. */
  const INTERNAL_ERROR_REPLY: Reply :=
    Reply(500, SearchResponse(false, [], Meta(0, 0, [], [], false, 0, UrlOnly),
      Some(ApiError("INTERNAL_ERROR", INTERNAL_MESSAGE))))

  /** Deduplication runs only on more than one listing; otherwise nothing is
      removed and the method is "url_only". */
  function DedupStage(jobs: seq<JobListing>, reply: Dedup.DedupReply): Dedup.DedupResult {
    if |jobs| > 1 then Dedup.Deduplicated(jobs, reply) else Dedup.DedupResult(jobs, 0, UrlOnly)
  }

  /** Classification runs only on a non-empty list. */
  function ClassifyStage(e: Engine, jobs: seq<JobListing>, reply: Scope.ClassifyReply): seq<JobListing> {
    if |jobs| > 0 then Scope.Classified(e, jobs, reply) else jobs
  }

  /** The 200 reply: the gathered listings deduplicated, classified and
      sorted newest first. */
  function SuccessReply(e: Engine, a: Firecrawl.Aggregate, dedupReply: Dedup.DedupReply,
                        classifyReply: Scope.ClassifyReply): Reply
  {
    var d := DedupStage(a.results, dedupReply);
    var sorted := SortBy(ClassifyStage(e, d.results, classifyReply), Filters.NewestFirst);
    Reply(200, SearchResponse(true, sorted,
      Meta(|sorted|, SOURCES_SEARCHED, a.boardsSucceeded, a.boardsFailed, a.discoveryIncluded,
           d.duplicatesRemoved, d.dedupMethod),
      None))
  }

  /** The reply of POST for the given settled outcomes and model replies:
      the credits error first, then the total-failure error, then success. */
  function SearchReply(e: Engine, settled: seq<Firecrawl.Settled>, dedupReply: Dedup.DedupReply,
                       classifyReply: Scope.ClassifyReply): Reply
  {
    Decide(e, Firecrawl.Fold(settled), dedupReply, classifyReply)
  }

  /** The reply for the gathered outcome of the sources. */
  function Decide(e: Engine, a: Firecrawl.Aggregate, dedupReply: Dedup.DedupReply,
                  classifyReply: Scope.ClassifyReply): Reply
  {
    if a.creditsExhausted && |a.results| == 0 then CreditsReply(a)
    else if a.boardsSucceeded == [] && !a.discoveryIncluded then AllFailedReply(a)
    else SuccessReply(e, a, dedupReply, classifyReply)
  }

  function PostScrapeLog(count: int): PipelineLog {
    PipelineLog("post_scrape", "", "", Some(count), None, None, None, "", None)
  }

  function DedupLog(before: int, after: int, removed: int): PipelineLog {
    PipelineLog("dedup", "", "", Some(before), Some(after), Some(removed), None, "", None)
  }

  function CompleteLog(count: int, durationMs: int): PipelineLog {
    PipelineLog("complete", "", "", None, Some(count), None, None, "", Some(durationMs))
  }

  /** The records a successful request logs after its sources: the
      aggregate and post_scrape records for `raw` listings, the dedup record
      when there was more than one, and the complete record for `count`
      listings. Classification and sorting keep the number of listings, so
      the count after deduplication is the final count. */
  function SuccessLogs(raw: int, removed: int, count: int, durationMs: int): seq<PipelineLog> {
    [Firecrawl.AggregateLog(raw), PostScrapeLog(raw)] +
    (if raw > 1 then [DedupLog(raw, count, removed)] else []) +
    [CompleteLog(count, durationMs)]
  }

  /** POST as the source runs it. `sourceLogs` are the records the
      per-source searches wrote into the request's logger while they ran
      (fetches, retries, normalisation drops), in the order they were
      written; `debug` is the flushed log a successful request attaches in
      development, None for an error reply; `dedupRan` and `classifyRan` say
      whether deduplicateJobs and classifyRemoteScope were called. */
  method Post(e: Engine, settled: seq<Firecrawl.Settled>, sourceLogs: seq<PipelineLog>,
              dedupReply: Dedup.DedupReply, classifyReply: Scope.ClassifyReply, durationMs: int)
    returns (reply: Reply, debug: Option<seq<PipelineLog>>, dedupRan: bool, classifyRan: bool)
    ensures reply == SearchReply(e, settled, dedupReply, classifyReply)
    ensures reply.status == 200 <==> debug.Some?
    ensures debug.Some? ==>
              debug.value == sourceLogs +
                             SuccessLogs(|Firecrawl.Fold(settled).results|, reply.body.meta.duplicatesRemoved,
                                         |reply.body.results|, durationMs)
    ensures dedupRan <==> reply.status == 200 && |Firecrawl.Fold(settled).results| > 1
    ensures classifyRan <==> reply.status == 200 && |reply.body.results| > 0
  {
    var logger := new PipelineLogger();
    for i := 0 to |sourceLogs|
      invariant logger.logs == sourceLogs[..i]
    {
      logger.Log(sourceLogs[i]);
    }
    assert sourceLogs[..|sourceLogs|] == sourceLogs;
    var a := Firecrawl.SearchAllBoards(settled, logger);
    logger.Log(PostScrapeLog(|a.results|));
    reply, debug, dedupRan, classifyRan := Respond(e, a, sourceLogs, dedupReply, classifyReply, durationMs, logger);
  }

  /** POST after the sources have been gathered and post_scrape logged: the
      reply for the aggregate, and the flushed log on success. */
  method Respond(e: Engine, a: Firecrawl.Aggregate, sourceLogs: seq<PipelineLog>, dedupReply: Dedup.DedupReply,
                 classifyReply: Scope.ClassifyReply, durationMs: int, logger: PipelineLogger)
    returns (reply: Reply, debug: Option<seq<PipelineLog>>, dedupRan: bool, classifyRan: bool)
    requires logger.logs == sourceLogs + [Firecrawl.AggregateLog(|a.results|), PostScrapeLog(|a.results|)]
    modifies logger
    ensures reply == Decide(e, a, dedupReply, classifyReply)
    ensures reply.status == 200 <==> debug.Some?
    ensures debug.Some? ==>
              debug.value == sourceLogs +
                             SuccessLogs(|a.results|, reply.body.meta.duplicatesRemoved, |reply.body.results|, durationMs)
    ensures dedupRan <==> reply.status == 200 && |a.results| > 1
    ensures classifyRan <==> reply.status == 200 && |reply.body.results| > 0
  {
    dedupRan, classifyRan := false, false;
    debug := None;
    if a.creditsExhausted && |a.results| == 0 {
      return CreditsReply(a), debug, dedupRan, classifyRan;
    }
    if a.boardsSucceeded == [] && !a.discoveryIncluded {
      return AllFailedReply(a), debug, dedupRan, classifyRan;
    }
    reply, dedupRan, classifyRan := Succeed(e, a, dedupReply, classifyReply, durationMs, logger);
    var logs := logger.Flush();
    SuccessLogsAfter(sourceLogs, |a.results|, reply.body.meta.duplicatesRemoved, |reply.body.results|, durationMs);
    debug := Some(logs);
  }

  /** The records logged on the success path, after the sources' own. */
  lemma SuccessLogsAfter(sourceLogs: seq<PipelineLog>, raw: int, removed: int, count: int, durationMs: int)
    ensures sourceLogs + [Firecrawl.AggregateLog(raw), PostScrapeLog(raw)] +
            (if raw > 1 then [DedupLog(raw, count, removed)] else []) + [CompleteLog(count, durationMs)] ==
            sourceLogs + SuccessLogs(raw, removed, count, durationMs)
  {
  }

  /** The success path of POST from the gathered listings on, with its
      dedup and complete records. */
  method Succeed(e: Engine, a: Firecrawl.Aggregate, dedupReply: Dedup.DedupReply,
                 classifyReply: Scope.ClassifyReply, durationMs: int, logger: PipelineLogger)
    returns (reply: Reply, dedupRan: bool, classifyRan: bool)
    modifies logger
    ensures reply == SuccessReply(e, a, dedupReply, classifyReply)
    ensures dedupRan <==> |a.results| > 1
    ensures classifyRan <==> |reply.body.results| > 0
    ensures logger.logs == old(logger.logs) +
              (if dedupRan then [DedupLog(|a.results|, |reply.body.results|, reply.body.meta.duplicatesRemoved)] else []) +
              [CompleteLog(|reply.body.results|, durationMs)]
  {
    var d;
    d, dedupRan := DedupStep(a.results, dedupReply, logger);
    var classified;
    classified, classifyRan := ClassifyStep(e, d.results, classifyReply);
    classified := SortBy(classified, Filters.NewestFirst);
    logger.Log(CompleteLog(|classified|, durationMs));
    reply := Reply(200, SearchResponse(true, classified,
      Meta(|classified|, SOURCES_SEARCHED, a.boardsSucceeded, a.boardsFailed, a.discoveryIncluded,
           d.duplicatesRemoved, d.dedupMethod),
      None));
  }

  /** The deduplication step of POST and its log record. */
  method DedupStep(jobs: seq<JobListing>, dedupReply: Dedup.DedupReply, logger: PipelineLogger)
    returns (d: Dedup.DedupResult, ran: bool)
    modifies logger
    ensures d == DedupStage(jobs, dedupReply)
    ensures ran <==> |jobs| > 1
    ensures logger.logs == old(logger.logs) + (if ran then [DedupLog(|jobs|, |d.results|, d.duplicatesRemoved)] else [])
  {
    var deduped := jobs;
    var duplicatesRemoved := 0;
    var dedupMethod := UrlOnly;
    ran := false;
    if |jobs| > 1 {
      var r := Dedup.DeduplicateJobs(jobs, dedupReply);
      ran := true;
      deduped, duplicatesRemoved, dedupMethod := r.results, r.duplicatesRemoved, r.dedupMethod;
      logger.Log(DedupLog(|jobs|, |deduped|, duplicatesRemoved));
    }
    d := Dedup.DedupResult(deduped, duplicatesRemoved, dedupMethod);
  }

  /** The classification step of POST. */
  method ClassifyStep(e: Engine, deduped: seq<JobListing>, classifyReply: Scope.ClassifyReply)
    returns (classified: seq<JobListing>, ran: bool)
    ensures classified == ClassifyStage(e, deduped, classifyReply)
    ensures |classified| == |deduped|
    ensures ran <==> |deduped| > 0
  {
    classified := deduped;
    ran := false;
    if |deduped| > 0 {
      var asked;
      classified, asked := Scope.ClassifyRemoteScope(e, deduped, classifyReply);
      ran := true;
    }
  }

  // ---------------------------------------------------------------------------
  // Properties of the reply

  /** When credits ran out and nothing was gathered the reply is the 402
      reply, whatever else failed: it is checked before the total-failure
      case. The meta echoes the boards and reports no discovery. */
  lemma CreditsErrorFirst(e: Engine, settled: seq<Firecrawl.Settled>, dedupReply: Dedup.DedupReply,
                          classifyReply: Scope.ClassifyReply)
    requires Firecrawl.Fold(settled).creditsExhausted && Firecrawl.Fold(settled).results == []
    ensures var r := SearchReply(e, settled, dedupReply, classifyReply);
            && r.status == 402 && !r.body.success && r.body.results == []
            && r.body.error == Some(ApiError("CREDITS_EXHAUSTED", CREDITS_MESSAGE))
            && r.body.meta.boardsSearched == 6
            && r.body.meta.boardsSucceeded == Firecrawl.Fold(settled).boardsSucceeded
            && r.body.meta.boardsFailed == Firecrawl.Fold(settled).boardsFailed
            && !r.body.meta.discoveryIncluded
  {
    Boards.BoardsWellFormed();
  }

  /** Credits ran out and nothing was gathered exactly when some source
      failed with CREDITS_EXHAUSTED and no source that succeeded brought a
      listing. */
  lemma CreditsWithNothingFound(settled: seq<Firecrawl.Settled>)
    ensures Firecrawl.Fold(settled).creditsExhausted && Firecrawl.Fold(settled).results == [] <==>
            (exists i :: 0 <= i < |settled| && settled[i].error == Some(Firecrawl.CREDITS_EXHAUSTED)) &&
            Firecrawl.SuccessfulResults(settled) == []
  {
    Firecrawl.CreditsFlag(settled);
    Firecrawl.ResultsOfSuccesses(settled);
  }

  /** With no credits failure, the reply is the 502 total-failure reply
      exactly when every source reported an error; it lists every board as
      failed and none as succeeded. */
  lemma AllFailedError(e: Engine, settled: seq<Firecrawl.Settled>, dedupReply: Dedup.DedupReply,
                       classifyReply: Scope.ClassifyReply)
    requires forall i :: 0 <= i < |settled| ==> settled[i].error != Some(Firecrawl.CREDITS_EXHAUSTED)
    ensures var r := SearchReply(e, settled, dedupReply, classifyReply);
            && (r.status == 502 <==> forall i :: 0 <= i < |settled| ==> Firecrawl.HasError(settled[i]))
            && (r.status == 502 ==>
                  && !r.body.success && r.body.results == []
                  && r.body.error == Some(ApiError("ALL_BOARDS_FAILED", ALL_FAILED_MESSAGE))
                  && r.body.meta.boardsSucceeded == []
                  && |r.body.meta.boardsFailed| == |settled|)
  {
    Firecrawl.CreditsFlag(settled);
    Firecrawl.AllFailedMeansEveryError(settled);
    Firecrawl.EachSourceOnce(settled);
    if forall i :: 0 <= i < |settled| ==> Firecrawl.HasError(settled[i]) {
      Firecrawl.AllErrorsNoSuccess(settled);
    }
  }

  /** Every reply is the 402 or 502 error or a 200 success; the catch
      clause's 500 reply is never produced, as no modelled step throws. A
      success echoes the gathered boards and counts its listings; an error
      carries no listing and removes nothing. */
  lemma ReplyKinds(e: Engine, settled: seq<Firecrawl.Settled>, dedupReply: Dedup.DedupReply,
                   classifyReply: Scope.ClassifyReply)
    ensures var r := SearchReply(e, settled, dedupReply, classifyReply);
            && (r.status == 200 || r.status == 402 || r.status == 502)
            && r != INTERNAL_ERROR_REPLY
            && (r.status == 200 <==> r.body.success)
            && (r.status == 200 <==> r.body.error.None?)
            && r.body.meta.boardsSearched == 6
            && r.body.meta.totalResults == |r.body.results|
            && r.body.meta.boardsFailed == Firecrawl.Fold(settled).boardsFailed
            && (r.status == 200 ==>
                  && r.body.meta.boardsSucceeded == Firecrawl.Fold(settled).boardsSucceeded
                  && r.body.meta.discoveryIncluded == Firecrawl.Fold(settled).discoveryIncluded)
            && (r.status != 200 ==>
                  r.body.results == [] && r.body.meta.duplicatesRemoved == 0 && r.body.meta.dedupMethod == UrlOnly)
  {
    Boards.BoardsWellFormed();
  }

  /** On success the count of duplicates is the drop from the gathered
      listings to the reply's, and the method is "llm" exactly when
      deduplication ran (more than one listing) and the model's groups were
      usable; with at most one listing nothing is removed. */
  lemma DuplicatesCount(e: Engine, settled: seq<Firecrawl.Settled>, dedupReply: Dedup.DedupReply,
                        classifyReply: Scope.ClassifyReply)
    requires SearchReply(e, settled, dedupReply, classifyReply).status == 200
    ensures var r := SearchReply(e, settled, dedupReply, classifyReply);
            && r.body.meta.duplicatesRemoved == |Firecrawl.Fold(settled).results| - |r.body.results|
            && (r.body.meta.dedupMethod == Llm <==> |Firecrawl.Fold(settled).results| > 1 && !Dedup.LlmFails(dedupReply))
            && (|Firecrawl.Fold(settled).results| <= 1 ==> r.body.meta.duplicatesRemoved == 0)
  {
    var a := Firecrawl.Fold(settled);
    var d := DedupStage(a.results, dedupReply);
    var c := ClassifyStage(e, d.results, classifyReply);
    assert |SortBy(c, Filters.NewestFirst)| == |c| by {
      assert multiset(SortBy(c, Filters.NewestFirst)) == multiset(c);
    }
  }

  /** Every listing of a success is a gathered listing, at most with the
      remote scope and countries the classifier set. */
  lemma ListingsFromSources(e: Engine, settled: seq<Firecrawl.Settled>, dedupReply: Dedup.DedupReply,
                            classifyReply: Scope.ClassifyReply)
    requires SearchReply(e, settled, dedupReply, classifyReply).status == 200
    ensures forall x :: x in SearchReply(e, settled, dedupReply, classifyReply).body.results ==>
              exists j :: j in Firecrawl.Fold(settled).results &&
                          x.(remoteScope := j.remoteScope, allowedCountries := j.allowedCountries) == j
  {
    var a := Firecrawl.Fold(settled);
    var d := DedupStage(a.results, dedupReply);
    var c := ClassifyStage(e, d.results, classifyReply);
    var r := SortBy(c, Filters.NewestFirst);
    assert multiset(d.results) <= multiset(a.results);
    forall x | x in r
      ensures exists j :: j in a.results && x.(remoteScope := j.remoteScope, allowedCountries := j.allowedCountries) == j
    {
      assert x in multiset(c);
      var i :| 0 <= i < |c| && c[i] == x;
      if |d.results| > 0 {
        Scope.ClassifyOnlyTouchesScope(e, d.results, classifyReply, i);
      }
      assert d.results[i] in multiset(d.results);
    }
  }

  /** When every gathered listing has a posting day a Date can hold, as
      normalisation guarantees, a success lists them newest first. */
  lemma NewestFirstReply(e: Engine, settled: seq<Firecrawl.Settled>, dedupReply: Dedup.DedupReply,
                         classifyReply: Scope.ClassifyReply)
    requires SearchReply(e, settled, dedupReply, classifyReply).status == 200
    requires forall j :: j in Firecrawl.SuccessfulResults(settled) ==> Filters.ValidDay(j)
    ensures var rs := SearchReply(e, settled, dedupReply, classifyReply).body.results;
            forall i, k :: 0 <= i < k < |rs| ==> rs[i].datePosted >= rs[k].datePosted
  {
    var a := Firecrawl.Fold(settled);
    Firecrawl.ResultsOfSuccesses(settled);
    var d := DedupStage(a.results, dedupReply);
    var c := ClassifyStage(e, d.results, classifyReply);
    var rs := SortBy(c, Filters.NewestFirst);
    ListingsFromSources(e, settled, dedupReply, classifyReply);
    forall x | x in c ensures Filters.ValidDay(x) {
      assert x in multiset(rs);
      var j :| j in a.results && x.(remoteScope := j.remoteScope, allowedCountries := j.allowedCountries) == j;
      assert x.datePosted == j.datePosted;
    }
    Filters.NewestFirstSorted(c);
  }
}
