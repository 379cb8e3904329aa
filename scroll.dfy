/** The scroll pagination of the download scripts, against a scripted server.

    The server is a finite list of attempts, consumed one per POST: an answer
    (status, `_scroll_id`, hits) or a transport failure (timeout, connection
    error); a POST past the end of the list fails to connect. The DELETE that
    clears the cursor consumes nothing, since its outcome is ignored. Every
    request the client sends is logged, so the properties talk about what
    reaches the server as well as what the client returns.

    Two variants: the newer company script retries each continuation up to
    three times and clears the cursor in a `finally`; the older company
    script and the financial-statements script do neither, and a transport
    failure there propagates out of `main`. */
module Scroll {
  import opened Json

  /** The `_scroll_id` of a reply: absent, JSON null, or a token. */
  datatype ScrollId = Absent | NullId | Id(token: string)

  datatype Reply = Reply(status: int, scrollId: ScrollId, hits: seq<Json>)

  datatype Attempt = Answered(reply: Reply) | Timeout | ConnectionError

  /** The first search, a continuation carrying a scroll id, or the cursor
      cleanup carrying a token. */
  datatype Request = Search | Continue(id: ScrollId) | Clear(token: string)

  /** `max_retries` */
  const MaxRetries: nat := 3

  function AttemptAt(script: seq<Attempt>, i: nat): Attempt {
    if i < |script| then script[i] else ConnectionError
  }

  /** `n` continuation requests carrying `id`. */
  function Continues(id: ScrollId, n: nat): (rs: seq<Request>)
    ensures |rs| == n
    ensures forall k :: 0 <= k < n ==> rs[k] == Continue(id)
  {
    seq(n, _ => Continue(id))
  }

  lemma ContinuesStep(id: ScrollId, n: nat)
    ensures Continues(id, n + 1) == Continues(id, n) + [Continue(id)]
  {
  }

  // ---------------------------------------------------------------------
  // The newer variant: retries and cleanup

  /** The retry loop from attempt `i` with `count` failures behind it: the
      reply it ends with, if any, and the next unused attempt. */
  function Retry(script: seq<Attempt>, i: nat, count: nat): (r: (Option<Reply>, nat))
    requires count < MaxRetries
    ensures i < r.1 <= i + MaxRetries - count
    ensures r.0.Some? ==> r.1 <= |script|
    decreases MaxRetries - count
  {
    match AttemptAt(script, i)
    case Answered(reply) => (Some(reply), i + 1)
    case _ => if count + 1 < MaxRetries then Retry(script, i + 1, count + 1) else (None, i + 1)
  }

  /** Where the page loop stops: the accumulated hits, the requests sent so
      far, and the last scroll id. */
  datatype LoopEnd = LoopEnd(results: seq<Json>, sent: seq<Request>, lastId: ScrollId)

  /** The page loop from attempt `i`, holding scroll id `id` and the last
      page `hits`: it asks for the next page while the last one was
      non-empty, and stops on a failed retry loop, a non-200 reply or a reply
      without `_scroll_id`, keeping what it has. */
  function Pages(script: seq<Attempt>, i: nat, id: ScrollId, hits: seq<Json>, acc: seq<Json>, sent: seq<Request>): LoopEnd
    requires i <= |script|
    decreases |script| - i
  {
    if |hits| == 0 then LoopEnd(acc, sent, id)
    else
      var outcome := Retry(script, i, 0);
      var sent' := sent + Continues(id, outcome.1 - i);
      if outcome.0.None? || outcome.0.value.status != 200 || outcome.0.value.scrollId.Absent? then
        LoopEnd(acc, sent', id)
      else
        var reply := outcome.0.value;
        Pages(script, outcome.1, reply.scrollId, reply.hits, acc + reply.hits, sent')
  }

  /** The `finally` block: the cleanup DELETE unless the scroll id is null. */
  function Cleanup(id: ScrollId): seq<Request> {
    if id.Id? then [Clear(id.token)] else []
  }

  datatype Session = Session(results: Option<seq<Json>>, requests: seq<Request>)

  /** A first answer that lets the scroll start: status 200 and a
      `_scroll_id` field. */
  predicate Starts(a: Attempt) {
    a.Answered? && a.reply.status == 200 && !a.reply.scrollId.Absent?
  }

  /** The whole download of the newer script. */
  function RetrySession(script: seq<Attempt>): Session {
    var first := AttemptAt(script, 0);
    if !Starts(first) then Session(None, [Search])
    else
      var end := Pages(script, 1, first.reply.scrollId, first.reply.hits, first.reply.hits, [Search]);
      Session(Some(end.results), end.sent + Cleanup(end.lastId))
  }

  /** The request loop of the newer company script's `main`: the first
      search, the continuation loop with its inner retry loop, and the cursor
      cleanup in the `finally` block. */
  method ScrollWithRetry(script: seq<Attempt>) returns (results: Option<seq<Json>>, requests: seq<Request>)
    ensures Session(results, requests) == RetrySession(script)
  {
    requests := [Search];
    var first := AttemptAt(script, 0);
    if !first.Answered? {
      return None, requests;
    }
    var response := first.reply;
    if response.status != 200 {
      return None, requests;
    }
    if response.scrollId.Absent? {
      return None, requests;
    }
    var scrollId := response.scrollId;
    var hits := response.hits;
    var allResults := hits;
    var next := 1;
    while |hits| > 0
      invariant next <= |script|
      invariant Pages(script, next, scrollId, hits, allResults, requests)
             == Pages(script, 1, response.scrollId, response.hits, response.hits, [Search])
      decreases |script| - next
    {
      var scrollResponse: Option<Reply> := None;
      var retryCount := 0;
      ghost var start := next;
      ghost var before := requests;
      ghost var pending := Pages(script, next, scrollId, hits, allResults, requests);
      while retryCount < MaxRetries
        invariant start <= next && retryCount < MaxRetries
        invariant Retry(script, next, retryCount) == Retry(script, start, 0)
        invariant requests == before + Continues(scrollId, next - start)
        decreases MaxRetries - retryCount
      {
        var attempt := AttemptAt(script, next);
        ContinuesStep(scrollId, next - start);
        requests := requests + [Continue(scrollId)];
        next := next + 1;
        if attempt.Answered? {
          scrollResponse := Some(attempt.reply);
          assert Retry(script, start, 0) == (scrollResponse, next);
          assert requests == before + Continues(scrollId, next - start);
          break;
        }
        retryCount := retryCount + 1;
        if retryCount >= MaxRetries {
          assert Retry(script, start, 0) == (scrollResponse, next);
          assert requests == before + Continues(scrollId, next - start);
          break;
        }
      }
      assert Retry(script, start, 0) == (scrollResponse, next);
      assert requests == before + Continues(scrollId, next - start);
      if scrollResponse.None? || scrollResponse.value.status != 200 {
        assert pending == LoopEnd(allResults, requests, scrollId);
        break;
      }
      if scrollResponse.value.scrollId.Absent? {
        assert pending == LoopEnd(allResults, requests, scrollId);
        break;
      }
      var reply := scrollResponse.value;
      assert pending == Pages(script, next, reply.scrollId, reply.hits, allResults + reply.hits, requests);
      scrollId := reply.scrollId;
      hits := reply.hits;
      allResults := allResults + hits;
      assert pending == Pages(script, next, scrollId, hits, allResults, requests);
    }
    if scrollId.Id? {
      requests := requests + [Clear(scrollId.token)];
    }
    results := Some(allResults);
  }

  // ---------------------------------------------------------------------
  // Properties of the newer variant

  /** Each continuation is attempted at most three times and only a
      transport failure is retried: the loop stops at the first answer,
      whatever its status, and gives up after three failures in a row. */
  lemma RetryBound(script: seq<Attempt>, i: nat)
    ensures var r := Retry(script, i, 0);
      r.1 - i <= MaxRetries
      && (r.0.None? <==> forall k :: i <= k < i + MaxRetries ==> !AttemptAt(script, k).Answered?)
      && (r.0.None? ==> r.1 == i + MaxRetries)
      && (r.0.Some? ==> AttemptAt(script, r.1 - 1) == Answered(r.0.value)
                        && forall k :: i <= k < r.1 - 1 ==> !AttemptAt(script, k).Answered?)
  {
  }

  /** A first search that fails to connect, times out, is answered with a
      status other than 200, or has no `_scroll_id` gives no result; nothing
      else is sent, not even a cleanup. */
  lemma RetryInitialFailure(script: seq<Attempt>)
    requires !Starts(AttemptAt(script, 0))
    ensures RetrySession(script) == Session(None, [Search])
  {
  }

  predicate NoClear(rs: seq<Request>) {
    forall k :: 0 <= k < |rs| ==> !rs[k].Clear?
  }

  lemma {:induction false} PagesSendNoClear(script: seq<Attempt>, i: nat, id: ScrollId, hits: seq<Json>, acc: seq<Json>, sent: seq<Request>)
    requires i <= |script| && NoClear(sent)
    ensures NoClear(Pages(script, i, id, hits, acc, sent).sent)
    ensures |sent| <= |Pages(script, i, id, hits, acc, sent).sent|
    ensures Pages(script, i, id, hits, acc, sent).sent[..|sent|] == sent
    decreases |script| - i
  {
    if |hits| > 0 {
      var outcome := Retry(script, i, 0);
      var sent' := sent + Continues(id, outcome.1 - i);
      assert NoClear(sent');
      if !(outcome.0.None? || outcome.0.value.status != 200 || outcome.0.value.scrollId.Absent?) {
        var reply := outcome.0.value;
        PagesSendNoClear(script, outcome.1, reply.scrollId, reply.hits, acc + reply.hits, sent');
        assert sent'[..|sent|] == sent;
      }
    }
  }

  /** On every path that gets past the first search, the cursor is cleared
      exactly once, as the very last request, with the scroll id the loop
      ended with, unless that id is null; no other request clears. */
  lemma CleanupOnEveryExit(script: seq<Attempt>)
    ensures var s := RetrySession(script);
      s.results.None? ==> NoClear(s.requests)
    ensures var s := RetrySession(script);
      var first := AttemptAt(script, 0);
      s.results.Some? ==>
        var end := Pages(script, 1, first.reply.scrollId, first.reply.hits, first.reply.hits, [Search]);
        NoClear(end.sent) && s.requests == end.sent + Cleanup(end.lastId)
        && (end.lastId.Id? ==> s.requests[|s.requests| - 1] == Clear(end.lastId.token))
  {
    var first := AttemptAt(script, 0);
    if Starts(first) {
      PagesSendNoClear(script, 1, first.reply.scrollId, first.reply.hits, first.reply.hits, [Search]);
    }
  }

  /** A page that keeps the loop going: status 200, a scroll token and at
      least one hit. */
  predicate GoodPage(a: Attempt) {
    a.Answered? && a.reply.status == 200 && a.reply.scrollId.Id? && |a.reply.hits| > 0
  }

  /** The first `n` attempts are all good pages. */
  predicate GoodPages(script: seq<Attempt>, n: nat) {
    n <= |script| && forall k :: 0 <= k < n ==> GoodPage(script[k])
  }

  /** The hits of the first `n` attempts, in order. */
  function AllHits(script: seq<Attempt>, n: nat): seq<Json>
    requires GoodPages(script, n)
  {
    if n == 0 then [] else AllHits(script, n - 1) + script[n - 1].reply.hits
  }

  /** The continuation requests a run of good pages causes: the k-th carries
      the scroll id of page k. */
  function ContinuesOf(script: seq<Attempt>, n: nat): (rs: seq<Request>)
    requires GoodPages(script, n)
    ensures |rs| == n
  {
    seq(n, k requires 0 <= k < n => Continue(script[k].reply.scrollId))
  }

  /** Over a run of good pages the loop asks once per page, each time with
      the scroll id the previous page returned, and accumulates the pages in
      order. */
  lemma {:induction false} RetryGoodRun(script: seq<Attempt>, n: nat)
    requires 1 <= n && GoodPages(script, n)
    ensures Pages(script, 1, script[0].reply.scrollId, script[0].reply.hits, script[0].reply.hits, [Search])
         == Pages(script, n, script[n - 1].reply.scrollId, script[n - 1].reply.hits, AllHits(script, n),
                  [Search] + ContinuesOf(script, n - 1))
  {
    if n == 1 {
      assert AllHits(script, 1) == script[0].reply.hits;
      assert [Search] + ContinuesOf(script, 0) == [Search];
    } else {
      RetryGoodRun(script, n - 1);
      var prev := script[n - 2].reply;
      assert Retry(script, n - 1, 0) == (Some(script[n - 1].reply), n);
      assert [Search] + ContinuesOf(script, n - 2) + Continues(prev.scrollId, 1) == [Search] + ContinuesOf(script, n - 1);
    }
  }

  /** A server that returns `n` non-empty pages and then an empty one: the
      result is all the pages in order, every continuation carries the
      latest scroll id, and the last request clears the final cursor. */
  lemma RetryWellBehavedServer(script: seq<Attempt>, n: nat, t: string)
    requires 1 <= n < |script| && GoodPages(script, n)
    requires script[n] == Answered(Reply(200, Id(t), []))
    ensures RetrySession(script) == Session(Some(AllHits(script, n)), [Search] + ContinuesOf(script, n) + [Clear(t)])
  {
    RetryGoodRun(script, n);
    var last := script[n - 1].reply;
    var sent := [Search] + ContinuesOf(script, n - 1);
    var sent' := sent + Continues(last.scrollId, 1);
    assert Retry(script, n, 0) == (Some(script[n].reply), n + 1);
    assert sent' == [Search] + ContinuesOf(script, n);
    assert AllHits(script, n) + [] == AllHits(script, n);
    assert Pages(script, n + 1, Id(t), [], AllHits(script, n), sent') == LoopEnd(AllHits(script, n), sent', Id(t));
    assert Pages(script, n, last.scrollId, last.hits, AllHits(script, n), sent)
        == LoopEnd(AllHits(script, n), sent', Id(t));
  }

  /** A page that stops the loop: a non-200 answer, an answer without
      `_scroll_id`, or three transport failures in a row. */
  predicate StopsAt(script: seq<Attempt>, n: nat) {
    var a := AttemptAt(script, n);
    if a.Answered? then a.reply.status != 200 || a.reply.scrollId.Absent?
    else forall k :: n <= k < n + MaxRetries ==> !AttemptAt(script, k).Answered?
  }

  /** A failure after `n` good pages, whether a bad status, a missing
      `_scroll_id` or exhausted retries, halts the loop without a fault: the
      `n` pages are kept, nothing more is asked for, and the cursor of the
      last good page is cleared exactly once, at the end. */
  lemma RetryStopsMidStream(script: seq<Attempt>, n: nat)
    requires 1 <= n && GoodPages(script, n) && StopsAt(script, n)
    ensures var tries := if AttemptAt(script, n).Answered? then 1 else MaxRetries;
      var last := script[n - 1].reply.scrollId;
      RetrySession(script) == Session(Some(AllHits(script, n)),
        [Search] + ContinuesOf(script, n - 1) + Continues(last, tries) + [Clear(last.token)])
  {
    RetryGoodRun(script, n);
    RetryBound(script, n);
    if !AttemptAt(script, n).Answered? {
      assert !AttemptAt(script, n + 1).Answered? && !AttemptAt(script, n + 2).Answered?;
    }
  }

  // ---------------------------------------------------------------------
  // The plain variant: no retries, no cleanup

  /** How the plain loop ends: a transport failure raised out of `main`, no
      data (`return None`), or the accumulated hits. */
  datatype Fetch = Raised | NoData | Fetched(results: seq<Json>)

  datatype PlainSession = PlainSession(fetch: Fetch, requests: seq<Request>)

  /** The plain page loop: one request per page, stopping on an empty page,
      a non-200 reply or a reply without `_scroll_id`. */
  function PlainPages(script: seq<Attempt>, i: nat, id: ScrollId, hits: seq<Json>, acc: seq<Json>, sent: seq<Request>): PlainSession
    requires i <= |script|
    decreases |script| - i
  {
    if |hits| == 0 then PlainSession(Fetched(acc), sent)
    else
      var sent' := sent + [Continue(id)];
      var a := AttemptAt(script, i);
      if !a.Answered? then PlainSession(Raised, sent')
      else if a.reply.status != 200 || a.reply.scrollId.Absent? then PlainSession(Fetched(acc), sent')
      else PlainPages(script, i + 1, a.reply.scrollId, a.reply.hits, acc + a.reply.hits, sent')
  }

  /** The whole download of the older company script and of the
      financial-statements script. */
  function PlainScrollSession(script: seq<Attempt>): PlainSession {
    var first := AttemptAt(script, 0);
    if !first.Answered? then PlainSession(Raised, [Search])
    else if !Starts(first) then PlainSession(NoData, [Search])
    else PlainPages(script, 1, first.reply.scrollId, first.reply.hits, first.reply.hits, [Search])
  }

  /** The request loop of the older company script's and the
      financial-statements script's `main`. */
  method PlainScroll(script: seq<Attempt>) returns (fetch: Fetch, requests: seq<Request>)
    ensures PlainSession(fetch, requests) == PlainScrollSession(script)
  {
    requests := [Search];
    var response := AttemptAt(script, 0);
    if !response.Answered? {
      return Raised, requests;
    }
    if response.reply.status != 200 {
      return NoData, requests;
    }
    if response.reply.scrollId.Absent? {
      return NoData, requests;
    }
    var scrollId := response.reply.scrollId;
    var hits := response.reply.hits;
    var allResults := hits;
    var next := 1;
    while |hits| > 0
      invariant next <= |script|
      invariant PlainPages(script, next, scrollId, hits, allResults, requests) == PlainScrollSession(script)
      decreases |script| - next
    {
      var scrollResponse := AttemptAt(script, next);
      requests := requests + [Continue(scrollId)];
      if !scrollResponse.Answered? {
        return Raised, requests;
      }
      next := next + 1;
      if scrollResponse.reply.status != 200 {
        break;
      }
      if scrollResponse.reply.scrollId.Absent? {
        break;
      }
      scrollId := scrollResponse.reply.scrollId;
      hits := scrollResponse.reply.hits;
      allResults := allResults + hits;
    }
    fetch := Fetched(allResults);
  }

  // ---------------------------------------------------------------------
  // Properties of the plain variant

  lemma {:induction false} PlainPagesNoClear(script: seq<Attempt>, i: nat, id: ScrollId, hits: seq<Json>, acc: seq<Json>, sent: seq<Request>)
    requires i <= |script| && NoClear(sent)
    ensures NoClear(PlainPages(script, i, id, hits, acc, sent).requests)
    ensures |PlainPages(script, i, id, hits, acc, sent).requests| <= |sent| + (|script| - i) + 1
    ensures !PlainPages(script, i, id, hits, acc, sent).fetch.NoData?
    decreases |script| - i
  {
    if |hits| > 0 {
      var a := AttemptAt(script, i);
      if a.Answered? && a.reply.status == 200 && !a.reply.scrollId.Absent? {
        PlainPagesNoClear(script, i + 1, a.reply.scrollId, a.reply.hits, acc + a.reply.hits, sent + [Continue(id)]);
      }
    }
  }

  /** The plain loop never clears its cursor and never retries: it sends at
      most one request per scripted attempt, plus one past the end. It gives
      up without data only when the first search is answered without a
      usable scroll id. */
  lemma PlainNeverClears(script: seq<Attempt>)
    ensures NoClear(PlainScrollSession(script).requests)
    ensures |PlainScrollSession(script).requests| <= |script| + 1
    ensures PlainScrollSession(script).fetch.NoData?
        <==> AttemptAt(script, 0).Answered? && !Starts(AttemptAt(script, 0))
  {
    var first := AttemptAt(script, 0);
    if Starts(first) {
      PlainPagesNoClear(script, 1, first.reply.scrollId, first.reply.hits, first.reply.hits, [Search]);
    }
  }

  lemma {:induction false} PlainGoodRun(script: seq<Attempt>, n: nat)
    requires 1 <= n && GoodPages(script, n)
    ensures PlainPages(script, 1, script[0].reply.scrollId, script[0].reply.hits, script[0].reply.hits, [Search])
         == PlainPages(script, n, script[n - 1].reply.scrollId, script[n - 1].reply.hits, AllHits(script, n),
                       [Search] + ContinuesOf(script, n - 1))
  {
    if n == 1 {
      assert AllHits(script, 1) == script[0].reply.hits;
      assert [Search] + ContinuesOf(script, 0) == [Search];
    } else {
      PlainGoodRun(script, n - 1);
      assert [Search] + ContinuesOf(script, n - 2) + [Continue(script[n - 2].reply.scrollId)]
          == [Search] + ContinuesOf(script, n - 1);
    }
  }

  /** After `n` good pages the plain loop stops on an empty page, a non-200
      reply or a missing `_scroll_id` and keeps the `n` pages in order; a
      transport failure instead raises, losing them. */
  lemma PlainStops(script: seq<Attempt>, n: nat)
    requires 1 <= n && GoodPages(script, n)
    requires var a := AttemptAt(script, n);
      !a.Answered? || a.reply.status != 200 || a.reply.scrollId.Absent? || a.reply.hits == []
    ensures var a := AttemptAt(script, n);
      var requests := [Search] + ContinuesOf(script, n);
      PlainScrollSession(script) ==
        if !a.Answered? then PlainSession(Raised, requests)
        else PlainSession(Fetched(AllHits(script, n)), requests)
  {
    PlainGoodRun(script, n);
    var last := script[n - 1].reply;
    var a := AttemptAt(script, n);
    var sent := [Search] + ContinuesOf(script, n - 1);
    assert sent + [Continue(last.scrollId)] == [Search] + ContinuesOf(script, n);
    if a.Answered? && a.reply.status == 200 && !a.reply.scrollId.Absent? {
      assert AllHits(script, n) + a.reply.hits == AllHits(script, n);
      assert PlainPages(script, n + 1, a.reply.scrollId, a.reply.hits, AllHits(script, n), [Search] + ContinuesOf(script, n))
          == PlainSession(Fetched(AllHits(script, n)), [Search] + ContinuesOf(script, n));
    }
  }
}
