/** What get_transcript_with_retry promises about its calls and delays: how many of each, in
    which order, with which arguments, and which result comes back in each scenario. */
module RetryProperties {
  import opened Optional
  import opened Proxy
  import opened Collaborator
  import opened Retry

  /** Position `p` of the events of attempts `lo..hi`: calls and delays alternate, a delay
      standing before every attempt but attempt 0. */
  function EventAt(req: FetchRequest, rounds: seq<Round>, lo: nat, hi: nat, p: nat): Event
    requires lo < hi <= |rounds|
    requires p < 2 * (hi - lo)
  {
    if lo == 0 then
      (if p % 2 == 0 then CallFor(req, rounds[p / 2]) else Delay)
    else
      (if p % 2 == 0 then Delay else CallFor(req, rounds[lo + p / 2]))
  }

  /** The events of attempts `lo..hi`, position by position. */
  lemma {:induction false} TraceOfAt(req: FetchRequest, rounds: seq<Round>, lo: nat, hi: nat)
    requires lo < hi <= |rounds|
    ensures |TraceOf(req, rounds, lo, hi)| == 2 * (hi - lo) - (if lo == 0 then 1 else 0)
    ensures forall p :: 0 <= p < |TraceOf(req, rounds, lo, hi)| ==>
              TraceOf(req, rounds, lo, hi)[p] == EventAt(req, rounds, lo, hi, p)
    decreases hi - lo
  {
    var t := TraceOf(req, rounds, lo, hi);
    var head := AttemptEvents(req, rounds, lo);
    var tail := TraceOf(req, rounds, lo + 1, hi);
    assert t == head + tail;
    if lo + 1 < hi {
      TraceOfAt(req, rounds, lo + 1, hi);
      forall p | 0 <= p < |t|
        ensures t[p] == EventAt(req, rounds, lo, hi, p)
      {
        if p >= |head| {
          var q := p - |head|;
          assert t[p] == tail[q];
          assert tail[q] == EventAt(req, rounds, lo + 1, hi, q);
        }
      }
    }
  }

  /** The calls and delays of attempts `lo..hi`: one call per attempt, one delay per attempt
      other than attempt 0. */
  lemma {:induction false} TraceOfCounts(req: FetchRequest, rounds: seq<Round>, lo: nat, hi: nat)
    requires lo <= hi <= |rounds|
    ensures CallCount(TraceOf(req, rounds, lo, hi)) == hi - lo
    ensures DelayCount(TraceOf(req, rounds, lo, hi)) == if lo == 0 && lo < hi then hi - lo - 1 else hi - lo
    decreases hi - lo
  {
    if lo < hi {
      var head := AttemptEvents(req, rounds, lo);
      TraceOfCounts(req, rounds, lo + 1, hi);
      CountsAppend(head, TraceOf(req, rounds, lo + 1, hi));
      if lo > 0 {
        CountsAppend([Delay], [CallFor(req, rounds[lo])]);
      }
    }
  }

  /** The shape of every fetch's trace: as many calls as attempts made (never more than the
      budget), one delay fewer, calls at even positions carrying that attempt's arguments and
      proxy, delays at odd positions, each delay followed by the call of a retry. */
  lemma RetryTraceShape(req: FetchRequest, maxRetries: int, rounds: seq<Round>)
    requires maxRetries <= |rounds|
    ensures var r := GetTranscriptWithRetry(req, maxRetries, rounds);
            var n := AttemptsMade(rounds, maxRetries);
            && CallCount(r.trace) == n
            && DelayCount(r.trace) == (if n == 0 then 0 else n - 1)
            && |r.trace| == (if n == 0 then 0 else 2 * n - 1)
            && (forall p :: 0 <= p < |r.trace| && p % 2 == 0 ==> r.trace[p] == CallFor(req, rounds[p / 2]))
            && (forall p :: 0 <= p < |r.trace| && p % 2 == 1 ==> r.trace[p] == Delay)
            && (forall p :: 0 <= p < |r.trace| && r.trace[p].Delay? ==>
                  0 < p < |r.trace| - 1 && r.trace[p + 1] == CallFor(req, rounds[(p + 1) / 2]))
  {
    var r := GetTranscriptWithRetry(req, maxRetries, rounds);
    var n := AttemptsMade(rounds, maxRetries);
    var t := r.trace;
    assert t == TraceOf(req, rounds, 0, n);
    TraceOfCounts(req, rounds, 0, n);
    if n > 0 {
      TraceOfAt(req, rounds, 0, n);
      forall p | 0 <= p < |t|
        ensures t[p] == (if p % 2 == 0 then CallFor(req, rounds[p / 2]) else Delay)
      {
        assert t[p] == EventAt(req, rounds, 0, n, p);
      }
      forall p | 0 <= p < |t| && t[p].Delay?
        ensures 0 < p < |t| - 1 && t[p + 1] == CallFor(req, rounds[(p + 1) / 2])
      {
        assert p % 2 == 1;
        assert t[p + 1] == EventAt(req, rounds, 0, n, p + 1);
      }
    }
  }

  /** Every call forwards the video id unchanged, forwards the language list exactly when it is
      non-empty, and uses a proxy exactly when that attempt's environment yields one. */
  lemma CallsForwardRequest(req: FetchRequest, maxRetries: int, rounds: seq<Round>)
    requires maxRetries <= |rounds|
    ensures var r := GetTranscriptWithRetry(req, maxRetries, rounds);
            forall p :: 0 <= p < |r.trace| && r.trace[p].Call? ==>
              && p / 2 < |rounds|
              && r.trace[p].videoId == req.videoId
              && (r.trace[p].languages.Some? <==> req.languages.Some? && req.languages.value != [])
              && (r.trace[p].languages.Some? ==> r.trace[p].languages == req.languages)
              && (r.trace[p].proxy.Some? <==> !Blank(rounds[p / 2].env.httpProxy) || !Blank(rounds[p / 2].env.httpsProxy))
              && r.trace[p].proxy == GetProxyConfig(rounds[p / 2].env)
  {
    RetryTraceShape(req, maxRetries, rounds);
  }

  /** First attempt succeeds: one call, no delay, the transcript returned unchanged. */
  lemma FirstAttemptSucceeds(req: FetchRequest, maxRetries: int, rounds: seq<Round>)
    requires 1 <= maxRetries <= |rounds|
    requires rounds[0].response.Fetched?
    ensures GetTranscriptWithRetry(req, maxRetries, rounds)
            == Run(RetryResult(Some(rounds[0].response.transcript), None), [CallFor(req, rounds[0])])
  {
  }

  /** Attempts before `k` fail and attempt `k` succeeds within the budget: exactly `k + 1` calls
      and `k` delays, and the transcript of attempt `k` is returned with no error. */
  lemma SucceedsOnAttempt(req: FetchRequest, maxRetries: int, rounds: seq<Round>, k: nat)
    requires k < maxRetries <= |rounds|
    requires forall j :: 0 <= j < k ==> rounds[j].response.Raised?
    requires rounds[k].response.Fetched?
    ensures var r := GetTranscriptWithRetry(req, maxRetries, rounds);
            && r.result == RetryResult(Some(rounds[k].response.transcript), None)
            && CallCount(r.trace) == k + 1
            && DelayCount(r.trace) == k
  {
    assert FirstFetched(rounds, maxRetries) == k;
    RetryTraceShape(req, maxRetries, rounds);
  }

  /** Every attempt fails: exactly `maxRetries` calls and `maxRetries - 1` delays, and the error
      is the string of the last attempt's exception. */
  lemma AllAttemptsFail(req: FetchRequest, maxRetries: int, rounds: seq<Round>)
    requires 1 <= maxRetries <= |rounds|
    requires forall j :: 0 <= j < maxRetries ==> rounds[j].response.Raised?
    ensures var r := GetTranscriptWithRetry(req, maxRetries, rounds);
            && r.result == RetryResult(None, Some(rounds[maxRetries - 1].response.error.message))
            && CallCount(r.trace) == maxRetries
            && DelayCount(r.trace) == maxRetries - 1
  {
    assert FirstFetched(rounds, maxRetries) == maxRetries;
    RetryTraceShape(req, maxRetries, rounds);
  }

  /** A budget of one: exactly one call and no delay, whatever the response. */
  lemma SingleAttemptBudget(req: FetchRequest, rounds: seq<Round>)
    requires 1 <= |rounds|
    ensures var r := GetTranscriptWithRetry(req, 1, rounds);
            && r.trace == [CallFor(req, rounds[0])]
            && (rounds[0].response.Fetched? ==> r.result == RetryResult(Some(rounds[0].response.transcript), None))
            && (rounds[0].response.Raised? ==> r.result == RetryResult(None, Some(rounds[0].response.error.message)))
  {
  }

  /** The result does not depend on any response after the first success or beyond the budget. */
  lemma LaterRoundsIgnored(req: FetchRequest, maxRetries: int, rounds: seq<Round>, rounds': seq<Round>)
    requires maxRetries <= |rounds| && maxRetries <= |rounds'|
    requires 0 < maxRetries ==> rounds[..AttemptsMade(rounds, maxRetries)] == rounds'[..AttemptsMade(rounds, maxRetries)]
    ensures GetTranscriptWithRetry(req, maxRetries, rounds) == GetTranscriptWithRetry(req, maxRetries, rounds')
  {
    if maxRetries > 0 {
      var n := AttemptsMade(rounds, maxRetries);
      var k := FirstFetched(rounds, maxRetries);
      var k' := FirstFetched(rounds', maxRetries);
      assert forall j :: 0 <= j < n ==> rounds[j] == rounds'[j];
      assert k == k';
      TraceOfEqual(req, rounds, rounds', 0, n);
    }
  }

  /** Two oracles that agree on attempts `lo..hi` produce the same events there. */
  lemma {:induction false} TraceOfEqual(req: FetchRequest, rounds: seq<Round>, rounds': seq<Round>, lo: nat, hi: nat)
    requires lo <= hi <= |rounds| && hi <= |rounds'|
    requires forall j :: lo <= j < hi ==> rounds[j] == rounds'[j]
    ensures TraceOf(req, rounds, lo, hi) == TraceOf(req, rounds', lo, hi)
    decreases hi - lo
  {
    if lo < hi {
      TraceOfEqual(req, rounds, rounds', lo + 1, hi);
    }
  }
}
