/** The retry orchestration of the enhanced service (app.py, get_transcript_with_retry).

    The library call is an oracle: `rounds[i]` is what the world looks like during attempt `i`,
    namely the proxy environment as read at that attempt and the library's response. The model
    returns the Python result pair together with the trace of calls and delays it produced.

    The state machine START -> ATTEMPTING(i) -> {SUCCESS, ATTEMPTING(i+1), FAILED} is `RunFrom`;
    `RetryLoop` is the same operation as the for-loop with early returns that the source writes.
    Both are proved equal to a closed-form reference: the first fetched transcript among the
    first `maxRetries` responses, otherwise the last attempt's error, with one call per attempt
    made and one delay before every attempt but the first. */
module Retry {
  import opened Optional
  import opened Proxy
  import opened Collaborator

  /** The default retry budget of get_transcript_with_retry. */
  const DefaultMaxRetries: int := 3

  /** The error text of the fallback return after the loop. */
  const MaxRetriesExceeded: string := "Max retries exceeded"

  /** The arguments of one fetch: the video id and the optional language preference list. */
  datatype FetchRequest = FetchRequest(videoId: string, languages: Option<seq<string>>)

  /** The environment and the library's response during one attempt. */
  datatype Round = Round(env: Environment, response: Response)

  /** The Python pair `(transcript, error)`; None stands for Python's None. */
  datatype RetryResult = RetryResult(transcript: Option<Transcript>, error: Option<string>)

  /** A finished fetch: its result pair and the events it produced, in order. */
  datatype Run = Run(result: RetryResult, trace: seq<Event>)

  /** The language argument of the library call: `if languages:` treats None and the empty
      list alike, and then the call is made without a language argument. */
  function ForwardedLanguages(languages: Option<seq<string>>): (r: Option<seq<string>>)
    ensures r.Some? <==> languages.Some? && |languages.value| > 0
    ensures r.Some? ==> r.value == languages.value
  {
    match languages
    case Some(ls) => if ls == [] then None else languages
    case None => None
  }

  /** The library call of one attempt, with the proxy resolved afresh from that attempt's environment. */
  function CallFor(req: FetchRequest, round: Round): Event {
    Call(req.videoId, ForwardedLanguages(req.languages), GetProxyConfig(round.env))
  }

  /** The events of attempt `i`: a delay unless it is the first attempt, then the call. */
  function AttemptEvents(req: FetchRequest, rounds: seq<Round>, i: nat): seq<Event>
    requires i < |rounds|
  {
    (if i > 0 then [Delay] else []) + [CallFor(req, rounds[i])]
  }

  /** The events of attempts `lo` up to (not including) `hi`. */
  function TraceOf(req: FetchRequest, rounds: seq<Round>, lo: nat, hi: nat): seq<Event>
    requires lo <= hi <= |rounds|
    decreases hi - lo
  {
    if lo == hi then [] else AttemptEvents(req, rounds, lo) + TraceOf(req, rounds, lo + 1, hi)
  }

  /** The events of the first `n` attempts. */
  function Trace(req: FetchRequest, rounds: seq<Round>, n: nat): seq<Event>
    requires n <= |rounds|
  {
    TraceOf(req, rounds, 0, n)
  }

  /** The index of the first fetched transcript among the first `n` responses, or `n` if all raised. */
  function FirstFetched(rounds: seq<Round>, n: nat): (k: nat)
    requires n <= |rounds|
    ensures k <= n
    ensures k < n ==> rounds[k].response.Fetched?
    ensures forall j :: 0 <= j < k ==> rounds[j].response.Raised?
  {
    if n == 0 then 0
    else
      var k := FirstFetched(rounds, n - 1);
      if k < n - 1 then k
      else if rounds[n - 1].response.Fetched? then n - 1
      else n
  }

  /** How many attempts a fetch with budget `maxRetries` makes: up to and including the first
      success, all of them when every attempt fails, none when the budget is not positive. */
  function AttemptsMade(rounds: seq<Round>, maxRetries: int): (n: nat)
    requires maxRetries <= |rounds|
    ensures maxRetries <= 0 ==> n == 0
    ensures maxRetries > 0 ==> 1 <= n <= maxRetries
  {
    if maxRetries <= 0 then 0
    else
      var k := FirstFetched(rounds, maxRetries);
      if k < maxRetries then k + 1 else maxRetries
  }

  /** The reference result: the first fetched transcript with no error; otherwise the string of
      the last attempt's error; with no attempt at all, the fallback message. */
  function ExpectedResult(rounds: seq<Round>, maxRetries: int): RetryResult
    requires maxRetries <= |rounds|
  {
    if maxRetries <= 0 then RetryResult(None, Some(MaxRetriesExceeded))
    else
      var k := FirstFetched(rounds, maxRetries);
      if k < maxRetries then RetryResult(Some(rounds[k].response.transcript), None)
      else RetryResult(None, Some(rounds[maxRetries - 1].response.error.message))
  }

  /** State ATTEMPTING(attempt): every earlier attempt raised, and the state is reached only
      from START (attempt 0) or from a failed attempt that was not the last one. */
  function RunFrom(req: FetchRequest, maxRetries: int, rounds: seq<Round>, attempt: nat): (r: Run)
    requires maxRetries <= |rounds|
    requires attempt == 0 || attempt < maxRetries
    requires forall j :: 0 <= j < attempt ==> rounds[j].response.Raised?
    ensures r.result == ExpectedResult(rounds, maxRetries)
    ensures attempt <= AttemptsMade(rounds, maxRetries)
    ensures r.trace == TraceOf(req, rounds, attempt, AttemptsMade(rounds, maxRetries))
    decreases |rounds| - attempt
  {
    if attempt >= maxRetries then
      Run(RetryResult(None, Some(MaxRetriesExceeded)), [])
    else
      var events := AttemptEvents(req, rounds, attempt);
      match rounds[attempt].response
      case Fetched(t) => Run(RetryResult(Some(t), None), events)
      case Raised(e) =>
        if attempt == maxRetries - 1 then
          Run(RetryResult(None, Some(e.message)), events)
        else
          var rest := RunFrom(req, maxRetries, rounds, attempt + 1);
          Run(rest.result, events + rest.trace)
  }

  /** get_transcript_with_retry: the result agrees with the reference, exactly one half of the
      pair is present, and the trace holds exactly the attempts made. */
  function GetTranscriptWithRetry(req: FetchRequest, maxRetries: int, rounds: seq<Round>): (r: Run)
    requires maxRetries <= |rounds|
    ensures r.result == ExpectedResult(rounds, maxRetries)
    ensures r.trace == Trace(req, rounds, AttemptsMade(rounds, maxRetries))
    ensures r.result.transcript.Some? != r.result.error.Some?
    ensures maxRetries <= 0 ==> r == Run(RetryResult(None, Some(MaxRetriesExceeded)), [])
  {
    RunFrom(req, maxRetries, rounds, 0)
  }

  /** Extending the attempts by one appends that attempt's events. */
  lemma {:induction false} TraceOfSnoc(req: FetchRequest, rounds: seq<Round>, lo: nat, hi: nat)
    requires lo <= hi < |rounds|
    ensures TraceOf(req, rounds, lo, hi + 1) == TraceOf(req, rounds, lo, hi) + AttemptEvents(req, rounds, hi)
    decreases hi - lo
  {
    if lo < hi {
      TraceOfSnoc(req, rounds, lo + 1, hi);
    }
  }

  /** The for-loop of the source: attempt after attempt, returning at the first success or at the
      last attempt's failure; the fallback return after the loop is reached only when the loop
      body never runs. */
  method RetryLoop(req: FetchRequest, maxRetries: int, rounds: seq<Round>)
    returns (result: RetryResult, trace: seq<Event>)
    requires maxRetries <= |rounds|
    ensures result == ExpectedResult(rounds, maxRetries)
    ensures trace == Trace(req, rounds, AttemptsMade(rounds, maxRetries))
  {
    trace := [];
    var attempt: nat := 0;
    while attempt < maxRetries
      invariant attempt == 0 || attempt < maxRetries
      invariant forall j :: 0 <= j < attempt ==> rounds[j].response.Raised?
      invariant trace == Trace(req, rounds, attempt)
      decreases maxRetries - attempt
    {
      TraceOfSnoc(req, rounds, 0, attempt);
      if attempt > 0 {
        trace := trace + [Delay];
      }
      var proxy := GetProxyConfig(rounds[attempt].env);
      trace := trace + [Call(req.videoId, ForwardedLanguages(req.languages), proxy)];
      match rounds[attempt].response {
        case Fetched(t) =>
          result := RetryResult(Some(t), None);
          return;
        case Raised(e) =>
          if attempt == maxRetries - 1 {
            result := RetryResult(None, Some(e.message));
            return;
          }
      }
      attempt := attempt + 1;
    }
    result := RetryResult(None, Some(MaxRetriesExceeded));
  }
}
