/** The two transcript routes of the enhanced service (app.py): both run the retry fetch with the
    default budget and turn its result pair into a reply. The pair's truthiness decides: a
    non-empty transcript is a success carrying the segment count; anything else, an empty
    transcript included, is a 400 carrying the pair's error, which is None for an empty
    transcript. The outer exception handlers of both routes are unreachable, since the retry
    fetch never raises, and are not modelled. */
module Service {
  import opened Optional
  import opened Collaborator
  import opened Retry
  import opened RetryProperties

  /** The suggestion of the plain route's error reply. */
  const Suggestion: string := "Try again in a few minutes or check if the video has transcripts available"

  /** The language route's suggestion, followed by the language code. */
  const SuggestionInPrefix: string := "Try again in a few minutes or check if the video has transcripts in "

  /** The JSON body; `languageCode` is present on the language route only. */
  datatype Body =
    | Found(videoId: string, languageCode: Option<string>, transcript: Transcript, segments: nat)
    | Failed(error: Option<string>, videoId: string, languageCode: Option<string>, suggestion: string)

  /** An HTTP reply: status code and body. */
  datatype Reply = Reply(status: nat, body: Body)

  /** A reply together with the library calls and delays that produced it. */
  datatype Exchange = Exchange(reply: Reply, trace: seq<Event>)

  /** The error reply's suggestion on each route. */
  function SuggestionFor(languageCode: Option<string>): string {
    match languageCode
    case None => Suggestion
    case Some(code) => SuggestionInPrefix + code
  }

  /** The status and body chosen from a result pair: success only for a non-empty transcript,
      with the transcript unchanged and its length as the segment count; otherwise 400 with the
      pair's error. Both routes echo the video id, and the language route its language code. */
  function Respond(videoId: string, languageCode: Option<string>, outcome: RetryResult): (reply: Reply)
    ensures reply.status == 200 <==> outcome.transcript.Some? && outcome.transcript.value != []
    ensures reply.status == 200 || reply.status == 400
    ensures reply.body.videoId == videoId && reply.body.languageCode == languageCode
    ensures reply.status == 200 ==>
              reply.body.Found? && reply.body.transcript == outcome.transcript.value
              && reply.body.segments == |outcome.transcript.value|
    ensures reply.status == 400 ==>
              reply.body.Failed? && reply.body.error == outcome.error
              && reply.body.suggestion == SuggestionFor(languageCode)
  {
    match outcome.transcript
    case Some(t) =>
      if t != [] then Reply(200, Found(videoId, languageCode, t, |t|))
      else Reply(400, Failed(outcome.error, videoId, languageCode, SuggestionFor(languageCode)))
    case None => Reply(400, Failed(outcome.error, videoId, languageCode, SuggestionFor(languageCode)))
  }

  /** GET /transcript/<video_id>: a fetch with no language list and the default budget. */
  function TranscriptRoute(videoId: string, rounds: seq<Round>): (x: Exchange)
    requires DefaultMaxRetries <= |rounds|
    ensures var k := FirstFetched(rounds, DefaultMaxRetries);
            x.reply.status == 200 <==> k < DefaultMaxRetries && rounds[k].response.transcript != []
    ensures 1 <= CallCount(x.trace) <= DefaultMaxRetries
    ensures forall p :: 0 <= p < |x.trace| && x.trace[p].Call? ==>
              x.trace[p].videoId == videoId && x.trace[p].languages == None
    ensures x.reply == Respond(videoId, None, ExpectedResult(rounds, DefaultMaxRetries))
    ensures x.trace == Trace(FetchRequest(videoId, None), rounds, AttemptsMade(rounds, DefaultMaxRetries))
  {
    var req := FetchRequest(videoId, None);
    var run := GetTranscriptWithRetry(req, DefaultMaxRetries, rounds);
    RetryTraceShape(req, DefaultMaxRetries, rounds);
    CallsForwardRequest(req, DefaultMaxRetries, rounds);
    Exchange(Respond(videoId, None, run.result), run.trace)
  }

  /** GET /transcript/<video_id>/<language_code>: a fetch with the one-element preference list
      `[language_code]`, forwarded on every attempt since a one-element list is never empty. */
  function LanguageRoute(videoId: string, languageCode: string, rounds: seq<Round>): (x: Exchange)
    requires DefaultMaxRetries <= |rounds|
    ensures var k := FirstFetched(rounds, DefaultMaxRetries);
            x.reply.status == 200 <==> k < DefaultMaxRetries && rounds[k].response.transcript != []
    ensures 1 <= CallCount(x.trace) <= DefaultMaxRetries
    ensures forall p :: 0 <= p < |x.trace| && x.trace[p].Call? ==>
              x.trace[p].videoId == videoId && x.trace[p].languages == Some([languageCode])
    ensures x.reply.body.languageCode == Some(languageCode)
    ensures x.reply == Respond(videoId, Some(languageCode), ExpectedResult(rounds, DefaultMaxRetries))
    ensures x.trace == Trace(FetchRequest(videoId, Some([languageCode])), rounds, AttemptsMade(rounds, DefaultMaxRetries))
  {
    var req := FetchRequest(videoId, Some([languageCode]));
    var run := GetTranscriptWithRetry(req, DefaultMaxRetries, rounds);
    RetryTraceShape(req, DefaultMaxRetries, rounds);
    CallsForwardRequest(req, DefaultMaxRetries, rounds);
    Exchange(Respond(videoId, Some(languageCode), run.result), run.trace)
  }

  /** A first attempt that fetches a non-empty transcript: status 200 with that transcript and
      its segment count, after exactly one call and no delay. */
  lemma FirstFetchReportsSegments(videoId: string, rounds: seq<Round>)
    requires DefaultMaxRetries <= |rounds|
    requires rounds[0].response.Fetched? && rounds[0].response.transcript != []
    ensures var x := TranscriptRoute(videoId, rounds);
            && x.reply == Reply(200, Found(videoId, None, rounds[0].response.transcript, |rounds[0].response.transcript|))
            && CallCount(x.trace) == 1 && DelayCount(x.trace) == 0
  {
  }

  /** A successful but empty fetch is reported as a failure whose error is None. */
  lemma EmptyTranscriptIsError(videoId: string, rounds: seq<Round>)
    requires DefaultMaxRetries <= |rounds|
    requires rounds[0].response == Fetched([])
    ensures TranscriptRoute(videoId, rounds).reply == Reply(400, Failed(None, videoId, None, Suggestion))
  {
  }

  /** Three failed attempts, whatever their kind: status 400 with the last exception's string,
      after three calls and two delays. The kind of the exception plays no part. */
  lemma ExhaustedFetchIs400(videoId: string, rounds: seq<Round>)
    requires DefaultMaxRetries <= |rounds|
    requires forall j :: 0 <= j < DefaultMaxRetries ==> rounds[j].response.Raised?
    ensures var x := TranscriptRoute(videoId, rounds);
            && x.reply == Reply(400, Failed(Some(rounds[2].response.error.message), videoId, None, Suggestion))
            && CallCount(x.trace) == 3 && DelayCount(x.trace) == 2
  {
    AllAttemptsFail(FetchRequest(videoId, None), DefaultMaxRetries, rounds);
  }
}
