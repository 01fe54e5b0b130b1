/** The two transcript routes of the basic service (youtube_transcript_api/app.py): one library
    call without retry and without proxy, and a classification of the exception it raises into
    a status code: transcripts disabled is 400, no transcript found and video unavailable are
    404, anything else is 500 with the exception's string as the error text. */
module SingleShot {
  import opened Optional
  import opened Collaborator

  const DisabledText: string := "Transcripts are disabled for this video"
  const NotFoundText: string := "No transcript found for this video"
  /** The language route's not-found text, followed by the language code. */
  const NotFoundInLanguagePrefix: string := "No transcript found for this video in language: "
  const UnavailableText: string := "Video is unavailable"

  /** The JSON body; `languageCode` is echoed only where the route writes it. */
  datatype Body =
    | Found(videoId: string, languageCode: Option<string>, transcript: Transcript)
    | Failed(error: string, videoId: string, languageCode: Option<string>)

  /** An HTTP reply: status code (200 when the route sets none) and body. */
  datatype Reply = Reply(status: nat, body: Body)

  /** A reply together with the library calls that produced it. */
  datatype Exchange = Exchange(reply: Reply, trace: seq<Event>)

  /** The status each exception kind is reported with, the same on both routes. */
  function StatusFor(kind: ErrorKind): (status: nat)
    ensures status == 400 <==> kind == TranscriptsDisabled
    ensures status == 404 <==> kind == NoTranscriptFound || kind == VideoUnavailable
    ensures status == 500 <==> kind == OtherError
  {
    match kind
    case TranscriptsDisabled => 400
    case NoTranscriptFound => 404
    case VideoUnavailable => 404
    case OtherError => 500
  }

  /** The error reply of either route; `languageCode` is the language route's code. Only the
      language route's not-found and generic replies carry the code. */
  function ErrorReply(videoId: string, languageCode: Option<string>, e: FetchError): Reply {
    match e.kind
    case TranscriptsDisabled => Reply(400, Failed(DisabledText, videoId, None))
    case NoTranscriptFound =>
      (match languageCode
       case None => Reply(404, Failed(NotFoundText, videoId, None))
       case Some(code) => Reply(404, Failed(NotFoundInLanguagePrefix + code, videoId, languageCode)))
    case VideoUnavailable => Reply(404, Failed(UnavailableText, videoId, None))
    case OtherError => Reply(500, Failed(e.message, videoId, languageCode))
  }

  /** GET /transcript/<video_id>: exactly one call, with no language list and no proxy; the
      transcript unchanged with the implicit status 200 on success, otherwise the classified
      error with the video id echoed. */
  function TranscriptRoute(videoId: string, response: Response): (x: Exchange)
    ensures CallCount(x.trace) == 1 && DelayCount(x.trace) == 0
    ensures forall e :: e in x.trace ==> e == Call(videoId, None, None)
    ensures response.Fetched? ==> x.reply == Reply(200, Found(videoId, None, response.transcript))
    ensures response.Raised? ==>
              && x.reply.status == StatusFor(response.error.kind)
              && x.reply.body.Failed? && x.reply.body.videoId == videoId
              && x.reply.body.languageCode == None
    ensures response.Raised? && response.error.kind == NoTranscriptFound ==>
              x.reply.body.error == NotFoundText
    ensures response.Raised? && response.error.kind == OtherError ==>
              x.reply.body.error == response.error.message
  {
    var reply := match response
      case Fetched(t) => Reply(200, Found(videoId, None, t))
      case Raised(e) => ErrorReply(videoId, None, e);
    Exchange(reply, [Call(videoId, None, None)])
  }

  /** GET /transcript/<video_id>/<language_code>: exactly one call, with the one-element
      preference list `[language_code]` and no proxy; the not-found error names the code. */
  function LanguageRoute(videoId: string, languageCode: string, response: Response): (x: Exchange)
    ensures CallCount(x.trace) == 1 && DelayCount(x.trace) == 0
    ensures forall e :: e in x.trace ==> e == Call(videoId, Some([languageCode]), None)
    ensures response.Fetched? ==>
              x.reply == Reply(200, Found(videoId, Some(languageCode), response.transcript))
    ensures response.Raised? ==>
              && x.reply.status == StatusFor(response.error.kind)
              && x.reply.body.Failed? && x.reply.body.videoId == videoId
    ensures response.Raised? && response.error.kind == NoTranscriptFound ==>
              && x.reply.body.languageCode == Some(languageCode)
              && x.reply.body.error == NotFoundInLanguagePrefix + languageCode
              && |x.reply.body.error| >= |languageCode|
              && x.reply.body.error[|x.reply.body.error| - |languageCode|..] == languageCode
    ensures response.Raised? && response.error.kind == OtherError ==>
              x.reply.body.error == response.error.message
              && x.reply.body.languageCode == Some(languageCode)
  {
    var reply := match response
      case Fetched(t) => Reply(200, Found(videoId, Some(languageCode), t))
      case Raised(e) => ErrorReply(videoId, Some(languageCode), e);
    Exchange(reply, [Call(videoId, Some([languageCode]), None)])
  }

  /** Both routes report every response with the same status; they differ only in the body. */
  lemma RoutesAgreeOnStatus(videoId: string, languageCode: string, response: Response)
    ensures TranscriptRoute(videoId, response).reply.status
            == LanguageRoute(videoId, languageCode, response).reply.status
    ensures TranscriptRoute(videoId, response).reply.status == 200 <==> response.Fetched?
  {
  }

  /** The disabled and unavailable replies are fixed texts that do not depend on the exception's
      string or the requested language. */
  lemma FixedErrorTexts(videoId: string, languageCode: string, e: FetchError)
    requires e.kind == TranscriptsDisabled || e.kind == VideoUnavailable
    ensures TranscriptRoute(videoId, Raised(e)).reply == LanguageRoute(videoId, languageCode, Raised(e)).reply
    ensures TranscriptRoute(videoId, Raised(e)).reply.body.error
            == if e.kind == TranscriptsDisabled then DisabledText else UnavailableText
  {
  }
}
