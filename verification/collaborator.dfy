/** The interface of the external transcript library, as the service sees it, and the observable
    events of one fetch: a call to the library or a back-off delay. */
module Collaborator {
  import opened Optional
  import opened Proxy

  /** One caption segment; the times are floating point in the library and only passed through here. */
  datatype Segment = Segment(text: string, start: real, duration: real)

  type Transcript = seq<Segment>

  /** The library's exception classes the services distinguish; every other exception is OtherError. */
  datatype ErrorKind = TranscriptsDisabled | NoTranscriptFound | VideoUnavailable | OtherError

  /** An exception raised during one attempt, with `message` its string form `str(e)`. */
  datatype FetchError = FetchError(kind: ErrorKind, message: string)

  /** What one attempt of the library call produced. */
  datatype Response = Fetched(transcript: Transcript) | Raised(error: FetchError)

  /** `Call` records the arguments of one library call: the video id, the language list when one
      is passed, and the proxy configuration the client was built with. `Delay` is the random
      sleep before a retry. */
  datatype Event =
    | Delay
    | Call(videoId: string, languages: Option<seq<string>>, proxy: Option<ProxyConfig>)

  /** Number of library calls in a trace. */
  function CallCount(trace: seq<Event>): nat {
    if trace == [] then 0 else (if trace[0].Call? then 1 else 0) + CallCount(trace[1..])
  }

  /** Number of delays in a trace. */
  function DelayCount(trace: seq<Event>): nat {
    if trace == [] then 0 else (if trace[0].Delay? then 1 else 0) + DelayCount(trace[1..])
  }

  /** Both counts add up over concatenation. */
  lemma {:induction false} CountsAppend(a: seq<Event>, b: seq<Event>)
    ensures CallCount(a + b) == CallCount(a) + CallCount(b)
    ensures DelayCount(a + b) == DelayCount(a) + DelayCount(b)
  {
    if a == [] {
      assert a + b == b;
    } else {
      assert (a + b)[0] == a[0];
      assert (a + b)[1..] == a[1..] + b;
      CountsAppend(a[1..], b);
    }
  }
}
