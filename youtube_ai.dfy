/**
 * hooks/use-youtube-ai.ts: the client hook that asks the enhanced generation
 * route first, the standard route when that answer is not ok, and the mock
 * route when the standard answer is not ok either.
 *
 * The three `fetch` calls are outside the model: `replies` says what each
 * endpoint would do with the request. The React state pair becomes the fields
 * of a `Generator` object.
 */
module YouTubeAi {
  import opened Wrappers

  datatype Endpoint = EnhancedApi | StandardApi | MockApi

  /** The order in which the endpoints are tried. */
  const Chain: seq<Endpoint> := [EnhancedApi, StandardApi, MockApi]

  function Path(e: Endpoint): string {
    match e
    case EnhancedApi => "/api/youtube-enhanced"
    case StandardApi => "/api/youtube"
    case MockApi => "/api/youtube-mock"
  }

  /** The JSON body `{url, type}`. */
  datatype RequestBody = RequestBody(url: string, contentType: string)

  /** A `POST` the hook sends. */
  datatype Request = Request(path: string, body: RequestBody)

  /** The parsed JSON of an answer: its `error` field and the generated content, when present. */
  datatype ResponseBody = ResponseBody(error: Option<string>, content: Option<string>, videoId: Option<string>,
                                       contentType: Option<string>)

  /** What one `fetch` does: an answer, ok (2xx) or not, or a rejection. */
  datatype Reply =
    | Answer(ok: bool, body: ResponseBody)
      /** `message` is `None` when the rejection is not an `Error`. */
    | Rejected(message: Option<string>)

  const GenerateFailed: string := "Failed to generate content"
  const Unexpected: string := "An unexpected error occurred"

  /** Whether the chain goes on to the next endpoint after `r`. */
  predicate FallsThrough(r: Reply) { r.Answer? && !r.ok }

  /** The endpoints called from position `k` of the chain on. */
  function TriedFrom(replies: Endpoint -> Reply, k: nat): seq<Endpoint>
    requires k < |Chain|
    decreases |Chain| - k
  {
    if FallsThrough(replies(Chain[k])) && k + 1 < |Chain| then [Chain[k]] + TriedFrom(replies, k + 1)
    else [Chain[k]]
  }

  /** The endpoints called, in order. */
  function Tried(replies: Endpoint -> Reply): seq<Endpoint> {
    TriedFrom(replies, 0)
  }

  /**
   * The calls form a prefix of the chain, each one after an answer that was not
   * ok: at most three calls, and none after an ok answer or a rejection.
   */
  lemma {:induction false} TriedFromIsChain(replies: Endpoint -> Reply, k: nat)
    requires k < |Chain|
    ensures 1 <= |TriedFrom(replies, k)| <= |Chain| - k
    ensures TriedFrom(replies, k) == Chain[k..k + |TriedFrom(replies, k)|]
    ensures forall i | 0 <= i < |TriedFrom(replies, k)| - 1 :: FallsThrough(replies(TriedFrom(replies, k)[i]))
    ensures k + |TriedFrom(replies, k)| < |Chain| ==>
      !FallsThrough(replies(TriedFrom(replies, k)[|TriedFrom(replies, k)| - 1]))
    decreases |Chain| - k
  {
    if FallsThrough(replies(Chain[k])) && k + 1 < |Chain| {
      TriedFromIsChain(replies, k + 1);
      var rest := TriedFrom(replies, k + 1);
      assert TriedFrom(replies, k) == [Chain[k]] + rest;
      assert Chain[k..k + 1 + |rest|] == [Chain[k]] + Chain[k + 1..k + 1 + |rest|];
      forall i | 0 <= i < |TriedFrom(replies, k)| - 1
        ensures FallsThrough(replies(TriedFrom(replies, k)[i]))
      {
        if i > 0 {
          assert TriedFrom(replies, k)[i] == rest[i - 1];
        }
      }
    }
  }

  lemma TriedIsChain(replies: Endpoint -> Reply)
    ensures 1 <= |Tried(replies)| <= 3
    ensures Tried(replies) == Chain[..|Tried(replies)|]
    ensures forall i | 0 <= i < |Tried(replies)| - 1 :: FallsThrough(replies(Tried(replies)[i]))
    ensures |Tried(replies)| < 3 ==> !FallsThrough(replies(Tried(replies)[|Tried(replies)| - 1]))
  {
    TriedFromIsChain(replies, 0);
  }

  /** The reply that decides the outcome: that of the last endpoint called. */
  function Final(replies: Endpoint -> Reply): Reply {
    TriedIsChain(replies);
    replies(Tried(replies)[|Tried(replies)| - 1])
  }

  /** `errorData.error || 'Failed to generate content'`. */
  function AnswerError(b: ResponseBody): (m: string)
    ensures m != ""
    ensures b.error.Some? && b.error.value != "" ==> m == b.error.value
  {
    if b.error.Some? && b.error.value != "" then b.error.value else GenerateFailed
  }

  /** What the hook returns: the parsed body of an ok answer, else `null`. */
  function Result(replies: Endpoint -> Reply): Option<ResponseBody> {
    var r := Final(replies);
    if r.Answer? && r.ok then Some(r.body) else None
  }

  /** The `error` state after the call. */
  function ErrorAfter(replies: Endpoint -> Reply): Option<string> {
    match Final(replies)
    case Answer(ok, body) => if ok then None else Some(AnswerError(body))
    case Rejected(message) => Some(message.GetOr(Unexpected))
  }

  /**
   * The hook returns content iff some endpoint answers ok and every endpoint
   * before it answered not ok; the content is that endpoint's body.
   */
  lemma ResultIsFirstOk(replies: Endpoint -> Reply, i: nat)
    requires i < 3
    requires forall j | 0 <= j < i :: FallsThrough(replies(Chain[j]))
    ensures Tried(replies) == Chain[..i + 1] <==> !FallsThrough(replies(Chain[i])) || i == 2
    ensures replies(Chain[i]).Answer? && replies(Chain[i]).ok ==> Result(replies) == Some(replies(Chain[i]).body)
  {
    TriedIsChain(replies);
    var t := Tried(replies);
    if |t| > i + 1 {
      assert t[i] == Chain[i];
    }
  }

  /** Content is returned only by an ok answer preceded by not-ok answers. */
  lemma ResultOnlyFromOk(replies: Endpoint -> Reply)
    ensures Result(replies).Some? ==>
      exists i | 0 <= i < 3 :: && replies(Chain[i]).Answer? && replies(Chain[i]).ok
                             && Result(replies) == Some(replies(Chain[i]).body)
                             && forall j | 0 <= j < i :: FallsThrough(replies(Chain[j]))
  {
    TriedIsChain(replies);
    var t := Tried(replies);
    var i := |t| - 1;
    if Result(replies).Some? {
      assert t[i] == Chain[i];
      forall j | 0 <= j < i ensures FallsThrough(replies(Chain[j])) {
        assert t[j] == Chain[j];
      }
    }
  }

  /**
   * When every endpoint answers not ok, all three are called and the error is
   * the mock route's: earlier errors are discarded.
   */
  lemma AllFailReportsLast(replies: Endpoint -> Reply)
    requires forall e: Endpoint :: FallsThrough(replies(e))
    ensures Tried(replies) == Chain
    ensures Result(replies) == None
    ensures ErrorAfter(replies) == Some(AnswerError(replies(MockApi).body))
  {
    TriedIsChain(replies);
  }

  /** The hook's state: `isGenerating` and `error`. */
  class Generator {
    var isGenerating: bool
    var error: Option<string>

    constructor()
      ensures !isGenerating && error == None
    {
      isGenerating := false;
      error := None;
    }

    /** `clearError`. */
    method ClearError()
      modifies this
      ensures error == None && isGenerating == old(isGenerating)
    {
      error := None;
    }

    /**
     * `generateContent(url, type)`: the requests sent, one per endpoint tried,
     * all with the same body; the value returned; and `error` set from the
     * last reply. `isGenerating` is false again when the call returns.
     */
    method GenerateContent(url: string, contentType: string, replies: Endpoint -> Reply)
      returns (result: Option<ResponseBody>, sent: seq<Request>)
      modifies this
      ensures !isGenerating
      ensures |sent| == |Tried(replies)|
      ensures forall i | 0 <= i < |sent| :: sent[i] == Request(Path(Tried(replies)[i]), RequestBody(url, contentType))
      ensures result == Result(replies)
      ensures error == ErrorAfter(replies)
    {
      isGenerating := true;
      error := None;
      var body := RequestBody(url, contentType);
      var thrown: Option<string> := None;
      result := None;
      sent := [Request(Path(EnhancedApi), body)];
      var response := replies(EnhancedApi);
      if FallsThrough(response) {
        sent := sent + [Request(Path(StandardApi), body)];
        response := replies(StandardApi);
        if FallsThrough(response) {
          sent := sent + [Request(Path(MockApi), body)];
          response := replies(MockApi);
        }
      }
      match response {
        case Rejected(message) =>
          thrown := Some(message.GetOr(Unexpected));
        case Answer(ok, data) =>
          if !ok {
            thrown := Some(AnswerError(data));
          } else {
            result := Some(data);
          }
      }
      if thrown.Some? {
        error := thrown;
      }
      isGenerating := false;
      TriedIsChain(replies);
    }
  }
}
