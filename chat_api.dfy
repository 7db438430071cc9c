/** `sendPrompt`: post the prompt to the backend and turn whatever happens into a
  * `{response, error}` value; it never throws. */
module ChatApi {
  import opened Wrappers
  import JsNumbers

  /** The request axios makes: a POST whose JSON body holds only `prompt`. */
  datatype PostRequest = PostRequest(url: string, prompt: string)

  /** What axios rejects with: `response` holds the status when the server answered,
    * `request` tells whether a request went out, `message` is the error's message. */
  datatype AxiosError = AxiosError(response: Option<int>, request: bool, message: string)

  /** The outcome of the POST: a 2xx answer whose `data.response` is the text, or a
    * rejection. */
  datatype Transport = Delivered(text: string) | Thrown(error: AxiosError)

  /** `{response, error}`, `None` standing for `null`. */
  datatype ChatResult = ChatResult(response: Option<string>, error: Option<string>)

  const ChatPath := "/api/chat"
  const HttpErrorPrefix := "HTTP error! status: "
  /** The message for a request without response. It is one sentence; it is written as
    * two literals only as a proof aid, because the verifier does not look at the
    * letters of a single literal this long, and the proofs below need its first letter. */
  const NoResponseMessage := "The request was made" + " but no response was received"
  const SetupErrorPrefix := "Error: "

  /** The catch clause and the happy path: a received error response first, then a
    * request without response, then anything else. */
  function Classify(outcome: Transport): (r: ChatResult)
    ensures r.error.None? <==> outcome.Delivered?
    ensures r.response.Some? <==> outcome.Delivered?
    ensures outcome.Delivered? ==> r.response == Some(outcome.text)
    ensures outcome.Thrown? && outcome.error.response.Some? ==>
              r.error == Some(HttpErrorPrefix + JsNumbers.IntToString(outcome.error.response.value))
    ensures outcome.Thrown? && outcome.error.response.None? && outcome.error.request ==>
              r.error == Some(NoResponseMessage)
    ensures outcome.Thrown? && outcome.error.response.None? && !outcome.error.request ==>
              r.error == Some(SetupErrorPrefix + outcome.error.message)
  {
    match outcome
    case Delivered(text) => ChatResult(Some(text), None)
    case Thrown(e) =>
      if e.response.Some? then
        ChatResult(None, Some(HttpErrorPrefix + JsNumbers.IntToString(e.response.value)))
      else if e.request then ChatResult(None, Some(NoResponseMessage))
      else ChatResult(None, Some(SetupErrorPrefix + e.message))
  }

  /** `sendPrompt(prompt, backendUrl)` against a transport `post`: the request it makes
    * and the value it resolves to. */
  function SendPrompt(prompt: string, backendUrl: string, post: PostRequest -> Transport)
    : (r: (PostRequest, ChatResult))
    ensures r.0 == PostRequest(backendUrl + ChatPath, prompt)
    ensures r.1.error.Some? ==> r.1.response.None?
    ensures r.1.error.None? <==> post(r.0).Delivered?
    ensures r.1 == Classify(post(r.0))
  {
    var request := PostRequest(backendUrl + ChatPath, prompt);
    (request, Classify(post(request)))
  }

  /** The class of an outcome, as the source's branches tell them apart. */
  datatype Kind = Answered | HttpStatus(status: int) | NoResponse | SetupFailure

  function KindOf(outcome: Transport): Kind {
    match outcome
    case Delivered(_) => Answered
    case Thrown(e) =>
      if e.response.Some? then HttpStatus(e.response.value)
      else if e.request then NoResponse
      else SetupFailure
  }

  /** Read the class back from a rendered result. */
  function ReadBack(r: ChatResult): Kind {
    if r.error.None? then Answered
    else
      var m := r.error.value;
      if HttpErrorPrefix <= m then
        match JsNumbers.ParseInt10(m[|HttpErrorPrefix|..])
        case Some(n) => HttpStatus(n)
        case None => SetupFailure
      else if m == NoResponseMessage then NoResponse
      else SetupFailure
  }

  lemma HttpMessageReadBack(status: int)
    ensures ReadBack(ChatResult(None, Some(HttpErrorPrefix + JsNumbers.IntToString(status))))
            == HttpStatus(status)
  {
    var m := HttpErrorPrefix + JsNumbers.IntToString(status);
    assert m[|HttpErrorPrefix|..] == JsNumbers.IntToString(status) + "";
    JsNumbers.ParseIntOfString(status, "");
  }

  lemma NoResponseReadBack()
    ensures ReadBack(ChatResult(None, Some(NoResponseMessage))) == NoResponse
  {
    assert !(HttpErrorPrefix <= NoResponseMessage) by {
      assert HttpErrorPrefix[0] == 'H' && NoResponseMessage[0] == 'T';
    }
  }

  lemma SetupReadBack(message: string)
    ensures ReadBack(ChatResult(None, Some(SetupErrorPrefix + message))) == SetupFailure
  {
    var m := SetupErrorPrefix + message;
    assert m[0] == 'E';
    assert !(HttpErrorPrefix <= m) by { assert HttpErrorPrefix[0] == 'H'; }
    assert m != NoResponseMessage by { assert NoResponseMessage[0] == 'T'; }
  }

  /** The three failure messages never collide, and the status can be read back out of
    * the HTTP one: the result determines the class of the outcome. */
  lemma ClassRecoverable(outcome: Transport)
    ensures ReadBack(Classify(outcome)) == KindOf(outcome)
  {
    if outcome.Thrown? {
      var e := outcome.error;
      if e.response.Some? {
        HttpMessageReadBack(e.response.value);
      } else if e.request {
        NoResponseReadBack();
      } else {
        SetupReadBack(e.message);
      }
    }
  }

  /** A received response decides the class, whatever else the error holds. */
  lemma ResponseWinsOverRequest(status: int, request: bool, message: string,
                                otherMessage: string)
    ensures Classify(Thrown(AxiosError(Some(status), request, message)))
            == Classify(Thrown(AxiosError(Some(status), false, otherMessage)))
            == ChatResult(None, Some(HttpErrorPrefix + JsNumbers.IntToString(status)))
  {
  }
}
