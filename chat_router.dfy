/** The four chat endpoints of the backend: how each one checks the request, builds the
  * prompts it sends to the language model, decides how many model calls to make, and
  * maps failures to HTTP statuses.
  *
  * The model, the document retrieval and the library lookup are parameters: `llm`
  * answers a prompt under a model name (`None` when the call fails), `retrieve` gives
  * the chunks for a question and a list of library ids, `texts` the stored texts of a
  * list of libraries. The configuration files are inputs, `None` when missing. */
module ChatRouter {
  import opened Wrappers
  import opened Text

  const DefaultModel := "llama3.2:3b"
  const QuestionSlot := "[INSERT QUESTION]"
  const DocumentationSlot := "[DOCUMENTATION_TEXT]"
  const ChunkSeparator := "\n\n---\n\n"
  const LibrarySeparator := "\n---\n"
  const NothingFound := "No relevant documentation found in the selected libraries."
  const NothingSelected := "No libraries were selected for analysis."

  /** The JSON body of a chat request: `prompt` and `model` when present, and
    * `selected_libraries` (absent reads as the empty list). */
  datatype ChatBody = ChatBody(prompt: Option<string>, model: Option<string>,
                               selectedLibraries: seq<int>)

  /** The three files `read_rag_config_files` reads: the preprompt, the unused end-off
    * text, and the retrieval prompt. */
  datatype RagConfig = RagConfig(preprompt: Option<string>, endoff: Option<string>,
                                 retrieval: Option<string>)

  type Llm = (string, string) -> Option<string>
  type Retriever = (string, seq<int>) -> seq<string>
  type LibraryTexts = seq<int> -> seq<string>

  /** Why a request failed: the body is not a JSON object, the prompt is missing or
    * empty, a configuration file is missing, or the model call failed. */
  datatype Cause = MalformedBody | PromptRequired | ConfigMissing | LlmFailed
  datatype HttpError = HttpError(status: int, cause: Cause)

  /** The JSON answer: `response`, and `analysis` for the two-stage endpoints. */
  datatype Answer = Answer(response: string, analysis: Option<string>)

  /** One request to the language model. */
  datatype Call = Call(prompt: string, model: string)

  /** The model calls a request made, in order, and what the endpoint returned. */
  datatype Exchange = Exchange(calls: seq<Call>, result: Result<Answer, HttpError>)

  /** `not user_prompt` is false. */
  predicate HasPrompt(body: ChatBody) {
    body.prompt.Some? && body.prompt.value != ""
  }

  /** `data.get("model", DEFAULT_MODEL)`. */
  function ModelOf(body: ChatBody): string {
    body.model.GetOr(DefaultModel)
  }

  predicate Complete(config: RagConfig) {
    config.preprompt.Some? && config.endoff.Some? && config.retrieval.Some?
  }

  /** A request that gets past the prompt check and the configuration read. */
  predicate Ready(request: Option<ChatBody>, config: RagConfig) {
    request.Some? && HasPrompt(request.value) && Complete(config)
  }

  /** A template with every question placeholder replaced by the user's prompt. */
  function Question(template: string, prompt: string): string {
    ReplaceAll(template, QuestionSlot, prompt)
  }

  /** The retrieval prompt with the question, then the documentation, filled in. */
  function Stage1Prompt(template: string, prompt: string, documentation: string): string {
    ReplaceAll(ReplaceAll(template, QuestionSlot, prompt), DocumentationSlot, documentation)
  }

  /** The frame `/chat-rag` puts around retrieved context. */
  function RagPrompt(context: string, question: string): string {
    "Relevant Documentation:\n" + context + "\n\n---\n\n" + question
  }

  /** The frame both two-stage endpoints put around their analysis. */
  function Stage2Prompt(context: string, question: string): string {
    "## Relevant Documentation:\n" + context + "\n\n--- End of Relevant Documentation ---\n\n"
    + question
  }

  /** The retrieved chunks joined by separators, or the not-found sentence. */
  function RetrievedContext(chunks: seq<string>): string {
    if chunks == [] then NothingFound else Join(chunks, ChunkSeparator)
  }

  function Refused(status: int, cause: Cause): Exchange {
    Exchange([], Failure(HttpError(status, cause)))
  }

  /** The status and cause of a request refused before any model call. */
  function Refusal(request: Option<ChatBody>, promptStatus: int): HttpError {
    if request.None? then HttpError(500, MalformedBody)
    else if !HasPrompt(request.value) then HttpError(promptStatus, PromptRequired)
    else HttpError(500, ConfigMissing)
  }

  /** Every success is the model's reply to the last call made. */
  predicate AnswersLastCall(r: Exchange, llm: Llm) {
    r.result.Success? ==>
      r.calls != [] && llm(r.calls[|r.calls| - 1].prompt, r.calls[|r.calls| - 1].model)
                       == Some(r.result.value.response)
  }

  /** A model failure is reported only when the last call failed; other failures come
    * before any call. */
  predicate FailsHonestly(r: Exchange, llm: Llm) {
    r.result.Failure? ==>
      if r.result.error.cause == LlmFailed then
        r.calls != [] && llm(r.calls[|r.calls| - 1].prompt, r.calls[|r.calls| - 1].model) == None
      else r.calls == []
  }

  predicate UsesModel(r: Exchange, model: string) {
    forall c :: c in r.calls ==> c.model == model
  }

  /** Send `prompt` to the model after the calls already made; the reply is the answer. */
  function Ask(earlier: seq<Call>, prompt: string, model: string, llm: Llm,
               analysis: Option<string>): (r: Exchange)
    ensures r.calls == earlier + [Call(prompt, model)]
    ensures AnswersLastCall(r, llm)
    ensures r.result.Success? ==> r.result.value.analysis == analysis
    ensures r.result.Failure? ==> r.result.error == HttpError(500, LlmFailed)
                                  && llm(prompt, model) == None
  {
    var reply := llm(prompt, model);
    var result := if reply.Some? then Success(Answer(reply.value, analysis))
                  else Failure(HttpError(500, LlmFailed));
    Exchange(earlier + [Call(prompt, model)], result)
  }

  /** The analysis of the two-stage flow: the first call's reply, or the fallback
    * sentence when there is no first call; `None` when the first call failed. */
  function Analysis(first: Option<string>, fallback: string, model: string, llm: Llm)
    : Option<string>
  {
    if first.None? then Some(fallback) else llm(first.value, model)
  }

  /** The flow both two-stage endpoints share: an optional first call whose reply is
    * the analysis (or a fixed fallback analysis without a call), then the final call
    * on the analysis in the stage-2 frame; the analysis is returned with the answer. */
  function TwoStage(first: Option<string>, fallback: string, question: string,
                    model: string, llm: Llm): (r: Exchange)
    ensures UsesModel(r, model) && AnswersLastCall(r, llm) && FailsHonestly(r, llm)
    ensures first.None? ==> r.calls == [Call(Stage2Prompt(fallback, question), model)]
    ensures first.Some? ==> r.calls != [] && r.calls[0] == Call(first.value, model)
    ensures |r.calls| == (if Analysis(first, fallback, model, llm).Some? then (if first.Some? then 2 else 1) else 1)
    ensures Analysis(first, fallback, model, llm).Some? ==>
              r.calls[|r.calls| - 1].prompt
              == Stage2Prompt(Analysis(first, fallback, model, llm).value, question)
    ensures r.result.Success? ==> r.result.value.analysis == Analysis(first, fallback, model, llm)
  {
    if first.None? then
      Ask([], Stage2Prompt(fallback, question), model, llm, Some(fallback))
    else
      var stage1 := Call(first.value, model);
      var reply := llm(first.value, model);
      if reply.None? then Exchange([stage1], Failure(HttpError(500, LlmFailed)))
      else Ask([stage1], Stage2Prompt(reply.value, question), model, llm, Some(reply.value))
  }

  /** `POST /chat`: the plain preprompt with the question filled in, one model call.
    * Only this endpoint lets the 400 for a missing prompt through. */
  function PlainChat(request: Option<ChatBody>, preprompt: Option<string>, llm: Llm)
    : (r: Exchange)
    ensures AnswersLastCall(r, llm) && FailsHonestly(r, llm)
    ensures r.result.Failure? ==>
              r.result.error.status == (if r.result.error.cause == PromptRequired then 400 else 500)
    ensures request.Some? && HasPrompt(request.value) && preprompt.Some? ==>
              r.calls == [Call(Question(preprompt.value, request.value.prompt.value),
                               ModelOf(request.value))]
    ensures !(request.Some? && HasPrompt(request.value) && preprompt.Some?) ==>
              r == Exchange([], Failure(Refusal(request, 400)))
    ensures r.result.Success? ==> r.result.value.analysis.None?
  {
    if request.None? then Refused(500, MalformedBody)
    else if !HasPrompt(request.value) then Refused(400, PromptRequired)
    else if preprompt.None? then Refused(500, ConfigMissing)
    else
      var body := request.value;
      Ask([], Question(preprompt.value, body.prompt.value), ModelOf(body), llm, None)
  }

  /** `POST /chat-rag`: with libraries selected, the retrieved chunks (or the not-found
    * sentence) under a documentation header before the question; without, the bare
    * question. One model call; every failure is a 500. */
  function ChatRag(request: Option<ChatBody>, config: RagConfig, retrieve: Retriever,
                   llm: Llm): (r: Exchange)
    ensures AnswersLastCall(r, llm) && FailsHonestly(r, llm)
    ensures r.result.Failure? ==> r.result.error.status == 500
    ensures !Ready(request, config) ==> r == Exchange([], Failure(Refusal(request, 500)))
    ensures Ready(request, config) ==>
              var body := request.value;
              var question := Question(config.preprompt.value, body.prompt.value);
              r.calls == [Call(if body.selectedLibraries == [] then question
                               else RagPrompt(RetrievedContext(retrieve(body.prompt.value,
                                                                        body.selectedLibraries)),
                                              question),
                               ModelOf(body))]
    ensures r.result.Success? ==> r.result.value.analysis.None?
  {
    if request.None? then Refused(500, MalformedBody)
    else if !HasPrompt(request.value) then Refused(500, PromptRequired)
    else if !Complete(config) then Refused(500, ConfigMissing)
    else
      var body := request.value;
      var prompt := body.prompt.value;
      var question := Question(config.preprompt.value, prompt);
      var full := if body.selectedLibraries == [] then question
                  else RagPrompt(RetrievedContext(retrieve(prompt, body.selectedLibraries)), question);
      Ask([], full, ModelOf(body), llm, None)
  }

  /** The first prompt of `/chat-pipeline`: the retrieval prompt over the texts of the
    * selected libraries, when there are any. */
  function PipelineStage1(body: ChatBody, retrieval: string, texts: LibraryTexts)
    : Option<string>
    requires HasPrompt(body)
  {
    if body.selectedLibraries == [] then None
    else Some(Stage1Prompt(retrieval, body.prompt.value,
                           Join(texts(body.selectedLibraries), LibrarySeparator)))
  }

  /** `POST /chat-pipeline`: analyse the selected libraries' texts in a first call, or
    * skip it with the nothing-selected sentence, then answer in the stage-2 frame. */
  function ChatPipeline(request: Option<ChatBody>, config: RagConfig, texts: LibraryTexts,
                        llm: Llm): (r: Exchange)
    ensures AnswersLastCall(r, llm) && FailsHonestly(r, llm) && |r.calls| <= 2
    ensures r.result.Failure? ==> r.result.error.status == 500
    ensures !Ready(request, config) ==> r == Exchange([], Failure(Refusal(request, 500)))
    ensures Ready(request, config) ==>
              r == TwoStage(PipelineStage1(request.value, config.retrieval.value, texts),
                            NothingSelected,
                            Question(config.preprompt.value, request.value.prompt.value),
                            ModelOf(request.value), llm)
  {
    if request.None? then Refused(500, MalformedBody)
    else if !HasPrompt(request.value) then Refused(500, PromptRequired)
    else if !Complete(config) then Refused(500, ConfigMissing)
    else
      var body := request.value;
      TwoStage(PipelineStage1(body, config.retrieval.value, texts), NothingSelected,
               Question(config.preprompt.value, body.prompt.value), ModelOf(body), llm)
  }

  /** The condensation prompt of `/chat-rag-2`: the retrieval prompt over the
    * retrieved chunks, when libraries are selected and retrieval found any. */
  function Rag2Stage1(body: ChatBody, retrieval: string, retrieve: Retriever)
    : Option<string>
    requires HasPrompt(body)
  {
    if body.selectedLibraries == [] then None
    else
      var chunks := retrieve(body.prompt.value, body.selectedLibraries);
      if chunks == [] then None
      else Some(Stage1Prompt(retrieval, body.prompt.value, Join(chunks, ChunkSeparator)))
  }

  /** The analysis `/chat-rag-2` uses when it does not condense. */
  function Rag2Fallback(body: ChatBody): string {
    if body.selectedLibraries == [] then NothingSelected else NothingFound
  }

  /** `POST /chat-rag-2`: retrieve chunks and condense them in a first call, or use
    * the not-found or nothing-selected sentence, then answer in the stage-2 frame. */
  function ChatRag2(request: Option<ChatBody>, config: RagConfig, retrieve: Retriever,
                    llm: Llm): (r: Exchange)
    ensures AnswersLastCall(r, llm) && FailsHonestly(r, llm) && |r.calls| <= 2
    ensures r.result.Failure? ==> r.result.error.status == 500
    ensures !Ready(request, config) ==> r == Exchange([], Failure(Refusal(request, 500)))
    ensures Ready(request, config) ==>
              r == TwoStage(Rag2Stage1(request.value, config.retrieval.value, retrieve),
                            Rag2Fallback(request.value),
                            Question(config.preprompt.value, request.value.prompt.value),
                            ModelOf(request.value), llm)
  {
    if request.None? then Refused(500, MalformedBody)
    else if !HasPrompt(request.value) then Refused(500, PromptRequired)
    else if !Complete(config) then Refused(500, ConfigMissing)
    else
      var body := request.value;
      TwoStage(Rag2Stage1(body, config.retrieval.value, retrieve), Rag2Fallback(body),
               Question(config.preprompt.value, body.prompt.value), ModelOf(body), llm)
  }

  /** A missing or empty prompt is refused by every endpoint before any model call:
    * with 400 by `/chat`, with 500 by the three others, whose broad exception handler
    * turns the 400 into a 500. */
  lemma PromptRequiredEverywhere(body: ChatBody, preprompt: Option<string>, config: RagConfig,
                                 retrieve: Retriever, texts: LibraryTexts, llm: Llm)
    requires !HasPrompt(body)
    ensures PlainChat(Some(body), preprompt, llm) == Refused(400, PromptRequired)
    ensures ChatRag(Some(body), config, retrieve, llm) == Refused(500, PromptRequired)
    ensures ChatPipeline(Some(body), config, texts, llm) == Refused(500, PromptRequired)
    ensures ChatRag2(Some(body), config, retrieve, llm) == Refused(500, PromptRequired)
  {
  }

  /** Without a `model` field every model call of every endpoint uses llama3.2:3b. */
  lemma DefaultModelEverywhere(request: Option<ChatBody>, preprompt: Option<string>,
                               config: RagConfig, retrieve: Retriever, texts: LibraryTexts,
                               llm: Llm)
    requires request.Some? && request.value.model.None?
    ensures UsesModel(PlainChat(request, preprompt, llm), "llama3.2:3b")
    ensures UsesModel(ChatRag(request, config, retrieve, llm), "llama3.2:3b")
    ensures UsesModel(ChatPipeline(request, config, texts, llm), "llama3.2:3b")
    ensures UsesModel(ChatRag2(request, config, retrieve, llm), "llama3.2:3b")
  {
  }

  /** `/chat-pipeline` without libraries makes exactly one model call and reports the
    * nothing-selected sentence as its analysis; with libraries its first call is the
    * stage-1 prompt and, when that is answered, a second call follows. */
  lemma PipelineCalls(request: Option<ChatBody>, config: RagConfig, texts: LibraryTexts,
                      llm: Llm)
    requires Ready(request, config)
    ensures var r := ChatPipeline(request, config, texts, llm);
            var body := request.value;
            var question := Question(config.preprompt.value, body.prompt.value);
            var model := ModelOf(body);
            if body.selectedLibraries == [] then
              r.calls == [Call(Stage2Prompt(NothingSelected, question), model)]
              && (r.result.Success? ==> r.result.value.analysis == Some(NothingSelected))
            else
              var stage1 := Stage1Prompt(config.retrieval.value, body.prompt.value,
                                         Join(texts(body.selectedLibraries), LibrarySeparator));
              r.calls[0] == Call(stage1, model)
              && |r.calls| == (if llm(stage1, model).Some? then 2 else 1)
  {
  }

  /** `/chat-rag-2` condenses only when libraries are selected and retrieval returns
    * chunks; otherwise its one call frames the not-found or nothing-selected sentence. */
  lemma Rag2Condensation(request: Option<ChatBody>, config: RagConfig, retrieve: Retriever,
                         llm: Llm)
    requires Ready(request, config)
    ensures var r := ChatRag2(request, config, retrieve, llm);
            var body := request.value;
            var question := Question(config.preprompt.value, body.prompt.value);
            var chunks := retrieve(body.prompt.value, body.selectedLibraries);
            if body.selectedLibraries == [] then
              r.calls == [Call(Stage2Prompt(NothingSelected, question), ModelOf(body))]
            else if chunks == [] then
              r.calls == [Call(Stage2Prompt(NothingFound, question), ModelOf(body))]
            else
              r.calls[0] == Call(Stage1Prompt(config.retrieval.value, body.prompt.value,
                                              Join(chunks, ChunkSeparator)), ModelOf(body))
  {
  }

  /** Both two-stage endpoints return, as `analysis`, exactly the context their final
    * prompt framed. */
  lemma AnalysisIsFramedContext(request: Option<ChatBody>, config: RagConfig,
                                retrieve: Retriever, texts: LibraryTexts, llm: Llm)
    requires Ready(request, config)
    ensures var question := Question(config.preprompt.value, request.value.prompt.value);
            var p := ChatPipeline(request, config, texts, llm);
            var q := ChatRag2(request, config, retrieve, llm);
            (p.result.Success? ==>
               p.result.value.analysis.Some?
               && p.calls[|p.calls| - 1].prompt
                  == Stage2Prompt(p.result.value.analysis.value, question))
            && (q.result.Success? ==>
                  q.result.value.analysis.Some?
                  && q.calls[|q.calls| - 1].prompt
                     == Stage2Prompt(q.result.value.analysis.value, question))
  {
  }

  /** The question goes in before the documentation, so every documentation placeholder
    * typed into the question is filled with the documentation too. */
  lemma QuestionFilledFirst(question: string, documentation: string)
    ensures Stage1Prompt(QuestionSlot, question, documentation)
            == ReplaceAll(question, DocumentationSlot, documentation)
    ensures Stage1Prompt(QuestionSlot, DocumentationSlot, documentation) == documentation
  {
    ReplaceWholeTemplate(QuestionSlot, question);
    ReplaceWholeTemplate(DocumentationSlot, documentation);
  }

  /** A preprompt without the placeholder is sent unchanged by `/chat`. */
  lemma TemplateWithoutSlot(body: ChatBody, preprompt: string, llm: Llm)
    requires HasPrompt(body) && !Occurs(QuestionSlot, preprompt)
    ensures PlainChat(Some(body), Some(preprompt), llm).calls == [Call(preprompt, ModelOf(body))]
  {
    ReplaceAllWithoutOccurrence(preprompt, QuestionSlot, body.prompt.value);
  }
}
