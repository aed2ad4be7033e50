/**
 * The chat endpoint `POST /api/chat`: a first-match decision procedure over the request
 * body and the server's configuration. It rejects an empty question, forwards to an
 * external RAG backend when one is configured, refuses when no language-model key is set,
 * and otherwise builds a prompt from locally retrieved chunks and asks Hugging Face
 * (preferred) or OpenAI. Every outbound call is an abstract outcome passed in.
 */
module ChatRoute {
  import opened Wrappers
  import opened JsText
  import opened RagContent

  // ---------------------------------------------------------------- inputs

  /** The video the student is watching: chapter title and `MM:SS` / `H:MM:SS` position. */
  datatype VideoContext = VideoContext(videoName: Option<string>, timestamp: Option<string>)

  /** The JSON body; an absent or `null` field is `None`. */
  datatype ChatRequestBody = ChatRequestBody(
    query: Option<string>,
    conversationId: Option<string>,
    videoContext: Option<VideoContext>,
    image: Option<string>,
    imageMimeType: Option<string>,
    courseId: Option<string>,
    lessonId: Option<string>,
    message: Option<string>,
    videoTimestamp: Option<string>,
    videoName: Option<string>)

  /** The request as the handler reads it: a body, or a JSON parse error with its text. */
  datatype ChatRequest = Parsed(body: ChatRequestBody) | Malformed(error: string)

  /** The environment variables the handler consults. */
  datatype Env = Env(
    ragBackendUrl: Option<string>,
    huggingFaceKey: Option<string>,
    openAiKey: Option<string>,
    hfModel: Option<string>)

  /** What the RAG backend did: answered with a status and a JSON body, or threw (unreachable, timeout, bad JSON). */
  datatype RagData = RagData(response: Option<string>, conversationId: Option<string>, steps: Option<seq<string>>, error: Option<string>)
  datatype RagOutcome =
    | RagAnswered(status: int, data: RagData)
    | RagThrew(connectionRefused: bool, message: string)

  /** What the language-model service did: a non-2xx with its text, a 2xx with `choices[0].message.content`, or a throw. */
  datatype LlmOutcome =
    | LlmRejected(status: int, text: string)
    | LlmAnswered(content: Option<string>)
    | LlmThrew(message: string)

  // ---------------------------------------------------------------- outputs

  /** The JSON reply: an error object with its HTTP status, or a 200 with the answer. */
  datatype Reply =
    | ErrorReply(status: int, error: string, details: Option<string>, hint: Option<string>)
    | ContentReply(content: string, conversationId: Option<string>, steps: Option<seq<string>>)
  {
    function Status(): int {
      if ErrorReply? then status else 200
    }
  }

  /** The body forwarded to the RAG backend. */
  datatype RagPayload = RagPayload(
    query: string,
    conversationId: Option<string>,
    videoContext: Option<VideoContext>,
    image: Option<string>,
    imageMimeType: Option<string>)

  datatype Provider = HuggingFace | OpenAi

  /** The handler's first stage: answer at once, or make one outbound call. */
  datatype Action =
    | Respond(reply: Reply)
    | AskRag(backend: string, payload: RagPayload)
    | AskLlm(provider: Provider, model: string, apiKey: string, systemPrompt: string, userContent: string)

  // ---------------------------------------------------------------- constants

  const NoContextSentinel: string := "（目前沒有檢索到與課程相關的內容，請依一般知識回答。）"
  const MissingQueryError: string := "缺少 query 或 message"
  const RagBackendError: string := "RAG 後端錯誤"
  const NoRagResponse: string := "(No response)"
  const RagUnreachableError: string := "無法連線至 RAG 後端"
  const NoKeyError: string := "未設定 LLM API Key"
  const NoKeyHint: string := "請在 .env.local 設定 HUGGINGFACE_API_KEY（推薦）或 OPENAI_API_KEY 以啟用 RAG 助教；或設定 RAG_BACKEND_URL 使用 ML2026 RAG 後端"
  const LlmUnavailableError: string := "LLM 服務暫時無法回應"
  const EmptyReplyApology: string := "抱歉，我暫時無法產生回覆，請再試一次。"
  const ServerError: string := "伺服器錯誤"
  const HfModelDefault: string := "meta-llama/Llama-3.2-3B-Instruct"
  const OpenAiModel: string := "gpt-4o-mini"
  const RetrieveCount: int := 5

  // ---------------------------------------------------------------- configuration

  /** The backend base URL when it is configured and non-empty after stripping (the `if (RAG_BACKEND_URL)` test). */
  function ConfiguredBackend(raw: Option<string>): (r: Option<string>)
    ensures r.Some? <==> raw.Some? && StripTrailingSlash(raw.value) != ""
    ensures r.Some? ==> r.value == StripTrailingSlash(raw.value)
  {
    match raw
    case None => None
    case Some(s) => var u := StripTrailingSlash(s); if u == "" then None else Some(u)
  }

  // ---------------------------------------------------------------- the question

  /** `(body.query ?? body.message ?? "").trim()`. */
  function QueryText(body: ChatRequestBody): string {
    Trim(body.query.GetOr(body.message.GetOr("")))
  }

  /** A present `query`, even an empty one, shadows `message`; `message` counts only when `query` is absent. */
  lemma QueryShadowsMessage(body: ChatRequestBody)
    ensures body.query.Some? ==> QueryText(body) == Trim(body.query.value)
    ensures body.query.None? ==> QueryText(body) == Trim(body.message.GetOr(""))
    ensures body.query == Some("") ==> QueryText(body) == ""
  {
    assert IsBlank("");
  }

  // ---------------------------------------------------------------- context assembly

  /** `【i】title\ncontent`. */
  function ContextEntry(i: nat, c: Chunk): string {
    "【" + NatToString(i) + "】" + c.title + "\n" + c.content
  }

  /** The entries of `chunks`, numbered from 1 in order. */
  function ContextEntries(chunks: seq<Chunk>): (r: seq<string>)
    ensures |r| == |chunks|
    ensures forall i | 0 <= i < |chunks| :: r[i] == ContextEntry(i + 1, chunks[i])
  {
    seq(|chunks|, i requires 0 <= i < |chunks| => ContextEntry(i + 1, chunks[i]))
  }

  /** `buildRAGContext`: the numbered entries separated by blank lines, or the no-content sentinel. */
  function BuildRagContext(chunks: seq<Chunk>): string {
    if |chunks| == 0 then NoContextSentinel else Join(ContextEntries(chunks), "\n\n")
  }

  /** The sentinel comes back exactly when there are no chunks. */
  lemma BuildRagContextSentinel(chunks: seq<Chunk>)
    ensures BuildRagContext(chunks) == NoContextSentinel <==> chunks == []
  {
    if chunks != [] {
      var entries := ContextEntries(chunks);
      JoinStartsWithFirst(entries, "\n\n");
      var first := entries[0];
      assert first[0] == '【';
      assert BuildRagContext(chunks)[0] == first[0];
      assert NoContextSentinel[0] == '（';
    }
  }

  /** One more chunk adds a blank line and its entry, numbered after the others. */
  lemma BuildRagContextAppend(chunks: seq<Chunk>, c: Chunk)
    requires chunks != []
    ensures BuildRagContext(chunks + [c]) == BuildRagContext(chunks) + "\n\n" + ContextEntry(|chunks| + 1, c)
  {
    assert ContextEntries(chunks + [c]) == ContextEntries(chunks) + [ContextEntry(|chunks| + 1, c)];
    JoinAppend(ContextEntries(chunks), ContextEntry(|chunks| + 1, c), "\n\n");
  }

  /** A single chunk's context is its entry numbered 1; every entry shows the chunk's title and content. */
  lemma BuildRagContextSingle(c: Chunk)
    ensures BuildRagContext([c]) == "【1】" + c.title + "\n" + c.content
    ensures Contains(BuildRagContext([c]), c.title) && Contains(BuildRagContext([c]), c.content)
  {
    assert NatToString(1) == "1";
    ContainsInfix("【1】", c.title, "\n" + c.content);
    assert "【1】" + c.title + ("\n" + c.content) == BuildRagContext([c]);
    ContainsInfix("【1】" + c.title + "\n", c.content, "");
    assert "【1】" + c.title + "\n" + c.content + "" == BuildRagContext([c]);
  }

  // ---------------------------------------------------------------- the backend payload

  /**
   * The `video_context` forwarded: the body's own when either of its fields is set, else
   * one built from the legacy `video_name` / `videoTimestamp` when either is set, else none.
   */
  function PayloadVideoContext(body: ChatRequestBody): (r: Option<VideoContext>)
    ensures body.videoContext.Some? && (body.videoContext.value.videoName.Some? || body.videoContext.value.timestamp.Some?)
            ==> r == body.videoContext
    ensures !(body.videoContext.Some? && (body.videoContext.value.videoName.Some? || body.videoContext.value.timestamp.Some?))
            && (body.videoName.Some? || body.videoTimestamp.Some?)
            ==> r == Some(VideoContext(body.videoName, body.videoTimestamp))
    ensures r.None? <==> !(body.videoContext.Some? && (body.videoContext.value.videoName.Some? || body.videoContext.value.timestamp.Some?))
                         && body.videoName.None? && body.videoTimestamp.None?
  {
    if body.videoContext.Some? && (body.videoContext.value.videoName.Some? || body.videoContext.value.timestamp.Some?) then
      body.videoContext
    else if body.videoName.Some? || body.videoTimestamp.Some? then
      Some(VideoContext(body.videoName, body.videoTimestamp))
    else None
  }

  /** The image as forwarded: trimmed, and when it holds a comma, the text between the first comma and the next. */
  function NormaliseImage(image: string): (r: string)
    ensures !Contains(r, ",")
    ensures !Contains(Trim(image), ",") ==> r == Trim(image)
  {
    var t := Trim(image);
    if Contains(t, ",") then
      var parts := Split(t, {','});
      assert |parts| >= 2 by { SplitHasTwoPieces(t, ','); }
      NoneInHasNoComma(parts[1]);
      parts[1]
    else t
  }

  /** A string that includes the separator splits into at least two pieces. */
  lemma SplitHasTwoPieces(s: string, c: char)
    requires Contains(s, [c])
    ensures |Split(s, {c})| >= 2
  {
    ContainsChar(s, c);
    var i :| 0 <= i < |s| && s[i] == c;
    SplitAt(s, c, i);
  }

  lemma {:induction false} SplitAt(s: string, c: char, i: nat)
    requires i < |s| && s[i] == c
    ensures |Split(s, {c})| >= 2
    decreases i
  {
    if i > 0 && s[0] != c {
      SplitAt(s[1..], c, i - 1);
    }
  }

  /** A piece without commas does not include `","`. */
  lemma NoneInHasNoComma(p: string)
    requires NoneIn(p, {','})
    ensures !Contains(p, ",")
  {
    ContainsChar(p, ',');
  }

  /** The payload for the RAG backend. */
  function RagPayloadOf(body: ChatRequestBody, queryText: string): RagPayload {
    var forwardImage := Truthy(body.image) && Truthy(body.imageMimeType);
    RagPayload(
      queryText,
      body.conversationId,
      PayloadVideoContext(body),
      if forwardImage then Some(NormaliseImage(body.image.value)) else None,
      if forwardImage then body.imageMimeType else None)
  }

  /**
   * The payload always carries the question and the conversation id; the video context
   * comes from the first source with a field set; an image goes along only with its type,
   * and without a comma unless the trimmed original had none either.
   */
  lemma RagPayloadShape(body: ChatRequestBody, queryText: string)
    ensures RagPayloadOf(body, queryText).query == queryText
    ensures RagPayloadOf(body, queryText).conversationId == body.conversationId
    ensures RagPayloadOf(body, queryText).videoContext.None?
            <==> (body.videoContext.None? || (body.videoContext.value.videoName.None? && body.videoContext.value.timestamp.None?))
                 && body.videoName.None? && body.videoTimestamp.None?
    ensures RagPayloadOf(body, queryText).videoContext.Some? ==>
              var v := RagPayloadOf(body, queryText).videoContext.value;
              v.videoName.Some? || v.timestamp.Some?
    ensures body.videoContext.Some? && (body.videoContext.value.videoName.Some? || body.videoContext.value.timestamp.Some?)
            ==> RagPayloadOf(body, queryText).videoContext == body.videoContext
    ensures !(body.videoContext.Some? && (body.videoContext.value.videoName.Some? || body.videoContext.value.timestamp.Some?))
            && (body.videoName.Some? || body.videoTimestamp.Some?)
            ==> RagPayloadOf(body, queryText).videoContext == Some(VideoContext(body.videoName, body.videoTimestamp))
    ensures RagPayloadOf(body, queryText).image.Some? <==> Truthy(body.image) && Truthy(body.imageMimeType)
    ensures RagPayloadOf(body, queryText).image.Some? <==> RagPayloadOf(body, queryText).imageMimeType.Some?
    ensures RagPayloadOf(body, queryText).image.Some? ==> RagPayloadOf(body, queryText).imageMimeType == body.imageMimeType
  {
  }

  /** The second `,`-piece of `prefix,data` or `prefix,data,...` is `data`. */
  lemma SplitSecondPiece(prefix: string, data: string, tail: string)
    requires NoneIn(prefix, {','}) && NoneIn(data, {','})
    requires tail == [] || tail[0] == ','
    ensures |Split(prefix + "," + data + tail, {','})| >= 2
    ensures Split(prefix + "," + data + tail, {','})[1] == data
  {
    var rest := data + tail;
    assert prefix + "," + data + tail == prefix + [','] + rest;
    SplitAfterPiece(prefix, ',', rest, {','});
    SplitFirstPiece(data, tail);
  }

  /** The first `,`-piece of `data` or `data,...` is `data`. */
  lemma SplitFirstPiece(data: string, tail: string)
    requires NoneIn(data, {','})
    requires tail == [] || tail[0] == ','
    ensures Split(data + tail, {','})[0] == data
  {
    if tail == [] {
      assert data + tail == data;
      SplitNoSeparator(data, {','});
    } else {
      assert data + tail == data + [','] + tail[1..];
      SplitAfterPiece(data, ',', tail[1..], {','});
    }
  }

  /**
   * Whatever surrounds it, the forwarded image is the text between the first comma of the
   * trimmed value and the next comma (or the end).
   */
  lemma ImageSegment(image: string, prefix: string, data: string, tail: string)
    requires NoneIn(prefix, {','}) && NoneIn(data, {','})
    requires tail == [] || tail[0] == ','
    requires Trim(image) == prefix + "," + data + tail
    ensures NormaliseImage(image) == data
  {
    ContainsInfix(prefix, ",", data + tail);
    assert prefix + "," + (data + tail) == Trim(image);
    SplitSecondPiece(prefix, data, tail);
  }

  /** A data-URI prefix is cut off: `data:image/png;base64,XYZ` forwards `XYZ`. */
  lemma NormaliseImageDropsPrefix(prefix: string, data: string)
    requires NoneIn(prefix, {','}) && NoneIn(data, {','})
    requires prefix != [] && !IsSpace(prefix[0]) && data != [] && !IsSpace(data[|data| - 1])
    ensures NormaliseImage(prefix + "," + data) == data
  {
    var s := prefix + "," + data;
    assert !IsSpace(s[0]) && !IsSpace(s[|s| - 1]);
    TrimOfTrimmed(s);
    ContainsInfix(prefix, ",", data);
    SplitAfterPiece(prefix, ',', data, {','});
    SplitNoSeparator(data, {','});
  }

  // ---------------------------------------------------------------- local prompt

  /** `body.video_context?.timestamp ?? body.videoTimestamp`. */
  function VideoTimestamp(body: ChatRequestBody): Option<string> {
    if body.videoContext.Some? && body.videoContext.value.timestamp.Some? then body.videoContext.value.timestamp
    else body.videoTimestamp
  }

  /** The time-hint line: empty unless the timestamp is a non-empty string. */
  function TimeHint(ts: Option<string>): (r: string)
    ensures r != "" <==> Truthy(ts)
    ensures Truthy(ts) ==> Contains(r, ts.value)
  {
    if Truthy(ts) then
      var r := "使用者目前影片時間戳：" + ts.value + "，若問題與影片內容有關可一併參考。";
      ContainsInfix("使用者目前影片時間戳：", ts.value, "，若問題與影片內容有關可一併參考。");
      r
    else ""
  }

  /** The system prompt around the retrieved context and the time hint. */
  function SystemPrompt(context: string, timeHint: string): (r: string)
    ensures Contains(r, context) && Contains(r, timeHint)
  {
    var head := "你是這門課的 AI 助教，用繁體中文回答。請根據以下「課程相關內容」優先回答學生的問題；若內容不足以回答，可簡要補充並建議查閱教材或課堂錄影。\n\n課程相關內容：\n";
    var tail := "\n\n回答時簡潔、友善，必要時可列點或使用 Markdown。";
    ContainsInfix(head, context, "\n" + timeHint + tail);
    ContainsInfix(head + context + "\n", timeHint, tail);
    assert head + context + ("\n" + timeHint + tail) == head + context + "\n" + timeHint + tail;
    head + context + "\n" + timeHint + tail
  }

  // ---------------------------------------------------------------- the decision

  /** The system prompt for a question answered locally: the top five chunks in scope and the time hint. */
  function LocalPrompt(table: seq<Chunk>, body: ChatRequestBody, q: string): string {
    var chunks := RetrieveFrom(table, q, body.courseId.GetOr(""), body.lessonId, RetrieveCount);
    SystemPrompt(BuildRagContext(chunks), TimeHint(VideoTimestamp(body)))
  }

  /** The model call: Hugging Face when its key is set, else OpenAI. */
  function AskModel(env: Env, prompt: string, q: string): Action
    requires Truthy(env.huggingFaceKey) || Truthy(env.openAiKey)
  {
    if Truthy(env.huggingFaceKey) then
      AskLlm(HuggingFace, env.hfModel.GetOr(HfModelDefault), env.huggingFaceKey.value, prompt, q)
    else
      AskLlm(OpenAi, OpenAiModel, env.openAiKey.value, prompt, q)
  }

  /** The first stage of `POST`, with retrieval over `table`. */
  function Dispatch(table: seq<Chunk>, env: Env, request: ChatRequest): Action {
    match request
    case Malformed(e) => Respond(ErrorReply(500, ServerError, Some(e), None))
    case Parsed(body) =>
      var q := QueryText(body);
      if q == "" then Respond(ErrorReply(400, MissingQueryError, None, None))
      else if ConfiguredBackend(env.ragBackendUrl).Some? then
        AskRag(ConfiguredBackend(env.ragBackendUrl).value, RagPayloadOf(body, q))
      else if !Truthy(env.huggingFaceKey) && !Truthy(env.openAiKey) then
        Respond(ErrorReply(503, NoKeyError, None, Some(NoKeyHint)))
      else AskModel(env, LocalPrompt(table, body, q), q)
  }

  /** The hint for an unreachable backend: how to start it when the connection was refused, else the error text. */
  function UnreachableHint(backend: string, connectionRefused: bool, message: string): string {
    if connectionRefused then "請確認 RAG 後端已啟動（" + backend + "），或移除 .env 中的 RAG_BACKEND_URL 以改用本地 RAG。"
    else message
  }

  /** The reply relayed from the RAG backend. */
  function AfterRag(backend: string, outcome: RagOutcome): Reply {
    match outcome
    case RagAnswered(status, data) =>
      if 200 <= status < 300 then ContentReply(data.response.GetOr(NoRagResponse), data.conversationId, data.steps)
      else ErrorReply(if status >= 500 then 502 else status, data.error.GetOr(RagBackendError), Some(IntToString(status)), None)
    case RagThrew(refused, message) =>
      ErrorReply(503, RagUnreachableError, None, Some(UnreachableHint(backend, refused, message)))
  }

  /** `content?.trim() || "抱歉…"`: a missing or blank answer becomes the apology. */
  function AnswerOrApology(content: Option<string>): (r: string)
    ensures r != "" && !IsBlank(r)
    ensures content.Some? && !IsBlank(content.value) ==> r == Trim(content.value)
    ensures (content.None? || IsBlank(content.value)) ==> r == EmptyReplyApology
  {
    assert !IsSpace(EmptyReplyApology[0]);
    if content.Some? && Trim(content.value) != "" then
      var t := Trim(content.value);
      assert !IsSpace(t[0]);
      t
    else EmptyReplyApology
  }

  /** The reply relayed from the language model; Hugging Face errors keep 300 characters, OpenAI's 200. */
  function AfterLlm(provider: Provider, outcome: LlmOutcome): Reply {
    match outcome
    case LlmRejected(_, text) =>
      ErrorReply(502, LlmUnavailableError, Some(Take(text, if provider == HuggingFace then 300 else 200)), None)
    case LlmAnswered(content) => ContentReply(AnswerOrApology(content), None, None)
    case LlmThrew(message) => ErrorReply(500, ServerError, Some(message), None)
  }

  /** `POST /api/chat` over a chunk table, given what the backend and the model would do. */
  function HandleWith(table: seq<Chunk>, env: Env, request: ChatRequest, rag: RagOutcome, llm: LlmOutcome): Reply {
    match Dispatch(table, env, request)
    case Respond(r) => r
    case AskRag(backend, _) => AfterRag(backend, rag)
    case AskLlm(provider, _, _, _, _) => AfterLlm(provider, llm)
  }

  /** `POST /api/chat` with the built-in knowledge base. */
  function Handle(env: Env, request: ChatRequest, rag: RagOutcome, llm: LlmOutcome): Reply {
    HandleWith(RagChunks, env, request, rag, llm)
  }

  // ---------------------------------------------------------------- properties

  /** An empty question is a 400 before any outbound call, and only an empty question is. */
  lemma EmptyQueryRejected(table: seq<Chunk>, env: Env, request: ChatRequest)
    ensures Dispatch(table, env, request) == Respond(ErrorReply(400, MissingQueryError, None, None))
            <==> request.Parsed? && QueryText(request.body) == ""
    ensures request.Parsed? && QueryText(request.body) == "" ==>
              forall rag, llm :: HandleWith(table, env, request, rag, llm).Status() == 400
  {
    if request.Parsed? && QueryText(request.body) != "" {
      var a := Dispatch(table, env, request);
      if ConfiguredBackend(env.ragBackendUrl).Some? {
        assert a.AskRag?;
      } else if !Truthy(env.huggingFaceKey) && !Truthy(env.openAiKey) {
        assert a.reply.status == 503;
      } else {
        assert a.AskLlm?;
      }
    }
  }

  /** With a backend configured the model is never asked, and the reply depends only on the backend. */
  lemma BackendBypassesModel(table: seq<Chunk>, env: Env, request: ChatRequest, rag: RagOutcome, llm1: LlmOutcome, llm2: LlmOutcome)
    requires request.Parsed? && QueryText(request.body) != ""
    requires ConfiguredBackend(env.ragBackendUrl).Some?
    ensures Dispatch(table, env, request).AskRag?
    ensures Dispatch(table, env, request).payload == RagPayloadOf(request.body, QueryText(request.body))
    ensures HandleWith(table, env, request, rag, llm1) == HandleWith(table, env, request, rag, llm2)
  {
  }

  /**
   * A backend error keeps a client status and turns a server status into 502, with the
   * backend's error text or the default and the status as details; a 2xx relays the answer.
   */
  lemma RagStatusMapping(backend: string, status: int, data: RagData)
    ensures var r := AfterRag(backend, RagAnswered(status, data));
            && (r.ContentReply? <==> 200 <= status < 300)
            && (r.ErrorReply? ==> r.status == (if status >= 500 then 502 else status)
                                  && r.status != 503 && r.status != 500
                                  && r.details == Some(IntToString(status))
                                  && (data.error.Some? ==> r.error == data.error.value)
                                  && (data.error.None? ==> r.error == RagBackendError))
            && (r.ContentReply? ==> r.content == (if data.response.Some? then data.response.value else NoRagResponse)
                                    && r.conversationId == data.conversationId && r.steps == data.steps)
  {
  }

  /**
   * An unreachable backend is always 503 with the unreachable message and a hint: how to start
   * the backend when the connection was refused, the raw failure message otherwise.
   */
  lemma RagUnreachable(backend: string, refused: bool, message: string)
    ensures AfterRag(backend, RagThrew(refused, message)).Status() == 503
    ensures AfterRag(backend, RagThrew(refused, message)).ErrorReply?
    ensures AfterRag(backend, RagThrew(refused, message)).error == RagUnreachableError
    ensures AfterRag(backend, RagThrew(refused, message)).details.None?
    ensures AfterRag(backend, RagThrew(refused, message)).hint.Some?
    ensures refused ==> Contains(AfterRag(backend, RagThrew(refused, message)).hint.value, backend)
    ensures !refused ==> AfterRag(backend, RagThrew(refused, message)).hint == Some(message)
  {
    ContainsInfix("請確認 RAG 後端已啟動（", backend, "），或移除 .env 中的 RAG_BACKEND_URL 以改用本地 RAG。");
  }

  /**
   * The two paths that land in the outer `catch`: a body that is not JSON, and a model call
   * that throws. Both answer 500 with the server error and the failure's text as details.
   */
  lemma ServerErrorPaths(table: seq<Chunk>, env: Env, request: ChatRequest, rag: RagOutcome, llm: LlmOutcome)
    ensures request.Malformed? ==>
              HandleWith(table, env, request, rag, llm) == ErrorReply(500, ServerError, Some(request.error), None)
    ensures Dispatch(table, env, request).AskLlm? && llm.LlmThrew? ==>
              HandleWith(table, env, request, rag, llm) == ErrorReply(500, ServerError, Some(llm.message), None)
  {
  }

  /** Without a backend and without any key the answer is 503 and no model is asked. */
  lemma NoKeyRefused(table: seq<Chunk>, env: Env, request: ChatRequest, rag: RagOutcome, llm: LlmOutcome)
    requires request.Parsed? && QueryText(request.body) != ""
    requires ConfiguredBackend(env.ragBackendUrl).None?
    requires !Truthy(env.huggingFaceKey) && !Truthy(env.openAiKey)
    ensures !Dispatch(table, env, request).AskLlm? && !Dispatch(table, env, request).AskRag?
    ensures HandleWith(table, env, request, rag, llm) == ErrorReply(503, NoKeyError, None, Some(NoKeyHint))
  {
  }

  /** A Hugging Face key wins over an OpenAI key; OpenAI is asked only without one. */
  lemma KeyPrecedence(table: seq<Chunk>, env: Env, request: ChatRequest)
    requires request.Parsed? && QueryText(request.body) != ""
    requires ConfiguredBackend(env.ragBackendUrl).None?
    requires Truthy(env.huggingFaceKey) || Truthy(env.openAiKey)
    ensures var a := Dispatch(table, env, request);
            && a.AskLlm?
            && (a.provider == HuggingFace <==> Truthy(env.huggingFaceKey))
            && (a.provider == HuggingFace ==> a.apiKey == env.huggingFaceKey.value && a.model == env.hfModel.GetOr(HfModelDefault))
            && (a.provider == OpenAi ==> a.apiKey == env.openAiKey.value && a.model == OpenAiModel)
            && a.systemPrompt == LocalPrompt(table, request.body, QueryText(request.body))
            && a.userContent == QueryText(request.body)
  {
    var q := QueryText(request.body);
    assert Dispatch(table, env, request) == AskModel(env, LocalPrompt(table, request.body, q), q);
  }

  /** The local prompt holds the context of at most five retrieved chunks, and the timestamp when one is given. */
  lemma PromptHoldsContext(table: seq<Chunk>, body: ChatRequestBody, q: string)
    ensures var chunks := RetrieveFrom(table, q, body.courseId.GetOr(""), body.lessonId, RetrieveCount);
            && |chunks| <= 5
            && Contains(LocalPrompt(table, body, q), BuildRagContext(chunks))
            && (Truthy(VideoTimestamp(body)) ==> Contains(LocalPrompt(table, body, q), VideoTimestamp(body).value))
  {
    RetrieveShape(table, q, body.courseId.GetOr(""), body.lessonId, RetrieveCount);
    var hint := TimeHint(VideoTimestamp(body));
    var prompt := LocalPrompt(table, body, q);
    if Truthy(VideoTimestamp(body)) {
      ContainsTransitive(prompt, hint, VideoTimestamp(body).value);
    }
  }

  /** A 2xx from the model always yields a non-blank answer: its trimmed content, or the apology. */
  lemma ModelAnswerNeverBlank(provider: Provider, content: Option<string>)
    ensures AfterLlm(provider, LlmAnswered(content)).ContentReply?
    ensures !IsBlank(AfterLlm(provider, LlmAnswered(content)).content)
    ensures content.Some? && !IsBlank(content.value) ==> AfterLlm(provider, LlmAnswered(content)).content == Trim(content.value)
  {
  }

  /**
   * A model error is 502 with the unavailable message, and its details are the first 300
   * (Hugging Face) or 200 (OpenAI) characters of the error text, or all of a shorter text.
   */
  lemma ModelErrorTruncated(provider: Provider, status: int, text: string)
    ensures AfterLlm(provider, LlmRejected(status, text)).Status() == 502
    ensures AfterLlm(provider, LlmRejected(status, text)).ErrorReply?
    ensures AfterLlm(provider, LlmRejected(status, text)).error == LlmUnavailableError
    ensures AfterLlm(provider, LlmRejected(status, text)).details.Some?
    ensures var limit := if provider == HuggingFace then 300 else 200;
            var d := AfterLlm(provider, LlmRejected(status, text)).details.value;
            |d| == (if |text| <= limit then |text| else limit) && d == text[..|d|]
  {
  }
}
