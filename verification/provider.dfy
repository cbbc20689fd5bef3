/** Request preparation, stream accumulation and error texts of the
    language-model service (wispr_bot/services/openai_service.py). The
    provider itself is an oracle: what it would stream, return or raise is a
    parameter. */
module Provider {
  import opened Wrappers
  import opened Text
  import opened ChatModel
  import Config

  /** Appended to (or inserted as) the system message of every request. */
  const MarkdownInstruction :=
    "Пожалуйста, используйте Markdown для форматирования текста. "
    + "Telegram поддерживает следующие элементы Markdown: "
    + "*курсив*, **жирный**, `код`, ```предварительно отформатированный код```, "
    + "[текст ссылки](URL). Обратите внимание, что символы '_', '*', '`', '[' "
    + "должны быть экранированы с помощью '\\', если они не используются для форматирования."

  const EmptyMessagesText := ErrorMarker + ": Пустой массив сообщений для API"
  const InvalidFormatText := ErrorMarker + ": Некорректный формат сообщения"
  const EmptyStreamText := ErrorMarker + ": API вернуло пустой ответ"
  const EmptyAnswerText := "⚠️ Пустой ответ от API"
  const RateLimitText := "⚠️ Превышен" + " лимит запросов к OpenAI. Пожалуйста, попробуйте позже."
  const AuthText := "⚠️ API" + " ключ OpenAI недействителен. Пожалуйста, проверьте ваш API ключ."
  const ConnectionPrefix := ErrorMarker + " соединения с OpenAI: "

  /** The exceptions the service tells apart. */
  datatype ProviderFailure = RateLimited | AuthenticationFailed | OtherFailure(detail: string)

  /** The text a failure is turned into by the `except` clauses. */
  function FailureText(f: ProviderFailure): (t: string)
    ensures |t| > 0
  {
    match f
    case RateLimited => RateLimitText
    case AuthenticationFailed => AuthText
    case OtherFailure(d) => ConnectionPrefix + d
  }

  /** Only the generic failure text carries the error marker; the rate-limit
      and authentication texts read as ordinary content to every marker test. */
  lemma FailureMarker(f: ProviderFailure)
    ensures IsErrorText(FailureText(f)) <==> f.OtherFailure?
  {
    match f
    case RateLimited =>
      var t := FailureText(f);
      assert t[3] == 'П';
      NotStartsWithAt(t, ErrorMarker, 3);
    case AuthenticationFailed =>
      var t := FailureText(f);
      assert t[3] == 'A';
      NotStartsWithAt(t, ErrorMarker, 3);
    case OtherFailure(d) =>
      assert (ConnectionPrefix + d)[..|ErrorMarker|] == ErrorMarker;
  }

  /** The three kinds of failure are told apart by their texts. */
  lemma FailureTextsDistinct(f: ProviderFailure, g: ProviderFailure)
    requires f.RateLimited? || f.AuthenticationFailed?
    requires f != g
    ensures FailureText(f) != FailureText(g)
  {
    FailureMarker(f);
    FailureMarker(g);
    if g.RateLimited? || g.AuthenticationFailed? {
      assert FailureText(f)[3] != FailureText(g)[3];
    }
  }

  /** A prompt entry as a dictionary: either key may be missing. */
  datatype WireMessage = WireMessage(role: Option<Role>, content: Option<string>)

  function ToWire(e: Entry): WireMessage {
    WireMessage(Some(e.role), Some(e.content))
  }

  const InstructionMessage := WireMessage(Some(SystemRole), Some(MarkdownInstruction))

  /** What is sent to the provider. */
  datatype Request = Request(model: string, messages: seq<WireMessage>)

  /** The requested model if the configuration offers it, else the default. */
  function ChooseModel(model: string, cfg: Config.Settings): (m: string)
    ensures model in cfg.availableModels ==> m == model
    ensures model !in cfg.availableModels ==> m == cfg.defaultModel
  {
    if model in cfg.availableModels then model else cfg.defaultModel
  }

  /** Index of the first system message, or the length when there is none. */
  function FirstSystem(ms: seq<WireMessage>): (i: nat)
    ensures i <= |ms|
    ensures forall k :: 0 <= k < i ==> ms[k].role != Some(SystemRole)
    ensures i < |ms| ==> ms[i].role == Some(SystemRole)
  {
    if |ms| == 0 then 0
    else if ms[0].role == Some(SystemRole) then 0
    else 1 + FirstSystem(ms[1..])
  }

  predicate WellFormed(m: WireMessage) {
    m.role.Some? && m.content.Some?
  }

  /** The `'role' not in msg or 'content' not in msg` check, over the whole list. */
  predicate AllWellFormed(ms: seq<WireMessage>) {
    forall k :: 0 <= k < |ms| ==> WellFormed(ms[k])
  }

  /** An empty content becomes a single space. */
  function FillEmpty(m: WireMessage): WireMessage {
    if m.content == Some("") then m.(content := Some(" ")) else m
  }

  /** `FillEmpty` applied to every message, in order. */
  function FillAll(ms: seq<WireMessage>): (r: seq<WireMessage>)
    ensures |r| == |ms|
    ensures forall k :: 0 <= k < |ms| ==> r[k] == FillEmpty(ms[k])
  {
    if |ms| == 0 then [] else [FillEmpty(ms[0])] + FillAll(ms[1..])
  }

  /** The Markdown instruction merged into the list: appended to the first
      system message, or put in front when there is none. `None` is the
      `KeyError` of a system message without content. */
  function WithInstruction(ms: seq<WireMessage>): (r: Option<seq<WireMessage>>)
    ensures var i := FirstSystem(ms);
      i < |ms| ==> (r.Some? <==> ms[i].content.Some?)
    ensures var i := FirstSystem(ms);
      i < |ms| && r.Some? ==>
        && |r.value| == |ms|
        && r.value[i] == WireMessage(Some(SystemRole), Some(ms[i].content.value + " " + MarkdownInstruction))
        && forall k :: 0 <= k < |ms| && k != i ==> r.value[k] == ms[k]
    ensures FirstSystem(ms) == |ms| ==> r == Some([InstructionMessage] + ms)
  {
    var i := FirstSystem(ms);
    if i == |ms| then Some([InstructionMessage] + ms)
    else if ms[i].content.None? then None
    else Some(ms[i := ms[i].(content := Some(ms[i].content.value + " " + MarkdownInstruction))])
  }

  /** Merging the instruction neither repairs nor breaks a malformed list. */
  lemma WithInstructionWellFormed(ms: seq<WireMessage>)
    requires WithInstruction(ms).Some?
    ensures AllWellFormed(WithInstruction(ms).value) <==> AllWellFormed(ms)
  {
    var w := WithInstruction(ms).value;
    if FirstSystem(ms) == |ms| {
      assert forall k :: 0 <= k < |ms| ==> w[k + 1] == ms[k];
    }
  }

  /** The preparation shared by `generate_response` and
      `generate_response_stream`; the failure side is the text yielded or
      returned instead of calling the provider. */
  function PrepareRequest(ms: seq<WireMessage>, model: string, cfg: Config.Settings): (r: Result<Request, string>)
    ensures |ms| == 0 ==> r == Failure(EmptyMessagesText)
    ensures r.Success? <==> |ms| > 0 && AllWellFormed(ms)
    ensures r.Failure? && |ms| > 0 ==>
      r.error == InvalidFormatText || r.error == ConnectionPrefix + "'content'"
    ensures r.Success? ==> r.value.model == ChooseModel(model, cfg)
    ensures r.Success? ==> forall k :: 0 <= k < |r.value.messages| ==>
      WellFormed(r.value.messages[k]) && r.value.messages[k].content != Some("")
  {
    if |ms| == 0 then Failure(EmptyMessagesText)
    else match WithInstruction(ms)
      case None => Failure(ConnectionPrefix + "'content'")
      case Some(withInstr) =>
        WithInstructionWellFormed(ms);
        if !AllWellFormed(withInstr) then Failure(InvalidFormatText)
        else Success(Request(ChooseModel(model, cfg), FillAll(withInstr)))
  }

  /** How a successful preparation relates to its input: same order, one
      message longer exactly when the instruction was inserted, the first
      system message extended, empty contents replaced by a space, nothing else changed. */
  lemma PrepareShape(ms: seq<WireMessage>, model: string, cfg: Config.Settings)
    requires PrepareRequest(ms, model, cfg).Success?
    ensures var out := PrepareRequest(ms, model, cfg).value.messages;
      var i := FirstSystem(ms);
      && (i < |ms| ==>
            && |out| == |ms|
            && out[i] == WireMessage(Some(SystemRole), Some(ms[i].content.value + " " + MarkdownInstruction))
            && forall k :: 0 <= k < |ms| && k != i ==> out[k] == FillEmpty(ms[k]))
      && (i == |ms| ==>
            && |out| == |ms| + 1
            && out[0] == InstructionMessage
            && forall k :: 0 <= k < |ms| ==> out[k + 1] == FillEmpty(ms[k]))
  {
    var w := WithInstruction(ms).value;
    var i := FirstSystem(ms);
    if i < |ms| {
      assert w[i].content.value != "";
    }
  }

  /** The non-empty delta contents, in arrival order; a chunk with no
      choices, no delta or an empty delta is `None` or `Some("")`. */
  function Deltas(chunks: seq<Option<string>>): (ds: seq<string>)
    ensures |ds| <= |chunks|
    ensures forall k :: 0 <= k < |ds| ==> ds[k] != ""
  {
    if |chunks| == 0 then []
    else (if Truthy(chunks[0]) then [chunks[0].value] else []) + Deltas(chunks[1..])
  }

  /** The `full_response += delta.content; yield full_response` loop,
      starting from the text `acc` accumulated so far. */
  function Accumulate(chunks: seq<Option<string>>, acc: string): (ys: seq<string>)
    ensures |ys| == |Deltas(chunks)|
    ensures forall k :: 0 <= k < |ys| ==> ys[k] == acc + Concat(Deltas(chunks)[..k + 1])
  {
    if |chunks| == 0 then []
    else if !Truthy(chunks[0]) then
      assert Deltas(chunks) == Deltas(chunks[1..]);
      Accumulate(chunks[1..], acc)
    else
      var d := chunks[0].value;
      var rest := Accumulate(chunks[1..], acc + d);
      var ds := Deltas(chunks);
      assert ds == [d] + Deltas(chunks[1..]);
      forall k | 0 <= k < |ds| ensures ([acc + d] + rest)[k] == acc + Concat(ds[..k + 1]) {
        ConcatCons(d, Deltas(chunks[1..])[..k]);
        assert ds[..k + 1] == [d] + Deltas(chunks[1..])[..k];
      }
      [acc + d] + rest
  }

  /** Every yield extends the previous one: the stream only ever grows. */
  lemma {:induction false} AccumulateGrows(chunks: seq<Option<string>>, j: nat, k: nat)
    requires j < k < |Accumulate(chunks, "")|
    ensures var ys := Accumulate(chunks, "");
      StartsWith(ys[k], ys[j]) && |ys[j]| < |ys[k]|
  {
    var ds := Deltas(chunks);
    ConcatPrefix(ds[..k + 1], j + 1);
    assert ds[..k + 1][..j + 1] == ds[..j + 1];
  }

  /** What the provider does with a request: the chunks it streams before
      ending, and the exception it raises instead of ending normally. */
  datatype ProviderRun = ProviderRun(chunks: seq<Option<string>>, failure: Option<ProviderFailure>)

  /** The body of `generate_response_stream` once a request exists: the
      cumulative yields, then the failure text if one was raised, or the
      empty-stream text when nothing arrived. */
  function StreamBody(run: ProviderRun): (ys: seq<string>)
    ensures |ys| >= 1 && |ys| >= |Deltas(run.chunks)|
    ensures ys[..|Deltas(run.chunks)|] == Accumulate(run.chunks, "")
    ensures run.failure.Some? ==> ys[|ys| - 1] == FailureText(run.failure.value)
    ensures run.failure.None? && |Deltas(run.chunks)| == 0 ==> ys == [EmptyStreamText]
    ensures run.failure.None? && |Deltas(run.chunks)| > 0 ==> ys == Accumulate(run.chunks, "")
  {
    var ys := Accumulate(run.chunks, "");
    var tail := if run.failure.Some? then [FailureText(run.failure.value)]
                else if |ys| == 0 then [EmptyStreamText] else [];
    assert (ys + tail)[..|ys|] == ys;
    ys + tail
  }

  /** The outcome of one `generate_response_stream` call: whether the
      provider was called, with which request, and every yielded text. */
  datatype StreamCall = StreamCall(request: Option<Request>, texts: seq<string>)

  /** `OpenAIService.generate_response_stream`. */
  function GenerateResponseStream(ms: seq<WireMessage>, model: string, cfg: Config.Settings, run: ProviderRun): (r: StreamCall)
    ensures |ms| == 0 ==> r == StreamCall(None, [EmptyMessagesText])
    ensures r.request.Some? <==> PrepareRequest(ms, model, cfg).Success?
    ensures r.request.None? ==> r.texts == [PrepareRequest(ms, model, cfg).error]
    ensures r.request.Some? ==> r.texts == StreamBody(run)
  {
    match PrepareRequest(ms, model, cfg)
    case Failure(t) => StreamCall(None, [t])
    case Success(req) => StreamCall(Some(req), StreamBody(run))
  }

  /** A provider that fails before sending any content makes the stream
      body the failure text and nothing else. */
  lemma FailureOnlyBody(f: ProviderFailure)
    ensures StreamBody(ProviderRun([], Some(f))) == [FailureText(f)]
  {
    assert Deltas([]) == [];
  }

  /** Every text of a stream body is non-empty. */
  lemma StreamBodyNonEmpty(run: ProviderRun)
    ensures forall k :: 0 <= k < |StreamBody(run)| ==> StreamBody(run)[k] != ""
  {
    var acc := Accumulate(run.chunks, "");
    forall k | 0 <= k < |acc| ensures acc[k] != "" {
      ConcatPrefix(Deltas(run.chunks)[..k + 1], k);
    }
  }

  /** Every text a stream call yields is non-empty, and there is at least one. */
  lemma StreamYieldsNonEmpty(ms: seq<WireMessage>, model: string, cfg: Config.Settings, run: ProviderRun)
    ensures var ys := GenerateResponseStream(ms, model, cfg, run).texts;
      |ys| >= 1 && forall k :: 0 <= k < |ys| ==> ys[k] != ""
  {
    StreamBodyNonEmpty(run);
  }

  /** What a non-streaming completion call returned: the `message.content`
      of each choice, or the exception raised. */
  datatype Completion = Choices(contents: seq<Option<string>>) | CompletionFailed(failure: ProviderFailure)

  /** `OpenAIService.generate_response`. */
  function GenerateResponse(ms: seq<WireMessage>, model: string, cfg: Config.Settings, answer: Completion): (t: string)
    ensures |t| > 0
    ensures |ms| == 0 ==> t == EmptyMessagesText
    ensures PrepareRequest(ms, model, cfg).Failure? ==> t == PrepareRequest(ms, model, cfg).error
    ensures PrepareRequest(ms, model, cfg).Success? && answer == Choices([]) ==> t == EmptyStreamText
    ensures PrepareRequest(ms, model, cfg).Success? && answer.Choices? && |answer.contents| > 0 ==>
      (Truthy(answer.contents[0]) ==> t == answer.contents[0].value)
      && (!Truthy(answer.contents[0]) ==> t == EmptyAnswerText)
    ensures PrepareRequest(ms, model, cfg).Success? && answer.CompletionFailed? ==>
      t == FailureText(answer.failure)
  {
    match PrepareRequest(ms, model, cfg)
    case Failure(e) => e
    case Success(_) =>
      match answer
      case CompletionFailed(f) => FailureText(f)
      case Choices(cs) =>
        if |cs| == 0 then EmptyStreamText
        else if Truthy(cs[0]) then cs[0].value else EmptyAnswerText
  }

  const ValidSizes := ["1024x1024", "1792x1024", "1024x1792"]
  const DefaultSize := "1024x1024"

  /** One entry of an image response's `data`. `revisedPrompt` is `None`
      when the attribute is absent. */
  datatype ImageItem = ImageItem(url: Option<string>, revisedPrompt: Option<string>)

  datatype ImageAnswer = ImageData(items: seq<ImageItem>) | ImageFailed(failure: ProviderFailure)

  /** The dictionary `generate_image` returns. */
  datatype ImageResult = ImageSuccess(url: string, revisedPrompt: string) | ImageError(error: string)

  /** The error texts of `generate_image`; unlike the chat texts they carry no warning sign. */
  const ImageRateLimitText := "Превышен лимит" + " запросов к OpenAI. Пожалуйста, попробуйте позже."
  const ImageAuthText := "API ключ OpenAI" + " недействителен. Пожалуйста, проверьте ваш API ключ."
  const ImageFailurePrefix := "Ошибка при генерации изображения: "
  const ImageEmptyText := "Получен пустой ответ" + " от API при генерации изображения"
  const ImageNoUrlText := "URL изображения" + " отсутствует в ответе API"

  /** The size sent to the provider. */
  function CoerceSize(size: string): (s: string)
    ensures s in ValidSizes
    ensures size in ValidSizes ==> s == size
    ensures size !in ValidSizes ==> s == DefaultSize
  {
    if size in ValidSizes then size else DefaultSize
  }

  /** `OpenAIService.generate_image`: the size actually requested and the result. */
  function GenerateImage(prompt: string, size: string, answer: ImageAnswer): (r: (string, ImageResult))
    ensures r.0 == CoerceSize(size)
    ensures r.1.ImageSuccess? <==> answer.ImageData? && |answer.items| > 0 && Truthy(answer.items[0].url)
    ensures r.1.ImageSuccess? ==>
      r.1.url == answer.items[0].url.value && r.1.revisedPrompt == answer.items[0].revisedPrompt.GetOr(prompt)
    ensures r.1.ImageError? ==> |r.1.error| > 0
  {
    var s := CoerceSize(size);
    match answer
    case ImageFailed(f) =>
      (s, ImageError(match f
        case RateLimited => ImageRateLimitText
        case AuthenticationFailed => ImageAuthText
        case OtherFailure(d) => ImageFailurePrefix + d))
    case ImageData(items) =>
      if |items| == 0 then (s, ImageError(ImageEmptyText))
      else if !Truthy(items[0].url) then (s, ImageError(ImageNoUrlText))
      else (s, ImageSuccess(items[0].url.value, items[0].revisedPrompt.GetOr(prompt)))
  }
}
