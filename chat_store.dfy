/** The chat client of `api`: the chat record and its settings, the chat backend and the Ollama
    model as collaborators that answer or fail, and the `ChatStore` that keeps the current chat's
    message log and runs one conversational turn in `SendMessage`. */
module ChatStore {
  import opened Wrappers
  import opened Strings

  /** The three sender roles the backend knows. */
  const SenderUser := "user"
  const SenderAssistant := "assistant"
  const SenderSystem := "system"

  /** The only key `SendMessage` puts in the model options. */
  const ModelKey := "model"

  const EmptyInputText := "current chat ID or content is empty"
  const EmptyReplyText := "received empty response from Ollama API"

  datatype User = User(id: string, email: string)

  /** One message of a chat; the role is whatever text the backend stored. */
  datatype Message = Message(id: int, chatId: string, role: string, content: string)

  datatype SttSettings = SttSettings(
    language: Option<string>,
    beamSize: Option<int>,
    bestOf: Option<int>,
    patience: Option<int>,
    noSpeechThreshold: Option<int>,
    temperature: Option<real>,
    hallucinationSilenceThreshold: Option<int>)

  /** Language-model settings; `None` is an unset (nil) field. */
  datatype LlmSettings = LlmSettings(
    seed: Option<int>,
    model: Option<string>,
    systemPrompt: Option<string>,
    mirostat: Option<int>,
    mirostatEta: Option<real>,
    mirostatTau: Option<real>,
    numCtx: Option<int>,
    repeatLastN: Option<int>,
    repeatPenalty: Option<real>,
    temperature: Option<real>,
    tfsZ: Option<real>,
    numPredict: Option<int>,
    topK: Option<int>,
    topP: Option<real>,
    minP: Option<real>)

  datatype TtsSettings = TtsSettings(voice: string, speed: Option<real>)

  datatype AsteriskSettings = AsteriskSettings(
    minAudioLength: Option<int>,
    silenceThreshold: Option<int>,
    host: string,
    number: string)

  datatype Settings = Settings(stt: SttSettings, llm: LlmSettings, tts: TtsSettings, asterisk: AsteriskSettings)

  /** The zero value of the settings: nothing set, empty texts. */
  const NoSettings := Settings(
    SttSettings(None, None, None, None, None, None, None),
    LlmSettings(None, None, None, None, None, None, None, None, None, None, None, None, None, None, None),
    TtsSettings("", None),
    AsteriskSettings(None, None, "", ""))

  datatype Chat = Chat(id: string, title: string, messages: seq<Message>, settings: Settings)

  /** The zero value of a chat. */
  const NoChat := Chat("", "", [], NoSettings)

  datatype OllamaMessage = OllamaMessage(role: string, content: string)

  datatype OllamaChatRequest = OllamaChatRequest(
    model: string,
    messages: seq<OllamaMessage>,
    stream: bool,
    options: map<string, string>)

  /** The model's reply, of which only the message content is used. */
  datatype OllamaChatResponse = OllamaChatResponse(content: string)

  /** The chat backend as an oracle: storing a message (chat, sender, content) and fetching a chat. */
  datatype ChatApi = ChatApi(
    sendMessage: (string, string, string) -> Result<Message>,
    getChat: string -> Result<Chat>)

  /** The Ollama model as an oracle. */
  datatype OllamaApi = OllamaApi(chat: OllamaChatRequest -> Result<OllamaChatResponse>)

  /** A request the store makes of a collaborator. */
  datatype ApiCall =
    | PostMessage(chatId: string, sender: string, content: string)
    | AskOllama(request: OllamaChatRequest)

  /** The role a stored message takes in the model's history: the three known roles map to
      themselves, any other text to the system role. */
  function RoleName(role: string): (r: string)
    ensures r == SenderUser || r == SenderAssistant || r == SenderSystem
    ensures r == role <==> role == SenderUser || role == SenderAssistant || role == SenderSystem
    ensures role != SenderUser && role != SenderAssistant && role != SenderSystem ==> r == SenderSystem
  {
    if role == SenderUser then SenderUser
    else if role == SenderAssistant then SenderAssistant
    else SenderSystem
  }

  /** The stored messages as model history, one entry per message, in order. */
  function History(msgs: seq<Message>): (r: seq<OllamaMessage>)
    ensures |r| == |msgs|
    ensures forall i :: 0 <= i < |msgs| ==> r[i] == OllamaMessage(RoleName(msgs[i].role), msgs[i].content)
    decreases |msgs|
  {
    if msgs == [] then []
    else
      var m := msgs[|msgs| - 1];
      History(msgs[..|msgs| - 1]) + [OllamaMessage(RoleName(m.role), m.content)]
  }

  /** The system prompt (empty when none is set) followed by the history. */
  function Prompt(systemPrompt: Option<string>, msgs: seq<Message>): seq<OllamaMessage> {
    [OllamaMessage(SenderSystem, systemPrompt.GetOr(""))] + History(msgs)
  }

  /** The model options built from the settings: only the model, and only when it is set. */
  function SparseOptions(llm: LlmSettings): (m: map<string, string>)
    ensures m.Keys <= {ModelKey}
    ensures ModelKey in m <==> llm.model.Some?
    ensures ModelKey in m ==> m[ModelKey] == llm.model.value
  {
    if llm.model.Some? then map[ModelKey := llm.model.value] else map[]
  }

  /** What a turn returns: the model's untrimmed reply, an error, or the panic of dereferencing an
      unset model setting. */
  datatype SendOutcome = Sent(response: OllamaChatResponse) | Failed(error: string) | NilModelPanic

  /** The outcome of a turn together with the store's new message log and error text and the
      requests made, in order. */
  datatype SendResult = SendResult(outcome: SendOutcome, messages: seq<Message>, error: string, calls: seq<ApiCall>)

  /** Whether a turn gets past validation: neither the chat nor the content is blank. */
  predicate PassesValidation(chatId: string, content: string) {
    TrimSpace(chatId) != "" && TrimSpace(content) != ""
  }

  /** `SendMessage` on a store for chat `chatId` holding `log`, `settings` and `error`. */
  function Send(chatId: string, log: seq<Message>, settings: Settings, error: string, content: string,
                api: ChatApi, ollama: OllamaApi): SendResult
  {
    if !PassesValidation(chatId, content) then
      SendResult(Failed(EmptyInputText), log, error, [])
    else
      var userCall := PostMessage(chatId, SenderUser, content);
      var userMsg := api.sendMessage(chatId, SenderUser, content);
      if userMsg.Err? then SendResult(Failed(userMsg.error), log, userMsg.error, [userCall])
      else
        var withUser := log + [userMsg.value];
        var llm := settings.llm;
        if llm.model.None? then SendResult(NilModelPanic, withUser, error, [userCall])
        else
          var request := OllamaChatRequest(llm.model.value, Prompt(llm.systemPrompt, withUser), false, SparseOptions(llm));
          var calls := [userCall, AskOllama(request)];
          var response := ollama.chat(request);
          if response.Err? then SendResult(Failed(response.error), withUser, response.error, calls)
          else
            var reply := TrimSpace(response.value.content);
            if reply == "" then SendResult(Failed(EmptyReplyText), withUser, EmptyReplyText, calls)
            else
              var assistantMsg := api.sendMessage(chatId, SenderAssistant, reply);
              var allCalls := calls + [PostMessage(chatId, SenderAssistant, reply)];
              if assistantMsg.Err? then SendResult(Failed(assistantMsg.error), withUser, assistantMsg.error, allCalls)
              else SendResult(Sent(response.value), withUser + [assistantMsg.value], error, allCalls)
  }

  /** A blank chat or content is rejected before any request and without recording the error;
      every other turn makes at least one request. */
  lemma SendRejectsBlank(chatId: string, log: seq<Message>, settings: Settings, error: string, content: string,
                         api: ChatApi, ollama: OllamaApi)
    ensures var r := Send(chatId, log, settings, error, content, api, ollama);
      && (!PassesValidation(chatId, content) ==> r == SendResult(Failed(EmptyInputText), log, error, []))
      && (r.calls == [] <==> !PassesValidation(chatId, content))
  {
  }

  /** The user message goes first, exactly as given, and every message posted is for this chat;
      a turn makes at most three requests. */
  lemma SendPostsUserMessageFirst(chatId: string, log: seq<Message>, settings: Settings, error: string, content: string,
                                  api: ChatApi, ollama: OllamaApi)
    requires PassesValidation(chatId, content)
    ensures var r := Send(chatId, log, settings, error, content, api, ollama);
      && 1 <= |r.calls| <= 3
      && r.calls[0] == PostMessage(chatId, SenderUser, content)
      && (forall i :: 0 <= i < |r.calls| && r.calls[i].PostMessage? ==> r.calls[i].chatId == chatId)
  {
  }

  /** A failing user send is recorded as the error and ends the turn with the log unchanged. */
  lemma SendUserFailure(chatId: string, log: seq<Message>, settings: Settings, error: string, content: string,
                        api: ChatApi, ollama: OllamaApi)
    requires PassesValidation(chatId, content) && api.sendMessage(chatId, SenderUser, content).Err?
    ensures var e := api.sendMessage(chatId, SenderUser, content).error;
      Send(chatId, log, settings, error, content, api, ollama)
        == SendResult(Failed(e), log, e, [PostMessage(chatId, SenderUser, content)])
  {
  }

  /** Once the user message is stored, the log only grows from it, and by at most one message
      unless the turn succeeds. */
  lemma SendKeepsUserMessage(chatId: string, log: seq<Message>, settings: Settings, error: string, content: string,
                             api: ChatApi, ollama: OllamaApi)
    requires PassesValidation(chatId, content) && api.sendMessage(chatId, SenderUser, content).Ok?
    ensures var r := Send(chatId, log, settings, error, content, api, ollama);
      && |r.messages| >= |log| + 1
      && r.messages[..|log| + 1] == log + [api.sendMessage(chatId, SenderUser, content).value]
      && (!r.outcome.Sent? ==> |r.messages| == |log| + 1)
  {
    var r := Send(chatId, log, settings, error, content, api, ollama);
    var withUser := log + [api.sendMessage(chatId, SenderUser, content).value];
    assert r.messages == withUser || (|r.messages| == |withUser| + 1 && r.messages[..|withUser|] == withUser);
  }

  /** An unset model panics exactly when the user message has been stored: the model is never
      asked and the error text is not touched. */
  lemma SendNilModel(chatId: string, log: seq<Message>, settings: Settings, error: string, content: string,
                     api: ChatApi, ollama: OllamaApi)
    ensures var r := Send(chatId, log, settings, error, content, api, ollama);
      && (r.outcome == NilModelPanic <==>
            PassesValidation(chatId, content) && api.sendMessage(chatId, SenderUser, content).Ok? && settings.llm.model.None?)
      && (r.outcome == NilModelPanic ==>
            r == SendResult(NilModelPanic, log + [api.sendMessage(chatId, SenderUser, content).value], error,
                            [PostMessage(chatId, SenderUser, content)]))
  {
  }

  /** The request to the model: the set model, the whole log with the new user message behind the
      system prompt, no streaming, and the sparse options. */
  function ModelRequestFor(settings: Settings, withUser: seq<Message>): OllamaChatRequest
    requires settings.llm.model.Some?
  {
    OllamaChatRequest(settings.llm.model.value, Prompt(settings.llm.systemPrompt, withUser), false, SparseOptions(settings.llm))
  }

  /** The model is asked, second, exactly when the user message was stored and a model is set. */
  lemma SendAsksModel(chatId: string, log: seq<Message>, settings: Settings, error: string, content: string,
                      api: ChatApi, ollama: OllamaApi)
    ensures var r := Send(chatId, log, settings, error, content, api, ollama);
      && (|r.calls| >= 2 <==>
            PassesValidation(chatId, content) && api.sendMessage(chatId, SenderUser, content).Ok? && settings.llm.model.Some?)
      && (|r.calls| >= 2 ==>
            r.calls[1] == AskOllama(ModelRequestFor(settings, log + [api.sendMessage(chatId, SenderUser, content).value])))
  {
  }

  /** A model error, and a reply that is blank once trimmed, are recorded as the error; the
      assistant message is then never sent. */
  lemma SendModelFailure(chatId: string, log: seq<Message>, settings: Settings, error: string, content: string,
                         api: ChatApi, ollama: OllamaApi)
    requires PassesValidation(chatId, content) && api.sendMessage(chatId, SenderUser, content).Ok? && settings.llm.model.Some?
    ensures var req := ModelRequestFor(settings, log + [api.sendMessage(chatId, SenderUser, content).value]);
      var r := Send(chatId, log, settings, error, content, api, ollama);
      && (ollama.chat(req).Err? ==>
            r.outcome == Failed(ollama.chat(req).error) && r.error == ollama.chat(req).error && |r.calls| == 2)
      && (ollama.chat(req).Ok? && TrimSpace(ollama.chat(req).value.content) == "" ==>
            r.outcome == Failed(EmptyReplyText) && r.error == EmptyReplyText && |r.calls| == 2)
  {
  }

  /** A successful turn: the reply is returned untrimmed, its trimmed text is posted as the
      assistant message, the log grows by the two stored messages, and the error text is kept. */
  lemma SendSuccess(chatId: string, log: seq<Message>, settings: Settings, error: string, content: string,
                    api: ChatApi, ollama: OllamaApi)
    ensures var r := Send(chatId, log, settings, error, content, api, ollama);
      r.outcome.Sent? ==>
        var reply := TrimSpace(r.outcome.response.content);
        && PassesValidation(chatId, content)
        && api.sendMessage(chatId, SenderUser, content).Ok?
        && settings.llm.model.Some?
        && reply != ""
        && |r.calls| == 3
        && ollama.chat(r.calls[1].request) == Ok(r.outcome.response)
        && r.calls[2] == PostMessage(chatId, SenderAssistant, reply)
        && api.sendMessage(chatId, SenderAssistant, reply).Ok?
        && r.messages == log + [api.sendMessage(chatId, SenderUser, content).value,
                                api.sendMessage(chatId, SenderAssistant, reply).value]
        && r.error == error
  {
  }

  /** The converse of SendSuccess: a turn in which every step succeeds ends with the model's
      response, with the trimmed reply stored behind the user message. */
  lemma SendSucceedsWhenAllSucceed(chatId: string, log: seq<Message>, settings: Settings, error: string, content: string,
                                   api: ChatApi, ollama: OllamaApi)
    requires PassesValidation(chatId, content) && api.sendMessage(chatId, SenderUser, content).Ok? && settings.llm.model.Some?
    requires var req := ModelRequestFor(settings, log + [api.sendMessage(chatId, SenderUser, content).value]);
      && ollama.chat(req).Ok? && TrimSpace(ollama.chat(req).value.content) != ""
      && api.sendMessage(chatId, SenderAssistant, TrimSpace(ollama.chat(req).value.content)).Ok?
    ensures var req := ModelRequestFor(settings, log + [api.sendMessage(chatId, SenderUser, content).value]);
      var reply := TrimSpace(ollama.chat(req).value.content);
      var r := Send(chatId, log, settings, error, content, api, ollama);
      && r.outcome == Sent(ollama.chat(req).value)
      && r.messages == log + [api.sendMessage(chatId, SenderUser, content).value,
                              api.sendMessage(chatId, SenderAssistant, reply).value]
      && r.error == error
  {
  }

  /** A failing assistant send is recorded as the error and returned; the log keeps only the
      user message. */
  lemma SendAssistantFailure(chatId: string, log: seq<Message>, settings: Settings, error: string, content: string,
                             api: ChatApi, ollama: OllamaApi)
    requires PassesValidation(chatId, content) && api.sendMessage(chatId, SenderUser, content).Ok? && settings.llm.model.Some?
    requires var req := ModelRequestFor(settings, log + [api.sendMessage(chatId, SenderUser, content).value]);
      && ollama.chat(req).Ok? && TrimSpace(ollama.chat(req).value.content) != ""
      && api.sendMessage(chatId, SenderAssistant, TrimSpace(ollama.chat(req).value.content)).Err?
    ensures var req := ModelRequestFor(settings, log + [api.sendMessage(chatId, SenderUser, content).value]);
      var e := api.sendMessage(chatId, SenderAssistant, TrimSpace(ollama.chat(req).value.content)).error;
      var r := Send(chatId, log, settings, error, content, api, ollama);
      && r.outcome == Failed(e)
      && r.error == e
      && r.messages == log + [api.sendMessage(chatId, SenderUser, content).value]
      && |r.calls| == 3
  {
  }

  /** Every failure after validation is recorded as the store's error text; the other outcomes
      leave it alone. */
  lemma SendRecordsFailures(chatId: string, log: seq<Message>, settings: Settings, error: string, content: string,
                            api: ChatApi, ollama: OllamaApi)
    ensures var r := Send(chatId, log, settings, error, content, api, ollama);
      && (r.outcome.Failed? && r.calls != [] ==> r.error == r.outcome.error)
      && (!r.outcome.Failed? || r.calls == [] ==> r.error == error)
  {
  }

  /** The model history of `SendMessage`: the system prompt, then each stored message with its
      role mapped. */
  method BuildPrompt(systemPrompt: Option<string>, msgs: seq<Message>) returns (h: seq<OllamaMessage>)
    ensures h == Prompt(systemPrompt, msgs)
    ensures |h| == 1 + |msgs|
    ensures h[0] == OllamaMessage(SenderSystem, if systemPrompt.Some? then systemPrompt.value else "")
    ensures forall i :: 0 <= i < |msgs| ==> h[i + 1] == OllamaMessage(RoleName(msgs[i].role), msgs[i].content)
  {
    var prompt := "";
    if systemPrompt.Some? {
      prompt := systemPrompt.value;
    }
    h := [OllamaMessage(SenderSystem, prompt)];
    var i := 0;
    while i < |msgs|
      invariant 0 <= i <= |msgs|
      invariant h == [OllamaMessage(SenderSystem, prompt)] + History(msgs[..i])
    {
      var role := RoleName(msgs[i].role);
      assert msgs[..i + 1][..i] == msgs[..i];
      h := h + [OllamaMessage(role, msgs[i].content)];
      i := i + 1;
    }
    assert msgs[..i] == msgs;
  }

  /** The chat state of one call: the current chat, its message log and settings, and the text of
      the last error. `Calls` records the requests made to the collaborators. */
  class Store {
    var user: Option<User>
    var chat: Chat
    var currentChat: string
    var messages: seq<Message>
    var settings: Settings
    var error: string
    const chatApi: ChatApi
    const ollamaApi: OllamaApi
    ghost var Calls: seq<ApiCall>

    /** `NewChatStore`: no chat, default settings, the given collaborators. */
    constructor (chatApi: ChatApi, ollamaApi: OllamaApi)
      ensures this.chatApi == chatApi && this.ollamaApi == ollamaApi
      ensures user == None && chat == NoChat && currentChat == "" && messages == []
      ensures settings == NoSettings && error == "" && Calls == []
    {
      this.chatApi := chatApi;
      this.ollamaApi := ollamaApi;
      user := None;
      chat := NoChat;
      currentChat := "";
      messages := [];
      settings := NoSettings;
      error := "";
      Calls := [];
    }

    /** One turn: store the user message, ask the model with the whole log, store its trimmed
        reply as the assistant message. */
    method SendMessage(content: string) returns (outcome: SendOutcome)
      modifies this`messages, this`error, this`Calls
      ensures var r := Send(old(currentChat), old(messages), old(settings), old(error), content, chatApi, ollamaApi);
        && outcome == r.outcome
        && messages == r.messages
        && error == r.error
        && Calls == old(Calls) + r.calls
    {
      if !PassesValidation(currentChat, content) {
        return Failed(EmptyInputText);
      }
      var userMsg := chatApi.sendMessage(currentChat, SenderUser, content);
      Calls := Calls + [PostMessage(currentChat, SenderUser, content)];
      if userMsg.Err? {
        error := userMsg.error;
        return Failed(userMsg.error);
      }
      messages := messages + [userMsg.value];
      var llm := settings.llm;
      var fullMessages := BuildPrompt(llm.systemPrompt, messages);
      var options := SparseOptions(llm);
      if llm.model.None? {
        return NilModelPanic;
      }
      var request := OllamaChatRequest(llm.model.value, fullMessages, false, options);
      var response := ollamaApi.chat(request);
      Calls := Calls + [AskOllama(request)];
      if response.Err? {
        error := response.error;
        return Failed(response.error);
      }
      var assistantContent := TrimSpace(response.value.content);
      if assistantContent == "" {
        error := EmptyReplyText;
        return Failed(EmptyReplyText);
      }
      var assistantMsg := chatApi.sendMessage(currentChat, SenderAssistant, assistantContent);
      Calls := Calls + [PostMessage(currentChat, SenderAssistant, assistantContent)];
      if assistantMsg.Err? {
        error := assistantMsg.error;
        return Failed(assistantMsg.error);
      }
      messages := messages + [assistantMsg.value];
      return Sent(response.value);
    }
  }

  /** `LoadChatStore`: fetch the chat, then a new store for it holding the chat, its messages and
      its settings; a failed fetch is returned as is. */
  method LoadChatStore(chatId: string, chatApi: ChatApi, ollamaApi: OllamaApi) returns (r: Result<Store>)
    ensures chatApi.getChat(chatId).Err? ==> r == Err(chatApi.getChat(chatId).error)
    ensures chatApi.getChat(chatId).Ok? ==>
      var c := chatApi.getChat(chatId).value;
      && r.Ok? && fresh(r.value)
      && r.value.chatApi == chatApi && r.value.ollamaApi == ollamaApi
      && r.value.currentChat == chatId && r.value.chat == c
      && r.value.messages == c.messages && r.value.settings == c.settings
      && r.value.user == None && r.value.error == "" && r.value.Calls == []
  {
    var chat := chatApi.getChat(chatId);
    if chat.Err? {
      return Err(chat.error);
    }
    var store := new Store(chatApi, ollamaApi);
    store.currentChat := chatId;
    store.chat := chat.value;
    store.messages := chat.value.messages;
    store.settings := chat.value.settings;
    return Ok(store);
  }
}
