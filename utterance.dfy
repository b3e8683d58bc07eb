/** `handleInputAudio`: what happens to one closed utterance. The chunks are merged, a too-short
    utterance is dropped, the rest goes to the transcriber with the language forced to Russian,
    known spurious captions are dropped, and a transcript goes to the chat log, to the language
    model, and as the model's reply to the chat log and the playback relay, in that order.
    The external services are oracles; the result is the trace of requests made to them. */
module Utterance {
  import opened Wrappers
  import opened Pcm
  import opened Relay

  /** The samples-per-second figure `handleInputAudio` divides by. */
  const SampleRate := 16000
  /** 0.40 s at the rate the code divides by (the call audio itself is 8000 samples per second,
      so this is 0.8 s of call audio): utterances with fewer samples are not transcribed. */
  const MinSamples := 6400
  /** The model every turn of a call is sent to. */
  const ModelName := "gemma2:9b"

  /** Speech-to-text settings of a chat; `Some` fields are the configured ones. */
  datatype SttSettings = SttSettings(
    language: string,
    beamSize: Option<int>,
    bestOf: Option<int>,
    patience: Option<real>,
    noSpeechThreshold: Option<int>,
    temperature: Option<real>,
    hallucinationSilenceThreshold: Option<int>)

  /** Language-model settings of a chat; `Some` fields are the configured ones. */
  datatype LlmSettings = LlmSettings(
    model: string,
    seed: Option<int>,
    systemPrompt: Option<string>,
    mirostat: Option<int>,
    mirostatEta: Option<real>,
    mirostatTau: Option<real>,
    numCtx: Option<int>,
    repeatLastN: Option<int>,
    repeatPenalty: Option<real>,
    temperature: Option<real>,
    tfsZ: Option<real>,
    numPredict: Option<int>,
    topK: Option<int>,
    topP: Option<real>,
    minP: Option<real>)

  /** The decoding options handed to the model with each turn. */
  datatype LlmOptions = LlmOptions(
    seed: Option<int>,
    mirostat: Option<int>,
    mirostatEta: Option<real>,
    mirostatTau: Option<real>,
    numCtx: Option<int>,
    repeatLastN: Option<int>,
    repeatPenalty: Option<real>,
    tfsZ: Option<real>,
    temperature: Option<real>,
    numPredict: Option<int>)

  /** The ten settings `handleInputAudio` copies into the model options. */
  function OptionsFor(llm: LlmSettings): LlmOptions {
    LlmOptions(llm.seed, llm.mirostat, llm.mirostatEta, llm.mirostatTau, llm.numCtx,
               llm.repeatLastN, llm.repeatPenalty, llm.tfsZ, llm.temperature, llm.numPredict)
  }

  /** One turn sent to the language model of a chat. */
  datatype ModelRequest = ModelRequest(chatId: string, model: string, role: string, content: string, options: LlmOptions)

  /** The services an utterance reaches, as oracles: the transcriber, the chat log's
      `SendMessage(chatID, sender, content)`, and the language model. */
  datatype Services = Services(
    transcribe: (seq<Int16>, SttSettings) -> Result<string>,
    sendMessage: (string, string, string) -> Result<()>,
    chat: ModelRequest -> Result<string>)

  /** A request made to one of the services, or the start of a playback relay. */
  datatype Effect =
    | Transcribe(audio: seq<Int16>, settings: SttSettings)
    | PostMessage(chatId: string, sender: string, content: string)
    | AskModel(modelRequest: ModelRequest)
    | StartRelay(relayRequest: RelayRequest)

  /** The pieces one after the other: the samples of an utterance's chunks, or the chunks of a
      run of utterances. */
  function Flatten<T>(chunks: seq<seq<T>>): seq<T>
    decreases |chunks|
  {
    if chunks == [] then [] else Flatten(chunks[..|chunks| - 1]) + chunks[|chunks| - 1]
  }

  /** The sample count `calculateAudioLength` sums up before dividing by the rate. */
  function TotalSamples(chunks: seq<seq<Int16>>): nat
    decreases |chunks|
  {
    if chunks == [] then 0 else TotalSamples(chunks[..|chunks| - 1]) + |chunks[|chunks| - 1]|
  }

  /** The merged utterance holds every sample of every chunk. */
  lemma {:induction false} FlattenLength(chunks: seq<seq<Int16>>)
    ensures |Flatten(chunks)| == TotalSamples(chunks)
    decreases |chunks|
  {
    if chunks != [] {
      FlattenLength(chunks[..|chunks| - 1]);
    }
  }

  /** Merging distributes over concatenation of chunk lists. */
  lemma {:induction false} FlattenAppend<T>(a: seq<seq<T>>, b: seq<seq<T>>)
    ensures Flatten(a + b) == Flatten(a) + Flatten(b)
    decreases |b|
  {
    if b != [] {
      var n := b[..|b| - 1];
      assert (a + b)[..|a + b| - 1] == a + n;
      FlattenAppend(a, n);
    } else {
      assert a + b == a;
    }
  }

  /** The integer gate is the duration test: `n / 16000 < 0.40` exactly when `n < 6400`. */
  lemma MinSamplesIsMinDuration(n: nat)
    ensures (n as real) / (SampleRate as real) < 0.40 <==> n < MinSamples
  {
  }

  /** Known spurious captions the transcriber produces on silence. */
  const Denylist: seq<string> := ["Продолжение следует...", "Субтитры сделал DimaTorzok", "Субтитры создавал DimaTorzok"]

  /** Linear search for an exact match. */
  function Contains(list: seq<string>, s: string): (b: bool)
    ensures b <==> exists i :: 0 <= i < |list| && list[i] == s
    decreases |list|
  {
    if list == [] then false
    else if list[0] == s then true
    else
      var found := Contains(list[1..], s);
      assert forall i :: 1 <= i < |list| ==> list[i] == list[1..][i - 1];
      found
  }

  predicate IsDenied(transcript: string) {
    Contains(Denylist, transcript)
  }

  /** Only an exact match with one of the three captions is dropped. */
  lemma DeniedExactly(transcript: string)
    ensures IsDenied(transcript) <==>
      transcript == "Продолжение следует..." ||
      transcript == "Субтитры сделал DimaTorzok" ||
      transcript == "Субтитры создавал DimaTorzok"
  {
    if IsDenied(transcript) {
      var i :| 0 <= i < |Denylist| && Denylist[i] == transcript;
      assert i == 0 || i == 1 || i == 2;
    } else {
      assert Denylist[0] == "Продолжение следует...";
      assert Denylist[1] == "Субтитры сделал DimaTorzok";
      assert Denylist[2] == "Субтитры создавал DimaTorzok";
    }
  }

  /** The trace of one utterance: what `handleInputAudio` asks of each service, in order,
      stopping at the first step that fails or filters the utterance out. */
  function UtteranceEffects(buffer: seq<seq<Int16>>, chatId: string, stt: SttSettings,
                            llm: LlmSettings, svc: Services): seq<Effect>
  {
    if TotalSamples(buffer) < MinSamples then []
    else
      var audio := Flatten(buffer);
      var settings := stt.(language := "ru");
      var transcribe := [Transcribe(audio, settings)];
      var transcript := svc.transcribe(audio, settings);
      if transcript.Err? || IsDenied(transcript.value) then transcribe
      else
        var text := transcript.value;
        var user := PostMessage(chatId, "user", text);
        if svc.sendMessage(chatId, "user", text).Err? then transcribe + [user]
        else
          var request := ModelRequest(chatId, ModelName, "user", text, OptionsFor(llm));
          var reply := svc.chat(request);
          if reply.Err? then transcribe + [user, AskModel(request)]
          else
            var assistant := PostMessage(chatId, "assistant", reply.value);
            if svc.sendMessage(chatId, "assistant", reply.value).Err? then transcribe + [user, AskModel(request), assistant]
            else transcribe + [user, AskModel(request), assistant, StartRelay(RequestFor(reply.value))]
  }

  /** An utterance of fewer than 6400 samples reaches no service at all. */
  lemma ShortUtteranceIsDropped(buffer: seq<seq<Int16>>, chatId: string, stt: SttSettings, llm: LlmSettings, svc: Services)
    requires TotalSamples(buffer) < MinSamples
    ensures UtteranceEffects(buffer, chatId, stt, llm, svc) == []
  {
  }

  /** Any other utterance is first sent, whole and in order, to the transcriber, with the language
      forced to "ru" and every other setting as configured. */
  lemma TranscriptionComesFirst(buffer: seq<seq<Int16>>, chatId: string, stt: SttSettings, llm: LlmSettings, svc: Services)
    requires TotalSamples(buffer) >= MinSamples
    ensures var effects := UtteranceEffects(buffer, chatId, stt, llm, svc);
      && |effects| >= 1
      && effects[0] == Transcribe(Flatten(buffer), stt.(language := "ru"))
      && |effects[0].audio| == TotalSamples(buffer)
      && effects[0].settings.language == "ru"
  {
    FlattenLength(buffer);
  }

  /** A denylisted transcript is dropped before anything is sent to the chat log or the model. */
  lemma DeniedTranscriptGoesNowhere(buffer: seq<seq<Int16>>, chatId: string, stt: SttSettings, llm: LlmSettings, svc: Services)
    requires TotalSamples(buffer) >= MinSamples
    requires var t := svc.transcribe(Flatten(buffer), stt.(language := "ru")); t.Err? || IsDenied(t.value)
    ensures UtteranceEffects(buffer, chatId, stt, llm, svc) == [Transcribe(Flatten(buffer), stt.(language := "ru"))]
  {
  }

  /** When every service succeeds the order is: transcription, user message, model, assistant
      message, then the relay of the model's reply in Russian at speed 1.0. */
  lemma SuccessfulTurnOrder(buffer: seq<seq<Int16>>, chatId: string, stt: SttSettings, llm: LlmSettings, svc: Services,
                            text: string, reply: string)
    requires TotalSamples(buffer) >= MinSamples
    requires svc.transcribe(Flatten(buffer), stt.(language := "ru")) == Ok(text) && !IsDenied(text)
    requires svc.sendMessage(chatId, "user", text).Ok?
    requires svc.chat(ModelRequest(chatId, ModelName, "user", text, OptionsFor(llm))) == Ok(reply)
    requires svc.sendMessage(chatId, "assistant", reply).Ok?
    ensures UtteranceEffects(buffer, chatId, stt, llm, svc) == [
      Transcribe(Flatten(buffer), stt.(language := "ru")),
      PostMessage(chatId, "user", text),
      AskModel(ModelRequest(chatId, ModelName, "user", text, OptionsFor(llm))),
      PostMessage(chatId, "assistant", reply),
      StartRelay(RelayRequest(reply, "ru", 1.0, 0.015))]
  {
  }

  /** In every trace the model is asked only right after the user message was logged
      successfully, and the relay starts only right after the assistant message was logged
      successfully, with the model's reply; a trace that stops early stops at a failed step. */
  lemma StepsHappenInOrder(buffer: seq<seq<Int16>>, chatId: string, stt: SttSettings, llm: LlmSettings, svc: Services)
    ensures var effects := UtteranceEffects(buffer, chatId, stt, llm, svc);
      && |effects| <= 5
      && (forall i :: 0 <= i < |effects| && effects[i].AskModel? ==>
            && i == 2 && effects[1] == PostMessage(chatId, "user", effects[i].modelRequest.content)
            && svc.sendMessage(chatId, "user", effects[i].modelRequest.content).Ok?)
      && (forall i :: 0 <= i < |effects| && effects[i].StartRelay? ==>
            && i == 4 && effects[3] == PostMessage(chatId, "assistant", effects[i].relayRequest.message)
            && svc.sendMessage(chatId, "assistant", effects[i].relayRequest.message).Ok?
            && svc.chat(effects[2].modelRequest) == Ok(effects[i].relayRequest.message))
      && (|effects| == 1 ==>
            var t := svc.transcribe(effects[0].audio, effects[0].settings); t.Err? || IsDenied(t.value))
      && (|effects| == 2 ==> svc.sendMessage(chatId, "user", effects[1].content).Err?)
      && (|effects| == 3 ==> svc.chat(effects[2].modelRequest).Err?)
      && (|effects| == 4 ==> svc.sendMessage(chatId, "assistant", effects[3].content).Err?)
  {
  }

  /** `mergedBuffer`: the chunks appended one after the other. */
  method MergeChunks(buffer: seq<seq<Int16>>) returns (merged: seq<Int16>)
    ensures merged == Flatten(buffer)
  {
    merged := [];
    for i := 0 to |buffer|
      invariant merged == Flatten(buffer[..i])
    {
      assert buffer[..i + 1][..i] == buffer[..i];
      merged := merged + buffer[i];
    }
    assert buffer[..|buffer|] == buffer;
  }

  /** `handleInputAudio`, producing the trace of requests it makes. */
  method HandleInputAudio(buffer: seq<seq<Int16>>, chatId: string, stt: SttSettings, llm: LlmSettings, svc: Services)
    returns (effects: seq<Effect>)
    ensures effects == UtteranceEffects(buffer, chatId, stt, llm, svc)
  {
    var merged := MergeChunks(buffer);
    if TotalSamples(buffer) < MinSamples {
      return [];
    }
    var settings := stt.(language := "ru");
    effects := [Transcribe(merged, settings)];
    var transcription := svc.transcribe(merged, settings);
    if transcription.Err? {
      return;
    }
    var text := transcription.value;
    var options := OptionsFor(llm);
    if IsDenied(text) {
      return;
    }
    effects := effects + [PostMessage(chatId, "user", text)];
    if svc.sendMessage(chatId, "user", text).Err? {
      return;
    }
    var request := ModelRequest(chatId, ModelName, "user", text, options);
    effects := effects + [AskModel(request)];
    var res := svc.chat(request);
    if res.Err? {
      return;
    }
    effects := effects + [PostMessage(chatId, "assistant", res.value)];
    if svc.sendMessage(chatId, "assistant", res.value).Err? {
      return;
    }
    effects := effects + [StartRelay(RequestFor(res.value))];
  }
}
