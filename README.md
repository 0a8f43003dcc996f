# Grey Hat AI — LLM registry and voice-engine control logic in Dafny

This project models the two stateful parts of Grey Hat AI's Python code.

- **`LLMManager`**: a fixed table of supported providers (Gemini, Mistral, Groq) with their model lists and default models. Two maps hold the configured clients and the recorded API keys. An active provider/model pair is set only for a supported, configured provider. Each provider has its own rule for turning a chat history into the request its SDK receives.
- **`VoiceEngine`**, without the audio itself: the availability flags of its components, the `is_listening` guards, the voice-activity check on one chunk, the segmentation of the recording loop into utterances, the callback guard for a transcribed utterance, and the text-to-speech cache. The cache is bounded at 50 clips and evicts the 10 oldest when it overflows.

Files:

- `wrappers.dfy`: `Option`.
- `pytext.dfy`: Python's `str.strip()`.
- `llm_manager.dfy`: module `Llm`, holding the provider table, the history conversions and class `LlmManager`.
- `segmentation.dfy`: the recording loop's segmentation.
- `tts_cache.dfy`: the cache's insertion order and its eviction.
- `voice_engine.dfy`: module `Voice`, holding class `VoiceEngine`.

Foreign code is replaced by parameters:

- Library imports that may be missing are the `LlmDeps` and `VoiceDeps` records, given to the constructors.
- What an SDK call returns is passed in: `sdkOk`, `complete`, `vad`, `segmentTexts`, `generated`, `voiceList`. A call that raises is `false` or `None`.

## Model

| member | source | states |
|---|---|---|
| Llm.Parse | grey_hat_ai/grey_hat_ai/llm_manager.py:57-70 | a name is supported exactly when it is the table key of some provider, and it then denotes that provider |
| Llm.Info | grey_hat_ai/grey_hat_ai/llm_manager.py:57-70 | each provider's default model is one of its listed models, and no model is listed twice |
| Llm.GetAvailableModels | grey_hat_ai/grey_hat_ai/llm_manager.py:287-293 | a supported non-empty name gives only its own model list; an unsupported one gives an empty map; `None` or "" gives every provider; every entry is the provider's model list |
| Llm.GeminiRole | grey_hat_ai/grey_hat_ai/llm_manager.py:193 | the role sent to Gemini is "user" or "model", and it is "user" exactly when the message's role is "user" |
| Llm.GeminiHistoryAt | grey_hat_ai/grey_hat_ai/llm_manager.py:191-194 | the Gemini history has one entry per message, at the same position, with the mapped role and the message's content as its only part |
| Llm.GeminiHistoryReadBack | grey_hat_ai/grey_hat_ai/llm_manager.py:191-194 | for every history, including ones with "assistant" or "system" turns, reading the Gemini history back gives one message per original message, in order, with the same content and the role mapped to "user" or "model"; only role names change |
| Llm.GeminiHistoryRoundTrip | grey_hat_ai/grey_hat_ai/llm_manager.py:191-194 | corollary: for a history that uses only the roles user and model, reading the Gemini history back gives the original history |
| Llm.ConvertGeminiHistory | grey_hat_ai/grey_hat_ai/llm_manager.py:191-194 | the loop builds exactly the Gemini history, one entry per message |
| Llm.ChatMessages | grey_hat_ai/grey_hat_ai/llm_manager.py:223-228 | the request messages are the history, copied in order, followed by one user message holding the prompt, so there are \|history\|+1 of them; Groq's loop at lines 253-258 is the same |
| Llm.LlmManager.constructor | grey_hat_ai/grey_hat_ai/llm_manager.py:72-76 | no active provider or model, no clients and no keys |
| Llm.LlmManager.SetApiKey | grey_hat_ai/grey_hat_ai/llm_manager.py:89-115 | an unsupported provider gives False and changes nothing; a supported one always has its key recorded; the result is True exactly when the library is installed and the SDK accepts the key, and only then is the client stored; on False the clients are unchanged |
| Llm.LlmManager.SetActiveModel | grey_hat_ai/grey_hat_ai/llm_manager.py:128-144 | True exactly when the provider is supported and configured; False leaves the active pair unchanged; True sets exactly that provider and the given model, known or not, or else the provider's default model, which is a known model |
| Llm.LlmManager.GenerateResponse | grey_hat_ai/grey_hat_ai/llm_manager.py:149-179 | `history` defaults to None and `maxTokens` to `DefaultMaxTokens` (4000), as in the Python signature; no request is made, and None is returned, exactly when no provider or model is active; otherwise one request goes to the active provider with the active model: Gemini gets the converted history and the prompt separately, Mistral and Groq get the history followed by the prompt; the response carries the provider's reply, the model and the provider name, or is None when the call failed |
| Llm.LlmManager.IsProviderAvailable | grey_hat_ai/grey_hat_ai/llm_manager.py:295-307 | False for an unsupported provider; in a valid manager, True exactly for a configured provider |
| Llm.LlmManager.GetStatus | grey_hat_ai/grey_hat_ai/llm_manager.py:309-320 | the configured providers are the available ones; the active provider is among them; the available-providers map covers the three providers and reports whether each library is installed; the reported active provider and model are the manager's active pair |
| PyText.Strip | grey_hat_ai/grey_hat_ai/voice_engine.py:302-303 | `text.strip()` neither begins nor ends with whitespace; it is empty exactly when the text is all whitespace; otherwise the text is leading whitespace, then the result, then trailing whitespace |
| PyText.StripIdempotent | grey_hat_ai/grey_hat_ai/voice_engine.py:302-303 | stripping a stripped text changes nothing |
| Segmentation.Accumulate | grey_hat_ai/grey_hat_ai/voice_engine.py:246-252 | a speech chunk is appended and resets the silence counter to 0; a non-speech chunk increments the counter and is appended only to a non-empty buffer |
| Segmentation.StepFlush | grey_hat_ai/grey_hat_ai/voice_engine.py:254-258 | a step flushes exactly when the buffer is non-empty and the counter has reached the silence limit; a flush emits that whole buffer and leaves an empty buffer and a zero counter; otherwise nothing is emitted |
| Segmentation.StepInv | grey_hat_ai/grey_hat_ai/voice_engine.py:246-258 | one loop iteration keeps the invariant: the buffer begins with speech, a non-empty buffer is below the silence limit, every utterance is non-empty and begins with speech |
| Segmentation.RunInv | grey_hat_ai/grey_hat_ai/voice_engine.py:246-258 | over any chunk sequence the buffer never begins with a non-speech chunk, a non-empty buffer's counter stays below the limit, and every flushed utterance is non-empty and begins with speech |
| Segmentation.StepKeepsSpeech | grey_hat_ai/grey_hat_ai/voice_engine.py:246-258 | one iteration adds the chunk to the speech kept in utterances and buffer exactly when it is speech, and changes nothing else about it |
| Segmentation.RunKeepsSpeech | grey_hat_ai/grey_hat_ai/voice_engine.py:246-258 | the speech chunks in the flushed utterances followed by the buffer are exactly the input's speech chunks, in the same order: none is lost, duplicated or reordered |
| Segmentation.RecordingLoop | grey_hat_ai/grey_hat_ai/voice_engine.py:235-258 | the loop computes the segmentation run, so its utterances begin with speech, its leftover buffer begins with speech and is below the silence limit, and its utterances and buffer hold exactly the input's speech chunks, in order |
| TtsCache.RemoveKey | grey_hat_ai/grey_hat_ai/voice_engine.py:405-406 | after `del` the order holds every other key and not the deleted one |
| TtsCache.RemoveOldest | grey_hat_ai/grey_hat_ai/voice_engine.py:404-406 | deleting the oldest key of a duplicate-free order drops exactly the first element |
| TtsCache.InsertBounded | grey_hat_ai/grey_hat_ai/voice_engine.py:399-406 | from at most 50 clips, inserting leaves at most 50 and keeps the new clip last; below 50 nothing is evicted; at 50 the 10 oldest are evicted and the rest keep their order |
| TtsCache.InsertDistinct | grey_hat_ai/grey_hat_ai/voice_engine.py:399-406 | inserting a key not yet cached keeps every key unique and adds no key except the new one |
| TtsCache.InsertAllBounded | grey_hat_ai/grey_hat_ai/voice_engine.py:399-406 | however many clips are generated in a row, the cache never holds more than 50, and the last one generated is cached |
| Voice.FrameSize | grey_hat_ai/grey_hat_ai/voice_engine.py:276-277 | the frame holds `sample_rate * 30 / 1000` samples truncated toward zero: rounded down for a non-negative sample rate, rounded up for a negative one |
| Voice.PyPrefix | grey_hat_ai/grey_hat_ai/voice_engine.py:283 | a slice `s[:n]` with 0 <= n <= len(s) is exactly the first n elements, and it is never longer than s |
| Voice.VoiceNames | grey_hat_ai/grey_hat_ai/voice_engine.py:163 | the map's keys are exactly the listed voice ids; every entry is a listed voice; the entry of the final voice in the list is that voice's name |
| Voice.VoiceNamesLastWins | grey_hat_ai/grey_hat_ai/voice_engine.py:163 | for every id, repeated or not, the map holds the name of the id's last listing |
| Voice.VoiceEngine.constructor | grey_hat_ai/grey_hat_ai/voice_engine.py:82-126 | the default config replaces a missing one; Whisper is loaded when its library is installed and loading succeeds; the VAD exists when its library is installed, its creation succeeds and no Whisper failure came first; nothing is configured, listening or cached |
| Voice.VoiceEngine.SetElevenlabsApiKey | grey_hat_ai/grey_hat_ai/voice_engine.py:138-149 | True exactly when the library is installed and accepts the key, and only then does Eleven Labs become configured |
| Voice.VoiceEngine.GetAvailableVoices | grey_hat_ai/grey_hat_ai/voice_engine.py:158-166 | empty unless Eleven Labs is configured, the library is installed and the listing succeeds; otherwise the map is `Voice.VoiceNames` of the listing: every listed voice id is a key, mapped to the name of its last listing |
| Voice.VoiceEngine.StartListening | grey_hat_ai/grey_hat_ai/voice_engine.py:175-197 | starts exactly when not already listening and Whisper and the audio libraries are available; a given callback is then registered; otherwise nothing changes |
| Voice.VoiceEngine.SetSpeechCallback | grey_hat_ai/grey_hat_ai/app.py:169 | assigning the `on_speech_detected` attribute from outside sets the registered callback to exactly the new value and keeps the engine valid |
| Voice.VoiceEngine.StopListening | grey_hat_ai/grey_hat_ai/voice_engine.py:201-212 | a no-op when not listening; afterwards the engine is not listening |
| Voice.VoiceEngine.IsSpeech | grey_hat_ai/grey_hat_ai/voice_engine.py:271-288 | True without a VAD; False for a chunk shorter than one frame of 16-bit samples (`2 * frame_size` bytes, frame_size = sample_rate*30/1000); otherwise the VAD's verdict on exactly the first `2 * frame_size` bytes, with True when the VAD raises |
| Voice.VoiceEngine.IsSpeechFirstFrameOnly | grey_hat_ai/grey_hat_ai/voice_engine.py:282-284 | chunks that agree on their first frame get the same verdict |
| Voice.VoiceEngine.Transcribe | grey_hat_ai/grey_hat_ai/voice_engine.py:310-333 | with a Whisper model and a successful transcription, the transcript is `Strip(Join(segments))`: the segment texts joined with single spaces and then stripped; it is trimmed, and it is empty without a Whisper model or when transcription fails |
| Voice.JoinSingle | grey_hat_ai/grey_hat_ai/voice_engine.py:328 | `" ".join` of one text is that text |
| Voice.JoinAppend | grey_hat_ai/grey_hat_ai/voice_engine.py:328 | `" ".join` of two non-empty lists concatenated is the two joins with one space between them |
| Voice.VoiceEngine.ProcessAudioBuffer | grey_hat_ai/grey_hat_ai/voice_engine.py:290-306 | an empty buffer invokes nothing; the callback is invoked exactly when the buffer is non-empty, a callback is registered and the transcript is not all whitespace, and then with the stripped, non-empty transcript |
| Voice.VoiceEngine.KeyFor | grey_hat_ai/grey_hat_ai/voice_engine.py:378-381 | the key pairs the text with the given voice id, or with the configured voice id when none or an empty one is given |
| Voice.VoiceEngine.TextToSpeech | grey_hat_ai/grey_hat_ai/voice_engine.py:374-412 | without Eleven Labs it gives None and leaves the cache unchanged; a cache hit returns the stored clip and leaves the cache unchanged; a failed generate gives None and leaves the cache unchanged; a new clip is returned and inserted, with the 10 oldest keys evicted once the cache exceeds 50, so the bound of 50 is kept |
| Voice.VoiceEngine.CacheClip | grey_hat_ai/grey_hat_ai/voice_engine.py:399-406 | the new key joins the insertion order as `TtsCache.AfterInsert` describes, every cached clip is the one stored under its key, and the cache stays duplicate-free and within 50 clips |
| Voice.VoiceEngine.EvictOldest | grey_hat_ai/grey_hat_ai/voice_engine.py:404-406 | the deletion loop removes exactly the 10 oldest keys and their clips and leaves every other clip as it was |
| Voice.VoiceEngine.GetStatus | grey_hat_ai/grey_hat_ai/voice_engine.py:442-455 | every reported flag is the engine's own: Whisper loaded, VAD ready, Eleven Labs configured, listening and the audio libraries; the model size, sample rate and voice id are those of the config; so a listening engine reports Whisper and audio as available, and configured Eleven Labs implies the library is installed |

## Left out

- The provider SDK calls (model construction, `start_chat`, `send_message`, `chat`, `chat.completions.create`) are the `complete` parameter. Token usage and the raw response are not modelled.
- `temperature`: it is a float passed through unchanged.
- Logging is not modelled. The warning for a model missing from the known list changes nothing.
- Llm.LlmManager.GetStatus: `configured_providers` is a Python list in insertion order. Here it is a set, and the order is not modelled.
- Llm.GetAvailableModels: the order of the returned dictionary is not modelled.
- A client is modelled as the pair (provider, key). For Gemini the source stores the `genai` module itself, after calling the global `genai.configure`.
- TtsCache and Voice.VoiceEngine.KeyFor: the key is the pair (voice id, text) rather than `f"{voice_id}:{hash(text)}"`. Python's `hash` of a string is randomized per process and may collide.
- Audio capture and playback are not modelled: `sd.InputStream`, the recording thread and its `join`, `queue.Queue`, `play_audio`, and `transcribe_file`, which reads a file.
- Whisper transcription is the `segmentTexts` parameter. Eleven Labs `generate` and `voices` are `generated` and `voiceList`.
- The `on_listening_start` and `on_listening_stop` callbacks are set by outside code and called by `start_listening` and `stop_listening` (voice_engine.py:194-195, 209-210); they are not modelled. The `on_speech_detected` attribute, by contrast, is modelled: outside code assigns it (`SetSpeechCallback`), or `start_listening(callback)` registers it.
- The chunk-to-int16 conversion (`chunk * 32767`) is not modelled. Each chunk arrives already classified, as a `Frame` that carries its voice-activity verdict.
- `max_silence_chunks` is computed from two float settings. Here it is a `nat` parameter of `RecordingLoop`.
- The chunk size, `chunk_duration`, `silence_threshold` and the stability, clarity and style values are floats and are not modelled.
- Segmentation.RecordingLoop: the loop runs over the finite sequence of chunks that arrived while listening. Stopping when `is_listening` turns false, the queue timeout, and the `break` on an unexpected exception are not modelled.
- Voice.FrameSize computes `int(sample_rate * 30 / 1000)` with exact integer division, truncated toward zero. The Python float division agrees with this for every realistic sample rate; it can differ only when the float quotient rounds to a neighbouring integer.
- Outside code may change `config.elevenlabs_voice_id` on a live engine. Here the config is fixed at construction.
- Llm.Message: a history entry is a record with both a role and a content. A dictionary without "role" or "content" makes the Python raise `KeyError`, which `generate_response` catches and turns into None; the model cannot express such an entry.
- Exceptions inside `_process_audio_buffer` other than a failed transcription are not modelled, for example from `np.concatenate`.
