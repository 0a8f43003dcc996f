/**
 * The control logic of Grey Hat AI's voice engine: which components are
 * available, the listening flag, the voice-activity check, the handling of
 * a flushed utterance, and the text-to-speech cache.
 *
 * Audio devices, Whisper and Eleven Labs are not modelled: whether their
 * libraries could be imported is a constructor argument (`VoiceDeps`), and
 * what the foreign calls return is passed in (`vad`, `segmentTexts`,
 * `generated`, `voiceList`), `None` standing for a call that raised.
 */
module Voice {
  import opened Wrappers
  import opened PyText
  import opened Segmentation
  import opened TtsCache

  newtype byte = x: int | 0 <= x < 256

  type Audio = seq<byte>

  /** `VoiceConfig` without its floating-point settings. */
  datatype VoiceConfig = VoiceConfig(
    whisperModelSize: string,
    sampleRate: int,
    vadAggressiveness: int,
    elevenlabsVoiceId: string)

  const DefaultConfig := VoiceConfig("base", 16000, 2, "21m00Tcm4TlvDq8ikWAM")

  /** Which optional libraries could be imported. */
  datatype VoiceDeps = VoiceDeps(
    whisperModel: bool, webrtcvad: bool, sounddevice: bool, numpy: bool, elevenlabs: bool)

  /** The identity of a Python callable registered as a callback. */
  datatype Callback = Callback(id: nat)

  /** An Eleven Labs voice as `voices()` lists it. */
  datatype VoiceInfo = VoiceInfo(voiceId: string, name: string)

  /** `vad.is_speech(frame, sample_rate)`; `None` when it raised. */
  type VadOracle = (seq<byte>, int) -> Option<bool>

  /** The VAD frame length in milliseconds. */
  const FrameDurationMs: int := 30

  /**
   * `frame_size = int(sample_rate * 30 / 1000)`: the number of samples in
   * one 30 ms frame; `int` truncates the quotient toward zero.
   */
  function FrameSize(sampleRate: int): (n: int)
    ensures sampleRate >= 0 ==> n >= 0 && n * 1000 <= sampleRate * FrameDurationMs < (n + 1) * 1000
    ensures sampleRate < 0 ==> n <= 0 && (n - 1) * 1000 < sampleRate * FrameDurationMs <= n * 1000
  {
    var a := sampleRate * FrameDurationMs;
    if a >= 0 then a / 1000 else -((-a) / 1000)
  }

  /** Python's slice `s[:n]`, where a negative `n` counts from the end. */
  function PyPrefix<T>(s: seq<T>, n: int): (r: seq<T>)
    ensures 0 <= n <= |s| ==> r == s[..n]
    ensures |r| <= |s|
  {
    if n >= 0 then s[..if n <= |s| then n else |s|]
    else s[..if |s| + n >= 0 then |s| + n else 0]
  }

  /** `" ".join(texts)`. */
  function Join(texts: seq<string>): string {
    if texts == [] then ""
    else if |texts| == 1 then texts[0]
    else Join(texts[..|texts| - 1]) + " " + texts[|texts| - 1]
  }

  /** Joining one text gives that text, with no separator. */
  lemma JoinSingle(t: string)
    ensures Join([t]) == t
  {
  }

  /** Joining two non-empty lists is joining each and putting one space between them. */
  lemma {:induction false} JoinAppend(a: seq<string>, b: seq<string>)
    requires a != [] && b != []
    ensures Join(a + b) == Join(a) + " " + Join(b)
  {
    var m := |b| - 1;
    assert (a + b)[..|a + b| - 1] == a + b[..m];
    if m > 0 {
      JoinAppend(a, b[..m]);
    }
  }

  /** No voice after position `j` has the id of the voice at `j`. */
  predicate LastListing(voiceList: seq<VoiceInfo>, j: int)
    requires 0 <= j < |voiceList|
  {
    forall j' :: j < j' < |voiceList| ==> voiceList[j'].voiceId != voiceList[j].voiceId
  }

  /** The dictionary comprehension `{voice.voice_id: voice.name for voice in voice_list}`. */
  function VoiceNames(voiceList: seq<VoiceInfo>): (r: map<string, string>)
    ensures forall id :: id in r <==> exists j :: 0 <= j < |voiceList| && voiceList[j].voiceId == id
    ensures forall id :: id in r ==> VoiceInfo(id, r[id]) in voiceList
    ensures voiceList != [] ==>
      r[voiceList[|voiceList| - 1].voiceId] == voiceList[|voiceList| - 1].name
  {
    if voiceList == [] then map[]
    else
      var n := |voiceList| - 1;
      var v := voiceList[n];
      var r := VoiceNames(voiceList[..n])[v.voiceId := v.name];
      assert forall j :: 0 <= j < n ==> voiceList[..n][j] == voiceList[j];
      r
  }

  /** For every id, repeated or not, the map holds the name of its last listing. */
  lemma {:induction false} VoiceNamesLastWins(voiceList: seq<VoiceInfo>, j: nat)
    requires j < |voiceList| && LastListing(voiceList, j)
    ensures VoiceNames(voiceList)[voiceList[j].voiceId] == voiceList[j].name
  {
    var n := |voiceList| - 1;
    if j < n {
      var prefix := voiceList[..n];
      LastListingPrefix(voiceList, j);
      VoiceNamesLastWins(prefix, j);
      VoiceNamesSnoc(voiceList);
    }
  }

  /** A last listing before the final voice is also the last listing in the list without it. */
  lemma LastListingPrefix(voiceList: seq<VoiceInfo>, j: nat)
    requires j < |voiceList| - 1 && LastListing(voiceList, j)
    ensures voiceList[..|voiceList| - 1][j] == voiceList[j]
    ensures LastListing(voiceList[..|voiceList| - 1], j)
    ensures voiceList[|voiceList| - 1].voiceId != voiceList[j].voiceId
  {
    var prefix := voiceList[..|voiceList| - 1];
    forall j' | j < j' < |prefix| ensures prefix[j'].voiceId != prefix[j].voiceId {
      assert prefix[j'] == voiceList[j'];
    }
  }

  /** The comprehension over a non-empty list: the final voice's entry overrides the rest. */
  lemma VoiceNamesSnoc(voiceList: seq<VoiceInfo>)
    requires voiceList != []
    ensures var n := |voiceList| - 1;
      VoiceNames(voiceList) == VoiceNames(voiceList[..n])[voiceList[n].voiceId := voiceList[n].name]
  {
  }

  /** The result of `get_status()`. */
  datatype VoiceStatus = VoiceStatus(
    whisperAvailable: bool,
    vadAvailable: bool,
    elevenlabsConfigured: bool,
    isListening: bool,
    audioAvailable: bool,
    whisperModelSize: string,
    sampleRate: int,
    voiceId: string)

  class VoiceEngine {
    const config: VoiceConfig
    const deps: VoiceDeps
    /** `whisper_model is not None`; only the constructor sets it. */
    const whisperLoaded: bool
    /** `vad is not None`; only the constructor sets it. */
    const vadReady: bool
    var elevenlabsConfigured: bool
    var isListening: bool
    var speechCallback: Option<Callback>
    /** The keys of `tts_cache` in insertion order. */
    var ttsOrder: seq<CacheKey>
    /** The clips of `tts_cache`. */
    var ttsCache: map<CacheKey, Audio>

    /**
     * A component is ready only if its library is installed, listening only
     * happens with Whisper and the audio libraries, and the cache holds at
     * most `MaxEntries` clips, each key once.
     */
    ghost predicate Valid()
      reads this
    {
      && (whisperLoaded ==> deps.whisperModel)
      && (vadReady ==> deps.webrtcvad)
      && (elevenlabsConfigured ==> deps.elevenlabs)
      && (isListening ==> whisperLoaded && AudioAvailable())
      && CacheValid()
    }

    predicate AudioAvailable() {
      deps.sounddevice && deps.numpy
    }

    /**
     * `VoiceEngine(config)` with `_initialize_components`: `whisperLoadOk`
     * and `vadInitOk` say whether loading the Whisper model and creating the
     * VAD succeed. Both happen in one `try`, so a failed Whisper load also
     * leaves the VAD uninitialised.
     */
    constructor (config: Option<VoiceConfig>, deps: VoiceDeps, whisperLoadOk: bool, vadInitOk: bool)
      ensures Valid()
      ensures this.config == config.GetOr(DefaultConfig) && this.deps == deps
      ensures whisperLoaded <==> deps.whisperModel && whisperLoadOk
      ensures vadReady <==> deps.webrtcvad && vadInitOk && (deps.whisperModel ==> whisperLoadOk)
      ensures !elevenlabsConfigured && !isListening && speechCallback == None
      ensures ttsOrder == [] && ttsCache == map[]
    {
      this.config := config.GetOr(DefaultConfig);
      this.deps := deps;
      var whisperOk := !deps.whisperModel || whisperLoadOk;
      whisperLoaded := deps.whisperModel && whisperLoadOk;
      vadReady := whisperOk && deps.webrtcvad && vadInitOk;
      elevenlabsConfigured := false;
      isListening := false;
      speechCallback := None;
      ttsOrder := [];
      ttsCache := map[];
    }

    /** `set_elevenlabs_api_key(api_key)`; `sdkOk` says whether the library accepted the key. */
    method SetElevenlabsApiKey(apiKey: string, sdkOk: bool) returns (ok: bool)
      requires Valid()
      modifies this`elevenlabsConfigured
      ensures Valid()
      ensures ok <==> deps.elevenlabs && sdkOk
      ensures elevenlabsConfigured == (old(elevenlabsConfigured) || ok)
    {
      if !deps.elevenlabs {
        return false;
      }
      if !sdkOk {
        return false;
      }
      elevenlabsConfigured := true;
      return true;
    }

    /** `get_available_voices()`; `voiceList` is what `voices()` returns. */
    function GetAvailableVoices(voiceList: Option<seq<VoiceInfo>>): (r: map<string, string>)
      reads this
      ensures !elevenlabsConfigured || !deps.elevenlabs || voiceList.None? ==> r == map[]
      ensures forall id :: id in r ==> voiceList.Some? && VoiceInfo(id, r[id]) in voiceList.value
      ensures elevenlabsConfigured && deps.elevenlabs && voiceList.Some? ==>
        forall j :: 0 <= j < |voiceList.value| ==> voiceList.value[j].voiceId in r
      ensures elevenlabsConfigured && deps.elevenlabs && voiceList.Some? ==>
        r == VoiceNames(voiceList.value)
    {
      if !elevenlabsConfigured || !deps.elevenlabs then map[]
      else if voiceList.None? then map[]
      else VoiceNames(voiceList.value)
    }

    /**
     * `start_listening(callback)`: does nothing when already listening or
     * when Whisper or the audio libraries are missing; otherwise registers
     * the callback, if one is given, and starts the recording loop.
     */
    method StartListening(callback: Option<Callback>) returns (started: bool)
      requires Valid()
      modifies this`isListening, this`speechCallback
      ensures Valid()
      ensures started <==> !old(isListening) && whisperLoaded && AudioAvailable()
      ensures started ==> isListening
      ensures started ==> speechCallback == if callback.Some? then callback else old(speechCallback)
      ensures !started ==> isListening == old(isListening) && speechCallback == old(speechCallback)
    {
      if isListening {
        return false;
      }
      if !whisperLoaded {
        return false;
      }
      if !deps.sounddevice || !deps.numpy {
        return false;
      }
      if callback.Some? {
        speechCallback := callback;
      }
      isListening := true;
      return true;
    }

    /**
     * The assignment `engine.on_speech_detected = callback` made by outside
     * code; `start_listening()` without an argument then keeps it.
     */
    method SetSpeechCallback(callback: Option<Callback>)
      requires Valid()
      modifies this`speechCallback
      ensures Valid()
      ensures speechCallback == callback
    {
      speechCallback := callback;
    }

    /** `stop_listening()`: does nothing when not listening, otherwise clears the flag. */
    method StopListening() returns (stopped: bool)
      requires Valid()
      modifies this`isListening
      ensures Valid()
      ensures stopped == old(isListening)
      ensures !isListening
    {
      if !isListening {
        return false;
      }
      isListening := false;
      return true;
    }

    /**
     * `_is_speech(audio_bytes)`: with no VAD every chunk counts as speech; a
     * chunk shorter than one 16-bit frame is silence; otherwise the VAD
     * judges the first frame, and an error in it counts as speech.
     */
    function IsSpeech(vad: VadOracle, audio: Audio): (r: bool)
      ensures !vadReady ==> r
      ensures vadReady && |audio| < FrameSize(config.sampleRate) * 2 ==> !r
      ensures vadReady && 0 <= FrameSize(config.sampleRate) * 2 <= |audio| ==>
        r == vad(audio[..FrameSize(config.sampleRate) * 2], config.sampleRate).GetOr(true)
    {
      if !vadReady then true
      else
        var frameSize := FrameSize(config.sampleRate);
        if |audio| < frameSize * 2 then false
        else
          var frame := PyPrefix(audio, frameSize * 2);
          match vad(frame, config.sampleRate)
          case Some(speech) => speech
          case None => true
    }

    /** The verdict depends on the first frame alone: chunks that share it are judged alike. */
    lemma IsSpeechFirstFrameOnly(vad: VadOracle, a: Audio, b: Audio)
      requires 0 <= FrameSize(config.sampleRate) * 2 <= |a| && FrameSize(config.sampleRate) * 2 <= |b|
      requires a[..FrameSize(config.sampleRate) * 2] == b[..FrameSize(config.sampleRate) * 2]
      ensures IsSpeech(vad, a) == IsSpeech(vad, b)
    {
    }

    /** `_transcribe_audio`: the Whisper segments joined and stripped, or "" without a model or on error. */
    function Transcribe(segmentTexts: Option<seq<string>>): (text: string)
      ensures Trimmed(text)
      ensures !whisperLoaded || segmentTexts.None? ==> text == ""
      ensures whisperLoaded && segmentTexts.Some? ==> text == Strip(Join(segmentTexts.value))
    {
      if !whisperLoaded then ""
      else if segmentTexts.None? then ""
      else Strip(Join(segmentTexts.value))
    }

    /**
     * `_process_audio_buffer(audio_buffer)`: the text the speech callback is
     * called with, or `None` when it is not called. `segmentTexts` is what
     * Whisper returns for the buffer.
     */
    function ProcessAudioBuffer(buffer: seq<Frame>, segmentTexts: Option<seq<string>>)
      : (spoken: Option<string>)
      reads this
      ensures buffer == [] ==> spoken.None?
      ensures spoken.Some? <==>
        buffer != [] && speechCallback.Some? && !AllSpace(Transcribe(segmentTexts))
      ensures spoken.Some? ==>
        spoken.value == Transcribe(segmentTexts) && spoken.value != "" && Trimmed(spoken.value)
    {
      if buffer == [] then None
      else
        var text := Transcribe(segmentTexts);
        StripIdempotent(Join(segmentTexts.GetOr([])));
        if text != "" && Strip(text) != "" && speechCallback.Some? then Some(Strip(text))
        else None
    }

    /** The cache key of `text_to_speech(text, voice_id)`; a missing or empty voice id means the configured one. */
    function KeyFor(text: string, voiceId: Option<string>): (key: CacheKey)
      ensures key.text == text
      ensures voiceId.Some? && voiceId.value != "" ==> key.voiceId == voiceId.value
      ensures voiceId.None? || voiceId == Some("") ==> key.voiceId == config.elevenlabsVoiceId
    {
      var voice := if voiceId.Some? && voiceId.value != "" then voiceId.value
                   else config.elevenlabsVoiceId;
      CacheKey(voice, text)
    }

    /**
     * `text_to_speech(text, voice_id)`; `generated` is what Eleven Labs'
     * `generate` returns, `None` when it raised. Nothing happens without
     * Eleven Labs; a cached clip is returned as it is; a new clip is
     * cached, and when the cache then holds more than `MaxEntries` clips
     * its `EvictBatch` oldest keys are deleted.
     */
    method TextToSpeech(text: string, voiceId: Option<string>, generated: Option<Audio>)
      returns (audio: Option<Audio>)
      requires Valid()
      modifies this`ttsOrder, this`ttsCache
      ensures Valid()
      ensures !elevenlabsConfigured || !deps.elevenlabs ==>
        audio.None? && ttsOrder == old(ttsOrder) && ttsCache == old(ttsCache)
      ensures elevenlabsConfigured && deps.elevenlabs && KeyFor(text, voiceId) in old(ttsCache) ==>
        audio == Some(old(ttsCache)[KeyFor(text, voiceId)])
        && ttsOrder == old(ttsOrder) && ttsCache == old(ttsCache)
      ensures elevenlabsConfigured && deps.elevenlabs && KeyFor(text, voiceId) !in old(ttsCache) ==>
        audio == generated
      ensures elevenlabsConfigured && deps.elevenlabs && KeyFor(text, voiceId) !in old(ttsCache)
              && generated.None? ==>
        ttsOrder == old(ttsOrder) && ttsCache == old(ttsCache)
      ensures elevenlabsConfigured && deps.elevenlabs && KeyFor(text, voiceId) !in old(ttsCache)
              && generated.Some? ==>
        && ttsOrder == AfterInsert(old(ttsOrder), KeyFor(text, voiceId))
        && forall k :: k in ttsCache ==>
             ttsCache[k] == old(ttsCache)[KeyFor(text, voiceId) := generated.value][k]
    {
      if !elevenlabsConfigured || !deps.elevenlabs {
        return None;
      }
      var key := KeyFor(text, voiceId);
      if key in ttsCache {
        return Some(ttsCache[key]);
      }
      if generated.None? {
        return None;
      }
      CacheClip(key, generated.value);
      return generated;
    }

    /** The cache part of `Valid()`. */
    ghost predicate CacheValid()
      reads this
    {
      && Distinct(ttsOrder)
      && (forall k :: k in ttsCache <==> k in ttsOrder)
      && |ttsOrder| <= MaxEntries
    }

    /** Caches a clip under a new key, then evicts the oldest keys if the cache overflowed. */
    method CacheClip(key: CacheKey, clip: Audio)
      requires CacheValid() && key !in ttsCache
      modifies this`ttsOrder, this`ttsCache
      ensures CacheValid()
      ensures ttsOrder == AfterInsert(old(ttsOrder), key)
      ensures forall k :: k in ttsCache ==> ttsCache[k] == old(ttsCache)[key := clip][k]
    {
      ghost var before := ttsOrder;
      InsertDistinct(before, key);
      InsertBounded(before, key);
      ttsCache := ttsCache[key := clip];
      ttsOrder := ttsOrder + [key];
      assert ttsCache.Keys == set k | k in ttsOrder;
      CardinalityOfKeys(ttsOrder);
      if |ttsCache| > MaxEntries {
        EvictOldest();
      }
    }

    /** The loop that deletes the `EvictBatch` oldest keys. */
    method EvictOldest()
      requires Distinct(ttsOrder) && |ttsOrder| >= EvictBatch
      requires forall k :: k in ttsCache <==> k in ttsOrder
      modifies this`ttsOrder, this`ttsCache
      ensures ttsOrder == old(ttsOrder)[EvictBatch..]
      ensures forall k :: k in ttsCache <==> k in ttsOrder
      ensures forall k :: k in ttsCache ==> ttsCache[k] == old(ttsCache)[k]
    {
      ghost var full := ttsOrder;
      var oldest := ttsOrder[..EvictBatch];
      var i := 0;
      while i < |oldest|
        invariant 0 <= i <= |oldest|
        invariant ttsOrder == full[i..]
        invariant forall k :: k in ttsCache <==> k in ttsOrder
        invariant forall k :: k in ttsCache ==> ttsCache[k] == old(ttsCache)[k]
      {
        assert Distinct(full[i..]) by {
          forall a, b | 0 <= a < b < |full[i..]| ensures full[i..][a] != full[i..][b] {
            assert full[i..][a] == full[i + a] && full[i..][b] == full[i + b];
          }
        }
        RemoveOldest(full[i..]);
        assert full[i..][1..] == full[i + 1..];
        ttsCache := ttsCache - {oldest[i]};
        ttsOrder := RemoveKey(ttsOrder, oldest[i]);
        i := i + 1;
      }
    }

    /** `get_status()`. */
    function GetStatus(): (s: VoiceStatus)
      reads this
      ensures Valid() && s.isListening ==> s.whisperAvailable && s.audioAvailable
      ensures Valid() && s.elevenlabsConfigured ==> deps.elevenlabs
      ensures s.sampleRate == config.sampleRate && s.voiceId == config.elevenlabsVoiceId
      ensures s.whisperAvailable == whisperLoaded && s.vadAvailable == vadReady
      ensures s.elevenlabsConfigured == elevenlabsConfigured && s.isListening == isListening
      ensures s.audioAvailable == AudioAvailable() && s.whisperModelSize == config.whisperModelSize
    {
      VoiceStatus(whisperLoaded, vadReady, elevenlabsConfigured, isListening, AudioAvailable(),
                  config.whisperModelSize, config.sampleRate, config.elevenlabsVoiceId)
    }
  }

  /** A duplicate-free order has as many elements as it has distinct keys. */
  lemma {:induction false} CardinalityOfKeys(keys: seq<CacheKey>)
    requires Distinct(keys)
    ensures |set k | k in keys| == |keys|
  {
    if keys != [] {
      var n := |keys| - 1;
      assert Distinct(keys[..n]);
      CardinalityOfKeys(keys[..n]);
      assert (set k | k in keys) == (set k | k in keys[..n]) + {keys[n]};
      assert keys[n] !in keys[..n];
    }
  }
}
