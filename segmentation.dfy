/**
 * The voice-activity segmentation of the recording loop of Grey Hat AI's
 * voice engine. Chunks arrive one at a time, each already classified as
 * speech or not; they are gathered in an audio buffer, a counter tracks
 * the silent chunks since the last speech, and once enough silence has
 * followed some speech the buffer is flushed as one utterance.
 */
module Segmentation {

  /** The samples of one recorded chunk (their values are not interpreted here). */
  type Chunk = seq<int>

  /** A chunk together with the voice-activity verdict on it. */
  datatype Frame = Frame(chunk: Chunk, isSpeech: bool)

  /** The loop's local state: `audio_buffer` and `silence_chunks`. */
  datatype Recorder = Recorder(buffer: seq<Frame>, silence: nat)

  const Idle := Recorder([], 0)

  /** The state and the utterances flushed so far. */
  datatype Trace = Trace(recorder: Recorder, segments: seq<seq<Frame>>)

  /** Speech is always kept and resets the counter; silence is counted and kept only after speech. */
  function Accumulate(r: Recorder, f: Frame): (r': Recorder)
    ensures f.isSpeech ==> r'.buffer == r.buffer + [f] && r'.silence == 0
    ensures !f.isSpeech ==> r'.silence == r.silence + 1
    ensures !f.isSpeech ==> r'.buffer == if r.buffer == [] then [] else r.buffer + [f]
  {
    if f.isSpeech then Recorder(r.buffer + [f], 0)
    else Recorder(if r.buffer != [] then r.buffer + [f] else r.buffer, r.silence + 1)
  }

  /** The flush condition `audio_buffer and silence_chunks >= max_silence_chunks`. */
  predicate ShouldFlush(r: Recorder, maxSilence: nat) {
    r.buffer != [] && r.silence >= maxSilence
  }

  /** One iteration of the loop body. */
  function Step(t: Trace, f: Frame, maxSilence: nat): Trace {
    var r := Accumulate(t.recorder, f);
    if ShouldFlush(r, maxSilence) then Trace(Idle, t.segments + [r.buffer])
    else Trace(r, t.segments)
  }

  /** The loop run over `frames`, starting from an empty buffer. */
  function Run(frames: seq<Frame>, maxSilence: nat): Trace {
    if frames == [] then Trace(Idle, [])
    else Step(Run(frames[..|frames| - 1], maxSilence), frames[|frames| - 1], maxSilence)
  }

  /**
   * What the loop keeps true between iterations: the buffer begins with a
   * speech chunk, a non-empty buffer has not yet seen enough silence, and
   * every flushed utterance is non-empty and begins with speech.
   */
  ghost predicate Inv(t: Trace, maxSilence: nat) {
    && (t.recorder.buffer != [] ==> t.recorder.buffer[0].isSpeech)
    && (t.recorder.buffer != [] ==> t.recorder.silence < maxSilence)
    && (forall k :: 0 <= k < |t.segments| ==> t.segments[k] != [] && t.segments[k][0].isSpeech)
  }

  /**
   * One step flushes exactly when the buffer is non-empty after taking the
   * chunk and enough silence has been counted; a flush emits that whole
   * buffer and leaves the buffer empty with the counter at 0.
   */
  lemma StepFlush(t: Trace, f: Frame, maxSilence: nat)
    ensures var r := Accumulate(t.recorder, f); var t' := Step(t, f, maxSilence);
      && (|t'.segments| == |t.segments| + 1 <==> r.buffer != [] && r.silence >= maxSilence)
      && (|t'.segments| == |t.segments| + 1 ==>
            t'.segments == t.segments + [r.buffer] && t'.recorder == Recorder([], 0))
      && (|t'.segments| != |t.segments| + 1 ==> t' == Trace(r, t.segments))
  {
  }

  lemma StepInv(t: Trace, f: Frame, maxSilence: nat)
    requires Inv(t, maxSilence)
    ensures Inv(Step(t, f, maxSilence), maxSilence)
  {
    var r := Accumulate(t.recorder, f);
    if r.buffer != [] {
      assert r.buffer[0].isSpeech;
    }
  }

  /** Every utterance the loop flushes is non-empty and begins with a speech chunk. */
  lemma {:induction false} RunInv(frames: seq<Frame>, maxSilence: nat)
    ensures Inv(Run(frames, maxSilence), maxSilence)
  {
    if frames != [] {
      RunInv(frames[..|frames| - 1], maxSilence);
      StepInv(Run(frames[..|frames| - 1], maxSilence), frames[|frames| - 1], maxSilence);
    }
  }

  /** The speech chunks among `frames`, in order. */
  function SpeechOnly(frames: seq<Frame>): seq<Frame> {
    if frames == [] then []
    else SpeechOnly(frames[..|frames| - 1]) + (if frames[|frames| - 1].isSpeech then [frames[|frames| - 1]] else [])
  }

  lemma {:induction false} SpeechOnlyAppend(a: seq<Frame>, b: seq<Frame>)
    ensures SpeechOnly(a + b) == SpeechOnly(a) + SpeechOnly(b)
  {
    if b != [] {
      var n := |b| - 1;
      assert (a + b)[..|a + b| - 1] == a + b[..n];
      SpeechOnlyAppend(a, b[..n]);
    } else {
      assert a + b == a;
    }
  }

  /** The utterances one after the other. */
  function Flatten(segments: seq<seq<Frame>>): seq<Frame> {
    if segments == [] then []
    else Flatten(segments[..|segments| - 1]) + segments[|segments| - 1]
  }

  /** Everything the loop has taken so far: the flushed utterances, then the buffer. */
  function Kept(t: Trace): seq<Frame> {
    Flatten(t.segments) + t.recorder.buffer
  }

  /**
   * No speech is lost or invented: the speech chunks kept in the utterances
   * and the buffer are exactly the input's speech chunks, in their order.
   */
  lemma {:induction false} RunKeepsSpeech(frames: seq<Frame>, maxSilence: nat)
    ensures SpeechOnly(Kept(Run(frames, maxSilence))) == SpeechOnly(frames)
  {
    if frames != [] {
      var n := |frames| - 1;
      RunKeepsSpeech(frames[..n], maxSilence);
      StepKeepsSpeech(Run(frames[..n], maxSilence), frames[n], maxSilence);
    }
  }

  /** One step adds the chunk to the kept speech exactly when it is speech. */
  lemma StepKeepsSpeech(t: Trace, f: Frame, maxSilence: nat)
    ensures SpeechOnly(Kept(Step(t, f, maxSilence))) ==
      SpeechOnly(Kept(t)) + (if f.isSpeech then [f] else [])
  {
    var r := Accumulate(t.recorder, f);
    var fs := if f.isSpeech then [f] else [];
    calc {
      SpeechOnly(Kept(Step(t, f, maxSilence)));
      == { StepKept(t, f, maxSilence); }
      SpeechOnly(Flatten(t.segments) + r.buffer);
      == { SpeechOnlyAppend(Flatten(t.segments), r.buffer); }
      SpeechOnly(Flatten(t.segments)) + SpeechOnly(r.buffer);
      == { AccumulateSpeech(t.recorder, f); }
      SpeechOnly(Flatten(t.segments)) + SpeechOnly(t.recorder.buffer) + fs;
      == { SpeechOnlyAppend(Flatten(t.segments), t.recorder.buffer); }
      SpeechOnly(Kept(t)) + fs;
    }
  }

  /** After one step, the loop has taken the earlier utterances and the grown buffer. */
  lemma StepKept(t: Trace, f: Frame, maxSilence: nat)
    ensures Kept(Step(t, f, maxSilence)) == Flatten(t.segments) + Accumulate(t.recorder, f).buffer
  {
    var r := Accumulate(t.recorder, f);
    if ShouldFlush(r, maxSilence) {
      var segs := t.segments + [r.buffer];
      assert segs[..|segs| - 1] == t.segments;
    }
  }

  /** Taking a chunk adds it to the buffer's speech exactly when it is speech. */
  lemma AccumulateSpeech(r: Recorder, f: Frame)
    ensures SpeechOnly(Accumulate(r, f).buffer) ==
      SpeechOnly(r.buffer) + (if f.isSpeech then [f] else [])
  {
    var r' := Accumulate(r, f);
    if r'.buffer != r.buffer {
      assert r'.buffer == r.buffer + [f];
      assert (r.buffer + [f])[..|r.buffer|] == r.buffer;
    }
  }

  /**
   * The decision logic of `_recording_loop` over the chunks that arrive
   * while listening: returns the flushed utterances and the final buffer
   * and silence counter.
   */
  method RecordingLoop(frames: seq<Frame>, maxSilence: nat)
    returns (segments: seq<seq<Frame>>, buffer: seq<Frame>, silence: nat)
    ensures Trace(Recorder(buffer, silence), segments) == Run(frames, maxSilence)
    ensures forall k :: 0 <= k < |segments| ==> segments[k] != [] && segments[k][0].isSpeech
    ensures buffer != [] ==> buffer[0].isSpeech && silence < maxSilence
    ensures SpeechOnly(Flatten(segments) + buffer) == SpeechOnly(frames)
  {
    segments, buffer, silence := [], [], 0;
    var i := 0;
    while i < |frames|
      invariant 0 <= i <= |frames|
      invariant Trace(Recorder(buffer, silence), segments) == Run(frames[..i], maxSilence)
    {
      var f := frames[i];
      if f.isSpeech {
        buffer := buffer + [f];
        silence := 0;
      } else {
        silence := silence + 1;
        if buffer != [] {
          buffer := buffer + [f];
        }
      }
      if buffer != [] && silence >= maxSilence {
        segments := segments + [buffer];
        buffer := [];
        silence := 0;
      }
      assert frames[..i + 1][..i] == frames[..i];
      i := i + 1;
    }
    assert frames[..i] == frames;
    RunInv(frames, maxSilence);
    RunKeepsSpeech(frames, maxSilence);
  }
}
