/** `playSync` of Models/AudioManager.swift: the guard on the audio objects,
    the frame count, the ADSR envelope, the six-harmonic sample and the loop
    that writes it to every channel; `setupAudio` as the outcome of its calls.
    Floats are reals; the sine values are an oracle bounded by 1. */
module Audio {
  import opened Optional
  import opened Notes

  const SampleRate: real := 44100.0
  /** `duration`: every tone is one second long. */
  const ToneSeconds: real := 1.0

  const Attack: real := 0.01
  const Decay: real := 0.1
  const Sustain: real := 0.1
  const Release: real := 0.1

  /** Relative amplitudes of harmonics 1 to 6. */
  const HarmonicAmplitudes: seq<real> := [1.0, 0.5, 0.3, 0.2, 0.15, 0.1]
  const Headroom: real := 0.3

  /** The ADSR envelope at time `t` seconds into the tone. */
  function Envelope(t: real): (e: real)
    ensures 0.0 <= t <= ToneSeconds ==> 0.0 <= e <= 1.0
  {
    if t < Attack then t / Attack
    else if t < Attack + Decay then 1.0 - (1.0 - Sustain) * ((t - Attack) / Decay)
    else if t < ToneSeconds - Release then Sustain
    else Sustain * (1.0 - (t - (ToneSeconds - Release)) / Release)
  }

  /** The four phases as straight lines: 0 to 1 over the first 10 ms, down to
      the sustain level 0.1 by 110 ms, flat until 0.9 s, then down to 0 at
      1 s. The pieces meet, so the envelope has no jumps. */
  lemma EnvelopePhases(t: real)
    ensures 0.0 <= t <= 0.01 ==> Envelope(t) == 100.0 * t
    ensures 0.01 <= t <= 0.11 ==> Envelope(t) == 1.0 - 9.0 * (t - 0.01)
    ensures 0.11 <= t < 0.9 ==> Envelope(t) == 0.1
    ensures 0.9 <= t ==> Envelope(t) == 1.0 - t
    ensures Envelope(0.0) == 0.0 && Envelope(0.01) == 1.0 && Envelope(0.11) == 0.1
    ensures Envelope(0.9) == 0.1 && Envelope(1.0) == 0.0
  {
  }

  /** `AVAudioFrameCount(duration * sampleRate)`: the conversion truncates. */
  function FrameCount(seconds: real, rate: real): (r: nat)
    requires seconds >= 0.0 && rate >= 0.0
    ensures r as real <= seconds * rate < r as real + 1.0
  {
    (seconds * rate).Floor
  }

  lemma OneSecondFrameCount()
    ensures FrameCount(ToneSeconds, SampleRate) == 44100
  {
  }

  /** The exponent in `frequencyFor(note:)`: semitones above A4, so that the
      frequency is 440 Hz times 2 to the power of this over 12. The power
      itself is not modelled. */
  function SemitonesFromA4(n: Note): int {
    MidiValue(n) - 69
  }

  /** A4 sounds at 440 Hz, an octave doubles the frequency, and notes of
      the same pitch sound the same frequency whatever their spelling. */
  lemma FrequencyExponent(n: Note, m: Note)
    ensures n.name == A && n.octave == 4 && n.accidental == Natural ==> SemitonesFromA4(n) == 0
    ensures SemitonesFromA4(n.(octave := n.octave + 1)) == SemitonesFromA4(n) + 12
    ensures SemitonesFromA4(n) == SemitonesFromA4(m) <==> SamePitch(n, m)
  {
  }

  /** `sin(theta)` for frame `i` and harmonic `h` (0-based) of the tone being
      rendered; theta depends on the note's frequency. */
  type SineTable = (nat, nat) -> real

  ghost predicate BoundedSines(sines: SineTable) {
    forall i: nat, h: nat :: -1.0 <= sines(i, h) <= 1.0
  }

  /** The sum of the first `h` harmonics' contributions at frame `i`. */
  function HarmonicSum(sines: SineTable, i: nat, h: nat): real
    requires h <= |HarmonicAmplitudes|
  {
    if h == 0 then 0.0 else HarmonicSum(sines, i, h - 1) + sines(i, h - 1) * HarmonicAmplitudes[h - 1]
  }

  /** The sum of the first `h` amplitudes. */
  function AmplitudeTotal(h: nat): real
    requires h <= |HarmonicAmplitudes|
  {
    if h == 0 then 0.0 else AmplitudeTotal(h - 1) + HarmonicAmplitudes[h - 1]
  }

  /** The harmonic sum divided by the number of harmonics, scaled by the
      headroom: the sample before the envelope. */
  function Mixed(sines: SineTable, i: nat): real {
    HarmonicSum(sines, i, |HarmonicAmplitudes|) / (|HarmonicAmplitudes| as real) * Headroom
  }

  /** The value written at frame `i`: the mix scaled by the envelope. */
  function Sample(sines: SineTable, i: nat, rate: real): real
    requires rate > 0.0
  {
    Mixed(sines, i) * Envelope(i as real / rate)
  }

  lemma {:induction false} HarmonicSumBound(sines: SineTable, i: nat, h: nat)
    requires BoundedSines(sines) && h <= |HarmonicAmplitudes|
    ensures -AmplitudeTotal(h) <= HarmonicSum(sines, i, h) <= AmplitudeTotal(h)
  {
    if h > 0 {
      HarmonicSumBound(sines, i, h - 1);
      var s, a := sines(i, h - 1), HarmonicAmplitudes[h - 1];
      assert -1.0 <= s <= 1.0 && a > 0.0;
      assert -a <= s * a <= a;
    }
  }

  lemma ScaledByUnit(x: real, e: real, bound: real)
    requires -bound <= x <= bound && 0.0 <= e <= 1.0
    ensures -bound <= x * e <= bound
  {
    if x >= 0.0 {
      assert x * e <= x;
    } else {
      assert x * e >= x;
    }
  }

  lemma AmplitudesTotal()
    ensures AmplitudeTotal(6) == 2.25
  {
    assert AmplitudeTotal(1) == 1.0;
    assert AmplitudeTotal(3) == 1.8;
  }

  /** Frames up to the sample rate lie within the one-second tone. */
  lemma FrameTimeWithinTone(i: nat, rate: real)
    requires rate > 0.0 && i as real <= rate
    ensures 0.0 <= i as real / rate <= ToneSeconds
  {
    assert i as real / rate <= rate / rate;
  }

  /** Before the envelope, the mix lies within 0.3 * 2.25 / 6 of silence. */
  lemma MixedBound(sines: SineTable, i: nat)
    requires BoundedSines(sines)
    ensures -0.1125 <= Mixed(sines, i) <= 0.1125
  {
    HarmonicSumBound(sines, i, 6);
    AmplitudesTotal();
  }

  /** With sines bounded by 1, every sample within the tone lies within
      0.3 * 2.25 / 6 of silence, and the first one is silence. */
  lemma SampleBound(sines: SineTable, i: nat, rate: real)
    requires BoundedSines(sines) && rate > 0.0 && i as real <= rate
    ensures -0.1125 <= Sample(sines, i, rate) <= 0.1125
    ensures i == 0 ==> Sample(sines, i, rate) == 0.0
  {
    var x := Mixed(sines, i);
    MixedBound(sines, i);
    var t := i as real / rate;
    FrameTimeWithinTone(i, rate);
    ScaledByUnit(x, Envelope(t), 0.1125);
    if i == 0 {
      assert t == 0.0 && Envelope(t) == 0.0;
    }
  }

  /** One pass of the frame loop's body before the channel writes: the
      envelope and the harmonic sum built up one harmonic at a time. */
  method SynthesizeSample(sines: SineTable, i: nat, rate: real) returns (sample: real)
    requires rate > 0.0
    ensures sample == Sample(sines, i, rate)
  {
    var t := i as real / rate;
    var envelope := Envelope(t);
    sample := 0.0;
    for h := 0 to |HarmonicAmplitudes|
      invariant sample == HarmonicSum(sines, i, h)
    {
      sample := sample + sines(i, h) * HarmonicAmplitudes[h];
    }
    sample := sample / (|HarmonicAmplitudes| as real) * Headroom;
    sample := sample * envelope;
  }

  /** The frame loop: every channel gets the same sample at each frame. */
  method RenderBuffer(sines: SineTable, channelCount: nat, frameCount: nat, rate: real)
    returns (buffer: array2<real>)
    requires rate > 0.0
    ensures fresh(buffer) && buffer.Length0 == channelCount && buffer.Length1 == frameCount
    ensures forall c, i :: 0 <= c < channelCount && 0 <= i < frameCount ==>
              buffer[c, i] == Sample(sines, i, rate)
  {
    buffer := new real[channelCount, frameCount];
    for i := 0 to frameCount
      invariant forall c, j :: 0 <= c < channelCount && 0 <= j < i ==>
                  buffer[c, j] == Sample(sines, j, rate)
    {
      var sample := SynthesizeSample(sines, i, rate);
      for channel := 0 to channelCount
        invariant forall c, j :: 0 <= c < channelCount && 0 <= j < i ==>
                    buffer[c, j] == Sample(sines, j, rate)
        invariant forall c :: 0 <= c < channel ==> buffer[c, i] == sample
      {
        buffer[channel, i] := sample;
      }
    }
  }

  datatype AudioFormat = AudioFormat(sampleRate: real, channelCount: nat)

  /** A buffer handed to `scheduleBuffer`, with the note it sounds. */
  datatype ScheduledTone = ScheduledTone(note: Note, buffer: array2<real>)

  class AudioManager {
    var hasEngine: bool
    var hasPlayer: bool
    var format: Option<AudioFormat>
    var engineRunning: bool
    var playerPlaying: bool
    /** Notes handed to `play`, in order, for the serial audio queue. */
    var requests: seq<Note>
    var scheduled: seq<ScheduledTone>

    /** A format only exists at 44.1 kHz, and only a set-up engine runs. */
    ghost predicate Valid()
      reads this
    {
      (format.Some? ==> format.value.sampleRate == SampleRate)
      && (engineRunning ==> hasEngine && hasPlayer && format.Some?)
    }

    /** The state before `setupAudio` has run on the audio queue. */
    constructor ()
      ensures Valid() && !hasEngine && !hasPlayer && format == None && !engineRunning
      ensures !playerPlaying && requests == [] && scheduled == []
    {
      hasEngine, hasPlayer, format := false, false, None;
      engineRunning, playerPlaying := false, false;
      requests, scheduled := [], [];
    }

    /** `setupAudio`, given what the platform does: the output's channel
        count, whether the format could be built and whether `start()`
        succeeded. Failures are only logged. */
    method SetupAudio(deviceChannels: nat, formatBuilt: bool, engineStarts: bool)
      modifies this
      ensures Valid() && hasEngine && hasPlayer
      ensures format == (if formatBuilt then Some(AudioFormat(SampleRate, deviceChannels)) else None)
      ensures engineRunning == (formatBuilt && engineStarts)
      ensures !playerPlaying && requests == old(requests)
      ensures scheduled == old(scheduled)
    {
      hasEngine, hasPlayer := true, true;
      playerPlaying := false;
      engineRunning := false;
      format := if formatBuilt then Some(AudioFormat(SampleRate, deviceChannels)) else None;
      if format.None? {
        return;
      }
      engineRunning := engineStarts;
    }

    /** `play(note:)`: queue the note for the audio worker. */
    method Play(note: Note)
      modifies this
      ensures requests == old(requests) + [note]
      ensures hasEngine == old(hasEngine) && hasPlayer == old(hasPlayer) && format == old(format)
      ensures engineRunning == old(engineRunning) && playerPlaying == old(playerPlaying)
      ensures scheduled == old(scheduled)
    {
      requests := requests + [note];
    }

    /** The guard of `playSync`. */
    predicate Ready()
      reads this
    {
      hasPlayer && hasEngine && format.Some? && engineRunning
    }

    /** `playSync(note:)`: without a running engine, a player and a format it
        does nothing; otherwise it renders a one-second buffer and schedules
        it. `sines` are the sine values for the note's frequency and
        `bufferAllocated` whether the buffer and its channel data exist. */
    method PlaySync(note: Note, sines: SineTable, bufferAllocated: bool)
      requires Valid()
      modifies this
      ensures Valid()
      ensures hasEngine == old(hasEngine) && hasPlayer == old(hasPlayer) && format == old(format)
      ensures engineRunning == old(engineRunning) && requests == old(requests)
      ensures !(old(Ready()) && bufferAllocated) ==>
                scheduled == old(scheduled) && playerPlaying == old(playerPlaying)
      ensures old(Ready()) && bufferAllocated ==>
                |scheduled| == |old(scheduled)| + 1 && scheduled[..|old(scheduled)|] == old(scheduled)
                && playerPlaying
      ensures old(Ready()) && bufferAllocated ==>
                var tone := scheduled[|scheduled| - 1];
                tone.note == note && fresh(tone.buffer)
                && tone.buffer.Length0 == format.value.channelCount && tone.buffer.Length1 == 44100
                && forall c, i :: 0 <= c < tone.buffer.Length0 && 0 <= i < tone.buffer.Length1 ==>
                     tone.buffer[c, i] == Sample(sines, i, SampleRate)
    {
      if !Ready() {
        return;
      }
      var rate := format.value.sampleRate;
      var frameCount := FrameCount(ToneSeconds, rate);
      if !bufferAllocated {
        return;
      }
      OneSecondFrameCount();
      var buffer := RenderBuffer(sines, format.value.channelCount, frameCount, rate);
      scheduled := scheduled + [ScheduledTone(note, buffer)];
      playerPlaying := true;
    }
  }
}
