/**
 * The ReplayGain stage: a track or album gain in dB applied as a linear
 * factor, followed by the peak limiter or a plain clamp. `pow10(x)` stands
 * for the host's `10.0.pow(x)`.
 */
module ReplayGain {
  import opened Optional
  import opened Pcm
  import opened ByteBuffers
  import opened Stage

  datatype ReplayGainMode = Disabled | Track | Album

  /** The stage's settings: the two gains in dB, the mode and the limiter switch. */
  datatype Settings = Settings(trackGain: real, albumGain: real, mode: ReplayGainMode, limiterEnabled: bool)

  /** `isActive`: a mode is selected and either gain, not only the selected one, is non-zero. */
  function Active(s: Settings): bool {
    s.mode != Disabled && (s.trackGain != 0.0 || s.albumGain != 0.0)
  }

  /** The gain the mode picks. */
  function SelectedGain(s: Settings): real {
    match s.mode
    case Track => s.trackGain
    case Album => s.albumGain
    case Disabled => 0.0
  }

  /**
   * The stage reports itself active in TRACK mode with a zero track gain
   * and a non-zero album gain, although its output is then a plain copy.
   */
  lemma ActiveCountsUnselectedGain(s: Settings)
    requires s.mode == Track && s.trackGain == 0.0 && s.albumGain != 0.0
    ensures Active(s) && SelectedGain(s) == 0.0
  {
  }

  /** Both directions of `isActive`: inactive exactly when disabled or both gains are zero. */
  lemma InactiveIffSilentOrDisabled(s: Settings)
    ensures !Active(s) <==> (s.mode == Disabled || (s.trackGain == 0.0 && s.albumGain == 0.0))
    ensures Active(s) ==> s.mode != Disabled
  {
  }

  /**
   * The samples after gain: with the limiter the peak is measured after the
   * gain and the buffer limited; without it each product is clamped.
   */
  function Amplified(s: seq<real>, g: real, limiterEnabled: bool): (r: seq<real>)
    ensures |r| == |s|
  {
    if limiterEnabled then Limited(Scale(s, g)) else ClampAll(Scale(s, g))
  }

  /**
   * With the limiter every amplified sample stays within the threshold and
   * keeps the sign of `s * gain`; without it each is clamp(s * gain, -1, 1).
   */
  lemma AmplifiedBounds(s: seq<real>, g: real, limiterEnabled: bool)
    ensures limiterEnabled ==> forall i :: 0 <= i < |s| ==>
      Abs(Amplified(s, g, true)[i]) <= LimiterThreshold &&
      (0.0 < Amplify(s[i], g) <==> 0.0 < Amplified(s, g, true)[i]) &&
      (Amplify(s[i], g) < 0.0 <==> Amplified(s, g, true)[i] < 0.0)
    ensures !limiterEnabled ==> forall i :: 0 <= i < |s| ==>
      Amplified(s, g, false)[i] == Clamp(Amplify(s[i], g), -1.0, 1.0)
  {
    var t := Scale(s, g);
    LimitedWithinThreshold(t);
    LimitedKeepsSign(t);
  }

  /** What one `getOutput` call produces. */
  datatype Outcome =
    | NoOutput                       // an empty buffer; nothing changes
    | Copied(bytes: seq<byte>)       // the input's pending bytes, unchanged
    | Rewritten(samples: seq<real>)  // these samples, re-encoded as shorts
    | Overrun(decoded: seq<real>)    // the decode loop ran off the scratch array, which then
                                     // holds `decoded`; the call raises ArrayIndexOutOfBoundsException

  /**
   * The decision chain of `getOutput` over the stage's state: whether each
   * buffer exists, the input's pending bytes, the configured format and the
   * scratch length. DISABLED copies without looking at the format; every
   * other mode checks buffers, remaining bytes, format and the scratch
   * guard on frames first, and only then copies when the selected gain is
   * 0 dB; a non-zero gain decodes frames times channels floats, which can
   * overrun the scratch array.
   */
  function Decide(s: Settings, hasInput: bool, hasOutput: bool, hasScratch: bool,
                  pending: seq<byte>, format: Option<AudioFormat>, scratch: nat,
                  pow10: real -> real): Outcome
    requires format.Some? ==> ValidFormat(format.value)
  {
    if s.mode == Disabled then
      if !hasInput || |pending| == 0 || !hasOutput then NoOutput else Copied(pending)
    else if !hasInput || !hasOutput || !hasScratch || |pending| == 0 || format.None? then NoOutput
    else
      var ch := format.value.channelCount;
      var frames := FrameCount(|pending|, ch);
      var n := Interleaved(frames, ch);
      if frames > scratch then NoOutput
      else if SelectedGain(s) == 0.0 then Copied(pending)
      else if n > scratch then Overrun(DecodeShorts(pending, scratch))
      else Rewritten(Amplified(DecodeShorts(pending, n), pow10(SelectedGain(s) / 20.0), s.limiterEnabled))
  }

  /** DISABLED, or a selected gain of exactly 0 dB, yields a byte-for-byte copy of the pending input. */
  lemma PassThroughCases(s: Settings, pending: seq<byte>, format: Option<AudioFormat>, scratch: nat,
                         pow10: real -> real)
    requires format.Some? ==> ValidFormat(format.value)
    requires |pending| > 0
    ensures s.mode == Disabled ==> Decide(s, true, true, true, pending, format, scratch, pow10) == Copied(pending)
    ensures s.mode != Disabled && SelectedGain(s) == 0.0 && format.Some? &&
            GuardAsWritten(|pending|, format.value.channelCount, scratch) ==>
            Decide(s, true, true, true, pending, format, scratch, pow10) == Copied(pending)
  {
  }

  /**
   * A call throws exactly when a gain is applied, the frame guard passes
   * and frames times channels exceed the scratch length; that needs two
   * channels or more, and the array then holds the first shorts decoded.
   */
  lemma OverrunIff(s: Settings, hasInput: bool, hasOutput: bool, hasScratch: bool, pending: seq<byte>,
                   format: Option<AudioFormat>, scratch: nat, pow10: real -> real)
    requires format.Some? ==> ValidFormat(format.value)
    ensures Decide(s, hasInput, hasOutput, hasScratch, pending, format, scratch, pow10).Overrun?
      <==> (s.mode != Disabled && SelectedGain(s) != 0.0 &&
            hasInput && hasOutput && hasScratch && |pending| > 0 && format.Some? &&
            GuardAsWritten(|pending|, format.value.channelCount, scratch) &&
            !GuardCorrected(|pending|, format.value.channelCount, scratch))
    ensures Decide(s, hasInput, hasOutput, hasScratch, pending, format, scratch, pow10).Overrun? ==>
      format.value.channelCount >= 2 && 2 * (scratch + 1) <= |pending| &&
      Decide(s, hasInput, hasOutput, hasScratch, pending, format, scratch, pow10).decoded ==
        DecodeShorts(pending, scratch)
  {
    if Decide(s, hasInput, hasOutput, hasScratch, pending, format, scratch, pow10).Overrun? {
      OverrunWindow(|pending|, format.value.channelCount, scratch);
    }
  }

  /**
   * A rewrite decodes whole frames only, uses the selected gain as
   * 10^(dB/20), and with the limiter on writes shorts within +-31128.
   */
  lemma RewrittenOutput(s: Settings, pending: seq<byte>, format: Option<AudioFormat>, scratch: nat,
                        pow10: real -> real)
    requires format.Some? ==> ValidFormat(format.value)
    requires Decide(s, true, true, true, pending, format, scratch, pow10).Rewritten?
    ensures format.Some? && s.mode != Disabled && SelectedGain(s) != 0.0
    ensures var ss := Decide(s, true, true, true, pending, format, scratch, pow10).samples;
      var ch := format.value.channelCount;
      |ss| == Interleaved(FrameCount(|pending|, ch), ch) && 2 * |ss| <= |pending| && |ss| <= scratch &&
      ss == Amplified(DecodeShorts(pending, |ss|), pow10(SelectedGain(s) / 20.0), s.limiterEnabled) &&
      (s.limiterEnabled ==> forall i :: 0 <= i < |ss| ==> -31128 <= ToShort(ss[i]) <= 31128)
  {
    var ch := format.value.channelCount;
    var n := Interleaved(FrameCount(|pending|, ch), ch);
    var ss := Decide(s, true, true, true, pending, format, scratch, pow10).samples;
    if s.limiterEnabled {
      LimitedShortsBounded(Scale(DecodeShorts(pending, n), pow10(SelectedGain(s) / 20.0)));
    }
  }

  /** First pass of `applyReplayGainWithLimiting`: the peak of the amplified samples. */
  method AmplifiedPeak(samples: array<real>, count: nat, linearGain: real) returns (maxSample: real)
    requires count <= samples.Length
    ensures maxSample == Peak(Scale(samples[..count], linearGain))
  {
    ghost var t := Scale(samples[..count], linearGain);
    maxSample := 0.0;
    var i := 0;
    while i < count
      invariant 0 <= i <= count
      invariant maxSample == Peak(t[..i])
    {
      var amplified := Amplify(samples[i], linearGain);
      assert t[..i + 1][..i] == t[..i];
      maxSample := Max(maxSample, Abs(amplified));
      i := i + 1;
    }
    assert t[..count] == t;
  }

  /**
   * `applyReplayGainWithLimiting`: the first pass finds the peak of the
   * amplified samples, the second scales by threshold / peak above the
   * threshold (or applies the gain alone) and clamps.
   */
  method ApplyReplayGainWithLimiting(samples: array<real>, count: nat, linearGain: real)
    requires count <= samples.Length
    modifies samples
    ensures samples[..count] == Limited(Scale(old(samples[..count]), linearGain))
    ensures samples[count..] == old(samples[count..])
  {
    ghost var t := Scale(samples[..count], linearGain);
    var maxSample := AmplifiedPeak(samples, count, linearGain);
    if maxSample > LimiterThreshold {
      var limitingGain := LimiterThreshold / maxSample;
      LimitingPass(samples, count, linearGain, limitingGain);
    } else {
      ApplyGainClamped(samples, count, linearGain);
    }
  }

  /** The limiting branch: each sample becomes clamp(s * gain * limitingGain, -1, 1). */
  method LimitingPass(samples: array<real>, count: nat, linearGain: real, limitingGain: real)
    requires count <= samples.Length
    modifies samples
    ensures samples[..count] == ClampAll(Scale(Scale(old(samples[..count]), linearGain), limitingGain))
    ensures samples[count..] == old(samples[count..])
  {
    ghost var s0 := samples[..count];
    var i := 0;
    while i < count
      invariant 0 <= i <= count
      invariant forall j :: 0 <= j < i ==> samples[j] == ClampAll(Scale(Scale(s0, linearGain), limitingGain))[j]
      invariant forall j :: i <= j < count ==> samples[j] == s0[j]
      invariant samples[count..] == old(samples[count..])
    {
      samples[i] := Clamp(Amplify(Amplify(samples[i], linearGain), limitingGain), -1.0, 1.0);
      i := i + 1;
    }
  }

  /** The limiter-off branch: each sample becomes clamp(s * gain, -1, 1). */
  method ApplyGainClamped(samples: array<real>, count: nat, linearGain: real)
    requires count <= samples.Length
    modifies samples
    ensures samples[..count] == ClampAll(Scale(old(samples[..count]), linearGain))
    ensures samples[count..] == old(samples[count..])
  {
    ghost var s0 := samples[..count];
    var i := 0;
    while i < count
      invariant 0 <= i <= count
      invariant forall j :: 0 <= j < i ==> samples[j] == ClampAll(Scale(s0, linearGain))[j]
      invariant forall j :: i <= j < count ==> samples[j] == s0[j]
      invariant samples[count..] == old(samples[count..])
    {
      samples[i] := Clamp(Amplify(samples[i], linearGain), -1.0, 1.0);
      i := i + 1;
    }
  }

  /**
   * The gain path of `getOutput`: decode `count` shorts into the scratch
   * array, apply the gain with the limiter or the clamp, and write the
   * samples back into the output buffer.
   */
  method ApplyGain(input: ByteBuffer, output: ByteBuffer, samples: array<real>, count: nat,
                   linearGain: real, limiterEnabled: bool)
    requires input.Valid() && output.Valid() && input != output && input.data != output.data
    requires 2 * count <= input.Remaining() && count <= samples.Length
    requires input.Capacity() == output.Capacity()
    modifies input, output, output.data, samples
    ensures input.Valid() && output.Valid()
    ensures input.position == 0 && input.limit == input.Capacity()
    ensures var ss := Amplified(DecodeShorts(old(input.Pending()), count), linearGain, limiterEnabled);
      output.Pending() == EncodeShorts(ss) &&
      samples[..count] == ss && samples[count..] == old(samples[count..])
  {
    ghost var expected := Amplified(DecodeShorts(input.Pending(), count), linearGain, limiterEnabled);
    DecodeInto(input, samples, count);
    if limiterEnabled {
      ApplyReplayGainWithLimiting(samples, count, linearGain);
    } else {
      ApplyGainClamped(samples, count, linearGain);
    }
    assert samples[..count] == expected;
    WriteBack(samples, count, input, output);
  }

  class ReplayGainProcessor {
    var trackGain: real
    var albumGain: real
    var mode: ReplayGainMode
    var limiterEnabled: bool
    var inputAudioFormat: Option<AudioFormat>
    var outputAudioFormat: Option<AudioFormat>
    var inputBuffer: ByteBuffer?
    var outputBuffer: ByteBuffer?
    var buffer: array?<real>
    ghost var Repr: set<object>

    ghost predicate Valid()
      reads this, Repr
    {
      this in Repr &&
      (inputBuffer != null ==> inputBuffer in Repr && inputBuffer.data in Repr && inputBuffer.Valid()) &&
      (outputBuffer != null ==> outputBuffer in Repr && outputBuffer.data in Repr && outputBuffer.Valid()) &&
      (buffer != null ==> buffer in Repr) &&
      (inputBuffer != null && outputBuffer != null ==>
        inputBuffer != outputBuffer && inputBuffer.data != outputBuffer.data &&
        inputBuffer.Capacity() == outputBuffer.Capacity()) &&
      (inputAudioFormat.Some? ==> ValidFormat(inputAudioFormat.value))
    }

    function CurrentSettings(): Settings
      reads this
    {
      Settings(trackGain, albumGain, mode, limiterEnabled)
    }

    /** The three buffers, any of which may be missing. */
    function Buffers(): (ByteBuffer?, ByteBuffer?, array?<real>)
      reads this
    {
      (inputBuffer, outputBuffer, buffer)
    }

    function Formats(): (Option<AudioFormat>, Option<AudioFormat>)
      reads this
    {
      (inputAudioFormat, outputAudioFormat)
    }

    /** The input's pending bytes, or none without an input buffer. */
    ghost function PendingInput(): seq<byte>
      reads this, Repr
      requires Valid()
    {
      if inputBuffer == null then [] else inputBuffer.Pending()
    }

    /** What `getOutput` would do now. */
    ghost function Decision(pow10: real -> real): Outcome
      reads this, Repr
      requires Valid()
    {
      Decide(CurrentSettings(), inputBuffer != null, outputBuffer != null, buffer != null,
             PendingInput(), inputAudioFormat, if buffer == null then 0 else buffer.Length, pow10)
    }

    ghost predicate InputCleared()
      reads this, Repr
      requires Valid()
    {
      inputBuffer != null && inputBuffer.position == 0 && inputBuffer.limit == inputBuffer.Capacity()
    }

    constructor ()
      ensures Valid() && fresh(Repr)
      ensures CurrentSettings() == Settings(0.0, 0.0, Disabled, true)
      ensures inputAudioFormat == None && outputAudioFormat == None
      ensures inputBuffer == null && outputBuffer == null && buffer == null
    {
      trackGain, albumGain := 0.0, 0.0;
      mode := Disabled;
      limiterEnabled := true;
      inputAudioFormat, outputAudioFormat := None, None;
      inputBuffer, outputBuffer, buffer := null, null, null;
      Repr := {this};
    }

    method SetTrackGain(gainDb: real)
      requires Valid()
      modifies this
      ensures Valid() && Repr == old(Repr)
      ensures CurrentSettings() == old(CurrentSettings()).(trackGain := gainDb)
      ensures Formats() == old(Formats())
      ensures Buffers() == old(Buffers())
    {
      trackGain := gainDb;
    }

    method SetAlbumGain(gainDb: real)
      requires Valid()
      modifies this
      ensures Valid() && Repr == old(Repr)
      ensures CurrentSettings() == old(CurrentSettings()).(albumGain := gainDb)
      ensures Formats() == old(Formats())
      ensures Buffers() == old(Buffers())
    {
      albumGain := gainDb;
    }

    method SetMode(m: ReplayGainMode)
      requires Valid()
      modifies this
      ensures Valid() && Repr == old(Repr)
      ensures CurrentSettings() == old(CurrentSettings()).(mode := m)
      ensures Formats() == old(Formats())
      ensures Buffers() == old(Buffers())
    {
      mode := m;
    }

    method SetLimiterEnabled(enabled: bool)
      requires Valid()
      modifies this
      ensures Valid() && Repr == old(Repr)
      ensures CurrentSettings() == old(CurrentSettings()).(limiterEnabled := enabled)
      ensures Formats() == old(Formats())
      ensures Buffers() == old(Buffers())
    {
      limiterEnabled := enabled;
    }

    method IsActive() returns (r: bool)
      ensures r == Active(CurrentSettings())
    {
      r := mode != Disabled && (trackGain != 0.0 || albumGain != 0.0);
    }

    /**
     * Records the format and allocates two zeroed byte buffers of
     * 8 * rate * channels bytes and a scratch array of 2 * rate * channels
     * floats.
     */
    method Configure(format: AudioFormat) returns (outputFormat: AudioFormat)
      requires Valid() && ValidFormat(format)
      modifies this
      ensures Valid() && fresh(Repr - old(Repr))
      ensures outputFormat == format
      ensures inputAudioFormat == Some(format) && outputAudioFormat == Some(format)
      ensures CurrentSettings() == old(CurrentSettings())
      ensures inputBuffer != null && fresh(inputBuffer) && fresh(inputBuffer.data)
      ensures outputBuffer != null && fresh(outputBuffer) && fresh(outputBuffer.data)
      ensures buffer != null && fresh(buffer) && buffer.Length == ScratchSize(format)
      ensures inputBuffer.Capacity() == ByteCapacity(format) && inputBuffer.position == 0
      ensures inputBuffer.limit == ByteCapacity(format)
      ensures outputBuffer.Capacity() == ByteCapacity(format) && outputBuffer.position == 0
      ensures outputBuffer.limit == ByteCapacity(format)
    {
      inputAudioFormat := Some(format);
      outputAudioFormat := Some(format);
      inputBuffer, outputBuffer, buffer := AllocateBuffers(format);
      Repr := Repr + {inputBuffer, inputBuffer.data, outputBuffer, outputBuffer.data, buffer};
      outputFormat := outputAudioFormat.value;
    }

    /** Appends the host's bytes when they fit; without an input buffer nothing happens. */
    method QueueInput(src: ByteBuffer)
      requires Valid() && src.Valid() && src !in Repr && src.data !in Repr
      modifies Repr, src
      ensures Valid() && Repr == old(Repr)
      ensures CurrentSettings() == old(CurrentSettings())
      ensures Formats() == old(Formats())
      ensures Buffers() == old(Buffers())
      ensures outputBuffer != null ==> unchanged(outputBuffer, outputBuffer.data)
      ensures buffer != null ==> unchanged(buffer)
      ensures inputBuffer == null || old(src.Remaining()) > old(inputBuffer.Remaining()) ==>
        unchanged(src) && (inputBuffer != null ==> unchanged(inputBuffer, inputBuffer.data))
      ensures inputBuffer != null && old(src.Remaining()) <= old(inputBuffer.Remaining()) ==>
        inputBuffer.position == old(inputBuffer.position) + old(src.Remaining()) &&
        inputBuffer.limit == old(inputBuffer.limit) &&
        inputBuffer.data[..] == old(inputBuffer.data[..inputBuffer.position]) + old(src.Pending())
                                + old(inputBuffer.data[inputBuffer.position + src.Remaining()..]) &&
        src.position == src.limit == old(src.limit)
    {
      if inputBuffer == null {
        return;
      }
      Enqueue(inputBuffer, src);
    }

    /**
     * The state after one `getOutput` call that answered `r`: an empty
     * answer, or the output buffer flipped to hold the copied or rewritten
     * bytes with the input buffer cleared. Settings, format and buffers stay
     * in place.
     */
    twostate predicate Answered(pow10: real -> real, new r: ByteBuffer?)
      requires old(Valid())
      reads this, Repr, r
    {
      Valid() && Repr == old(Repr) &&
      CurrentSettings() == old(CurrentSettings()) &&
      Formats() == old(Formats()) &&
      Buffers() == old(Buffers()) &&
      (inputBuffer != null ==> unchanged(inputBuffer.data)) &&
      match old(Decision(pow10))
      case NoOutput => r != null && fresh(r) && Empty(r)
      case Overrun(decoded) =>
        r == null && inputBuffer != null && outputBuffer != null && buffer != null &&
        buffer[..] == decoded &&
        inputBuffer.position == old(inputBuffer.position) + 2 * (buffer.Length + 1) &&
        inputBuffer.limit == old(inputBuffer.limit) &&
        unchanged(outputBuffer, outputBuffer.data)
      case Copied(bytes) =>
        r == outputBuffer && r.Valid() && r.Pending() == bytes && InputCleared()
      case Rewritten(ss) =>
        r == outputBuffer && r.Valid() && r.Pending() == EncodeShorts(ss) && InputCleared() &&
        buffer != null && |ss| <= buffer.Length &&
        buffer[..|ss|] == ss && buffer[|ss|..] == old(buffer[|ss|..])
    }

    /**
     * `getOutput`. A null answer stands for the ArrayIndexOutOfBoundsException
     * the decode loop raises when the frame guard lets through more floats
     * than the scratch array holds.
     */
    method GetOutput(pow10: real -> real) returns (r: ByteBuffer?)
      requires Valid()
      modifies Repr
      ensures Answered(pow10, r)
      ensures old(Decision(pow10)).NoOutput? ==> unchanged(Repr)
      ensures old(Decision(pow10)).Copied? && buffer != null ==> unchanged(buffer)
    {
      if mode == Disabled {
        r := DrainDisabled(pow10);
      } else {
        r := DrainWithGain(pow10);
      }
    }

    /** DISABLED: copy the pending input, checking only the two buffers. */
    method DrainDisabled(pow10: real -> real) returns (r: ByteBuffer?)
      requires Valid() && mode == Disabled
      modifies Repr
      ensures Answered(pow10, r)
      ensures old(Decision(pow10)).NoOutput? ==> unchanged(Repr)
      ensures old(Decision(pow10)).Copied? && buffer != null ==> unchanged(buffer)
    {
      if inputBuffer == null {
        r := new ByteBuffer.Allocate(0);
        return;
      }
      var input := inputBuffer;
      var hasRemaining := input.HasRemaining();
      if !hasRemaining {
        r := new ByteBuffer.Allocate(0);
        return;
      }
      if outputBuffer == null {
        r := new ByteBuffer.Allocate(0);
        return;
      }
      PassThrough(input, outputBuffer);
      r := outputBuffer;
    }

    /** TRACK or ALBUM: the checks, then a copy at 0 dB or the gain path. */
    method DrainWithGain(pow10: real -> real) returns (r: ByteBuffer?)
      requires Valid() && mode != Disabled
      modifies Repr
      ensures Answered(pow10, r)
      ensures old(Decision(pow10)).NoOutput? ==> unchanged(Repr)
      ensures old(Decision(pow10)).Copied? && buffer != null ==> unchanged(buffer)
    {
      if inputBuffer == null || outputBuffer == null || buffer == null {
        r := new ByteBuffer.Allocate(0);
        return;
      }
      var input, output, samples := inputBuffer, outputBuffer, buffer;
      var hasRemaining := input.HasRemaining();
      if !hasRemaining {
        r := new ByteBuffer.Allocate(0);
        return;
      }
      if inputAudioFormat.None? {
        r := new ByteBuffer.Allocate(0);
        return;
      }
      var channelCount := inputAudioFormat.value.channelCount;
      var sampleCount := FrameCount(input.Remaining(), channelCount);
      if sampleCount > samples.Length {
        r := new ByteBuffer.Allocate(0);
        return;
      }
      r := DrainChecked(pow10, sampleCount);
    }

    /**
     * Past every check: a copy when the selected gain is 0 dB, otherwise the
     * gain path, whose decode loop overruns when frames times channels
     * exceed the scratch length.
     */
    method DrainChecked(pow10: real -> real, sampleCount: nat) returns (r: ByteBuffer?)
      requires Valid() && mode != Disabled
      requires inputBuffer != null && outputBuffer != null && buffer != null
      requires inputBuffer.Remaining() > 0 && inputAudioFormat.Some?
      requires sampleCount == FrameCount(inputBuffer.Remaining(), inputAudioFormat.value.channelCount)
      requires sampleCount <= buffer.Length
      modifies Repr
      ensures Answered(pow10, r)
      ensures old(Decision(pow10)).Copied? ==> unchanged(buffer)
    {
      var input, output, samples := inputBuffer, outputBuffer, buffer;
      var channelCount := inputAudioFormat.value.channelCount;
      var gainDb := SelectedGain(CurrentSettings());
      if gainDb == 0.0 {
        PassThrough(input, output);
        r := output;
        return;
      }
      var linearGain := pow10(gainDb / 20.0);
      var n := Interleaved(sampleCount, channelCount);
      if n > samples.Length {
        OverrunWindow(input.Remaining(), channelCount, samples.Length);
        DecodeOverrun(input, samples);
        r := null;
        return;
      }
      assert Decision(pow10) == Rewritten(Amplified(DecodeShorts(input.Pending(), n), linearGain, limiterEnabled));
      ApplyGain(input, output, samples, n, linearGain, limiterEnabled);
      r := output;
    }

    /** Clears both buffers; format, gains and mode stay. */
    method Flush()
      requires Valid()
      modifies Repr
      ensures Valid() && Repr == old(Repr)
      ensures CurrentSettings() == old(CurrentSettings())
      ensures Formats() == old(Formats())
      ensures Buffers() == old(Buffers())
      ensures inputBuffer != null ==> inputBuffer.position == 0 && inputBuffer.limit == inputBuffer.Capacity()
      ensures outputBuffer != null ==> outputBuffer.position == 0 && outputBuffer.limit == outputBuffer.Capacity()
      ensures inputBuffer != null ==> unchanged(inputBuffer.data)
      ensures outputBuffer != null ==> unchanged(outputBuffer.data)
      ensures buffer != null ==> unchanged(buffer)
    {
      if inputBuffer != null {
        inputBuffer.Clear();
      }
      if outputBuffer != null {
        outputBuffer.Clear();
      }
    }

    /** Clears both buffers and forgets the format; gains and mode stay. */
    method Reset()
      requires Valid()
      modifies Repr
      ensures Valid() && Repr == old(Repr)
      ensures CurrentSettings() == old(CurrentSettings())
      ensures inputAudioFormat == None && outputAudioFormat == None
      ensures Buffers() == old(Buffers())
      ensures inputBuffer != null ==> inputBuffer.position == 0 && inputBuffer.limit == inputBuffer.Capacity()
      ensures outputBuffer != null ==> outputBuffer.position == 0 && outputBuffer.limit == outputBuffer.Capacity()
      ensures inputBuffer != null ==> unchanged(inputBuffer.data)
      ensures outputBuffer != null ==> unchanged(outputBuffer.data)
      ensures buffer != null ==> unchanged(buffer)
    {
      Flush();
      inputAudioFormat := None;
      outputAudioFormat := None;
    }
  }
}
